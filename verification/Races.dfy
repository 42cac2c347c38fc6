/** Runs in which things go wrong: a countermeasure removed, or removed and installed again, while its
    actions execute. */
module Races {
  import opened Texts
  import opened Events
  import opened Topics
  import opened Specs
  import opened Suppression
  import opened ManagerProtocol
  import opened ManagerRuns
  import L = Lockstep
  import B = BusProtocol
  import WorkQueues

  // ---------- a removal during a run ----------

  /** The goroutine on `c` is running the actions of name `n`. */
  ghost predicate ActsFor<C>(s: Manager<C>, c: C, n: NamespacedName) {
    !s.crashed && HasLoop(s, c) && s.loops[c].loop.Acting? && s.loops[c].key.name == n
  }

  lemma RemovalThenEndPanics<C>(s: Manager<C>, c: C, n: NamespacedName, bus: B.Bus<C>) returns (steps: seq<Step<C>>)
    requires ActsFor(s, c, n) && Unhindered(s, n) && Unsubscribes(s, n, bus) && c in bus.chans
    ensures Run(s, steps) && After(s, steps).crashed
  {
    steps := RemovalRuns(s, n, bus);
    var r := AfterRemoval(s, n, bus);
    steps := LeadsOn(s, steps, r, OnLoop(c, EndRun));
    assert Next(r, OnLoop(c, EndRun)).crashed;
  }

  /** The race is real: whenever a run is in progress and nothing holds the locks, removing the
      resource lets Remove finish first, and the end of the run then panics. */
  lemma RemoveDuringRunPanics<C>(s: Manager<C>, c: C, n: NamespacedName) returns (steps: seq<Step<C>>)
    requires L.Inv(s) && ActsFor(s, c, n) && Unhindered(s, n) && n in s.consumers && !B.ReadLocked(s.bus)
    ensures Run(s, steps) && After(s, steps).crashed
  {
    var h := s.consumers[n];
    assert L.ConsumerOK(s, n);
    GoodRegistered(s.bus, h.topic, h.chan);
    var bus := B.UnsubscribeStep(s.bus, h.topic, h.chan);
    GoodUnsubscribe(s.bus, h.topic, h.chan);
    UnsubscribeFrame(s.bus, h.topic, h.chan, bus);
    assert L.LoopOK(s, c);
    steps := RemovalThenEndPanics(s, c, n, bus);
  }

  // ---------- an installation during a run ----------

  /** Installing the same key again while an older goroutine of it still acts: both goroutines serve the
      key, the shared entry is not marked running although a run is in progress, and the end of the
      older run finds the new entry and does not panic. */
  lemma ReinstallOverlaps<C>(s: Manager<C>, cm: CounterMeasure, c: C, d: C, bus: B.Bus<C>, e: EntryId)
      returns (steps: seq<Step<C>>)
    requires ActsFor(s, c, cm.key.name) && s.loops[c].key == cm.key && CanInstall(s, cm, d, bus, e) && c != d && c in bus.chans
    ensures var r := AfterInstall(s, cm, d, bus, e);
            && Leads(s, steps, r)
            && r.loops[c].loop.Acting? && d in r.loops && r.loops[d].key == r.loops[c].key && r.loops[d].loop.Waiting?
            && cm.key in r.measures && r.measures[cm.key] in r.entries && !r.entries[r.measures[cm.key]].state.running
            && Enabled(r, OnLoop(c, EndRun)) && !Next(r, OnLoop(c, EndRun)).crashed
  {
    steps := InstallRuns(s, cm, cm, d, bus, e);
  }

  // ---------- a whole run that ends in a panic ----------

  ghost predicate AllInternal<C>(steps: seq<B.Step<C>>) {
    forall i :: 0 <= i < |steps| ==> Internal(steps[i])
  }

  lemma BusOn<C>(b: B.Bus<C>, steps: seq<B.Step<C>>, r: B.Bus<C>, a: B.Step<C>) returns (more: seq<B.Step<C>>)
    requires B.Run(b, steps) && B.After(b, steps) == r && B.Enabled(r, a) && AllInternal(steps) && Internal(a)
    ensures B.Run(b, more) && B.After(b, more) == B.Next(r, a) && AllInternal(more)
  {
    more := steps + [a];
    B.RunOne(r, a);
    B.RunAppend(b, steps, [a]);
  }

  /** What the bus does by itself is a run of the manager. */
  lemma {:induction false} BusRuns<C>(s: Manager<C>, steps: seq<B.Step<C>>) returns (all: seq<Step<C>>)
    requires !s.crashed && B.Run(s.bus, steps) && AllInternal(steps)
    ensures Leads(s, all, s.(bus := B.After(s.bus, steps)))
    decreases |steps|
  {
    if steps == [] {
      all := [];
    } else {
      var bus := B.Next(s.bus, steps[0]);
      BusMovesBy(s.bus, steps[0]);
      var r := s.(bus := bus);
      assert AllInternal(steps[1..]);
      var rest := BusRuns(r, steps[1..]);
      RunOne(s, OnBus(steps[0], bus));
      RunAppend(s, [OnBus(steps[0], bus)], rest);
      all := [OnBus(steps[0], bus)] + rest;
    }
  }

  lemma {:induction false} NoChannels<C>(subs: map<Text, seq<C>>, topics: seq<Text>)
    requires forall t :: t in topics ==> t !in subs
    ensures Channels(subs, topics) == []
  {
    if topics != [] { NoChannels(subs, topics[1..]); }
  }

  lemma OnlyMatch<C>(topic: Text, c: C)
    ensures SubscriberMatch(map[topic := [c]], topic).0 == [c]
  {
    var subs := map[topic := [c]];
    var all := Ancestors(topic);
    MatchExact(subs, topic);
    AncestorsExact(topic);
    assert topic[..|topic|] == topic;
    assert all[0] == topic;
    forall t | t in all[1..] ensures t !in subs {
      var i :| 0 <= i < |all[1..]| && all[1..][i] == t;
      assert all[i + 1] == t;
    }
    NoChannels(subs, all[1..]);
  }

  /** A message is published and taken up by the only worker. */
  lemma BusGets<C>(b: B.Bus<C>, m: B.Message) returns (steps: seq<B.Step<C>>, r: B.Bus<C>)
    requires b.wq == WorkQueues.EmptyQueue() && b.workers == map[0 := B.Idle] && b.attempts == [] && !b.panicked
    ensures B.Run(b, steps) && B.After(b, steps) == r && AllInternal(steps)
    ensures !r.panicked && r.workers == map[0 := B.Got(0)] && r.attempts == [B.Attempt(0, m, map[], [], 0, B.Active)]
    ensures r.subscribers == b.subscribers && r.chans == b.chans && r.phase == b.phase
  {
    var b2 := B.Next(b, B.Publish(m));
    steps := BusOn(b, [], b, B.Publish(m));
    assert b2.wq.queue == [m];
    steps := BusOn(b, steps, b2, B.Get(0));
    r := B.Next(b2, B.Get(0));
  }

  /** The worker finds the one subscriber. */
  lemma BusMatches<C>(b: B.Bus<C>, m: B.Message, c: C) returns (r: B.Bus<C>)
    requires !b.panicked && b.workers == map[0 := B.Got(0)] && b.attempts == [B.Attempt(0, m, map[], [], 0, B.Active)]
    requires b.subscribers == map[m.topic := [c]] && c in b.chans
    ensures B.Enabled(b, B.Match(0)) && r == B.Next(b, B.Match(0))
    ensures !r.panicked && B.AboutToSend(r, 0) && r.workers.Keys == {0}
    ensures r.subscribers == b.subscribers && r.chans == b.chans && r.phase == b.phase
    ensures B.AttemptOf(r, 0).targets == [c] && B.AttemptOf(r, 0).reached == 0 && B.AttemptOf(r, 0).msg == m
  {
    r := B.Next(b, B.Match(0));
    OnlyMatch(m.topic, c);
  }

  /** The worker delivers to its only target. */
  lemma BusDelivers<C>(b: B.Bus<C>, m: B.Message, c: C) returns (steps: seq<B.Step<C>>, r: B.Bus<C>)
    requires !b.panicked && B.AboutToSend(b, 0) && b.workers.Keys == {0} && c in b.chans && b.chans[c].buffer == [] && !b.chans[c].closed
    requires B.AttemptOf(b, 0).targets == [c] && B.AttemptOf(b, 0).reached == 0 && B.AttemptOf(b, 0).msg == m
    ensures B.Run(b, steps) && B.After(b, steps) == r && AllInternal(steps)
    ensures !r.panicked && c in r.chans && r.chans[c].buffer == [m.event] && !r.chans[c].closed
    ensures r.phase == b.phase && r.subscribers == b.subscribers && r.chans.Keys == b.chans.Keys
    ensures forall w :: w in r.workers ==> r.workers[w].Idle?
  {
    var b5 := B.Next(b, B.Send(0));
    steps := BusOn(b, [], b, B.Send(0));
    steps := BusOn(b, steps, b5, B.Finish(0));
    var b6 := B.Next(b5, B.Finish(0));
    steps := BusOn(b, steps, b6, B.Done(0));
    r := B.Next(b6, B.Done(0));
  }

  /** From its start with one subscriber, the bus can get a message to it. */
  lemma BusCarries<C>(m: B.Message, c: C) returns (steps: seq<B.Step<C>>, r: B.Bus<C>)
    ensures var b := B.SubscribeStep(B.NewBus<C>(1), m.topic, c); B.Run(b, steps) && B.After(b, steps) == r && AllInternal(steps)
    ensures !r.panicked && c in r.chans && r.chans[c].buffer == [m.event] && !r.chans[c].closed && !B.ReadLocked(r)
    ensures r.subscribers == map[m.topic := [c]] && r.chans.Keys == {c}
  {
    var b := B.SubscribeStep(B.NewBus<C>(1), m.topic, c);
    assert B.NewBus<C>(1).workers == map[0 := B.Idle];
    assert B.Slice(B.NewBus<C>(1).subscribers, m.topic) + [c] == [c];
    assert b.subscribers == map[m.topic := [c]];
    var first, b1 := BusGets(b, m);
    var b2 := BusMatches(b1, m, c);
    first := BusOn(b, first, b1, B.Match(0));
    var second;
    second, r := BusDelivers(b2, m, c);
    B.RunAppend(b, first, second);
    steps := first + second;
  }

  /** The countermeasure is installed, the bus carries an event to its goroutine, and its actions run. */
  lemma RunUnderWay<C>(cm: CounterMeasure, event: Event, c: C) returns (steps: seq<Step<C>>, r: Manager<C>)
    ensures Leads(NewManager<C>(1), steps, r)
    ensures ActsFor(r, c, cm.key.name) && Unhindered(r, cm.key.name) && !B.ReadLocked(r.bus) && !r.bus.panicked
    ensures cm.key.name in r.consumers && r.consumers[cm.key.name] == Handle(Topic(cm), c)
    ensures r.loops[c].key == cm.key && r.entries.Keys == {0} && r.bus.chans.Keys == {c} && !r.bus.chans[c].closed
  {
    var s := NewManager<C>(1);
    var bus := B.SubscribeStep(s.bus, Topic(cm), c);
    BusMovesBy(s.bus, B.Subscribe(Topic(cm), c));
    var first := InstallRuns(s, cm, cm, c, bus, 0);
    var s1 := AfterInstall(s, cm, c, bus, 0);
    var carried, bus2 := BusCarries<C>(B.Message(Topic(cm), event), c);
    var second := BusRuns(s1, carried);
    RunAppend(s, first, second);
    var s2 := s1.(bus := bus2);
    var third;
    third, r := EventRuns(s2, c, cm);
    RunAppend(s, first + second, third);
    steps := first + second + third;
  }

  /** A goroutine with a fresh entry and an event in its channel gets to running its actions. */
  lemma EventRuns<C>(s: Manager<C>, c: C, cm: CounterMeasure) returns (steps: seq<Step<C>>, r: Manager<C>)
    requires !s.crashed && s.clock == 0 && !s.bus.panicked && !B.ReadLocked(s.bus)
    requires HasLoop(s, c) && s.loops[c].key == cm.key && s.loops[c].loop.Waiting? && s.bus.chans[c].buffer != []
    requires Looks(s, c, 0) && s.entries[0].state == NewEntry(Window(cm.spec))
    ensures Leads(s, steps, r)
    ensures ActsFor(r, c, cm.key.name) && r.tasks == s.tasks && r.mux == s.mux && r.consumers == s.consumers
    ensures !B.ReadLocked(r.bus) && !r.bus.panicked
    ensures r.loops[c].key == cm.key && r.entries.Keys == s.entries.Keys && r.bus.chans.Keys == s.bus.chans.Keys
    ensures r.bus.chans[c].closed == s.bus.chans[c].closed
  {
    var bus := B.ReceiveStep(s.bus, c);
    BusMovesBy(s.bus, B.Receive(c));
    var e := s.bus.chans[c].buffer[0];
    var first := LookRuns(s, c, bus, 0, 0);
    var m := After(s, first);
    assert !IsSuppressed(m.entries[0].state, EventKey(e), 0);
    var second := ClearRuns(m, c, 0, 0);
    RunAppend(s, first, second);
    steps := first + second;
    r := After(s, steps);
  }

  /** For every countermeasure and every event: from the very start there is a
      run, with one worker, in which the countermeasure is installed, the event is published and
      delivered, its actions run, the resource is removed, and the process panics. */
  lemma PanicFromStart<C>(cm: CounterMeasure, event: Event, c: C) returns (steps: seq<Step<C>>)
    ensures Run(NewManager<C>(1), steps) && After(NewManager<C>(1), steps).crashed
  {
    var first, r := RunUnderWay(cm, event, c);
    var bus := B.UnsubscribeStep(r.bus, Topic(cm), c);
    BusMovesBy(r.bus, B.Unsubscribe(Topic(cm), c));
    var second := RemovalThenEndPanics(r, c, cm.key.name, bus);
    RunAppend(NewManager<C>(1), first, second);
    steps := first + second;
  }

  /** For every countermeasure and every event: from the very start there is a run in which the resource is
      removed and created again, at the same generation, while its actions run, and which ends with two
      goroutines for the key, the older acting, and an entry that is not marked running. */
  lemma OverlapFromStart<C>(cm: CounterMeasure, event: Event, c: C, d: C) returns (steps: seq<Step<C>>, r: Manager<C>)
    requires c != d
    ensures Leads(NewManager<C>(1), steps, r)
    ensures c in r.loops && r.loops[c].loop.Acting? && r.loops[c].key == cm.key
    ensures d in r.loops && r.loops[d].loop.Waiting? && r.loops[d].key == cm.key
    ensures cm.key in r.measures && r.measures[cm.key] in r.entries && !r.entries[r.measures[cm.key]].state.running
  {
    var n := cm.key.name;
    var first, s := RunUnderWay(cm, event, c);
    var bus := B.UnsubscribeStep(s.bus, Topic(cm), c);
    BusMovesBy(s.bus, B.Unsubscribe(Topic(cm), c));
    var second := RemovalRuns(s, n, bus);
    RunAppend(NewManager<C>(1), first, second);
    var removed := AfterRemoval(s, n, bus);
    BusMovesBy(bus, B.Subscribe(Topic(cm), d));
    var again := B.SubscribeStep(bus, Topic(cm), d);
    var third := ReinstallOverlaps(removed, cm, c, d, again, 1);
    RunAppend(NewManager<C>(1), first + second, third);
    steps := first + second + third;
    r := AfterInstall(removed, cm, d, again, 1);
  }
}
