/** End to end through the manager: a countermeasure handles only events that were published under its
    event name or below it. */
module Routing {
  import opened Texts
  import opened Events
  import opened Topics
  import opened Specs
  import opened Suppression
  import opened ManagerProtocol
  import opened BusOrigins
  import K = ConsumerLoop
  import L = Lockstep
  import B = BusProtocol
  import opened Sealing

  /** Event `e` was published under `topic` or below it. */
  ghost predicate CameUnder<C>(b: B.Bus<C>, topic: Text, e: Event) {
    exists m: B.Message :: Published(b, m) && m.event == e && IsAncestor(topic, m.topic)
  }

  /** The bus remembers: channels keep their topics, and publications are not taken back. */
  ghost predicate Remembers<C>(b: B.Bus<C>, r: B.Bus<C>) {
    && (forall c :: c in b.chans ==> c in r.chans && r.chans[c].topic == b.chans[c].topic)
    && b.published <= r.published
  }

  lemma BusRemembers<C>(b: B.Bus<C>, a: B.Step<C>, r: B.Bus<C>)
    requires BusMoves(b, a, r)
    ensures Remembers(b, r)
  {
    assert Unseal(0);
    NextPublished(b, a);
    forall c | c in b.chans ensures c in r.chans && r.chans[c].topic == b.chans[c].topic {
      NextChans(b, a, c);
      NextSent(b, a, c);
    }
  }

  lemma CameUnderLater<C>(b: B.Bus<C>, r: B.Bus<C>, topic: Text, e: Event)
    requires Remembers(b, r) && CameUnder(b, topic, e)
    ensures CameUnder(r, topic, e)
  {
  }

  /** What a channel hands out came under its topic. */
  lemma BufferedCameUnder<C>(b: B.Bus<C>, c: C)
    requires Good(b) && c in b.chans && b.chans[c].buffer != []
    ensures CameUnder(b, b.chans[c].topic, b.chans[c].buffer[0])
  {
    assert Unseal(0);
    BufferedWasSent(b, c);
  }

  lemma SubscribedTopic<C>(b: B.Bus<C>, topic: Text, c: C, r: B.Bus<C>)
    requires BusMoves(b, B.Subscribe(topic, c), r)
    ensures c in r.chans && r.chans[c].topic == topic
  {
    assert Unseal(0);
  }

  // ---------- the invariant ----------

  /** The goroutine is handling event `e`. */
  predicate Handles(l: Loop, e: Event) {
    (l.Dequeued? || l.Checking? || l.Cleared? || l.Acting?) && l.event == e
  }

  /** The channel of the goroutine was subscribed to its topic, and what it handles came under it. */
  ghost predicate LoopRouted<C>(b: B.Bus<C>, c: C, l: Consumer) {
    && c in b.chans && b.chans[c].topic == l.topic
    && forall e :: Handles(l.loop, e) ==> CameUnder(b, l.topic, e)
  }

  ghost predicate TaskRouted<C>(b: B.Bus<C>, t: Task<C>) {
    t.Subscribed? || t.Locked? || t.Cleaned? ==> t.chan in b.chans && b.chans[t.chan].topic == Topic(t.cm)
  }

  ghost predicate Routed<C>(s: Manager<C>) {
    && (forall n :: n in s.tasks ==> TaskRouted(s.bus, s.tasks[n]))
    && (forall c :: c in s.loops ==> LoopRouted(s.bus, c, s.loops[c]))
    && (forall id :: id in s.entries ==>
          s.entries[id].chan in s.loops && s.loops[s.entries[id].chan].topic == Topic(s.entries[id].cm))
  }

  /** The bus moves and the rest stays. */
  lemma BusKeepsRouted<C>(s: Manager<C>, bus: B.Bus<C>)
    requires Routed(s) && Remembers(s.bus, bus)
    ensures Routed(s.(bus := bus))
  {
  }

  /** Goroutine `c` moves on with an event it had, or without one. */
  lemma MoveKeepsRouted<C>(s: Manager<C>, r: Manager<C>, c: C)
    requires Routed(s) && L.Moved(s, r, c)
    requires forall e :: Handles(r.loops[c].loop, e) ==> Handles(s.loops[c].loop, e)
    ensures Routed(r)
  {
  }

  lemma LookupKeepsRouted<C>(s: Manager<C>, c: C, now: int)
    requires Routed(s) && CanLookup(s, c)
    requires s.loops[c].key in s.measures ==> s.entries[s.measures[s.loops[c].key]].cm.key == s.loops[c].key
    ensures Routed(LookupStep(s, c, now))
  {
    var l := s.loops[c];
    var next := if l.key in s.measures then Checking(l.loop.event, l.loop.key, s.measures[l.key]) else Waiting;
    assert LookupStep(s, c, now).loops == Move(s, c, next).loops;
    L.LookupMoves(s, c, now);
    MoveKeepsRouted(s, LookupStep(s, c, now), c);
  }

  lemma CheckHandles<C>(s: Manager<C>, c: C, now: int, built: bool)
    requires CanCheck(s, c)
    ensures c in CheckStep(s, c, now, built).loops
    ensures forall e :: Handles(CheckStep(s, c, now, built).loops[c].loop, e) ==> Handles(s.loops[c].loop, e)
  {
    var l := s.loops[c].loop;
    var next := if !IsSuppressed(s.entries[l.entry].state, l.key, now) && built then Cleared(l.event, l.key) else Waiting;
    assert CheckStep(s, c, now, built).loops == Move(s, c, next).loops;
  }

  lemma CheckKeepsRouted<C>(s: Manager<C>, c: C, now: int, built: bool)
    requires Routed(s) && CanCheck(s, c)
    ensures Routed(CheckStep(s, c, now, built))
  {
    L.CheckMoves(s, c, now, built);
    CheckHandles(s, c, now, built);
    MoveKeepsRouted(s, CheckStep(s, c, now, built), c);
  }

  lemma StartKeepsRouted<C>(s: Manager<C>, c: C, now: int)
    requires Routed(s) && CanStart(s, c)
    ensures Routed(StartStep(s, c, now))
  {
    L.StartMoves(s, c, now);
    MoveKeepsRouted(s, StartStep(s, c, now), c);
  }

  lemma EndKeepsRouted<C>(s: Manager<C>, c: C)
    requires Routed(s) && CanEnd(s, c)
    ensures Routed(EndStep(s, c))
  {
    L.EndMoves(s, c);
    MoveKeepsRouted(s, EndStep(s, c), c);
  }

  lemma ReceiveKeepsRouted<C>(s: Manager<C>, c: C, key: Text, bus: B.Bus<C>)
    requires Routed(s) && Good(s.bus) && CanReceive(s, c) && BusMoves(s.bus, B.Receive(c), bus)
    ensures Routed(ReceiveWith(s, c, key, bus))
  {
    BusRemembers(s.bus, B.Receive(c), bus);
    BusKeepsRouted(s, bus);
    BufferedCameUnder(s.bus, c);
    var e := s.bus.chans[c].buffer[0];
    assert LoopRouted(s.bus, c, s.loops[c]);
    CameUnderLater(s.bus, bus, s.loops[c].topic, e);
    var r := ReceiveWith(s, c, key, bus);
    forall d | d in r.loops ensures LoopRouted(bus, d, r.loops[d]) { assert LoopRouted(bus, d, s.loops[d]); }
  }

  lemma LoopKeepsRouted<C>(s: Manager<C>, c: C, a: LoopMove<C>)
    requires L.Inv(s) && Routed(s) && LoopEnabled(s, c, a)
    ensures Routed(LoopNext(s, c, a))
  {
    match a {
      case Receive(key, bus) => ReceiveKeepsRouted(s, c, key, bus);
      case Leave => MoveKeepsRouted(s, Move(s, c, Ended), c);
      case Lookup(now) =>
        if s.loops[c].key in s.measures { assert L.KeyOK(s, s.loops[c].key); }
        LookupKeepsRouted(s, c, now);
      case Check(now, built) => CheckKeepsRouted(s, c, now, built);
      case Break(_) => assert Routed(s.(crashed := true));
      case StartRun(now) => StartKeepsRouted(s, c, now);
      case EndRun => EndKeepsRouted(s, c);
    }
  }

  lemma SubscribeKeepsRouted<C>(s: Manager<C>, n: NamespacedName, c: C, bus: B.Bus<C>)
    requires Routed(s) && n in s.tasks && s.tasks[n].Absent?
    requires BusMoves(s.bus, B.Subscribe(Topic(s.tasks[n].cm), c), bus)
    ensures Routed(AddSubscribeWith(s, n, c, bus))
  {
    BusRemembers(s.bus, B.Subscribe(Topic(s.tasks[n].cm), c), bus);
    BusKeepsRouted(s, bus);
    SubscribedTopic(s.bus, Topic(s.tasks[n].cm), c, bus);
  }

  lemma InsertKeepsRouted<C>(s: Manager<C>, n: NamespacedName, e: EntryId)
    requires Routed(s) && n in s.tasks && s.tasks[n].Cleaned? && s.tasks[n].chan !in s.loops
    ensures Routed(AddInsertStep(s, n, e))
  {
  }

  lemma UnsubscribeKeepsRouted<C>(s: Manager<C>, n: NamespacedName, bus: B.Bus<C>)
    requires Routed(s) && TaskEnabled(s, n, RemoveUnsubscribe(bus))
    ensures Routed(TaskNext(s, n, RemoveUnsubscribe(bus)))
  {
    if n in s.consumers { BusRemembers(s.bus, B.Unsubscribe(s.consumers[n].topic, s.consumers[n].chan), bus); }
    BusKeepsRouted(s, bus);
  }

  /** The other moves of a reconciliation touch neither the bus nor the goroutines. */
  lemma OtherTaskKeepsRouted<C>(s: Manager<C>, n: NamespacedName, a: TaskMove<C>)
    requires Routed(s) && TaskEnabled(s, n, a) && !a.AddSubscribe? && !a.RemoveUnsubscribe? && !a.AddInsert?
    ensures Routed(TaskNext(s, n, a))
  {
    if n in s.tasks { assert TaskRouted(s.bus, s.tasks[n]); }
  }

  lemma NextKeepsRouted<C>(s: Manager<C>, a: Step<C>)
    requires L.Inv(s) && Routed(s) && Enabled(s, a)
    ensures Routed(Next(s, a))
  {
    match a {
      case OnBus(b, bus) =>
        BusRemembers(s.bus, b, bus);
        BusKeepsRouted(s, bus);
      case OnTask(n, t) =>
        if t.AddSubscribe? {
          SubscribeKeepsRouted(s, n, t.chan, t.bus);
        } else if t.RemoveUnsubscribe? {
          UnsubscribeKeepsRouted(s, n, t.bus);
        } else if t.AddInsert? {
          assert L.TaskOK(s, n);
          InsertKeepsRouted(s, n, t.entry);
        } else {
          OtherTaskKeepsRouted(s, n, t);
        }
      case OnLoop(c, l) => LoopKeepsRouted(s, c, l);
    }
  }

  lemma {:induction false} RunKeepsRouted<C>(s: Manager<C>, steps: seq<Step<C>>)
    requires L.Inv(s) && Routed(s) && Run(s, steps)
    ensures Routed(After(s, steps))
    decreases |steps|
  {
    if steps != [] {
      L.NextKeepsInv(s, steps[0]);
      NextKeepsRouted(s, steps[0]);
      RunKeepsRouted(Next(s, steps[0]), steps[1..]);
    }
  }

  /** In every run, whatever event a goroutine is handling was published under the topic the goroutine was
      started for, or below it. */
  lemma HandlesOnlyItsTopic<C>(workers: nat, steps: seq<Step<C>>, s: Manager<C>, c: C, e: Event)
    requires Run(NewManager<C>(workers), steps) && s == After(NewManager<C>(workers), steps)
    requires c in s.loops && Handles(s.loops[c].loop, e)
    ensures CameUnder(s.bus, s.loops[c].topic, e)
  {
    L.InitInv<C>(workers);
    RunKeepsRouted(NewManager<C>(workers), steps);
    assert LoopRouted(s.bus, c, s.loops[c]);
  }

  lemma RoutedToEntry<C>(s: Manager<C>, c: C, e: Event, id: EntryId)
    requires K.Orderly(s) && Routed(s) && c in s.loops && Handles(s.loops[c].loop, e)
    requires (s.loops[c].loop.Checking? && s.loops[c].loop.entry == id)
             || (!s.loops[c].loop.Dequeued? && s.loops[c].key in s.measures && s.measures[s.loops[c].key] == id)
    ensures id in s.entries && CameUnder(s.bus, s.entries[id].cm.spec.onEvent.eventName, e)
  {
    assert LoopRouted(s.bus, c, s.loops[c]);
    assert K.Mine(s, c);
  }

  /** In every orderly run, an event that is checked against a countermeasure, or whose actions are about
      to run or are running, was published under the event name of that countermeasure, or below it. */
  lemma RunsOnlyItsEvents<C>(workers: nat, steps: seq<Step<C>>, s: Manager<C>, c: C, e: Event, id: EntryId)
    requires K.OrderlyRun(NewManager<C>(workers), steps) && Run(NewManager<C>(workers), steps)
    requires s == After(NewManager<C>(workers), steps) && c in s.loops && Handles(s.loops[c].loop, e)
    requires (s.loops[c].loop.Checking? && s.loops[c].loop.entry == id)
             || (!s.loops[c].loop.Dequeued? && s.loops[c].key in s.measures && s.measures[s.loops[c].key] == id)
    ensures id in s.entries && CameUnder(s.bus, s.entries[id].cm.spec.onEvent.eventName, e)
  {
    K.EveryOrderlyRun<C>(workers, steps);
    L.InitInv<C>(workers);
    RunKeepsRouted(NewManager<C>(workers), steps);
    RoutedToEntry(s, c, e, id);
  }

  lemma RegisteredUnderTopic<C>(b: B.Bus<C>, topic: Text, c: C)
    requires Good(b) && Registered(b, topic, c)
    ensures c in b.chans && b.chans[c].topic == topic
  {
    assert Unseal(0);
    assert b.subscribers[topic][B.IndexOf(b.subscribers[topic], c)] == c;
  }

  /** The installed countermeasure of a name, when the manager's lock is free. */
  lemma InstalledMatches<C>(s: Manager<C>, n: NamespacedName, topic: Text, cm: CounterMeasure)
    requires L.Inv(s) && Routed(s) && s.mux.None? && n in s.consumers
    requires s.consumers[n].chan in s.loops && s.loops[s.consumers[n].chan].key in s.measures
    requires s.measures[s.loops[s.consumers[n].chan].key] in s.entries
    requires cm == s.entries[s.measures[s.loops[s.consumers[n].chan].key]].cm && IsAncestor(cm.spec.onEvent.eventName, topic)
    ensures cm.key.name == n && s.consumers[n].chan in SubscriberMatch(s.bus.subscribers, topic).0
  {
    var h := s.consumers[n];
    assert L.ConsumerOK(s, n);
    assert L.KeyOK(s, s.loops[h.chan].key);
    assert LoopRouted(s.bus, h.chan, s.loops[h.chan]);
    RegisteredUnderTopic(s.bus, h.topic, h.chan);
    var slice := s.bus.subscribers[h.topic];
    assert slice[B.IndexOf(slice, h.chan)] == h.chan;
    MatchComplete(s.bus.subscribers, topic);
  }

  /** In every run, whenever the manager's lock is free, every installed countermeasure has its channel in
      the match of every topic that is its event name or lies below it. */
  lemma InstalledIsReached<C>(workers: nat, steps: seq<Step<C>>, s: Manager<C>, n: NamespacedName)
    requires Run(NewManager<C>(workers), steps) && s == After(NewManager<C>(workers), steps) && s.mux.None? && n in s.consumers
    ensures exists k :: k in s.measures && k.name == n && s.measures[k] in s.entries
                        && forall topic :: IsAncestor(s.entries[s.measures[k]].cm.spec.onEvent.eventName, topic) ==>
                             s.consumers[n].chan in SubscriberMatch(s.bus.subscribers, topic).0
  {
    L.EveryRun<C>(workers, steps);
    L.InitInv<C>(workers);
    RunKeepsRouted(NewManager<C>(workers), steps);
    var c := s.consumers[n].chan;
    assert L.ConsumerOK(s, n);
    var k := s.loops[c].key;
    var cm := s.entries[s.measures[k]].cm;
    forall topic | IsAncestor(cm.spec.onEvent.eventName, topic) ensures c in SubscriberMatch(s.bus.subscribers, topic).0 {
      InstalledMatches(s, n, topic, cm);
    }
    assert k.name == n;
  }
}
