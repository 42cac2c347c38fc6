/** What the steps of the manager protocol do to one goroutine and to its channel. */
module Goroutines {
  import opened Topics
  import opened Specs
  import opened ManagerProtocol
  import L = Lockstep
  import B = BusProtocol

  // ---------- a goroutine moves only by itself ----------

  /** Only goroutine `d` moves, and the state table keeps its keys. */
  ghost predicate OnlyMoves<C>(s: Manager<C>, r: Manager<C>, d: C) {
    && d in s.loops && d in r.loops && r.measures == s.measures
    && r.loops == s.loops[d := s.loops[d].(loop := r.loops[d].loop)]
  }

  lemma LookupOnlyMoves<C>(s: Manager<C>, d: C, now: int)
    requires CanLookup(s, d)
    ensures OnlyMoves(s, LookupStep(s, d, now), d)
  {
  }

  lemma CheckOnlyMoves<C>(s: Manager<C>, d: C, now: int, built: bool)
    requires CanCheck(s, d)
    ensures OnlyMoves(s, CheckStep(s, d, now, built), d)
  {
    L.CheckMoves(s, d, now, built);
  }

  lemma StartOnlyMoves<C>(s: Manager<C>, d: C, now: int)
    requires CanStart(s, d)
    ensures OnlyMoves(s, StartStep(s, d, now), d)
  {
    if s.loops[d].key !in s.measures { assert s.loops == s.loops[d := s.loops[d].(loop := s.loops[d].loop)]; }
  }

  lemma EndOnlyMoves<C>(s: Manager<C>, d: C)
    requires CanEnd(s, d)
    ensures OnlyMoves(s, EndStep(s, d), d)
  {
    if s.loops[d].key !in s.measures { assert s.loops == s.loops[d := s.loops[d].(loop := s.loops[d].loop)]; }
  }

  lemma LoopOnlyMoves<C>(s: Manager<C>, d: C, a: LoopMove<C>)
    requires LoopEnabled(s, d, a)
    ensures OnlyMoves(s, LoopNext(s, d, a), d)
  {
    match a {
      case Receive(_, _) =>
      case Leave =>
      case Lookup(now) => LookupOnlyMoves(s, d, now);
      case Check(now, built) => CheckOnlyMoves(s, d, now, built);
      case Break(_) => assert s.loops == s.loops[d := s.loops[d].(loop := s.loops[d].loop)];
      case StartRun(now) => StartOnlyMoves(s, d, now);
      case EndRun => EndOnlyMoves(s, d);
    }
  }

  lemma TaskKeepsLoop<C>(s: Manager<C>, n: NamespacedName, a: TaskMove<C>, c: C)
    requires TaskEnabled(s, n, a) && c in s.loops && (a.AddInsert? ==> s.tasks[n].chan != c)
    ensures c in TaskNext(s, n, a).loops && TaskNext(s, n, a).loops[c] == s.loops[c]
  {
  }

  /** A goroutine keeps its key and its topic, and stands still unless it moves itself. */
  lemma StepKeepsLoop<C>(s: Manager<C>, a: Step<C>, c: C)
    requires L.Inv(s) && Enabled(s, a) && c in s.loops
    ensures c in Next(s, a).loops && Next(s, a).loops[c].key == s.loops[c].key
    ensures !(a.OnLoop? && a.chan == c) ==> Next(s, a).loops[c] == s.loops[c]
  {
    match a {
      case OnBus(_, _) =>
      case OnTask(n, t) =>
        if t.AddInsert? { assert L.TaskOK(s, n); }
        TaskKeepsLoop(s, n, t, c);
      case OnLoop(d, l) => LoopOnlyMoves(s, d, l);
    }
  }

  // ---------- a closed channel ----------

  ghost predicate Takes<C>(a: Step<C>, c: C) {
    a.OnLoop? && a.chan == c && a.loop.Receive?
  }

  /** Channel `c` stays closed and gives up `taken` of its events. */
  ghost predicate Shrinks<C>(b: B.Bus<C>, r: B.Bus<C>, c: C, taken: nat)
    requires c in b.chans
  {
    c in r.chans && r.chans[c].closed && |r.chans[c].buffer| == |b.chans[c].buffer| - taken
  }

  lemma ClosedTaskMove<C>(s: Manager<C>, n: NamespacedName, a: TaskMove<C>, c: C)
    requires Good(s.bus) && TaskEnabled(s, n, a) && c in s.bus.chans && s.bus.chans[c].closed
    requires a.RemoveUnsubscribe? && n in s.consumers ==> Registered(s.bus, s.consumers[n].topic, s.consumers[n].chan)
    ensures Shrinks(s.bus, TaskNext(s, n, a).bus, c, 0)
  {
    match a {
      case AddSubscribe(d, bus) => SubscribeFrame(s.bus, Topic(s.tasks[n].cm), d, bus);
      case RemoveUnsubscribe(bus) =>
        if n in s.consumers { UnsubscribeFrame(s.bus, s.consumers[n].topic, s.consumers[n].chan, bus); }
      case _ =>
    }
  }

  lemma ChecksLeaveBus<C>(s: Manager<C>, d: C, now: int, built: bool)
    ensures CanLookup(s, d) ==> LookupStep(s, d, now).bus == s.bus
    ensures CanCheck(s, d) ==> CheckStep(s, d, now, built).bus == s.bus
  {
  }

  lemma RunsLeaveBus<C>(s: Manager<C>, d: C, now: int)
    ensures CanStart(s, d) ==> StartStep(s, d, now).bus == s.bus
    ensures CanEnd(s, d) ==> EndStep(s, d).bus == s.bus
  {
  }

  lemma OtherMovesLeaveBus<C>(s: Manager<C>, d: C, a: LoopMove<C>)
    requires LoopEnabled(s, d, a) && !a.Receive?
    ensures LoopNext(s, d, a).bus == s.bus
  {
    match a {
      case Leave =>
      case Lookup(now) => ChecksLeaveBus(s, d, now, true);
      case Check(now, built) => ChecksLeaveBus(s, d, now, built);
      case Break(_) =>
      case StartRun(now) => RunsLeaveBus(s, d, now);
      case EndRun => RunsLeaveBus(s, d, 0);
    }
  }

  lemma ClosedLoopMove<C>(s: Manager<C>, d: C, a: LoopMove<C>, c: C)
    requires Good(s.bus) && LoopEnabled(s, d, a) && c in s.bus.chans && s.bus.chans[c].closed
    ensures Shrinks(s.bus, LoopNext(s, d, a).bus, c, if a.Receive? && c == d then 1 else 0)
  {
    if a.Receive? { ReceiveFrame(s.bus, d, a.bus); } else { OtherMovesLeaveBus(s, d, a); }
  }

  /** What a step does to a closed channel: only its own consumer takes from it. */
  lemma ClosedChannelShrinks<C>(s: Manager<C>, a: Step<C>, c: C)
    requires L.Inv(s) && Enabled(s, a) && c in s.bus.chans && s.bus.chans[c].closed
    ensures Shrinks(s.bus, Next(s, a).bus, c, if Takes(a, c) then 1 else 0)
  {
    match a {
      case OnBus(b, bus) => InternalFrame(s.bus, b, bus);
      case OnTask(n, t) =>
        assert t.RemoveUnsubscribe? && n in s.consumers ==>
            Registered(s.bus, s.consumers[n].topic, s.consumers[n].chan) by {
          if n in s.consumers { assert L.ConsumerOK(s, n); }
        }
        ClosedTaskMove(s, n, t, c);
      case OnLoop(d, l) => ClosedLoopMove(s, d, l, c);
    }
  }

  // ---------- goroutines with nothing left to do ----------

  /** The goroutine has returned, or waits on a channel that is closed and empty, so that all it can do
      is return. */
  ghost predicate Spent<C>(s: Manager<C>, c: C) {
    && c in s.loops
    && (s.loops[c].loop.Ended?
        || (s.loops[c].loop.Waiting? && c in s.bus.chans && s.bus.chans[c].closed && s.bus.chans[c].buffer == []))
  }

  lemma SpentMove<C>(s: Manager<C>, c: C, a: LoopMove<C>)
    requires Spent(s, c) && LoopEnabled(s, c, a)
    ensures a.Leave? && LoopNext(s, c, a).loops[c].loop.Ended?
  {
  }

  /** A spent goroutine stays spent. */
  lemma SpentStays<C>(s: Manager<C>, a: Step<C>, c: C)
    requires L.Inv(s) && Enabled(s, a) && Spent(s, c)
    ensures Spent(Next(s, a), c)
  {
    StepKeepsLoop(s, a, c);
    if a.OnLoop? && a.chan == c {
      SpentMove(s, c, a.loop);
    } else if s.loops[c].loop.Waiting? {
      ClosedChannelShrinks(s, a, c);
    }
  }
}
