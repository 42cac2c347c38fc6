/** What a Remove means for the goroutines of a countermeasure: which runs it makes panic, and how the
    goroutines come to their end. */
module Removal {
  import opened Events
  import opened Topics
  import opened Specs
  import opened Suppression
  import opened ManagerProtocol
  import opened Goroutines
  import opened ConsumerLoop
  import L = Lockstep
  import B = BusProtocol

  // ---------- what a step does to keys ----------

  /** The step ends a Remove of the name of `k`. */
  ghost predicate Drops<C>(a: Step<C>, k: ObjectKey) {
    a == OnTask(k.name, RemoveFinish)
  }

  lemma TaskKeys<C>(s: Manager<C>, n: NamespacedName, a: TaskMove<C>, k: ObjectKey)
    requires TaskEnabled(s, n, a) && (a.AddClean? ==> Without(s.measures, n) == s.measures)
    ensures k in TaskNext(s, n, a).measures
            <==> Inserts(s, OnTask(n, a), k) || (k in s.measures && !Drops(OnTask(n, a), k))
  {
  }

  /** A key comes into the state table when it is inserted, and leaves it when a Remove of its name
      finishes. */
  lemma StepKeys<C>(s: Manager<C>, a: Step<C>, k: ObjectKey)
    requires L.Inv(s) && Enabled(s, a)
    ensures k in Next(s, a).measures <==> Inserts(s, a, k) || (k in s.measures && !Drops(a, k))
  {
    match a {
      case OnBus(_, _) =>
      case OnTask(n, t) =>
        if t.AddClean? { L.NothingToClean(s, n); }
        TaskKeys(s, n, t, k);
      case OnLoop(d, l) => LoopOnlyMoves(s, d, l);
    }
  }

  // ---------- when a run meets a removed entry ----------

  datatype Change = Unchanged | Inserted | Removed

  /** The last that a run did to key `k`: insert an entry for it, or remove its name. */
  ghost function LastChange<C>(s: Manager<C>, steps: seq<Step<C>>, k: ObjectKey): Change
    requires Run(s, steps)
    decreases |steps|
  {
    if steps == [] then Unchanged else
      var later := LastChange(Next(s, steps[0]), steps[1..], k);
      if !later.Unchanged? then later
      else if Inserts(s, steps[0], k) then Inserted
      else if Drops(steps[0], k) then Removed
      else Unchanged
  }

  /** From any point of any run: a key is installed later if and only if the last that happened to it
      was its insertion, or nothing did and it was installed. */
  lemma {:induction false} InstalledByLastChange<C>(s: Manager<C>, steps: seq<Step<C>>, k: ObjectKey)
    requires L.Inv(s) && Run(s, steps)
    ensures k in After(s, steps).measures
            <==> LastChange(s, steps, k).Inserted? || (LastChange(s, steps, k).Unchanged? && k in s.measures)
    decreases |steps|
  {
    if steps != [] {
      StepKeys(s, steps[0], k);
      L.NextKeepsInv(s, steps[0]);
      InstalledByLastChange(Next(s, steps[0]), steps[1..], k);
    }
  }

  lemma {:induction false} RunKeepsLoop<C>(s: Manager<C>, steps: seq<Step<C>>, c: C)
    requires L.Inv(s) && Run(s, steps) && c in s.loops
    ensures c in After(s, steps).loops && After(s, steps).loops[c].key == s.loops[c].key
    decreases |steps|
  {
    if steps != [] {
      StepKeepsLoop(s, steps[0], c);
      L.NextKeepsInv(s, steps[0]);
      RunKeepsLoop(Next(s, steps[0]), steps[1..], c);
    }
  }

  lemma PanicsIffMissing<C>(r: Manager<C>, c: C, now: int)
    requires c in r.loops
    ensures Enabled(r, OnLoop(c, StartRun(now))) ==> (Next(r, OnLoop(c, StartRun(now))).crashed <==> r.loops[c].key !in r.measures)
    ensures Enabled(r, OnLoop(c, EndRun)) ==> (Next(r, OnLoop(c, EndRun)).crashed <==> r.loops[c].key !in r.measures)
  {
  }

  /** For every run from the look-up of an entry on: the start and the end of the goroutine's run panic on
      a nil pointer if and only if the last that happened to its key since then is a Remove of the
      name. A Remove followed by an installation of the same key does not make them panic. */
  lemma PanicsIffRemoved<C>(s: Manager<C>, steps: seq<Step<C>>, c: C, now: int, r: Manager<C>)
    requires L.Inv(s) && Run(s, steps) && r == After(s, steps) && c in s.loops && s.loops[c].key in s.measures
    ensures Enabled(r, OnLoop(c, StartRun(now))) ==>
              (Next(r, OnLoop(c, StartRun(now))).crashed <==> LastChange(s, steps, s.loops[c].key).Removed?)
    ensures Enabled(r, OnLoop(c, EndRun)) ==>
              (Next(r, OnLoop(c, EndRun)).crashed <==> LastChange(s, steps, s.loops[c].key).Removed?)
  {
    RunKeepsLoop(s, steps, c);
    InstalledByLastChange(s, steps, s.loops[c].key);
    PanicsIffMissing(r, c, now);
  }

  // ---------- starts and ends alternate ----------

  ghost predicate Starts<C>(a: Step<C>, c: C) {
    a.OnLoop? && a.chan == c && a.loop.StartRun?
  }

  ghost predicate Ends<C>(a: Step<C>, c: C) {
    a.OnLoop? && a.chan == c && a.loop.EndRun?
  }

  ghost function StartCount<C>(steps: seq<Step<C>>, c: C): nat {
    if steps == [] then 0 else (if Starts(steps[0], c) then 1 else 0) + StartCount(steps[1..], c)
  }

  ghost function EndCount<C>(steps: seq<Step<C>>, c: C): nat {
    if steps == [] then 0 else (if Ends(steps[0], c) then 1 else 0) + EndCount(steps[1..], c)
  }

  /** 1 while goroutine `c` is between a start and its end. */
  ghost function Acting<C>(s: Manager<C>, c: C): nat
    requires c in s.loops
  {
    if s.loops[c].loop.Acting? then 1 else 0
  }

  lemma LookupLands<C>(s: Manager<C>, c: C, now: int)
    requires CanLookup(s, c)
    ensures c in LookupStep(s, c, now).loops
    ensures LookupStep(s, c, now).loops[c].loop.Waiting? || LookupStep(s, c, now).loops[c].loop.Checking?
    ensures s.loops[c].key !in s.measures ==> LookupStep(s, c, now).loops[c].loop.Waiting?
  {
    var l := s.loops[c];
    if l.key in s.measures {
      assert LookupStep(s, c, now).loops == Move(s, c, Checking(l.loop.event, l.loop.key, s.measures[l.key])).loops;
    } else {
      assert LookupStep(s, c, now).loops == Move(s, c, Waiting).loops;
    }
  }

  lemma CheckLands<C>(s: Manager<C>, c: C, now: int, built: bool)
    requires CanCheck(s, c)
    ensures c in CheckStep(s, c, now, built).loops
    ensures CheckStep(s, c, now, built).loops[c].loop.Waiting? || CheckStep(s, c, now, built).loops[c].loop.Cleared?
  {
    var l := s.loops[c].loop;
    var next := if !IsSuppressed(s.entries[l.entry].state, l.key, now) && built then Cleared(l.event, l.key) else Waiting;
    assert CheckStep(s, c, now, built).loops == Move(s, c, next).loops;
  }

  lemma RunLands<C>(s: Manager<C>, c: C, now: int)
    ensures CanStart(s, c) && s.loops[c].key in s.measures ==>
              c in StartStep(s, c, now).loops && StartStep(s, c, now).loops[c].loop.Acting?
    ensures CanEnd(s, c) && s.loops[c].key in s.measures ==> c in EndStep(s, c).loops && EndStep(s, c).loops[c].loop.Waiting?
  {
  }

  lemma ChecksAlternate<C>(s: Manager<C>, c: C, a: LoopMove<C>)
    requires LoopEnabled(s, c, a) && (a.Lookup? || a.Check?)
    ensures c in LoopNext(s, c, a).loops && Acting(s, c) == 0 && Acting(LoopNext(s, c, a), c) == 0
  {
    if a.Lookup? { LookupLands(s, c, a.now); } else { CheckLands(s, c, a.now, a.built); }
  }

  lemma LoopAlternates<C>(s: Manager<C>, c: C, a: LoopMove<C>)
    requires LoopEnabled(s, c, a) && !s.crashed && !LoopNext(s, c, a).crashed
    ensures c in LoopNext(s, c, a).loops
    ensures Acting(LoopNext(s, c, a), c) == Acting(s, c) + (if a.StartRun? then 1 else 0) - (if a.EndRun? then 1 else 0)
  {
    if a.Lookup? || a.Check? { ChecksAlternate(s, c, a); }
    if a.StartRun? { RunLands(s, c, a.now); }
    if a.EndRun? { RunLands(s, c, 0); }
  }

  lemma StepAlternates<C>(s: Manager<C>, a: Step<C>, c: C)
    requires L.Inv(s) && Enabled(s, a) && c in s.loops && !Next(s, a).crashed
    ensures c in Next(s, a).loops
    ensures Acting(Next(s, a), c) == Acting(s, c) + (if Starts(a, c) then 1 else 0) - (if Ends(a, c) then 1 else 0)
  {
    if a.OnLoop? && a.chan == c { LoopAlternates(s, c, a.loop); } else { StepKeepsLoop(s, a, c); }
  }

  /** Over every run without a panic, the starts of a goroutine exceed its ends by one exactly while it
      acts, so that they strictly alternate. */
  lemma {:induction false} StartsAndEndsAlternate<C>(s: Manager<C>, steps: seq<Step<C>>, c: C)
    requires L.Inv(s) && Run(s, steps) && c in s.loops && !After(s, steps).crashed
    ensures c in After(s, steps).loops
    ensures Acting(s, c) + StartCount(steps, c) == Acting(After(s, steps), c) + EndCount(steps, c)
    decreases |steps|
  {
    if steps != [] {
      assert !Next(s, steps[0]).crashed;
      StepAlternates(s, steps[0], c);
      L.NextKeepsInv(s, steps[0]);
      StartsAndEndsAlternate(Next(s, steps[0]), steps[1..], c);
    }
  }

  // ---------- after Remove ----------

  /** A goroutine whose channel is closed, and which is spent or whose key is not installed. */
  ghost predicate Retired<C>(s: Manager<C>, c: C) {
    HasLoop(s, c) && s.bus.chans[c].closed && (Spent(s, c) || s.loops[c].key !in s.measures)
  }

  lemma RemoveRetires<C>(s: Manager<C>, n: NamespacedName, c: C)
    requires L.Inv(s) && Enabled(s, OnTask(n, RemoveFinish)) && c in s.loops && s.loops[c].key.name == n
    ensures Retired(Next(s, OnTask(n, RemoveFinish)), c)
  {
    L.NextKeepsInv(s, OnTask(n, RemoveFinish));
    assert L.LoopOK(Next(s, OnTask(n, RemoveFinish)), c);
  }

  /** The moves goroutine `c` has left once it is retired: two for each buffered event, a few for the
      event it is handling, and the return. */
  ghost function Budget<C>(s: Manager<C>, c: C): nat
    requires HasLoop(s, c)
  {
    match s.loops[c].loop
    case Ended => 0
    case Waiting => 2 * |s.bus.chans[c].buffer| + 1
    case Dequeued(_, _) => 2 * |s.bus.chans[c].buffer| + 2
    case Cleared(_, _) => 2 * |s.bus.chans[c].buffer| + 2
    case Acting(_, _) => 2 * |s.bus.chans[c].buffer| + 2
    case Checking(_, _, _) => 2 * |s.bus.chans[c].buffer| + 3
  }

  /** The goroutine is not in the middle of an event that it looked up before the removal. */
  ghost predicate Between<C>(s: Manager<C>, c: C)
    requires c in s.loops
  {
    s.loops[c].loop.Waiting? || s.loops[c].loop.Dequeued? || s.loops[c].loop.Ended?
  }

  ghost predicate Moves<C>(a: Step<C>, c: C) {
    a.OnLoop? && a.chan == c
  }

  /** A move of a retired goroutine uses up its budget, one by one outside of an event and with no run
      started, unless it panics. */
  lemma RetiredMove<C>(s: Manager<C>, c: C, a: LoopMove<C>)
    requires Retired(s, c) && LoopEnabled(s, c, a) && !s.crashed
    requires Shrinks(s.bus, LoopNext(s, c, a).bus, c, if a.Receive? then 1 else 0)
    ensures var r := LoopNext(s, c, a);
            && HasLoop(r, c)
            && (r.crashed || Budget(r, c) < Budget(s, c))
            && (Between(s, c) ==> !r.crashed && Between(r, c) && Budget(r, c) == Budget(s, c) - 1 && !a.StartRun?)
            && (!Between(s, c) ==> !a.Receive? && (a.StartRun? ==> r.crashed))
  {
    match a {
      case Receive(_, _) =>
      case Leave =>
      case Lookup(now) => LookupLands(s, c, now);
      case Check(now, built) => CheckLands(s, c, now, built);
      case Break(_) =>
      case StartRun(now) =>
      case EndRun =>
    }
  }

  lemma RetiredStep<C>(s: Manager<C>, a: Step<C>, c: C)
    requires L.Inv(s) && Enabled(s, a) && OrderlyStep(s, a) && Retired(s, c)
    ensures Retired(Next(s, a), c)
    ensures if Moves(a, c) then Next(s, a).crashed || Budget(Next(s, a), c) < Budget(s, c)
            else Budget(Next(s, a), c) == Budget(s, c) && Between(Next(s, a), c) == Between(s, c)
    ensures Moves(a, c) && Between(s, c) ==>
              !Next(s, a).crashed && Between(Next(s, a), c) && Budget(Next(s, a), c) == Budget(s, c) - 1 && !Starts(a, c)
    ensures Moves(a, c) && !Between(s, c) ==> !Takes(a, c) && (Starts(a, c) ==> Next(s, a).crashed)
    ensures Shrinks(s.bus, Next(s, a).bus, c, if Takes(a, c) then 1 else 0)
  {
    ClosedChannelShrinks(s, a, c);
    StepKeepsLoop(s, a, c);
    if Spent(s, c) { SpentStays(s, a, c); }
    StepKeys(s, a, s.loops[c].key);
    if Moves(a, c) { RetiredMove(s, c, a.loop); }
  }

  ghost function MoveCount<C>(steps: seq<Step<C>>, c: C): nat {
    if steps == [] then 0 else (if Moves(steps[0], c) then 1 else 0) + MoveCount(steps[1..], c)
  }

  ghost function TakeCount<C>(steps: seq<Step<C>>, c: C): nat {
    if steps == [] then 0 else (if Takes(steps[0], c) then 1 else 0) + TakeCount(steps[1..], c)
  }

  lemma CrashedIsLast<C>(s: Manager<C>, steps: seq<Step<C>>)
    requires Run(s, steps) && s.crashed
    ensures steps == []
  {
  }

  /** The moves of a removed countermeasure's goroutine are bounded: it takes what is buffered, at most
      ten events, makes at most two moves for each and three more, and when it has not returned yet it
      has moves left. */
  lemma {:induction false} GoroutineExits<C>(s: Manager<C>, steps: seq<Step<C>>, c: C)
    requires L.Inv(s) && OrderlyRun(s, steps) && Run(s, steps) && Retired(s, c)
    ensures Retired(After(s, steps), c)
    ensures MoveCount(steps, c) <= Budget(s, c)
    ensures Between(s, c) ==> Between(After(s, steps), c) && MoveCount(steps, c) + Budget(After(s, steps), c) == Budget(s, c)
    ensures TakeCount(steps, c) + |After(s, steps).bus.chans[c].buffer| == |s.bus.chans[c].buffer|
    decreases |steps|
  {
    if steps != [] {
      var r := Next(s, steps[0]);
      RetiredStep(s, steps[0], c);
      L.NextKeepsInv(s, steps[0]);
      if r.crashed { CrashedIsLast(r, steps[1..]); }
      BudgetPositive(s, steps[0], c);
      GoroutineExits(r, steps[1..], c);
    }
  }

  lemma BudgetPositive<C>(s: Manager<C>, a: Step<C>, c: C)
    requires Enabled(s, a) && HasLoop(s, c)
    ensures Moves(a, c) ==> Budget(s, c) > 0
  {
  }

  lemma BudgetBound<C>(s: Manager<C>, c: C)
    requires L.Inv(s) && HasLoop(s, c)
    ensures Budget(s, c) <= 23 && (Budget(s, c) == 0 <==> s.loops[c].loop.Ended?)
  {
    GoodCapacity(s.bus, c);
  }

  /** Until it has returned, a retired goroutine that is not acting on an earlier event can move. */
  lemma RetiredCanMove<C>(s: Manager<C>, c: C)
    requires L.Inv(s) && Retired(s, c) && Between(s, c) && !s.loops[c].loop.Ended?
    ensures exists a: LoopMove<C> :: LoopEnabled(s, c, a)
  {
    if s.loops[c].loop.Dequeued? {
      assert LoopEnabled(s, c, Lookup(s.clock));
    } else if s.bus.chans[c].buffer == [] {
      assert LoopEnabled(s, c, Leave);
    } else {
      GoodReceive(s.bus, c);
      var key := EventKey(s.bus.chans[c].buffer[0]);
      assert LoopEnabled(s, c, Receive(key, B.Next(s.bus, B.Receive(c))));
    }
  }

  /** No run starts. */
  ghost predicate NoStart<C>(steps: seq<Step<C>>, c: C) {
    forall i :: 0 <= i < |steps| ==> !Starts(steps[i], c)
  }

  /** No run starts after the goroutine has dequeued an event. */
  ghost predicate NoStartAfterTake<C>(steps: seq<Step<C>>, c: C) {
    forall i, j :: 0 <= i < j < |steps| && Takes(steps[i], c) ==> !Starts(steps[j], c)
  }

  /** A start is the last step there is, and it panics. */
  ghost predicate StartsPanic<C>(steps: seq<Step<C>>, c: C, crashed: bool) {
    forall i :: 0 <= i < |steps| && Starts(steps[i], c) ==> i == |steps| - 1 && crashed
  }

  lemma BusyCons<C>(steps: seq<Step<C>>, c: C, crashed: bool)
    requires steps != [] && !Takes(steps[0], c) && (Starts(steps[0], c) ==> |steps| == 1 && crashed)
    requires NoStartAfterTake(steps[1..], c) && StartsPanic(steps[1..], c, crashed)
    ensures NoStartAfterTake(steps, c) && StartsPanic(steps, c, crashed)
  {
  }

  lemma NoStartCons<C>(steps: seq<Step<C>>, c: C)
    requires steps != [] && !Starts(steps[0], c) && NoStart(steps[1..], c)
    ensures NoStart(steps, c)
  {
  }

  /** Once Remove has finished, an event dequeued from then on starts no run, and the start of a run whose
      event was looked up earlier is the last step there is: it panics. */
  lemma {:induction false} AfterRemove<C>(s: Manager<C>, steps: seq<Step<C>>, c: C)
    requires L.Inv(s) && OrderlyRun(s, steps) && Run(s, steps) && Retired(s, c)
    ensures NoStartAfterTake(steps, c) && StartsPanic(steps, c, After(s, steps).crashed)
    ensures Between(s, c) ==> NoStart(steps, c)
    decreases |steps|
  {
    if steps != [] {
      var r := Next(s, steps[0]);
      RetiredStep(s, steps[0], c);
      L.NextKeepsInv(s, steps[0]);
      if r.crashed { CrashedIsLast(r, steps[1..]); }
      AfterRemove(r, steps[1..], c);
      if Between(s, c) { NoStartCons(steps, c); } else { BusyCons(steps, c, After(s, steps).crashed); }
    }
  }
}
