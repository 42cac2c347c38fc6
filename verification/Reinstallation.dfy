/** When a key is installed again: its older goroutines never act on it if and only if they have nothing
    left to do at that moment. */
module Reinstallation {
  import opened Events
  import opened Topics
  import opened ManagerProtocol
  import opened ManagerRuns
  import opened Goroutines
  import opened ConsumerLoop
  import L = Lockstep
  import B = BusProtocol

  /** The run `steps` from `s` ends with goroutine `c` running the actions of its key. */
  ghost predicate GetsToAct<C>(s: Manager<C>, steps: seq<Step<C>>, c: C) {
    Run(s, steps) && c in After(s, steps).loops && After(s, steps).loops[c].loop.Acting?
  }

  // ---------- a goroutine with something left to do gets to act ----------

  /** The key of goroutine `c` is installed, with an entry on which no run is in progress. */
  ghost predicate Free<C>(s: Manager<C>, c: C) {
    && !s.crashed && HasLoop(s, c) && s.loops[c].key in s.measures
    && s.measures[s.loops[c].key] in s.entries && !s.entries[s.measures[s.loops[c].key]].state.running
  }

  lemma ClearedActs<C>(s: Manager<C>, c: C) returns (steps: seq<Step<C>>)
    requires Free(s, c) && s.loops[c].loop.Cleared?
    ensures GetsToAct(s, steps, c)
  {
    var a: Step<C> := OnLoop(c, StartRun(s.clock));
    steps := LeadsOn(s, [], s, a);
    var l := s.loops[c].loop;
    assert Next(s, a).loops == Move(s, c, Acting(l.event, l.key)).loops;
  }

  /** Late enough, no window is open any more. */
  lemma CheckingActs<C>(s: Manager<C>, c: C) returns (steps: seq<Step<C>>)
    requires Free(s, c) && s.loops[c].loop.Checking? && s.loops[c].loop.entry in s.entries
    requires !s.entries[s.loops[c].loop.entry].state.running
    ensures GetsToAct(s, steps, c)
  {
    var l := s.loops[c].loop;
    var until := s.entries[l.entry].state.lastRuns;
    var now := if l.key in until && until[l.key] > s.clock then until[l.key] else s.clock;
    var first := LeadsOn(s, [], s, OnLoop(c, Check(now, true)));
    var r := Move(s, c, Cleared(l.event, l.key)).(clock := now);
    assert Next(s, OnLoop(c, Check(now, true))) == r;
    var second := ClearedActs(r, c);
    RunAppend(s, first, second);
    steps := first + second;
  }

  lemma DequeuedActs<C>(s: Manager<C>, c: C) returns (steps: seq<Step<C>>)
    requires Free(s, c) && s.loops[c].loop.Dequeued?
    ensures GetsToAct(s, steps, c)
  {
    var l := s.loops[c].loop;
    var id := s.measures[s.loops[c].key];
    var first := LeadsOn(s, [], s, OnLoop(c, Lookup(s.clock)));
    var r := LookupStep(s, c, s.clock);
    assert r.loops == Move(s, c, Checking(l.event, l.key, id)).loops;
    var second := CheckingActs(r, c);
    RunAppend(s, first, second);
    steps := first + second;
  }

  lemma WaitingActs<C>(s: Manager<C>, c: C, bus: B.Bus<C>) returns (steps: seq<Step<C>>)
    requires Free(s, c) && CanTake(s, c, bus)
    ensures GetsToAct(s, steps, c)
  {
    var e := s.bus.chans[c].buffer[0];
    var first := TakeRuns(s, c, bus);
    var second := DequeuedActs(Move(s, c, Dequeued(e, EventKey(e))).(bus := bus), c);
    RunAppend(s, first, second);
    steps := first + second;
  }

  /** A goroutine on a closed channel that is not spent can get to act. */
  lemma UnspentActs<C>(s: Manager<C>, c: C) returns (steps: seq<Step<C>>)
    requires Good(s.bus) && Free(s, c) && !Spent(s, c) && s.bus.chans[c].closed
    requires s.loops[c].loop.Checking? ==>
               s.loops[c].loop.entry in s.entries && !s.entries[s.loops[c].loop.entry].state.running
    ensures GetsToAct(s, steps, c)
  {
    match s.loops[c].loop {
      case Waiting =>
        GoodReceive(s.bus, c);
        var bus := B.Next(s.bus, B.Receive(c));
        ReceiveFrame(s.bus, c, bus);
        steps := WaitingActs(s, c, bus);
      case Dequeued(_, _) => steps := DequeuedActs(s, c);
      case Checking(_, _, _) => steps := CheckingActs(s, c);
      case Cleared(_, _) => steps := ClearedActs(s, c);
      case Acting(_, _) => steps := [];
      case Ended =>
    }
  }

  // ---------- a spent goroutine never acts again ----------

  lemma {:induction false} SpentNeverActs<C>(s: Manager<C>, steps: seq<Step<C>>, c: C)
    requires L.Inv(s) && Run(s, steps) && Spent(s, c)
    ensures Spent(After(s, steps), c) && !GetsToAct(s, steps, c)
    decreases |steps|
  {
    if steps != [] {
      SpentStays(s, steps[0], c);
      L.NextKeepsInv(s, steps[0]);
      SpentNeverActs(Next(s, steps[0]), steps[1..], c);
    }
  }

  // ---------- the exact condition ----------

  /** The channel of an older goroutine of a key about to be inserted has been closed. */
  lemma OlderIsClosed<C>(s: Manager<C>, n: NamespacedName, c: C)
    requires L.Inv(s) && n in s.tasks && s.tasks[n].Cleaned? && c in s.loops && s.loops[c].key == s.tasks[n].cm.key
    ensures c != s.tasks[n].chan && c in s.bus.chans && s.bus.chans[c].closed && Good(s.bus)
  {
    assert L.TaskOK(s, n) && L.LoopOK(s, c);
  }

  /** After the insertion the older goroutine stands where it was, its key is free, and what it has
      looked up is not marked running. */
  lemma InsertLeavesFree<C>(s: Manager<C>, n: NamespacedName, e: EntryId, c: C)
    requires Orderly(s) && n in s.tasks && s.tasks[n].Cleaned? && e !in s.entries && !s.crashed
    requires HasLoop(s, c) && s.loops[c].key == s.tasks[n].cm.key && c != s.tasks[n].chan
    ensures var r := AddInsertStep(s, n, e);
            && Free(r, c) && r.loops[c] == s.loops[c] && r.bus == s.bus
            && (r.loops[c].loop.Checking? ==>
                  r.loops[c].loop.entry in r.entries && !r.entries[r.loops[c].loop.entry].state.running)
  {
    assert Mine(s, c);
    if s.loops[c].loop.Checking? { EntryOfLoop(s, c, s.loops[c].loop.entry); }
  }

  /** Installing a key is orderly, that is, its older goroutines are spent, if and only if no run that
      follows has one of them act: on the new entry, which is not theirs. */
  lemma OrderlyIffOlderNeverAct<C>(s: Manager<C>, n: NamespacedName, e: EntryId)
    requires L.Inv(s) && Orderly(s) && Enabled(s, OnTask(n, AddInsert(e)))
    ensures var r := Next(s, OnTask(n, AddInsert(e)));
            OrderlyStep(s, OnTask(n, AddInsert(e)))
            <==> forall steps, c :: c in s.loops && s.loops[c].key == s.tasks[n].cm.key ==> !GetsToAct(r, steps, c)
  {
    var a: Step<C> := OnTask(n, AddInsert(e));
    var r := Next(s, a);
    L.NextKeepsInv(s, a);
    if OrderlyStep(s, a) {
      forall steps, c | c in s.loops && s.loops[c].key == s.tasks[n].cm.key ensures !GetsToAct(r, steps, c) {
        assert Inserts(s, a, s.loops[c].key);
        SpentStays(s, a, c);
        if Run(r, steps) { SpentNeverActs(r, steps, c); }
      }
    } else {
      var c :| c in s.loops && Inserts(s, a, s.loops[c].key) && !Spent(s, c);
      OlderIsClosed(s, n, c);
      InsertLeavesFree(s, n, e, c);
      var steps := UnspentActs(r, c);
      assert GetsToAct(r, steps, c);
    }
  }
}
