/** Runs of the manager without interference: an installation, a removal, one pass of a goroutine. */
module ManagerRuns {
  import opened Texts
  import opened Events
  import opened Topics
  import opened Specs
  import opened Suppression
  import opened ManagerProtocol
  import B = BusProtocol

  // ---------- building runs ----------

  /** The run `steps` leads from `s` to `r`. */
  ghost predicate Leads<C>(s: Manager<C>, steps: seq<Step<C>>, r: Manager<C>) {
    Run(s, steps) && After(s, steps) == r
  }

  lemma {:induction false} RunAppend<C>(s: Manager<C>, p: seq<Step<C>>, q: seq<Step<C>>)
    requires Run(s, p) && Run(After(s, p), q)
    ensures Run(s, p + q) && After(s, p + q) == After(After(s, p), q)
    decreases |p|
  {
    if p == [] {
      assert p + q == q;
    } else {
      assert (p + q)[1..] == p[1..] + q;
      RunAppend(Next(s, p[0]), p[1..], q);
    }
  }

  lemma RunOne<C>(s: Manager<C>, a: Step<C>)
    requires Enabled(s, a)
    ensures Run(s, [a]) && After(s, [a]) == Next(s, a)
  {
  }

  lemma LeadsOn<C>(s: Manager<C>, steps: seq<Step<C>>, r: Manager<C>, a: Step<C>) returns (more: seq<Step<C>>)
    requires Leads(s, steps, r) && Enabled(r, a)
    ensures Leads(s, more, Next(r, a))
  {
    more := steps + [a];
    RunOne(r, a);
    RunAppend(s, steps, [a]);
  }

  lemma BusMovesBy<C>(b: B.Bus<C>, a: B.Step<C>)
    requires B.Enabled(b, a)
    ensures BusMoves(b, a, B.Next(b, a))
  {
  }

  // ---------- a removal ----------

  /** No reconciliation of `n` is under way, and the manager's lock is free. */
  ghost predicate Unhindered<C>(s: Manager<C>, n: NamespacedName) {
    !s.crashed && n !in s.tasks && s.mux.None?
  }

  /** Unsubscribing the consumer of `n`, if there is one, turns the bus into `bus`. */
  ghost predicate Unsubscribes<C>(s: Manager<C>, n: NamespacedName, bus: B.Bus<C>) {
    if n in s.consumers then BusMoves(s.bus, B.Unsubscribe(s.consumers[n].topic, s.consumers[n].chan), bus) else bus == s.bus
  }

  /** `s` after a Remove of `n` that turned the bus into `bus`. */
  ghost function AfterRemoval<C>(s: Manager<C>, n: NamespacedName, bus: B.Bus<C>): Manager<C> {
    s.(bus := bus, consumers := s.consumers - {n}, measures := Without(s.measures, n))
  }

  lemma RemovalLocks<C>(s: Manager<C>, n: NamespacedName) returns (steps: seq<Step<C>>)
    requires Unhindered(s, n)
    ensures Leads(s, steps, s.(mux := Some(n), tasks := s.tasks[n := Holding]))
  {
    steps := LeadsOn(s, [], s, OnTask(n, Read(None)));
    var s1 := s.(tasks := s.tasks[n := Missing]);
    assert Next(s, OnTask(n, Read(None))) == s1;
    steps := LeadsOn(s, steps, s1, OnTask(n, RemoveLock));
    assert s1.tasks[n := Holding] == s.tasks[n := Holding];
  }

  lemma RemovalEnds<C>(s: Manager<C>, n: NamespacedName, bus: B.Bus<C>) returns (steps: seq<Step<C>>)
    requires Unhindered(s, n) && Unsubscribes(s, n, bus)
    ensures Leads(s.(mux := Some(n), tasks := s.tasks[n := Holding]), steps, AfterRemoval(s, n, bus))
  {
    var s2 := s.(mux := Some(n), tasks := s.tasks[n := Holding]);
    steps := LeadsOn(s2, [], s2, OnTask(n, RemoveUnsubscribe(bus)));
    var s3 := s2.(bus := bus, tasks := s2.tasks[n := Unlinked]);
    steps := LeadsOn(s2, steps, s3, OnTask(n, RemoveFinish));
    assert s3.tasks - {n} == s.tasks;
  }

  lemma RemovalRuns<C>(s: Manager<C>, n: NamespacedName, bus: B.Bus<C>) returns (steps: seq<Step<C>>)
    requires Unhindered(s, n) && Unsubscribes(s, n, bus)
    ensures Leads(s, steps, AfterRemoval(s, n, bus))
  {
    var first := RemovalLocks(s, n);
    var second := RemovalEnds(s, n, bus);
    RunAppend(s, first, second);
    steps := first + second;
  }

  // ---------- an installation ----------

  /** `s` after an Add of `cm` that subscribed channel `c`, turned the bus into `bus` and made entry `e`. */
  ghost function AfterInstall<C>(s: Manager<C>, cm: CounterMeasure, c: C, bus: B.Bus<C>, e: EntryId): Manager<C> {
    s.(bus := bus,
       consumers := s.consumers[cm.key.name := Handle(Topic(cm), c)],
       measures := Without(s.measures, cm.key.name)[cm.key := e],
       entries := s.entries[e := Entry(cm, c, NewEntry(Window(cm.spec)), [], [])],
       loops := s.loops[c := Consumer(cm.key, Topic(cm), Waiting)],
       owner := s.owner[c := cm.key.name])
  }

  ghost predicate CanInstall<C>(s: Manager<C>, cm: CounterMeasure, c: C, bus: B.Bus<C>, e: EntryId) {
    && Unhindered(s, cm.key.name) && cm.key.name !in s.consumers && e !in s.entries
    && BusMoves(s.bus, B.Subscribe(Topic(cm), c), bus)
  }

  lemma InstallFinds<C>(s: Manager<C>, found: CounterMeasure, cm: CounterMeasure) returns (steps: seq<Step<C>>)
    requires Unhindered(s, cm.key.name) && cm.key.name !in s.consumers && found.key.name == cm.key.name
    ensures Leads(s, steps, s.(tasks := s.tasks[cm.key.name := Absent(cm)]))
  {
    var n := cm.key.name;
    steps := LeadsOn(s, [], s, OnTask(n, Read(Some(found))));
    var s1 := s.(tasks := s.tasks[n := Found(found)]);
    steps := LeadsOn(s, steps, s1, OnTask(n, Exists));
    var s2 := s.(tasks := s.tasks[n := Absent(found)]);
    assert s1.tasks[n := Absent(found)] == s2.tasks;
    steps := LeadsOn(s, steps, s2, OnTask(n, Refresh(cm)));
    assert s2.tasks[n := Absent(cm)] == s.tasks[n := Absent(cm)];
  }

  lemma InstallSubscribes<C>(s: Manager<C>, found: CounterMeasure, cm: CounterMeasure, c: C, bus: B.Bus<C>, e: EntryId)
      returns (steps: seq<Step<C>>)
    requires CanInstall(s, cm, c, bus, e) && found.key.name == cm.key.name
    ensures var n := cm.key.name; Leads(s, steps, s.(bus := bus, tasks := s.tasks[n := Subscribed(cm, c)], owner := s.owner[c := n]))
  {
    var n := cm.key.name;
    steps := InstallFinds(s, found, cm);
    var s2 := s.(tasks := s.tasks[n := Absent(cm)]);
    steps := LeadsOn(s, steps, s2, OnTask(n, AddSubscribe(c, bus)));
    assert s2.tasks[n := Subscribed(cm, c)] == s.tasks[n := Subscribed(cm, c)];
  }

  lemma InstallFinishes<C>(s: Manager<C>, cm: CounterMeasure, c: C, bus: B.Bus<C>, e: EntryId)
      returns (steps: seq<Step<C>>)
    requires CanInstall(s, cm, c, bus, e)
    ensures var n := cm.key.name;
            Leads(s.(bus := bus, tasks := s.tasks[n := Subscribed(cm, c)], owner := s.owner[c := n]), steps, AfterInstall(s, cm, c, bus, e))
  {
    var n := cm.key.name;
    var s3 := s.(bus := bus, tasks := s.tasks[n := Subscribed(cm, c)], owner := s.owner[c := n]);
    steps := LeadsOn(s3, [], s3, OnTask(n, AddLock));
    var s4 := AddLockStep(s3, n);
    steps := LeadsOn(s3, steps, s4, OnTask(n, AddClean));
    var s5 := AddCleanStep(s4, n);
    steps := LeadsOn(s3, steps, s5, OnTask(n, AddInsert(e)));
    assert s5.tasks - {n} == s.tasks;
  }

  lemma InstallRuns<C>(s: Manager<C>, found: CounterMeasure, cm: CounterMeasure, c: C, bus: B.Bus<C>, e: EntryId)
      returns (steps: seq<Step<C>>)
    requires CanInstall(s, cm, c, bus, e) && found.key.name == cm.key.name
    ensures Leads(s, steps, AfterInstall(s, cm, c, bus, e))
  {
    var first := InstallSubscribes(s, found, cm, c, bus, e);
    var second := InstallFinishes(s, cm, c, bus, e);
    RunAppend(s, first, second);
    steps := first + second;
  }

  // ---------- one pass of a goroutine ----------

  /** The entry of goroutine `c` becomes `e` and the clock `now`; the goroutine stands at `loop`. */
  ghost function WithEntry<C>(s: Manager<C>, c: C, loop: Loop, id: EntryId, e: Entry<C>, now: int): Manager<C>
    requires c in s.loops
  {
    Move(s, c, loop).(entries := s.entries[id := e], clock := now)
  }

  /** Goroutine `c` is not busy, has an event, and the taking of it turns the bus into `bus`. */
  ghost predicate CanTake<C>(s: Manager<C>, c: C, bus: B.Bus<C>) {
    !s.crashed && CanReceive(s, c) && EntryLive(s, c) && BusMoves(s.bus, B.Receive(c), bus) && c in bus.chans
  }

  ghost predicate Looks<C>(s: Manager<C>, c: C, id: EntryId) {
    c in s.loops && s.loops[c].key in s.measures && s.measures[s.loops[c].key] == id && id in s.entries
  }

  lemma TakeRuns<C>(s: Manager<C>, c: C, bus: B.Bus<C>) returns (steps: seq<Step<C>>)
    requires CanTake(s, c, bus)
    ensures var e := s.bus.chans[c].buffer[0]; Leads(s, steps, Move(s, c, Dequeued(e, EventKey(e))).(bus := bus))
  {
    var e := s.bus.chans[c].buffer[0];
    steps := LeadsOn(s, [], s, OnLoop(c, Receive(EventKey(e), bus)));
  }

  /** The key is not installed: the event is dropped. */
  lemma IgnoreRuns<C>(s: Manager<C>, c: C, bus: B.Bus<C>, now: int) returns (steps: seq<Step<C>>)
    requires CanTake(s, c, bus) && s.loops[c].key !in s.measures && now >= s.clock
    ensures Leads(s, steps, s.(bus := bus, clock := now))
  {
    var e := s.bus.chans[c].buffer[0];
    steps := TakeRuns(s, c, bus);
    var r := Move(s, c, Dequeued(e, EventKey(e))).(bus := bus);
    steps := LeadsOn(s, steps, r, OnLoop(c, Lookup(now)));
    assert LookupStep(r, c, now).loops == s.loops;
  }

  lemma LookRuns<C>(s: Manager<C>, c: C, bus: B.Bus<C>, id: EntryId, now: int) returns (steps: seq<Step<C>>)
    requires CanTake(s, c, bus) && Looks(s, c, id) && now >= s.clock
    ensures var e := s.bus.chans[c].buffer[0];
            var entry := s.entries[id].(state := Prune(s.entries[id].state, now));
            Leads(s, steps, WithEntry(s, c, Checking(e, EventKey(e), id), id, entry, now).(bus := bus))
  {
    var e := s.bus.chans[c].buffer[0];
    var entry := s.entries[id].(state := Prune(s.entries[id].state, now));
    steps := TakeRuns(s, c, bus);
    var r := Move(s, c, Dequeued(e, EventKey(e))).(bus := bus);
    steps := LeadsOn(s, steps, r, OnLoop(c, Lookup(now)));
    assert LookupStep(r, c, now).loops == Move(s, c, Checking(e, EventKey(e), id)).loops;
  }

  /** From the check on, the event is skipped or the runner cannot be built. */
  lemma SkipRuns<C>(s: Manager<C>, c: C, now: int) returns (steps: seq<Step<C>>)
    requires !s.crashed && CanCheck(s, c) && now >= s.clock
    ensures var l := s.loops[c].loop; var e := s.entries[l.entry];
            var skipped := IsSuppressed(e.state, l.key, now);
            Leads(s, steps, WithEntry(s, c, Waiting, l.entry, if skipped then e.(skips := e.skips + [Skip(l.key, now)]) else e, now))
  {
    var l := s.loops[c].loop;
    var e := s.entries[l.entry];
    assert s.entries[l.entry := e] == s.entries;
    steps := LeadsOn(s, [], s, OnLoop(c, Check(now, false)));
  }

  /** From the check on, the event is run. */
  lemma ClearRuns<C>(s: Manager<C>, c: C, check: int, start: int) returns (steps: seq<Step<C>>)
    requires !s.crashed && CanCheck(s, c) && s.clock <= check <= start && Looks(s, c, s.loops[c].loop.entry)
    requires var l := s.loops[c].loop; !IsSuppressed(s.entries[l.entry].state, l.key, check)
    ensures var l := s.loops[c].loop; var e := s.entries[l.entry];
            Leads(s, steps, WithEntry(s, c, Acting(l.event, l.key), l.entry,
                                      e.(state := RecordStart(e.state, l.key, start), starts := e.starts + [Start(l.key, start)]), start))
  {
    var l := s.loops[c].loop;
    steps := LeadsOn(s, [], s, OnLoop(c, Check(check, true)));
    var r := Move(s, c, Cleared(l.event, l.key)).(clock := check);
    assert Next(s, OnLoop(c, Check(check, true))) == r;
    steps := LeadsOn(s, steps, r, OnLoop(c, StartRun(start)));
    assert StartStep(r, c, start).loops == Move(s, c, Acting(l.event, l.key)).loops;
  }

  lemma EndRuns<C>(s: Manager<C>, c: C, id: EntryId) returns (steps: seq<Step<C>>)
    requires !s.crashed && HasLoop(s, c) && s.loops[c].loop.Acting? && Looks(s, c, id)
    ensures Leads(s, steps, WithEntry(s, c, Waiting, id, s.entries[id].(state := RecordEnd(s.entries[id].state)), s.clock))
  {
    steps := LeadsOn(s, [], s, OnLoop(c, EndRun));
  }
}
