/** The methods of the manager and of its goroutines are runs of the manager protocol. What the methods
    do is stated on snapshots and state tables; here it is matched with the runs of ManagerRuns, so
    that what is proved of every run holds of the methods. */
module Refinement {
  import opened Events
  import opened Topics
  import opened Specs
  import opened Suppression
  import A = ActionStates
  import opened Admission
  import opened ManagerProtocol
  import opened ManagerRuns
  import R = Reconciliation
  import K = Consumption
  import E = EventBuses
  import L = Lockstep
  import B = BusProtocol

  // ---------- the protocol state as the objects see it ----------

  /** Every key of the state table has an entry of its own. */
  ghost predicate Separate<C>(s: Manager<C>) {
    && (forall k :: k in s.measures ==> s.measures[k] in s.entries)
    && (forall j, k :: j in s.measures && k in s.measures && s.measures[j] == s.measures[k] ==> j == k)
  }

  lemma InvSeparate<C>(s: Manager<C>)
    requires L.Inv(s)
    ensures Separate(s)
  {
  }

  /** The state table that keys and entries make up. */
  ghost function TableOf<C>(measures: map<ObjectKey, EntryId>, entries: map<EntryId, Entry<C>>): A.Installed
    requires forall k :: k in measures ==> measures[k] in entries
  {
    map k | k in measures :: (entries[measures[k]].cm, entries[measures[k]].state)
  }

  ghost function Measures<C>(s: Manager<C>): A.Installed
    requires Separate(s)
  {
    TableOf(s.measures, s.entries)
  }

  ghost function KeysOf<C>(loops: map<C, Consumer>): map<C, ObjectKey> {
    map c | c in loops :: loops[c].key
  }

  ghost function Snap<C>(s: Manager<C>): R.Snapshot<C>
    requires Separate(s)
  {
    R.Snapshot(s.bus, s.consumers, Measures(s), KeysOf(s.loops))
  }

  // ---------- Add, Remove and Reconcile ----------

  lemma RemovalSnap<C>(s: Manager<C>, n: NamespacedName, bus: B.Bus<C>)
    requires Separate(s)
    ensures var r := AfterRemoval(s, n, bus);
            Separate(r) && Snap(r) == Snap(s).(bus := bus, consumers := s.consumers - {n}, measures := A.RemoveName(Measures(s), n))
  {
  }

  lemma InstallSeparate<C>(s: Manager<C>, cm: CounterMeasure, c: C, bus: B.Bus<C>, e: EntryId)
    requires Separate(s) && e !in s.entries
    ensures Separate(AfterInstall(s, cm, c, bus, e))
  {
  }

  lemma TableInsert<C>(m: map<ObjectKey, EntryId>, entries: map<EntryId, Entry<C>>, key: ObjectKey, e: EntryId, entry: Entry<C>)
    requires (forall k :: k in m ==> m[k] in entries) && e !in entries
    ensures TableOf(Without(m, key.name)[key := e], entries[e := entry])
            == A.RemoveName(TableOf(m, entries), key.name)[key := (entry.cm, entry.state)]
  {
  }

  lemma InstallGoroutines<C>(loops: map<C, Consumer>, cm: CounterMeasure, c: C)
    ensures KeysOf(loops[c := Consumer(cm.key, Topic(cm), Waiting)]) == KeysOf(loops)[c := cm.key]
  {
  }

  lemma InstallSnap<C>(s: Manager<C>, cm: CounterMeasure, c: C, bus: B.Bus<C>, e: EntryId)
    requires Separate(s) && e !in s.entries && bus == B.SubscribeStep(s.bus, Topic(cm), c)
    ensures var r := AfterInstall(s, cm, c, bus, e); Separate(r) && Snap(r) == R.Added(Snap(s), cm, c)
  {
    InstallSeparate(s, cm, c, bus, e);
    TableInsert(s.measures, s.entries, cm.key, e, Entry(cm, c, NewEntry(Window(cm.spec)), [], []));
    InstallGoroutines(s.loops, cm, c);
  }

  /** A Remove is a run. */
  lemma RemoveIsRun<C>(s: Manager<C>, n: NamespacedName) returns (steps: seq<Step<C>>, r: Manager<C>)
    requires L.Inv(s) && Unhindered(s, n) && !B.ReadLocked(s.bus)
    ensures Leads(s, steps, r) && Unhindered(r, n) && L.Inv(r) && Separate(s) && Separate(r)
    ensures R.Known(Snap(s)) && Snap(r) == R.Removed(Snap(s), n)
  {
    InvSeparate(s);
    InvKnown(s);
    var bus := s.bus;
    if n in s.consumers {
      bus := B.UnsubscribeStep(s.bus, s.consumers[n].topic, s.consumers[n].chan);
      GoodUnsubscribe(s.bus, s.consumers[n].topic, s.consumers[n].chan);
    }
    steps := RemovalRuns(s, n, bus);
    r := AfterRemoval(s, n, bus);
    RemovalSnap(s, n, bus);
    L.RunKeepsInv(s, steps);
  }

  lemma InvKnown<C>(s: Manager<C>)
    requires L.Inv(s)
    ensures forall n :: n in s.consumers ==> s.consumers[n].chan in s.bus.chans
  {
  }

  /** A reconciliation that installs a countermeasure is a run. */
  lemma AddIsRun<C>(s: Manager<C>, found: CounterMeasure, cm: CounterMeasure, c: C, e: EntryId)
      returns (steps: seq<Step<C>>, r: Manager<C>)
    requires L.Inv(s) && Unhindered(s, cm.key.name) && !B.ReadLocked(s.bus) && found.key.name == cm.key.name
    requires cm.key.name !in s.consumers && c !in s.bus.chans && e !in s.entries
    ensures Leads(s, steps, r) && Unhindered(r, cm.key.name) && L.Inv(r) && Separate(s) && Separate(r)
    ensures Snap(r) == R.Added(Snap(s), cm, c)
  {
    InvSeparate(s);
    var bus := B.SubscribeStep(s.bus, Topic(cm), c);
    GoodSubscribe(s.bus, Topic(cm), c);
    steps := InstallRuns(s, found, cm, c, bus, e);
    r := AfterInstall(s, cm, c, bus, e);
    InstallSnap(s, cm, c, bus, e);
    L.RunKeepsInv(s, steps);
  }

  /** Whatever the cluster answers, the effect that Manager.Reconcile has on the snapshot is that of a run
      of the protocol, from every state that satisfies its invariant. */
  lemma ReconcileIsRun<C>(s: Manager<C>, name: NamespacedName, cluster: R.Cluster, c: C, e: EntryId)
      returns (steps: seq<Step<C>>, r: Manager<C>)
    requires L.Inv(s) && Unhindered(s, name) && !B.ReadLocked(s.bus) && R.About(cluster, name)
    requires c !in s.bus.chans && e !in s.entries
    ensures Leads(s, steps, r) && L.Inv(r) && Separate(s) && Separate(r) && R.Known(Snap(s))
    ensures Snap(r) == R.Reconciled(Snap(s), name, cluster, c)
  {
    InvSeparate(s);
    InvKnown(s);
    if R.Installs(Snap(s), name, cluster) {
      steps, r := AddIsRun(s, cluster.read.cm, cluster.marked.value, c, e);
    } else if cluster.read.NotFound? {
      steps, r := RemoveIsRun(s, name);
    } else {
      steps, r := [], s;
      assert Run(s, []) && After(s, []) == s;
    }
  }

  // ---------- one pass of a goroutine ----------

  /** Changing the entry of a key changes the state table at that key only. */
  lemma EntryMeasures<C>(s: Manager<C>, r: Manager<C>, key: ObjectKey, e: Entry<C>)
    requires Separate(s) && key in s.measures && r.measures == s.measures && r.entries == s.entries[s.measures[key] := e]
    ensures Separate(r) && Measures(r) == Measures(s)[key := (e.cm, e.state)]
  {
  }

  lemma SameMeasures<C>(s: Manager<C>, r: Manager<C>)
    requires Separate(s) && r.measures == s.measures && r.entries == s.entries
    ensures Separate(r) && Measures(r) == Measures(s)
  {
  }

  /** The goroutine is where it was, with the event taken. */
  ghost predicate Passed<C>(s: Manager<C>, r: Manager<C>, bus: B.Bus<C>) {
    r.loops == s.loops && r.bus == bus && r.measures == s.measures && !r.crashed
  }

  lemma BackToWaiting<C>(s: Manager<C>, c: C, l: Loop)
    requires c in s.loops && s.loops[c].loop.Waiting?
    ensures s.loops[c := s.loops[c].(loop := l)][c := s.loops[c]] == s.loops
  {
  }

  /** The pass from the check on, for an event that is not run. */
  lemma UnrunPass<C>(s: Manager<C>, c: C, bus: B.Bus<C>, id: EntryId, t: K.Turn) returns (steps: seq<Step<C>>, r: Manager<C>)
    requires Separate(s) && CanTake(s, c, bus) && Looks(s, c, id) && s.clock <= t.lookup <= t.check
    ensures Leads(s, steps, r) && Passed(s, r, bus) && Separate(r)
    ensures Measures(r) == Measures(s)[s.loops[c].key := (s.entries[id].cm, Prune(s.entries[id].state, t.lookup))]
  {
    var e := s.bus.chans[c].buffer[0];
    var pruned := s.entries[id].(state := Prune(s.entries[id].state, t.lookup));
    var first := LookRuns(s, c, bus, id, t.lookup);
    var m := WithEntry(s, c, Checking(e, EventKey(e), id), id, pruned, t.lookup).(bus := bus);
    var second := SkipRuns(m, c, t.check);
    RunAppend(s, first, second);
    steps := first + second;
    r := After(s, steps);
    BackToWaiting(s, c, Checking(e, EventKey(e), id));
    EntryMeasures(s, r, s.loops[c].key, r.entries[id]);
  }

  lemma RunPass<C>(s: Manager<C>, c: C, bus: B.Bus<C>, id: EntryId, t: K.Turn) returns (steps: seq<Step<C>>, r: Manager<C>)
    requires Separate(s) && CanTake(s, c, bus) && Looks(s, c, id) && s.clock <= t.lookup <= t.check <= t.start
    requires !IsSuppressed(Prune(s.entries[id].state, t.lookup), EventKey(s.bus.chans[c].buffer[0]), t.check)
    ensures Leads(s, steps, r) && Passed(s, r, bus) && Separate(r)
    ensures var state := Prune(s.entries[id].state, t.lookup);
            Measures(r) == Measures(s)[s.loops[c].key :=
              (s.entries[id].cm, RecordEnd(RecordStart(state, EventKey(s.bus.chans[c].buffer[0]), t.start)))]
  {
    var e := s.bus.chans[c].buffer[0];
    var pruned := s.entries[id].(state := Prune(s.entries[id].state, t.lookup));
    var first := LookRuns(s, c, bus, id, t.lookup);
    var m := WithEntry(s, c, Checking(e, EventKey(e), id), id, pruned, t.lookup).(bus := bus);
    var second := ClearRuns(m, c, t.check, t.start);
    var acting := After(m, second);
    RunAppend(s, first, second);
    var third := EndRuns(acting, c, id);
    RunAppend(s, first + second, third);
    steps := first + second + third;
    r := After(s, steps);
    BackToWaiting(s, c, Acting(e, EventKey(e)));
    EntryMeasures(s, r, s.loops[c].key, r.entries[id]);
  }

  lemma BreakPass<C>(s: Manager<C>, c: C, bus: B.Bus<C>, id: EntryId, t: K.Turn) returns (steps: seq<Step<C>>, r: Manager<C>)
    requires Separate(s) && CanTake(s, c, bus) && Looks(s, c, id) && s.clock <= t.lookup <= t.check
    requires !IsSuppressed(Prune(s.entries[id].state, t.lookup), EventKey(s.bus.chans[c].buffer[0]), t.check)
    ensures Leads(s, steps, r) && r.crashed && Separate(r)
    ensures Measures(r) == Measures(s)[s.loops[c].key := (s.entries[id].cm, Prune(s.entries[id].state, t.lookup))]
  {
    var e := s.bus.chans[c].buffer[0];
    var pruned := s.entries[id].(state := Prune(s.entries[id].state, t.lookup));
    steps := LookRuns(s, c, bus, id, t.lookup);
    var m := WithEntry(s, c, Checking(e, EventKey(e), id), id, pruned, t.lookup).(bus := bus);
    steps := LeadsOn(s, steps, m, OnLoop(c, Break(t.check)));
    r := m.(crashed := true);
    EntryMeasures(s, r, s.loops[c].key, pruned);
  }

  /** What Consumption.Handle does to the state table is what a run of the protocol does, from every state
      in which the goroutine has an event to take; the run ends in a crash exactly if a builder panics. */
  lemma HandleIsRun<C>(s: Manager<C>, c: C, bus: B.Bus<C>, builders: map<Kind, Builder>, t: K.Turn)
      returns (steps: seq<Step<C>>, r: Manager<C>)
    requires Separate(s) && CanTake(s, c, bus) && s.clock <= t.lookup && K.Sensible(t)
    ensures var (h, m) := K.Handled(Measures(s), builders, s.loops[c].key, EventKey(s.bus.chans[c].buffer[0]), t);
            && Leads(s, steps, r) && Separate(r) && Measures(r) == m
            && (r.crashed <==> h.Panicked?) && (!h.Panicked? ==> Passed(s, r, bus))
  {
    var key := s.loops[c].key;
    var e := s.bus.chans[c].buffer[0];
    if key !in s.measures {
      steps := IgnoreRuns(s, c, bus, t.lookup);
      r := s.(bus := bus, clock := t.lookup);
      SameMeasures(s, r);
    } else {
      K.HandledCases(Measures(s), builders, key, EventKey(e), t);
      var h := K.Handled(Measures(s), builders, key, EventKey(e), t).0;
      if h.Ran? {
        steps, r := RunPass(s, c, bus, s.measures[key], t);
      } else if h.Panicked? {
        steps, r := BreakPass(s, c, bus, s.measures[key], t);
      } else {
        steps, r := UnrunPass(s, c, bus, s.measures[key], t);
      }
    }
  }

  // ---------- the start ----------

  /** A new manager on a new bus is at the start of the protocol. */
  method NewSystem(workers: nat) returns (bus: E.EventBus, m: R.Manager)
    ensures m.Valid() && m.bus == bus
    ensures Separate(NewManager<E.Channel>(workers)) && m.View() == Snap(NewManager<E.Channel>(workers))
  {
    bus := new E.EventBus(workers);
    m := new R.Manager(bus);
    StartSnap<E.Channel>(workers);
  }

  lemma StartSnap<C>(workers: nat)
    ensures Separate(NewManager<C>(workers))
    ensures Snap(NewManager<C>(workers)) == R.Snapshot(B.NewBus<C>(workers), map[], map[], map[])
  {
  }
}
