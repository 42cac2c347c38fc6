/** The consumer goroutines, in runs where a key is installed again only when the older goroutines of
    that key have nothing left to do: a run starts only when no other is in progress, starts of the same event
    key keep their distance, and every skipped event is justified by an earlier run. */
module ConsumerLoop {
  import opened Texts
  import opened Topics
  import opened Specs
  import opened Suppression
  import opened ManagerProtocol
  import opened Goroutines
  import L = Lockstep
  import opened Sealing

  /** The step inserts an entry for `k`. */
  ghost predicate Inserts<C>(s: Manager<C>, a: Step<C>, k: ObjectKey) {
    && a.OnTask? && a.task.AddInsert? && a.name in s.tasks && s.tasks[a.name].Cleaned?
    && s.tasks[a.name].cm.key == k
  }

  /** If the step installs a key, every goroutine that was started for that key is spent: it has returned
      or waits on a closed, empty channel. */
  ghost predicate OrderlyStep<C>(s: Manager<C>, a: Step<C>) {
    forall c :: c in s.loops && Inserts(s, a, s.loops[c].key) ==> Spent(s, c)
  }

  ghost predicate OrderlyRun<C>(s: Manager<C>, steps: seq<Step<C>>)
    decreases |steps|
  {
    steps == [] ||
    (Enabled(s, steps[0]) && OrderlyStep(s, steps[0]) && OrderlyRun(Next(s, steps[0]), steps[1..]))
  }

  lemma {:induction false} OrderlyRunIsRun<C>(s: Manager<C>, steps: seq<Step<C>>)
    requires OrderlyRun(s, steps)
    ensures Run(s, steps)
    decreases |steps|
  {
    if steps != [] { OrderlyRunIsRun(Next(s, steps[0]), steps[1..]); }
  }

  // ---------- what an entry records ----------

  /** Two runs of the same event key start at least the window apart. */
  ghost predicate Spaced(window: Option<int>, starts: seq<Start>) {
    window.Some? ==>
      forall i, j :: 0 <= i < j < |starts| && starts[i].key == starts[j].key ==> starts[j].at >= starts[i].at + window.value
  }

  /** The skip happened inside the window that `start` opened. */
  ghost predicate Covers(window: Option<int>, start: Start, skip: Skip) {
    window.Some? && start.key == skip.key && start.at <= skip.at < start.at + window.value
  }

  ghost predicate JustifiedBy(window: Option<int>, starts: seq<Start>, skip: Skip) {
    exists i :: 0 <= i < |starts| && Covers(window, starts[i], skip)
  }

  /** Every skip has an earlier run of the same event key whose window was still open. */
  ghost predicate Justified(window: Option<int>, starts: seq<Start>, skips: seq<Skip>) {
    forall j :: 0 <= j < |skips| ==> JustifiedBy(window, starts, skips[j])
  }

  /** The table of an entry agrees with its history up to `clock`, and its history is sound. */
  ghost predicate Sound<C>(e: Entry<C>, clock: int) {
    Faithful(e.state, e.starts, clock) && Spaced(e.state.window, e.starts) && Justified(e.state.window, e.starts, e.skips)
  }

  /** No recorded run of `key` has a window open at `clock`. */
  ghost predicate AllExpired<C>(e: Entry<C>, key: Text, clock: int) {
    e.state.window.Some? ==>
      forall i :: 0 <= i < |e.starts| && e.starts[i].key == key ==> e.starts[i].at + e.state.window.value <= clock
  }

  /** Sound and AllExpired, sealed for proofs that only carry them along. */
  ghost predicate History<C>(e: Entry<C>, clock: int) {
    forall k: nat :: Unseal(k) ==> Sound(e, clock)
  }

  ghost predicate Expired<C>(e: Entry<C>, key: Text, clock: int) {
    forall k: nat :: Unseal(k) ==> AllExpired(e, key, clock)
  }

  // ---------- the history of one entry ----------

  lemma HistoryLater<C>(e: Entry<C>, clock: int, now: int)
    requires History(e, clock) && clock <= now
    ensures History(e, now)
    ensures forall key :: Expired(e, key, clock) ==> Expired(e, key, now)
  {
  }

  lemma HistoryPrune<C>(e: Entry<C>, clock: int, now: int)
    requires History(e, clock) && clock <= now
    ensures History(e.(state := Prune(e.state, now)), now)
  {
  }

  lemma HistoryEnd<C>(e: Entry<C>, clock: int)
    requires History(e, clock)
    ensures History(e.(state := RecordEnd(e.state)), clock)
  {
  }

  /** A skip while nothing is running is justified by an open window. */
  lemma HistorySkip<C>(e: Entry<C>, clock: int, key: Text, now: int)
    requires History(e, clock) && clock <= now && !e.state.running && IsSuppressed(e.state, key, now)
    ensures History(e.(skips := e.skips + [Skip(key, now)]), now)
  {
  }

  lemma HistoryClear<C>(e: Entry<C>, clock: int, key: Text, now: int)
    requires History(e, clock) && clock <= now && !IsSuppressed(e.state, key, now)
    ensures Expired(e, key, now)
  {
  }

  lemma HistoryStart<C>(e: Entry<C>, clock: int, key: Text, now: int)
    requires History(e, clock) && clock <= now && Expired(e, key, clock)
    ensures History(e.(state := RecordStart(e.state, key, now), starts := e.starts + [Start(key, now)]), now)
  {
    assert Unseal(0);
    StartFaithful(e.state, e.starts, clock, key, now);
    var starts := e.starts + [Start(key, now)];
    forall j | 0 <= j < |e.skips| ensures JustifiedBy(e.state.window, starts, e.skips[j]) {
      assert JustifiedBy(e.state.window, e.starts, e.skips[j]);
      var i :| 0 <= i < |e.starts| && Covers(e.state.window, e.starts[i], e.skips[j]);
      assert starts[i] == e.starts[i];
    }
  }

  // ---------- the invariant ----------

  /** The entry belongs to one goroutine, is marked running exactly while that goroutine acts, and its
      history is sound. */
  ghost predicate EntryOK<C>(s: Manager<C>, id: EntryId)
    requires id in s.entries
  {
    var e := s.entries[id];
    && e.chan in s.loops && s.loops[e.chan].key == e.cm.key
    && e.state.window == Window(e.cm.spec)
    && (e.state.running <==> s.loops[e.chan].loop.Acting?)
    && History(e, s.clock)
    && (s.loops[e.chan].loop.Cleared? ==> Expired(e, s.loops[e.chan].loop.key, s.clock))
  }

  /** What a goroutine that is not spent finds under its key, and what it has looked up, is its own
      entry. */
  ghost predicate Mine<C>(s: Manager<C>, c: C)
    requires c in s.loops
  {
    var l := s.loops[c];
    && (!Spent(s, c) && l.key in s.measures ==> s.measures[l.key] in s.entries && s.entries[s.measures[l.key]].chan == c)
    && (l.loop.Checking? ==> l.loop.entry in s.entries && s.entries[l.loop.entry].chan == c)
  }

  /** Both were started for the same key and are not spent. */
  ghost predicate Rivals<C>(s: Manager<C>, c: C, d: C)
    requires c in s.loops && d in s.loops
  {
    s.loops[c].key == s.loops[d].key && !Spent(s, c) && !Spent(s, d)
  }

  ghost predicate Orderly<C>(s: Manager<C>) {
    && (forall c :: c in s.loops ==> Mine(s, c))
    && (forall c, d :: c in s.loops && d in s.loops && Rivals(s, c, d) ==> c == d)
    && (forall e, f :: e in s.entries && f in s.entries && s.entries[e].chan == s.entries[f].chan ==> e == f)
    && (forall e :: e in s.entries ==> EntryOK(s, e))
  }

  lemma InitOrderly<C>(workers: nat)
    ensures Orderly(NewManager<C>(workers))
  {
  }

  // ---------- preservation ----------

  /** Goroutines that are spent stay so. */
  ghost predicate StaySpent<C>(s: Manager<C>, r: Manager<C>) {
    forall c :: c in s.loops && Spent(s, c) ==> Spent(r, c)
  }

  /** Nothing the goroutines see changes, except that keys may leave the state table. */
  lemma FrameKeepsOrderly<C>(s: Manager<C>, r: Manager<C>)
    requires Orderly(s) && r.loops == s.loops && r.entries == s.entries && r.clock == s.clock
    requires forall k :: k in r.measures ==> k in s.measures && r.measures[k] == s.measures[k]
    requires StaySpent(s, r)
    ensures Orderly(r)
  {
    forall c | c in r.loops ensures Mine(r, c) { assert Mine(s, c); }
    forall e | e in r.entries ensures EntryOK(r, e) { assert EntryOK(s, e); }
  }

  lemma InsertKeepsEntries<C>(s: Manager<C>, n: NamespacedName, id: EntryId)
    requires Orderly(s) && n in s.tasks && s.tasks[n].Cleaned? && id !in s.entries && s.tasks[n].chan !in s.loops
    ensures var r := AddInsertStep(s, n, id);
            && (forall e :: e in r.entries ==> EntryOK(r, e))
            && (forall e, f :: e in r.entries && f in r.entries && r.entries[e].chan == r.entries[f].chan ==> e == f)
  {
  }

  lemma InsertKeepsOrderly<C>(s: Manager<C>, n: NamespacedName, id: EntryId)
    requires Orderly(s) && n in s.tasks && s.tasks[n].Cleaned? && id !in s.entries && s.tasks[n].chan !in s.loops
    requires forall c :: c in s.loops && s.loops[c].key == s.tasks[n].cm.key ==> Spent(s, c)
    ensures Orderly(AddInsertStep(s, n, id))
  {
    var r := AddInsertStep(s, n, id);
    InsertKeepsEntries(s, n, id);
    forall c | c in s.loops && Spent(s, c) ensures Spent(r, c) { }
    forall c | c in r.loops ensures Mine(r, c) { if c != s.tasks[n].chan { assert Mine(s, c); } }
  }

  /** Goroutine `c` moves, its entry `id` changes to `e`, and time passes. */
  ghost predicate Stepped<C>(s: Manager<C>, r: Manager<C>, c: C, id: EntryId, e: Entry<C>) {
    && c in s.loops && c in r.loops && r.bus == s.bus && !Spent(s, c) && id in s.entries && s.entries[id].chan == c
    && r.loops == s.loops[c := s.loops[c].(loop := r.loops[c].loop)] && r.measures == s.measures
    && r.entries == s.entries[id := e] && e.cm == s.entries[id].cm && e.chan == c && e.state.window == s.entries[id].state.window
    && s.clock <= r.clock
    && (r.loops[c].loop.Checking? ==> r.loops[c].loop.entry == id)
    && (e.state.running <==> r.loops[c].loop.Acting?)
    && History(e, r.clock)
    && (r.loops[c].loop.Cleared? ==> Expired(e, r.loops[c].loop.key, r.clock))
  }

  /** The entry of a goroutine is marked running exactly while the goroutine acts. */
  lemma EntryOfLoop<C>(s: Manager<C>, c: C, id: EntryId)
    requires Orderly(s) && c in s.loops && id in s.entries && s.entries[id].chan == c
    ensures History(s.entries[id], s.clock) && s.entries[id].cm.key == s.loops[c].key
    ensures s.entries[id].state.running <==> s.loops[c].loop.Acting?
    ensures s.loops[c].loop.Cleared? ==> Expired(s.entries[id], s.loops[c].loop.key, s.clock)
  {
  }

  lemma StepKeepsEntries<C>(s: Manager<C>, r: Manager<C>, c: C, id: EntryId, e: Entry<C>)
    requires Orderly(s) && Stepped(s, r, c, id, e)
    ensures forall f :: f in r.entries ==> EntryOK(r, f)
  {
    forall f | f in r.entries ensures EntryOK(r, f) {
      assert EntryOK(s, f);
      if f != id {
        assert s.entries[f].chan != c;
        HistoryLater(s.entries[f], s.clock, r.clock);
      }
    }
  }

  lemma StepKeepsOrderly<C>(s: Manager<C>, r: Manager<C>, c: C, id: EntryId, e: Entry<C>)
    requires Orderly(s) && Stepped(s, r, c, id, e)
    ensures Orderly(r)
  {
    StepKeepsEntries(s, r, c, id, e);
    forall d | d in r.loops ensures Mine(r, d) { assert Mine(s, d); }
  }

  /** Goroutine `c` moves to Waiting, Dequeued or Ended and no entry changes. */
  lemma IdleKeepsOrderly<C>(s: Manager<C>, r: Manager<C>, c: C)
    requires Orderly(s) && c in s.loops && c in r.loops && !s.loops[c].loop.Acting? && StaySpent(s, r)
    requires r.loops == s.loops[c := s.loops[c].(loop := r.loops[c].loop)] && r.measures == s.measures
    requires r.loops[c].loop.Waiting? || r.loops[c].loop.Dequeued? || r.loops[c].loop.Ended?
    requires r.entries == s.entries && s.clock <= r.clock
    ensures Orderly(r)
  {
    forall f | f in r.entries ensures EntryOK(r, f) {
      assert EntryOK(s, f);
      HistoryLater(s.entries[f], s.clock, r.clock);
    }
    forall d | d in r.loops ensures Mine(r, d) { assert Mine(s, d); }
  }

  lemma LookupKeepsOrderly<C>(s: Manager<C>, c: C, now: int)
    requires Orderly(s) && CanLookup(s, c) && now >= s.clock
    ensures Orderly(LookupStep(s, c, now))
  {
    var key := s.loops[c].key;
    assert Mine(s, c);
    if key in s.measures {
      var id := s.measures[key];
      EntryOfLoop(s, c, id);
      HistoryPrune(s.entries[id], s.clock, now);
      StepKeepsOrderly(s, LookupStep(s, c, now), c, id, s.entries[id].(state := Prune(s.entries[id].state, now)));
    } else {
      IdleKeepsOrderly(s, LookupStep(s, c, now), c);
    }
  }

  lemma SkipKeepsOrderly<C>(s: Manager<C>, c: C, now: int, built: bool)
    requires Orderly(s) && CanCheck(s, c) && now >= s.clock
    requires IsSuppressed(s.entries[s.loops[c].loop.entry].state, s.loops[c].loop.key, now)
    ensures Orderly(CheckStep(s, c, now, built))
  {
    var l := s.loops[c].loop;
    var e := s.entries[l.entry];
    assert Mine(s, c);
    EntryOfLoop(s, c, l.entry);
    HistorySkip(e, s.clock, l.key, now);
    StepKeepsOrderly(s, CheckStep(s, c, now, built), c, l.entry, e.(skips := e.skips + [Skip(l.key, now)]));
  }

  lemma ClearKeepsOrderly<C>(s: Manager<C>, c: C, now: int, built: bool)
    requires Orderly(s) && CanCheck(s, c) && now >= s.clock
    requires !IsSuppressed(s.entries[s.loops[c].loop.entry].state, s.loops[c].loop.key, now)
    ensures Orderly(CheckStep(s, c, now, built))
  {
    var l := s.loops[c].loop;
    var e := s.entries[l.entry];
    assert Mine(s, c);
    EntryOfLoop(s, c, l.entry);
    HistoryLater(e, s.clock, now);
    HistoryClear(e, s.clock, l.key, now);
    assert s.entries[l.entry := e] == s.entries;
    StepKeepsOrderly(s, CheckStep(s, c, now, built), c, l.entry, e);
  }

  lemma StartKeepsOrderly<C>(s: Manager<C>, c: C, now: int)
    requires Orderly(s) && CanStart(s, c) && now >= s.clock && s.loops[c].key in s.measures
    ensures Orderly(StartStep(s, c, now))
  {
    var key := s.loops[c].loop.key;
    assert Mine(s, c);
    var id := s.measures[s.loops[c].key];
    var e := s.entries[id];
    EntryOfLoop(s, c, id);
    HistoryStart(e, s.clock, key, now);
    StepKeepsOrderly(s, StartStep(s, c, now), c, id,
                     e.(state := RecordStart(e.state, key, now), starts := e.starts + [Start(key, now)]));
  }

  lemma EndKeepsOrderly<C>(s: Manager<C>, c: C)
    requires Orderly(s) && CanEnd(s, c) && s.loops[c].key in s.measures
    ensures Orderly(EndStep(s, c))
  {
    assert Mine(s, c);
    var id := s.measures[s.loops[c].key];
    var e := s.entries[id];
    EntryOfLoop(s, c, id);
    HistoryEnd(e, s.clock);
    StepKeepsOrderly(s, EndStep(s, c), c, id, e.(state := RecordEnd(e.state)));
  }

  lemma LoopKeepsOrderly<C>(s: Manager<C>, c: C, a: LoopMove<C>)
    requires Orderly(s) && LoopEnabled(s, c, a) && StaySpent(s, LoopNext(s, c, a))
    ensures Orderly(LoopNext(s, c, a))
  {
    match a {
      case Receive(key, bus) => IdleKeepsOrderly(s, ReceiveWith(s, c, key, bus), c);
      case Leave => IdleKeepsOrderly(s, Move(s, c, Ended), c);
      case Lookup(now) => LookupKeepsOrderly(s, c, now);
      case Check(now, built) =>
        if IsSuppressed(s.entries[s.loops[c].loop.entry].state, s.loops[c].loop.key, now) {
          SkipKeepsOrderly(s, c, now, built);
        } else {
          ClearKeepsOrderly(s, c, now, built);
        }
      case Break(_) => FrameKeepsOrderly(s, s.(crashed := true));
      case StartRun(now) =>
        if s.loops[c].key in s.measures { StartKeepsOrderly(s, c, now); } else { FrameKeepsOrderly(s, s.(crashed := true)); }
      case EndRun =>
        if s.loops[c].key in s.measures { EndKeepsOrderly(s, c); } else { FrameKeepsOrderly(s, s.(crashed := true)); }
    }
  }

  lemma TaskKeepsOrderly<C>(s: Manager<C>, n: NamespacedName, a: TaskMove<C>)
    requires Orderly(s) && TaskEnabled(s, n, a) && !a.AddInsert? && StaySpent(s, TaskNext(s, n, a))
    ensures Orderly(TaskNext(s, n, a))
  {
    FrameKeepsOrderly(s, TaskNext(s, n, a));
  }

  lemma NextKeepsSpent<C>(s: Manager<C>, a: Step<C>)
    requires L.Inv(s) && Enabled(s, a)
    ensures StaySpent(s, Next(s, a))
  {
    forall c | c in s.loops && Spent(s, c) ensures Spent(Next(s, a), c) { SpentStays(s, a, c); }
  }

  lemma NextKeepsOrderly<C>(s: Manager<C>, a: Step<C>)
    requires L.Inv(s) && Orderly(s) && Enabled(s, a) && OrderlyStep(s, a)
    ensures Orderly(Next(s, a))
  {
    NextKeepsSpent(s, a);
    match a {
      case OnBus(_, bus) => FrameKeepsOrderly(s, s.(bus := bus));
      case OnTask(n, t) =>
        if t.AddInsert? {
          assert L.TaskOK(s, n);
          assert forall c :: c in s.loops && s.loops[c].key == s.tasks[n].cm.key ==> Inserts(s, a, s.loops[c].key);
          InsertKeepsOrderly(s, n, t.entry);
        } else {
          TaskKeepsOrderly(s, n, t);
        }
      case OnLoop(c, l) => LoopKeepsOrderly(s, c, l);
    }
  }

  lemma {:induction false} RunKeepsOrderly<C>(s: Manager<C>, steps: seq<Step<C>>)
    requires L.Inv(s) && Orderly(s) && OrderlyRun(s, steps)
    ensures Run(s, steps) && L.Inv(After(s, steps)) && Orderly(After(s, steps))
    decreases |steps|
  {
    OrderlyRunIsRun(s, steps);
    if steps != [] {
      L.NextKeepsInv(s, steps[0]);
      NextKeepsOrderly(s, steps[0]);
      RunKeepsOrderly(Next(s, steps[0]), steps[1..]);
    }
  }

  lemma EveryOrderlyRun<C>(workers: nat, steps: seq<Step<C>>)
    requires OrderlyRun(NewManager<C>(workers), steps)
    ensures Run(NewManager<C>(workers), steps)
    ensures L.Inv(After(NewManager<C>(workers), steps)) && Orderly(After(NewManager<C>(workers), steps))
  {
    L.InitInv<C>(workers);
    InitOrderly<C>(workers);
    RunKeepsOrderly(NewManager<C>(workers), steps);
  }

  // ---------- what the loop promises ----------

  lemma SomeWindow<C>(e: Entry<C>)
    requires Justified(e.state.window, e.starts, e.skips) && e.skips != []
    ensures e.state.window.Some?
  {
    assert JustifiedBy(e.state.window, e.starts, e.skips[0]);
  }

  /** Suppression is sound and justified: for every installation, two runs of the same event key
      start at least the duration of its spec's policy apart, every skipped event has an earlier run of
      its key that had started less than that duration before the check, and without a policy or a
      duration nothing is skipped. */
  lemma SuppressionSound<C>(workers: nat, steps: seq<Step<C>>, id: EntryId)
    requires OrderlyRun(NewManager<C>(workers), steps)
    requires Run(NewManager<C>(workers), steps) && id in After(NewManager<C>(workers), steps).entries
    ensures var e := After(NewManager<C>(workers), steps).entries[id];
            var policy := e.cm.spec.onEvent.suppressionPolicy;
            && (forall d :: policy == Some(SuppressionPolicy(Some(d))) ==>
                  Spaced(Some(d), e.starts) && Justified(Some(d), e.starts, e.skips))
            && (policy.None? || policy.value.duration.None? ==> e.skips == [])
  {
    EveryOrderlyRun<C>(workers, steps);
    var s := After(NewManager<C>(workers), steps);
    assert EntryOK(s, id);
    assert Unseal(0);
    var e := s.entries[id];
    assert e.skips != [] ==> e.state.window.Some? by { if e.skips != [] { SomeWindow(e); } }
  }

  lemma CheckAlone<C>(s: Manager<C>, c: C)
    requires Orderly(s) && c in s.loops && s.loops[c].loop.Checking?
    ensures s.loops[c].loop.entry in s.entries && !s.entries[s.loops[c].loop.entry].state.running
    ensures forall d :: d in s.loops && s.loops[d].key == s.loops[c].key ==> !s.loops[d].loop.Acting?
  {
    assert Mine(s, c);
    EntryOfLoop(s, c, s.loops[c].loop.entry);
    forall d | d in s.loops && s.loops[d].key == s.loops[c].key ensures !s.loops[d].loop.Acting? {
      if s.loops[d].loop.Acting? { assert Rivals(s, c, d); }
    }
  }

  lemma FlagOfLoop<C>(s: Manager<C>, c: C)
    requires Orderly(s) && c in s.loops && !Spent(s, c) && s.loops[c].key in s.measures
    ensures s.measures[s.loops[c].key] in s.entries
    ensures s.entries[s.measures[s.loops[c].key]].state.running <==> s.loops[c].loop.Acting?
  {
    assert Mine(s, c);
    EntryOfLoop(s, c, s.measures[s.loops[c].key]);
  }

  /** At every check no run of the key is in progress, in this goroutine or in another, and the flag is
      set exactly while the goroutine is between its start and its end. */
  lemma RunsDoNotOverlap<C>(workers: nat, steps: seq<Step<C>>, s: Manager<C>, c: C)
    requires OrderlyRun(NewManager<C>(workers), steps) && Run(NewManager<C>(workers), steps)
    requires s == After(NewManager<C>(workers), steps) && c in s.loops
    ensures s.loops[c].loop.Checking? ==>
              && s.loops[c].loop.entry in s.entries && !s.entries[s.loops[c].loop.entry].state.running
              && forall d :: d in s.loops && s.loops[d].key == s.loops[c].key ==> !s.loops[d].loop.Acting?
    ensures !Spent(s, c) && s.loops[c].key in s.measures ==>
              && s.measures[s.loops[c].key] in s.entries
              && (s.entries[s.measures[s.loops[c].key]].state.running <==> s.loops[c].loop.Acting?)
  {
    EveryOrderlyRun<C>(workers, steps);
    if s.loops[c].loop.Checking? { CheckAlone(s, c); }
    if !Spent(s, c) && s.loops[c].key in s.measures { FlagOfLoop(s, c); }
  }
}
