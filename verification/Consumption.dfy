/** The goroutine that Manager.Add starts (pkg/actions/manager.go): it looks its countermeasure up,
    checks for suppression, builds a runner, and runs it between a start and an end. These methods
    run without interference; ConsumerLoop has the interleavings. */
module Consumption {
  import opened Texts
  import opened Events
  import opened Specs
  import opened Suppression
  import opened EventBuses
  import opened ActionStates
  import opened Admission
  import opened Execution
  import opened Sealing

  /** What became of an event. Panicked is the panic of a builder. */
  datatype Handling = Ignored | Skipped | Unbuilt(name: Text) | Panicked | Ran(trace: seq<Effect>)

  /** What the world does while an event is handled: the times of the look-up, the check and the start,
      whether a client can be made, how often an action is retried, and which attempts fail. */
  datatype Turn = Turn(lookup: int, check: int, start: int, client: bool, retries: nat, fails: Failures)

  /** The clock does not run backwards while an event is handled. */
  predicate Sensible(t: Turn) {
    t.lookup <= t.check <= t.start
  }

  /** Building the runner and running it between a start and an end, on values. */
  function Acted(m: Installed, builders: map<Kind, Builder>, key: ObjectKey, eventKey: Text, t: Turn): (Handling, Installed)
    requires key in m
  {
    var (cm, e) := m[key];
    match BuildAll(builders, cm.spec.actions, t.client, cm.spec.dryRun)
    case Failed(UnknownAction(name)) => (Unbuilt(name), m)
    case Failed(_) => (Panicked, m)
    case Runner(impls) =>
      (Ran(RunTrace(impls, cm.spec.dryRun, t.retries + 1, t.fails, 0)), m[key := (cm, RecordEnd(RecordStart(e, eventKey, t.start)))])
  }

  /** Handling an event of key `eventKey`, on values. */
  function Handled(m: Installed, builders: map<Kind, Builder>, key: ObjectKey, eventKey: Text, t: Turn): (Handling, Installed) {
    if key !in m then (Ignored, m) else
      var e := Prune(m[key].1, t.lookup);
      var pruned := m[key := (m[key].0, e)];
      if IsSuppressed(e, eventKey, t.check) then (Skipped, pruned) else Acted(pruned, builders, key, eventKey, t)
  }

  /** `impls` has one implementation of each action of the spec, in order, and the trace is that of a run of
      them in which the first `done` succeeded. */
  ghost predicate RunsImpls(spec: Spec, t: Turn, trace: seq<Effect>, impls: seq<Impl>, done: nat) {
    && |impls| == |spec.actions| && (forall i :: 0 <= i < |impls| ==> Implements(impls[i], spec.actions[i], spec.dryRun))
    && RunsAs(impls, spec.dryRun, t.retries + 1, t.fails, trace, done)
  }

  ghost predicate RunsSpec(spec: Spec, t: Turn, trace: seq<Effect>) {
    exists impls, done :: RunsImpls(spec, t, trace, impls, done)
  }

  lemma RunsSpecBy(impls: seq<Impl>, spec: Spec, t: Turn, trace: seq<Effect>, done: nat)
    requires |impls| == |spec.actions| && forall i :: 0 <= i < |impls| ==> Implements(impls[i], spec.actions[i], spec.dryRun)
    requires RunsAs(impls, spec.dryRun, t.retries + 1, t.fails, trace, done)
    ensures RunsSpec(spec, t, trace)
  {
    assert RunsImpls(spec, t, trace, impls, done);
  }

  lemma BuiltRunsSpec(builders: map<Kind, Builder>, spec: Spec, t: Turn)
    ensures var built := BuildAll(builders, spec.actions, t.client, spec.dryRun);
            built.Runner? ==> RunsSpec(spec, t, RunTrace(built.impls, spec.dryRun, t.retries + 1, t.fails, 0))
  {
    var built := BuildAll(builders, spec.actions, t.client, spec.dryRun);
    BuiltImplements(builders, spec.actions, t.client, spec.dryRun);
    if built.Runner? {
      var steps, trace := t.retries + 1, RunTrace(built.impls, spec.dryRun, t.retries + 1, t.fails, 0);
      RunnerTrace(built.impls, spec.dryRun, steps, t.fails);
      RunsSpecBy(built.impls, spec, t, trace, FirstFailure(built.impls, steps, t.fails, 0));
    }
  }

  /** Nothing is done for a key that is not installed; and whatever runs, runs the actions of the installed
      spec. */
  lemma HandledRunsSpec(m: Installed, builders: map<Kind, Builder>, key: ObjectKey, eventKey: Text, t: Turn)
    ensures var r := Handled(m, builders, key, eventKey, t).0;
            && (r.Ignored? <==> key !in m)
            && (r.Ran? ==> key in m && RunsSpec(m[key].0.spec, t, r.trace))
  {
    if key in m {
      BuiltRunsSpec(builders, m[key].0.spec, t);
    }
  }

  /** With an initialised registry an event that is neither run nor skipped comes to an action of the installed
      spec that sets no kind, and is dropped, or that needs the client that cannot be made, and panics. */
  lemma HandledFails(m: Installed, key: ObjectKey, eventKey: Text, t: Turn)
    requires key in m
    ensures var r := Handled(m, STANDARD, key, eventKey, t).0;
            && (r.Unbuilt? ==> exists i :: FailsAt(m[key].0.spec.actions, t.client, i, UnknownAction(r.name)))
            && (r.Panicked? ==> exists i :: FailsAt(m[key].0.spec.actions, t.client, i, NoClient))
  {
    var spec := m[key].0.spec;
    BuildFailure(spec.actions, t.client, spec.dryRun);
  }

  /** An event that is run passes the check and is recorded; any other only prunes the table. */
  lemma HandledCases(m: Installed, builders: map<Kind, Builder>, key: ObjectKey, eventKey: Text, t: Turn)
    requires key in m
    ensures var (r, m') := Handled(m, builders, key, eventKey, t);
            var pruned := Prune(m[key].1, t.lookup);
            && (r.Panicked? ==> !IsSuppressed(pruned, eventKey, t.check))
            && if r.Ran? then
              && !IsSuppressed(pruned, eventKey, t.check)
              && m' == m[key := (m[key].0, RecordEnd(RecordStart(pruned, eventKey, t.start)))]
            else m' == m[key := (m[key].0, pruned)]
  {
  }

  /** The run itself, between its start and its end. */
  method Act(state: ActionState, key: ObjectKey, impls: seq<Impl>, dryRun: bool, eventKey: Text, t: Turn) returns (trace: seq<Effect>)
    requires state.Valid() && key in state.View()
    modifies state.counterMeasures.Values
    ensures state.Valid() && trace == RunTrace(impls, dryRun, t.retries + 1, t.fails, 0)
    ensures state.View() == old(state.View())[key := (old(state.View())[key].0,
                                                      RecordEnd(RecordStart(old(state.View())[key].1, eventKey, t.start)))]
  {
    ghost var m := state.View();
    var started := state.CounterMeasureStart(eventKey, key, t.start);
    ghost var running := state.View();
    trace := Execution.Run(impls, dryRun, t.retries + 1, t.fails);
    var ended := state.CounterMeasureEnd(key);
    UpdateTwice(m, key, running[key], state.View()[key]);
  }

  lemma UpdateTwice(m: Installed, key: ObjectKey, a: (CounterMeasure, EntryState), b: (CounterMeasure, EntryState))
    ensures m[key := a][key := b] == m[key := b]
  {
  }

  method Perform(state: ActionState, registry: Registry, key: ObjectKey, spec: Spec, eventKey: Text, t: Turn) returns (r: Handling)
    requires state.Valid() && key in state.View() && state.View()[key].0.spec == spec
    modifies state.counterMeasures.Values
    ensures state.Valid()
    ensures (r, state.View()) == Acted(old(state.View()), registry.builders, key, eventKey, t)
  {
    var runner := registry.NewRunner(spec, t.client);
    if runner.Failed? {
      return if runner.cause.UnknownAction? then Unbuilt(runner.cause.name) else Panicked;
    }
    var trace := Act(state, key, runner.impls, spec.dryRun, eventKey, t);
    return Ran(trace);
  }

  /** Looks the countermeasure up and checks for suppression; nil when the key is not installed. */
  method Look(state: ActionState, key: ObjectKey, eventKey: Text, t: Turn) returns (cm: Option<CounterMeasure>, suppressed: bool)
    requires state.Valid()
    modifies state.counterMeasures.Values
    ensures state.Valid() && (cm.Some? <==> key in old(state.View()))
    ensures cm.None? ==> state.View() == old(state.View())
    ensures cm.Some? ==>
              var e := Prune(old(state.View())[key].1, t.lookup);
              && cm.value == old(state.View())[key].0 && suppressed == IsSuppressed(e, eventKey, t.check)
              && state.View() == old(state.View())[key := (cm.value, e)]
  {
    ghost var m := state.View();
    var entry := state.GetCounterMeasure(key, t.lookup);
    if entry == null {
      return None, false;
    }
    assert state.View()[key] == (m[key].0, Prune(m[key].1, t.lookup));
    suppressed := entry.IsSuppressed(eventKey, t.check);
    cm := Some(entry.countermeasure);
  }

  /** One pass of the goroutine's loop. */
  method Handle(state: ActionState, registry: Registry, key: ObjectKey, event: Event, t: Turn) returns (r: Handling)
    requires state.Valid()
    modifies state.counterMeasures.Values
    ensures state.Valid()
    ensures (r, state.View()) == Handled(old(state.View()), registry.builders, key, EventKey(event), t)
    ensures r.Ignored? <==> key !in old(state.View())
    ensures r.Ran? ==> key in old(state.View()) && RunsSpec(old(state.View())[key].0.spec, t, r.trace)
  {
    var eventKey := Key(event);
    HandledRunsSpec(state.View(), registry.builders, key, eventKey, t);
    var cm, suppressed := Look(state, key, eventKey, t);
    if cm.None? {
      return Ignored;
    }
    if suppressed {
      return Skipped;
    }
    r := Perform(state, registry, key, cm.value.spec, eventKey, t);
  }

  // ---------- the loop over a channel ----------

  /** What handling an event of a key does to the state. */
  type Pass = (Installed, Text, Turn) -> (Handling, Installed)

  function PassOf(builders: map<Kind, Builder>, key: ObjectKey): Pass {
    (m: Installed, eventKey: Text, t: Turn) => Handled(m, builders, key, eventKey, t)
  }

  /** What becomes of the first `n` events, and of the state; after a panic nothing is handled any
      more. */
  ghost function Served(pass: Pass, m: Installed, events: seq<Event>, turns: seq<Turn>, n: nat): (r: (seq<Handling>, Installed))
    requires n <= |events| <= |turns|
    ensures |r.0| <= n && (|r.0| < n ==> Crashed(r.0))
  {
    if n == 0 then ([], m) else
      var before := Served(pass, m, events, turns, n - 1);
      if Crashed(before.0) then before else
        var last := pass(before.1, EventKey(events[n - 1]), turns[n - 1]);
        (before.0 + [last.0], last.1)
  }

  predicate Crashed(handled: seq<Handling>) {
    handled != [] && handled[|handled| - 1].Panicked?
  }

  predicate AllSensible(turns: seq<Turn>) {
    forall i :: 0 <= i < |turns| ==> Sensible(turns[i])
  }

  /** Takes the oldest event and handles it. */
  method ServeOne(bus: EventBus, ch: Channel, state: ActionState, registry: Registry, key: ObjectKey, t: Turn) returns (r: Handling)
    requires bus.Valid() && ch in bus.model.chans && ch.buffer != [] && state.Valid()
    modifies bus`model, bus`trace, ch`buffer, state.counterMeasures.Values
    ensures bus.Valid() && ch in bus.model.chans && ch.buffer == old(ch.buffer)[1..] && state.Valid()
    ensures (r, state.View()) == Handled(old(state.View()), registry.builders, key, EventKey(old(ch.buffer)[0]), t)
  {
    ghost var m := state.View();
    var event := bus.Receive(ch);
    assert state.View() == m;
    r := Handle(state, registry, key, event, t);
  }

  /** Takes and handles the buffered events, unless the process panics. When the channel is closed the
      goroutine then returns. */
  method Serve(bus: EventBus, ch: Channel, state: ActionState, registry: Registry, key: ObjectKey, turns: seq<Turn>)
    returns (handled: seq<Handling>)
    requires bus.Valid() && ch in bus.model.chans && state.Valid()
    requires |ch.buffer| <= |turns|
    modifies bus`model, bus`trace, ch`buffer, state.counterMeasures.Values
    ensures bus.Valid() && state.Valid() && |handled| <= |old(ch.buffer)| && ch.buffer == old(ch.buffer)[|handled|..]
    ensures ch.buffer != [] ==> Crashed(handled)
    ensures (handled, state.View()) == Served(PassOf(registry.builders, key), old(state.View()), old(ch.buffer), turns, |old(ch.buffer)|)
  {
    handled := [];
    ghost var pass := PassOf(registry.builders, key);
    ghost var events := ch.buffer;
    ghost var m := state.View();
    ghost var done := 0;
    while ch.buffer != [] && !Crashed(handled)
      invariant bus.Valid() && ch in bus.model.chans && state.Valid()
      invariant 0 <= done <= |events| && ch.buffer == events[done..] && |handled| == done
      invariant (handled, state.View()) == Served(pass, m, events, turns, done)
      decreases |ch.buffer|
    {
      var r := ServeOne(bus, ch, state, registry, key, turns[|handled|]);
      handled := handled + [r];
      done := done + 1;
    }
    if Crashed(handled) { NothingAfterCrash(pass, m, events, turns, done, |events|); }
  }

  lemma {:induction false} NothingAfterCrash(pass: Pass, m: Installed, events: seq<Event>, turns: seq<Turn>, k: nat, n: nat)
    requires k <= n <= |events| <= |turns| && Crashed(Served(pass, m, events, turns, k).0)
    ensures Served(pass, m, events, turns, n) == Served(pass, m, events, turns, k)
  {
    if k < n {
      NothingAfterCrash(pass, m, events, turns, k, n - 1);
      assert Crashed(Served(pass, m, events, turns, n - 1).0);
    }
  }

  // ---------- which events are skipped ----------

  /** The clock never runs backwards from one event to the next. */
  ghost predicate Monotone(turns: seq<Turn>) {
    forall i, j :: 0 <= i < j < |turns| ==> turns[i].start <= turns[j].lookup
  }

  ghost predicate Setup(m: Installed, key: ObjectKey, events: seq<Event>, turns: seq<Turn>, n: nat) {
    && n <= |events| <= |turns| && AllSensible(turns) && Monotone(turns)
    && key in m && m[key].1 == NewEntry(Window(m[key].0.spec))
  }

  /** The runs among the first `n` events. */
  ghost function RunStarts(handled: seq<Handling>, events: seq<Event>, turns: seq<Turn>, n: nat): seq<Start>
    requires n <= |handled| && n <= |events| && n <= |turns|
  {
    if n == 0 then [] else
      RunStarts(handled, events, turns, n - 1)
      + (if handled[n - 1].Ran? then [Start(EventKey(events[n - 1]), turns[n - 1].start)] else [])
  }

  /** Event `i` was run, with this start. */
  ghost predicate RanAs(handled: seq<Handling>, events: seq<Event>, turns: seq<Turn>, i: nat, s: Start)
    requires i < |handled| && i < |events| && i < |turns|
  {
    handled[i].Ran? && s == Start(EventKey(events[i]), turns[i].start)
  }

  lemma {:induction false} RunStartsMember(handled: seq<Handling>, events: seq<Event>, turns: seq<Turn>, n: nat, s: Start)
    requires n <= |handled| && n <= |events| && n <= |turns|
    ensures s in RunStarts(handled, events, turns, n) <==> exists i: nat :: i < n && RanAs(handled, events, turns, i, s)
  {
    if n > 0 {
      RunStartsMember(handled, events, turns, n - 1, s);
      assert s in RunStarts(handled, events, turns, n)
             <==> s in RunStarts(handled, events, turns, n - 1) || RanAs(handled, events, turns, n - 1, s);
    }
  }

  lemma {:induction false} RunStartsPrefix(h: seq<Handling>, r: Handling, events: seq<Event>, turns: seq<Turn>, n: nat)
    requires n <= |h| && n <= |events| && n <= |turns|
    ensures RunStarts(h + [r], events, turns, n) == RunStarts(h, events, turns, n)
  {
    if n > 0 { RunStartsPrefix(h, r, events, turns, n - 1); }
  }

  /** What becomes of event `j`, from the state in which it is handled. */
  lemma {:induction false} ServedAt(pass: Pass, m: Installed, events: seq<Event>, turns: seq<Turn>, j: nat, n: nat)
    requires n <= |events| <= |turns| && j < |Served(pass, m, events, turns, n).0|
    ensures var handled := Served(pass, m, events, turns, n).0;
            var before := Served(pass, m, events, turns, j);
            && |before.0| == j && !Crashed(before.0) && handled[..j] == before.0
            && handled[j] == pass(before.1, EventKey(events[j]), turns[j]).0
    decreases n
  {
    var before := Served(pass, m, events, turns, n - 1);
    if j < |before.0| {
      ServedAt(pass, m, events, turns, j, n - 1);
    } else {
      assert j == n - 1;
    }
  }

  /** The entry agrees with the history of runs, and no run is in progress. Sealed. */
  ghost predicate Recorded(e: EntryState, window: Option<int>, starts: seq<Start>, clock: int) {
    forall k: nat :: Unseal(k) ==> Faithful(e, starts, clock) && !e.running && e.window == window
  }

  ghost predicate Agrees(m: Installed, key: ObjectKey, cm: CounterMeasure, starts: seq<Start>, clock: int) {
    key in m && m[key].0 == cm && Recorded(m[key].1, Window(cm.spec), starts, clock)
  }

  lemma RecordedNew(window: Option<int>, clock: int)
    ensures Recorded(NewEntry(window), window, [], clock)
  {
  }

  /** Look-up, check, start and end of an entry against its history. */
  lemma RecordedPass(e: EntryState, window: Option<int>, starts: seq<Start>, clock: int, eventKey: Text, t: Turn)
    requires Sensible(t) && Recorded(e, window, starts, clock) && clock <= t.lookup
    ensures var p := Prune(e, t.lookup);
            && (IsSuppressed(p, eventKey, t.check) <==> WindowOpen(window, starts, eventKey, t.check))
            && Recorded(p, window, starts, t.start)
            && Recorded(RecordEnd(RecordStart(p, eventKey, t.start)), window, starts + [Start(eventKey, t.start)], t.start)
  {
    assert Unseal(0);
    var p := Prune(e, t.lookup);
    PruneFaithful(e, starts, clock, t.lookup);
    FaithfulVerdict(p, starts, t.lookup, eventKey, t.check);
    FaithfulLater(p, starts, t.lookup, t.start);
    StartFaithful(p, starts, t.lookup, eventKey, t.start);
  }

  /** What handling one event does to the agreement, and when it skips. */
  lemma HandledAgrees(m: Installed, builders: map<Kind, Builder>, key: ObjectKey, cm: CounterMeasure, eventKey: Text, t: Turn,
                      starts: seq<Start>, clock: int)
    requires Sensible(t) && Agrees(m, key, cm, starts, clock) && clock <= t.lookup
    ensures var (r, m') := Handled(m, builders, key, eventKey, t);
            && Agrees(m', key, cm, starts + (if r.Ran? then [Start(eventKey, t.start)] else []), t.start)
            && !r.Ignored?
            && (r.Skipped? <==> WindowOpen(Window(cm.spec), starts, eventKey, t.check))
  {
    RecordedPass(m[key].1, Window(cm.spec), starts, clock, eventKey, t);
    assert starts + [] == starts;
  }

  lemma {:induction false} ServedAgrees(pass: Pass, builders: map<Kind, Builder>, m: Installed, key: ObjectKey, events: seq<Event>,
                                        turns: seq<Turn>, n: nat, clock: int)
    requires pass == PassOf(builders, key)
    requires Setup(m, key, events, turns, n) && (n > 0 ==> clock == turns[n - 1].start)
    requires |Served(pass, m, events, turns, n).0| == n
    ensures var r := Served(pass, m, events, turns, n);
            Agrees(r.1, key, m[key].0, RunStarts(r.0, events, turns, n), clock)
  {
    if n == 0 {
      RecordedNew(Window(m[key].0.spec), clock);
    } else {
      var before := Served(pass, m, events, turns, n - 1);
      assert !Crashed(before.0);
      var earlier := if n == 1 then turns[0].lookup else turns[n - 2].start;
      ServedAgrees(pass, builders, m, key, events, turns, n - 1, earlier);
      var starts := RunStarts(before.0, events, turns, n - 1);
      HandledAgrees(before.1, builders, key, m[key].0, EventKey(events[n - 1]), turns[n - 1], starts, earlier);
      RunStartsPrefix(before.0, Handled(before.1, builders, key, EventKey(events[n - 1]), turns[n - 1]).0, events, turns, n - 1);
    }
  }

  /** An earlier event of the same key was run, and the duration of the spec's policy has not passed since its
      start when event `j` is checked. */
  ghost predicate InWindow(handled: seq<Handling>, events: seq<Event>, turns: seq<Turn>, spec: Spec, i: nat, j: nat)
    requires i < |handled| && i < |events| && j < |events| && i < |turns| && j < |turns|
  {
    && handled[i].Ran? && EventKey(events[i]) == EventKey(events[j])
    && spec.onEvent.suppressionPolicy.Some? && spec.onEvent.suppressionPolicy.value.duration.Some?
    && turns[j].check < turns[i].start + spec.onEvent.suppressionPolicy.value.duration.value
  }

  /** For every stream of events, from the installation of a countermeasure on: an event handled is
      skipped if and only if an earlier event of the same key was run and its window is still open. */
  lemma SkippedIffInWindow(pass: Pass, builders: map<Kind, Builder>, m: Installed, key: ObjectKey, events: seq<Event>,
                           turns: seq<Turn>, j: nat)
    requires pass == PassOf(builders, key)
    requires Setup(m, key, events, turns, |events|) && j < |Served(pass, m, events, turns, |events|).0|
    ensures var handled := Served(pass, m, events, turns, |events|).0;
            && !handled[j].Ignored?
            && (handled[j].Skipped? <==>
                  exists i: nat :: i < j && InWindow(handled, events, turns, m[key].0.spec, i, j))
  {
    var before := Served(pass, m, events, turns, j);
    ServedAt(pass, m, events, turns, j, |events|);
    var clock := if j == 0 then turns[0].lookup else turns[j - 1].start;
    ServedAgrees(pass, builders, m, key, events, turns, j, clock);
    var starts := RunStarts(before.0, events, turns, j);
    HandledAgrees(before.1, builders, key, m[key].0, EventKey(events[j]), turns[j], starts, clock);
    var handled := Served(pass, m, events, turns, |events|).0;
    OpenIffInWindow(handled, events, turns, m[key].0.spec, j, starts, before.0);
  }

  lemma OpenIffInWindow(handled: seq<Handling>, events: seq<Event>, turns: seq<Turn>, spec: Spec, j: nat, starts: seq<Start>,
                        before: seq<Handling>)
    requires j < |handled| && j < |events| && j < |turns| && before == handled[..j] && starts == RunStarts(before, events, turns, j)
    ensures WindowOpen(Window(spec), starts, EventKey(events[j]), turns[j].check)
            <==> exists i: nat :: i < j && InWindow(handled, events, turns, spec, i, j)
  {
    if WindowOpen(Window(spec), starts, EventKey(events[j]), turns[j].check) {
      var k :| 0 <= k < |starts| && starts[k].key == EventKey(events[j]) && starts[k].at + Window(spec).value > turns[j].check;
      RunStartsMember(before, events, turns, j, starts[k]);
      var i: nat :| i < j && RanAs(before, events, turns, i, starts[k]);
      assert InWindow(handled, events, turns, spec, i, j);
    }
    if i: nat :| i < j && InWindow(handled, events, turns, spec, i, j) {
      var s := Start(EventKey(events[i]), turns[i].start);
      RunStartsMember(before, events, turns, j, s);
      assert RanAs(before, events, turns, i, s);
      var k :| 0 <= k < |starts| && starts[k] == s;
    }
  }

  /** Whatever event of the stream is run, its trace is that of the actions of the installed spec. */
  lemma RanRunsSpec(pass: Pass, builders: map<Kind, Builder>, m: Installed, key: ObjectKey, events: seq<Event>,
                    turns: seq<Turn>, j: nat)
    requires pass == PassOf(builders, key) && Setup(m, key, events, turns, |events|)
    requires j < |Served(pass, m, events, turns, |events|).0|
    ensures var r := Served(pass, m, events, turns, |events|).0[j]; r.Ran? ==> RunsSpec(m[key].0.spec, turns[j], r.trace)
  {
    var before := Served(pass, m, events, turns, j);
    ServedAt(pass, m, events, turns, j, |events|);
    ServedAgrees(pass, builders, m, key, events, turns, j, if j == 0 then 0 else turns[j - 1].start);
    HandledRunsSpec(before.1, builders, key, EventKey(events[j]), turns[j]);
  }

  /** A validated countermeasure, with an initialised registry and a client for its debug actions,
      runs every event it does not skip, and each run performs the actions of its spec. */
  lemma ValidatedRunsOrSkips(m: Installed, key: ObjectKey, events: seq<Event>, turns: seq<Turn>, j: nat)
    requires Setup(m, key, events, turns, |events|) && j < |Served(PassOf(STANDARD, key), m, events, turns, |events|).0|
    requires GoodSpec(m[key].0.spec) && turns[j].client
    ensures var handled := Served(PassOf(STANDARD, key), m, events, turns, |events|).0;
            && (handled[j].Ran? ==> RunsSpec(m[key].0.spec, turns[j], handled[j].trace))
            && (handled[j].Ran? <==> !exists i: nat :: i < j && InWindow(handled, events, turns, m[key].0.spec, i, j))
  {
    SkippedIffInWindow(PassOf(STANDARD, key), STANDARD, m, key, events, turns, j);
    RanRunsSpec(PassOf(STANDARD, key), STANDARD, m, key, events, turns, j);
    ServedAt(PassOf(STANDARD, key), m, events, turns, j, |events|);
    ServedAgrees(PassOf(STANDARD, key), STANDARD, m, key, events, turns, j, if j == 0 then 0 else turns[j - 1].start);
    GoodRunsOrSkips(Served(PassOf(STANDARD, key), m, events, turns, j).1, key, EventKey(events[j]), turns[j]);
  }

  /** Given the client throughout, it never panics: every event is handled. */
  lemma {:induction false} ValidatedServesAll(m: Installed, key: ObjectKey, events: seq<Event>, turns: seq<Turn>, n: nat)
    requires Setup(m, key, events, turns, n) && GoodSpec(m[key].0.spec) && forall i :: 0 <= i < n ==> turns[i].client
    ensures var handled := Served(PassOf(STANDARD, key), m, events, turns, n).0; |handled| == n && !Crashed(handled)
  {
    if n > 0 {
      ValidatedServesAll(m, key, events, turns, n - 1);
      var before := Served(PassOf(STANDARD, key), m, events, turns, n - 1);
      ServedAgrees(PassOf(STANDARD, key), STANDARD, m, key, events, turns, n - 1, if n == 1 then 0 else turns[n - 2].start);
      GoodRunsOrSkips(before.1, key, EventKey(events[n - 1]), turns[n - 1]);
    }
  }

  lemma GoodRunsOrSkips(m: Installed, key: ObjectKey, eventKey: Text, t: Turn)
    requires key in m && GoodSpec(m[key].0.spec) && Sensible(t) && t.client
    ensures var r := Handled(m, STANDARD, key, eventKey, t).0; r.Ran? <==> !r.Skipped?
  {
    ValidatedSpecsBuild(m[key].0.spec);
  }
}
