/** Suppression of repeated events (pkg/actions/state/state.go): the pruned table of an entry gives
    the same verdicts as the full history of its runs. */
module Suppression {
  import opened Texts

  /** What an entry holds: its window, whether a run is in progress, and until when each event key
      is suppressed. */
  datatype EntryState = EntryState(window: Option<int>, running: bool, lastRuns: map<Text, int>)

  /** A run for event key `key` that started at time `at`. */
  datatype Start = Start(key: Text, at: int)

  function NewEntry(window: Option<int>): EntryState {
    EntryState(window, false, map[])
  }

  /** Entries that lie strictly in the past are dropped. */
  function Prune(e: EntryState, now: int): EntryState {
    e.(lastRuns := map k | k in e.lastRuns && !(e.lastRuns[k] < now) :: e.lastRuns[k])
  }

  function RecordStart(e: EntryState, key: Text, now: int): EntryState {
    e.(running := true,
       lastRuns := if e.window.Some? then e.lastRuns[key := now + e.window.value] else e.lastRuns)
  }

  function RecordEnd(e: EntryState): EntryState {
    e.(running := false)
  }

  predicate IsSuppressed(e: EntryState, key: Text, now: int) {
    e.running || (key in e.lastRuns && e.lastRuns[key] > now)
  }

  // ---------- the never-pruned reference ----------

  /** Some recorded run of `key` has a window that is still open at `now`. */
  ghost predicate WindowOpen(window: Option<int>, starts: seq<Start>, key: Text, now: int) {
    window.Some? && exists i :: 0 <= i < |starts| && starts[i].key == key && starts[i].at + window.value > now
  }

  /** The table agrees with the history up to time `clock`. */
  ghost predicate Faithful(e: EntryState, starts: seq<Start>, clock: int) {
    && (forall i :: 0 <= i < |starts| ==> starts[i].at <= clock)
    && (e.window.None? ==> e.lastRuns == map[])
    && (e.window.Some? ==>
          && (forall k :: k in e.lastRuns ==>
                exists i :: 0 <= i < |starts| && starts[i].key == k && starts[i].at + e.window.value == e.lastRuns[k])
          && (forall i :: 0 <= i < |starts| ==>
                if starts[i].key in e.lastRuns then starts[i].at + e.window.value <= e.lastRuns[starts[i].key]
                else starts[i].at + e.window.value < clock))
  }

  lemma PruneFaithful(e: EntryState, starts: seq<Start>, clock: int, now: int)
    requires Faithful(e, starts, clock) && clock <= now
    ensures Faithful(Prune(e, now), starts, now)
  {
  }

  lemma StartFaithful(e: EntryState, starts: seq<Start>, clock: int, key: Text, now: int)
    requires Faithful(e, starts, clock) && clock <= now
    ensures Faithful(RecordStart(e, key, now), starts + [Start(key, now)], now)
  {
    var r, h := RecordStart(e, key, now), starts + [Start(key, now)];
    if e.window.Some? {
      forall k | k in r.lastRuns
        ensures exists i :: 0 <= i < |h| && h[i].key == k && h[i].at + e.window.value == r.lastRuns[k]
      {
        if k == key {
          assert h[|starts|].key == k;
        } else {
          var i :| 0 <= i < |starts| && starts[i].key == k && starts[i].at + e.window.value == e.lastRuns[k];
          assert h[i] == starts[i];
        }
      }
    }
  }

  lemma FaithfulLater(e: EntryState, starts: seq<Start>, clock: int, now: int)
    requires Faithful(e, starts, clock) && clock <= now
    ensures Faithful(e, starts, now)
  {
  }

  /** The verdict of the table is the verdict of the history. */
  lemma FaithfulVerdict(e: EntryState, starts: seq<Start>, clock: int, key: Text, now: int)
    requires Faithful(e, starts, clock) && clock <= now
    ensures IsSuppressed(e, key, now) <==> e.running || WindowOpen(e.window, starts, key, now)
  {
  }

  // ---------- any sequence of operations ----------

  datatype Op = GetOp(now: int) | StartOp(key: Text, now: int) | EndOp(now: int) | CheckOp(key: Text, now: int)

  function ApplyOp(e: EntryState, op: Op): EntryState {
    match op
    case GetOp(now) => Prune(e, now)
    case StartOp(key, now) => RecordStart(e, key, now)
    case EndOp(_) => RecordEnd(e)
    case CheckOp(_, _) => e
  }

  function ApplyAll(e: EntryState, ops: seq<Op>): EntryState {
    if ops == [] then e else ApplyOp(ApplyAll(e, ops[..|ops| - 1]), ops[|ops| - 1])
  }

  /** The clock never runs backwards. */
  ghost predicate Monotone(ops: seq<Op>) {
    forall i, j :: 0 <= i < j < |ops| ==> ops[i].now <= ops[j].now
  }

  /** Every start among the operations, nothing dropped. */
  function Starts(ops: seq<Op>): seq<Start> {
    if ops == [] then [] else
      var n := |ops| - 1;
      Starts(ops[..n]) + StartsOf(ops[n])
  }

  function StartsOf(op: Op): seq<Start> {
    if op.StartOp? then [Start(op.key, op.now)] else []
  }

  /** The last of the starts and ends is a start. */
  function InProgress(ops: seq<Op>): bool {
    if ops == [] then false else
      var n := |ops| - 1;
      if ops[n].StartOp? then true else if ops[n].EndOp? then false else InProgress(ops[..n])
  }

  lemma OpFaithful(e: EntryState, starts: seq<Start>, op: Op, clock: int)
    requires Faithful(e, starts, clock) && clock <= op.now
    ensures Faithful(ApplyOp(e, op), starts + StartsOf(op), op.now)
  {
    match op {
      case GetOp(t) => PruneFaithful(e, starts, clock, t);
      case StartOp(key, t) => StartFaithful(e, starts, clock, key, t);
      case _ =>
    }
    assert !op.StartOp? ==> starts + StartsOf(op) == starts;
  }

  function LastTime(ops: seq<Op>, default: int): int {
    if ops == [] then default else ops[|ops| - 1].now
  }

  lemma {:induction false} OpsFaithful(window: Option<int>, ops: seq<Op>, default: int)
    requires Monotone(ops)
    ensures var e := ApplyAll(NewEntry(window), ops);
            e.window == window && e.running == InProgress(ops) && Faithful(e, Starts(ops), LastTime(ops, default))
  {
    if ops != [] {
      var n := |ops| - 1;
      OpsFaithful(window, ops[..n], ops[n].now);
      OpFaithful(ApplyAll(NewEntry(window), ops[..n]), Starts(ops[..n]), ops[n], LastTime(ops[..n], ops[n].now));
    }
  }

  /** Pruning refines history: after any operations under a monotone clock, the verdict of the
      pruned table equals the verdict of the never-pruned record of all runs. */
  lemma {:induction false} PruningRefinesHistory(window: Option<int>, ops: seq<Op>, key: Text, now: int)
    requires Monotone(ops) && forall i :: 0 <= i < |ops| ==> ops[i].now <= now
    ensures IsSuppressed(ApplyAll(NewEntry(window), ops), key, now)
            <==> InProgress(ops) || WindowOpen(window, Starts(ops), key, now)
  {
    OpsFaithful(window, ops, now);
    FaithfulVerdict(ApplyAll(NewEntry(window), ops), Starts(ops), LastTime(ops, now), key, now);
  }

  // ---------- the table stays small ----------

  function RecentKeys(starts: seq<Start>, since: int): set<Text> {
    set i | 0 <= i < |starts| && starts[i].at >= since :: starts[i].key
  }

  function CountSince(starts: seq<Start>, since: int): nat {
    if starts == [] then 0 else
      var n := |starts| - 1;
      CountSince(starts[..n], since) + (if starts[n].at >= since then 1 else 0)
  }

  lemma {:induction false} RecentKeysBound(starts: seq<Start>, since: int)
    ensures |RecentKeys(starts, since)| <= CountSince(starts, since)
  {
    if starts != [] {
      var n := |starts| - 1;
      RecentKeysBound(starts[..n], since);
      var before := RecentKeys(starts[..n], since);
      if starts[n].at >= since {
        assert RecentKeys(starts, since) == before + {starts[n].key} by { RecentKeysSnoc(starts, since); }
      } else {
        assert RecentKeys(starts, since) == before by { RecentKeysSnoc(starts, since); }
      }
    }
  }

  lemma RecentKeysSnoc(starts: seq<Start>, since: int)
    requires starts != []
    ensures var n := |starts| - 1;
            RecentKeys(starts, since)
            == RecentKeys(starts[..n], since) + (if starts[n].at >= since then {starts[n].key} else {})
  {
  }

  lemma PrunedKeysRecent(e: EntryState, starts: seq<Start>, clock: int, now: int)
    requires Faithful(e, starts, clock) && clock <= now && e.window.Some?
    ensures Prune(e, now).lastRuns.Keys <= RecentKeys(starts, now - e.window.value)
  {
  }

  lemma PrunedTableBound(e: EntryState, starts: seq<Start>, clock: int, now: int)
    requires Faithful(e, starts, clock) && clock <= now && e.window.Some?
    ensures |Prune(e, now).lastRuns| <= CountSince(starts, now - e.window.value)
  {
    var m := Prune(e, now).lastRuns;
    PrunedKeysRecent(e, starts, clock, now);
    SubsetSize(m.Keys, RecentKeys(starts, now - e.window.value));
    RecentKeysBound(starts, now - e.window.value);
    assert |m| == |m.Keys|;
  }

  /** Right after a Get the table holds no more keys than runs started within the last window. */
  lemma {:induction false} TableBoundedAfterGet(window: int, ops: seq<Op>, now: int, e: EntryState)
    requires Monotone(ops) && LastTime(ops, now) <= now && e == ApplyAll(NewEntry(Some(window)), ops)
    ensures |Prune(e, now).lastRuns| <= CountSince(Starts(ops), now - window)
  {
    OpsFaithful(Some(window), ops, now);
    PrunedTableBound(e, Starts(ops), LastTime(ops, now), now);
  }

  lemma {:induction false} SubsetSize(a: set<Text>, b: set<Text>)
    requires a <= b
    ensures |a| <= |b|
  {
    if a != {} {
      var x :| x in a;
      SubsetSize(a - {x}, b - {x});
    }
  }
}
