/** The fan-in of several consumers into one (pkg/eventbus/consumer.go). Producers send to and close
    the inputs while a goroutine selects a ready input, and hands what it received to the reader of
    an unbuffered channel. */
module Merging {
  import opened Texts
  import opened Events

  /** An input channel: everything ever sent on it, how much of it has been received, and whether it
      has been closed. */
  datatype Input = Input(sent: seq<Event>, taken: nat, closed: bool)

  /** The goroutine waits in the select, waits for the reader with an event, or has returned. */
  datatype Phase = Selecting | Offering(event: Event, ok: bool) | Returned

  /** `received` and `origins` record every event received from an input, and which input it was. */
  datatype Merger = Merger(inputs: seq<Input>, phase: Phase, out: seq<Event>, received: seq<Event>, origins: seq<nat>)

  datatype Step = Send(input: nat, event: Event) | Close(input: nat) | Select(input: nat) | Emit

  predicate Drained(c: Input) {
    c.taken >= |c.sent|
  }

  /** A receive on the channel does not block. */
  predicate Ready(c: Input) {
    !Drained(c) || c.closed
  }

  function NewMerger(n: nat): Merger {
    Merger(seq(n, _ => Input([], 0, false)), Selecting, [], [], [])
  }

  predicate Enabled(s: Merger, a: Step) {
    match a
    case Send(i, _) => i < |s.inputs| && !s.inputs[i].closed
    case Close(i) => i < |s.inputs| && !s.inputs[i].closed
    case Select(i) => i < |s.inputs| && s.phase.Selecting? && Ready(s.inputs[i])
    case Emit => s.phase.Offering?
  }

  /** The step selects an input that is closed and has nothing left. */
  predicate SelectsClosed(s: Merger, a: Step)
    requires Enabled(s, a)
  {
    a.Select? && Drained(s.inputs[a.input])
  }

  function Next(s: Merger, a: Step): Merger
    requires Enabled(s, a)
  {
    match a
    case Send(i, e) => s.(inputs := s.inputs[i := s.inputs[i].(sent := s.inputs[i].sent + [e])])
    case Close(i) => s.(inputs := s.inputs[i := s.inputs[i].(closed := true)])
    case Select(i) =>
      var c := s.inputs[i];
      if Drained(c) then s.(phase := Offering(ZERO_EVENT, false))
      else s.(inputs := s.inputs[i := c.(taken := c.taken + 1)], phase := Offering(c.sent[c.taken], true),
              received := s.received + [c.sent[c.taken]], origins := s.origins + [i])
    case Emit => s.(phase := if s.phase.ok then Selecting else Returned, out := s.out + [s.phase.event])
  }

  predicate Run(s: Merger, steps: seq<Step>)
    decreases |steps|
  {
    steps == [] || (Enabled(s, steps[0]) && Run(Next(s, steps[0]), steps[1..]))
  }

  function After(s: Merger, steps: seq<Step>): Merger
    requires Run(s, steps)
    decreases |steps|
  {
    if steps == [] then s else After(Next(s, steps[0]), steps[1..])
  }

  lemma {:induction false} RunAppend(s: Merger, p: seq<Step>, q: seq<Step>)
    requires Run(s, p) && Run(After(s, p), q)
    ensures Run(s, p + q) && After(s, p + q) == After(After(s, p), q)
    decreases |p|
  {
    if p == [] {
      assert p + q == q;
    } else {
      assert (p + q)[1..] == p[1..] + q;
      RunAppend(Next(s, p[0]), p[1..], q);
    }
  }

  lemma RunOne(s: Merger, a: Step)
    requires Enabled(s, a)
    ensures Run(s, [a]) && After(s, [a]) == Next(s, a)
  {
  }

  // ---------- interleavings ----------

  /** The events of `out` that came from input `i`, in order. */
  function Project(out: seq<Event>, origins: seq<nat>, i: nat): seq<Event>
    requires |out| == |origins|
  {
    if out == [] then [] else
      var n := |out| - 1;
      Project(out[..n], origins[..n], i) + (if origins[n] == i then [out[n]] else [])
  }

  /** `out` is made of the streams `parts`, each kept in its own order. */
  ghost predicate Interleaves(out: seq<Event>, origins: seq<nat>, parts: seq<seq<Event>>) {
    && |out| == |origins|
    && (forall k :: 0 <= k < |origins| ==> origins[k] < |parts|)
    && (forall i :: 0 <= i < |parts| ==> Project(out, origins, i) == parts[i])
  }

  lemma ProjectSnoc(out: seq<Event>, origins: seq<nat>, e: Event, i: nat, j: nat)
    requires |out| == |origins|
    ensures Project(out + [e], origins + [i], j) == Project(out, origins, j) + (if i == j then [e] else [])
  {
  }

  /** A prefix of an interleaving interleaves prefixes of the parts. */
  lemma {:induction false} ProjectPrefix(out: seq<Event>, origins: seq<nat>, n: nat, i: nat)
    requires |out| == |origins| && n <= |out|
    ensures Project(out[..n], origins[..n], i) <= Project(out, origins, i)
    decreases |out| - n
  {
    if n < |out| {
      ProjectPrefix(out, origins, n + 1, i);
      assert out[..n + 1] == out[..n] + [out[n]] && origins[..n + 1] == origins[..n] + [origins[n]];
      ProjectSnoc(out[..n], origins[..n], out[n], origins[n], i);
    } else {
      assert out[..n] == out && origins[..n] == origins;
    }
  }

  // ---------- the invariant ----------

  /** What has been received from each input. */
  function Parts(s: Merger): (r: seq<seq<Event>>)
    requires forall i :: 0 <= i < |s.inputs| ==> s.inputs[i].taken <= |s.inputs[i].sent|
    ensures |r| == |s.inputs|
    ensures forall i :: 0 <= i < |r| ==> r[i] <= s.inputs[i].sent && |r[i]| == s.inputs[i].taken
  {
    seq(|s.inputs|, i requires 0 <= i < |s.inputs| => s.inputs[i].sent[..s.inputs[i].taken])
  }

  ghost predicate Inv(s: Merger) {
    && (forall i :: 0 <= i < |s.inputs| ==> s.inputs[i].taken <= |s.inputs[i].sent|)
    && Interleaves(s.received, s.origins, Parts(s))
    && match s.phase
       case Selecting => s.out == s.received
       case Offering(e, true) => s.received != [] && s.received == s.out + [e]
       case Offering(e, false) => s.out == s.received && e == ZERO_EVENT
       case Returned => s.out == s.received + [ZERO_EVENT]
  }

  lemma {:induction false} InitInv(n: nat)
    ensures Inv(NewMerger(n))
  {
  }

  lemma NextKeepsInv(s: Merger, a: Step)
    requires Inv(s) && Enabled(s, a)
    ensures Inv(Next(s, a))
  {
    var r := Next(s, a);
    forall i | 0 <= i < |r.inputs| ensures Project(r.received, r.origins, i) == Parts(r)[i] {
      assert Project(s.received, s.origins, i) == Parts(s)[i];
      if a.Select? && !Drained(s.inputs[a.input]) {
        var c := s.inputs[a.input];
        ProjectSnoc(s.received, s.origins, c.sent[c.taken], a.input, i);
        assert c.sent[..c.taken + 1] == c.sent[..c.taken] + [c.sent[c.taken]];
      }
    }
  }

  lemma {:induction false} RunKeepsInv(s: Merger, steps: seq<Step>)
    requires Inv(s) && Run(s, steps)
    ensures Inv(After(s, steps))
    decreases |steps|
  {
    if steps != [] {
      NextKeepsInv(s, steps[0]);
      RunKeepsInv(Next(s, steps[0]), steps[1..]);
    }
  }

  // ---------- the merged stream ----------

  /** How often a run selects an input that is closed and has nothing left. */
  function ClosedSelects(s: Merger, steps: seq<Step>): nat
    requires Run(s, steps)
    decreases |steps|
  {
    if steps == [] then 0
    else (if SelectsClosed(s, steps[0]) then 1 else 0) + ClosedSelects(Next(s, steps[0]), steps[1..])
  }

  /** The goroutine has seen a closed input. */
  predicate Ending(s: Merger) {
    s.phase.Returned? || (s.phase.Offering? && !s.phase.ok)
  }

  lemma {:induction false} EndsOnce(s: Merger, steps: seq<Step>)
    requires Run(s, steps)
    ensures ClosedSelects(s, steps) + (if Ending(s) then 1 else 0) == if Ending(After(s, steps)) then 1 else 0
    decreases |steps|
  {
    if steps != [] { EndsOnce(Next(s, steps[0]), steps[1..]); }
  }

  /** In every run the merged stream interleaves prefixes of the input streams, each in its own
      order, and is followed by the zero event only after a closed input has been selected, which
      happens at most once. */
  lemma MergedStream(n: nat, steps: seq<Step>)
    requires Run(NewMerger(n), steps)
    ensures var s := After(NewMerger(n), steps);
            exists events, origins, parts ::
              && Interleaves(events, origins, parts) && |parts| == |s.inputs|
              && (forall i :: 0 <= i < |parts| ==> parts[i] <= s.inputs[i].sent)
              && s.out == events + (if s.phase.Returned? then [ZERO_EVENT] else [])
    ensures ClosedSelects(NewMerger(n), steps) == if Ending(After(NewMerger(n), steps)) then 1 else 0
  {
    InitInv(n);
    RunKeepsInv(NewMerger(n), steps);
    EndsOnce(NewMerger(n), steps);
    var s := After(NewMerger(n), steps);
    var m := if s.phase.Offering? && s.phase.ok then |s.received| - 1 else |s.received|;
    var parts := seq(|s.inputs|, i requires 0 <= i < |s.inputs| => Project(s.received[..m], s.origins[..m], i));
    forall i | 0 <= i < |parts| ensures parts[i] <= s.inputs[i].sent {
      ProjectPrefix(s.received, s.origins, m, i);
    }
    assert s.received[..|s.received|] == s.received;
    assert Interleaves(s.received[..m], s.origins[..m], parts);
  }

  /** Nothing follows the zero event, whatever happens to the inputs. */
  lemma {:induction false} NothingAfterReturn(s: Merger, steps: seq<Step>)
    requires s.phase.Returned? && Run(s, steps)
    ensures After(s, steps).phase.Returned? && After(s, steps).out == s.out
    decreases |steps|
  {
    if steps != [] { NothingAfterReturn(Next(s, steps[0]), steps[1..]); }
  }

  /** While the goroutine has seen no closed input nothing is dropped: at most one event is between
      an input and the reader. */
  lemma NothingDropped(n: nat, steps: seq<Step>)
    requires Run(NewMerger(n), steps)
    ensures var s := After(NewMerger(n), steps);
            s.out + (if s.phase.Offering? && s.phase.ok then [s.phase.event] else [])
            == s.received + (if s.phase.Returned? then [ZERO_EVENT] else [])
  {
    InitInv(n);
    RunKeepsInv(NewMerger(n), steps);
  }

  // ---------- the goroutine ----------

  datatype Error = ErrChannelClosed

  /** One select over the inputs, which picks input `pick`. */
  method Merge(inputs: seq<Input>, pick: nat) returns (event: Event, err: Option<Error>, rest: seq<Input>)
    requires pick < |inputs| && Ready(inputs[pick])
    ensures err.Some? <==> Drained(inputs[pick])
    ensures err.Some? ==> event == ZERO_EVENT && rest == inputs
    ensures err.None? ==>
              && event == inputs[pick].sent[inputs[pick].taken]
              && rest == inputs[pick := inputs[pick].(taken := inputs[pick].taken + 1)]
  {
    var c := inputs[pick];
    if Drained(c) {
      return ZERO_EVENT, Some(ErrChannelClosed), inputs;
    }
    return c.sent[c.taken], None, inputs[pick := c.(taken := c.taken + 1)];
  }

  /** One turn of the goroutine: what the producers do while it waits in the select, the input it then
      picks, and what they do while it waits for the reader. */
  datatype Turn = Turn(before: seq<Step>, pick: nat, during: seq<Step>)

  predicate FromProducers(steps: seq<Step>) {
    forall k :: 0 <= k < |steps| ==> steps[k].Send? || steps[k].Close?
  }

  lemma {:induction false} ProducersOnly(s: Merger, steps: seq<Step>)
    requires Run(s, steps) && FromProducers(steps)
    ensures After(s, steps) == s.(inputs := After(s, steps).inputs)
    decreases |steps|
  {
    if steps != [] {
      assert FromProducers(steps[1..]);
      ProducersOnly(Next(s, steps[0]), steps[1..]);
    }
  }

  /** What the producers do while the goroutine waits. */
  method Wait(n: nat, steps: seq<Step>, s: Merger, more: seq<Step>) returns (r: Merger)
    requires Run(NewMerger(n), steps) && After(NewMerger(n), steps) == s && FromProducers(more) && Run(s, more)
    ensures Run(NewMerger(n), steps + more) && After(NewMerger(n), steps + more) == r
    ensures r == s.(inputs := r.inputs)
  {
    r := After(s, more);
    ProducersOnly(s, more);
    RunAppend(NewMerger(n), steps, more);
  }

  lemma RunSnoc(s: Merger, steps: seq<Step>, a: Step)
    requires Run(s, steps) && Enabled(After(s, steps), a)
    ensures Run(s, steps + [a]) && After(s, steps + [a]) == Next(After(s, steps), a)
  {
    RunOne(After(s, steps), a);
    RunAppend(s, steps, [a]);
  }

  /** The forwarding loop. It goes round while the schedule has turns that can be taken and no closed
      input has been picked; what it emits is what a run of the machine emits. */
  method Forward(n: nat, turns: seq<Turn>) returns (steps: seq<Step>, out: seq<Event>, ok: bool)
    ensures Run(NewMerger(n), steps) && After(NewMerger(n), steps).out == out
    ensures ok <==> !Ending(After(NewMerger(n), steps))
  {
    var s := NewMerger(n);
    steps, out, ok := [], [], true;
    var k := 0;
    while ok && k < |turns|
      invariant 0 <= k <= |turns|
      invariant Run(NewMerger(n), steps) && After(NewMerger(n), steps) == s
      invariant out == s.out && s.phase == if ok then Selecting else Returned
    {
      var turn := turns[k];
      if !FromProducers(turn.before) || !Run(s, turn.before) { return; }
      s := Wait(n, steps, s, turn.before);
      steps := steps + turn.before;
      if turn.pick >= |s.inputs| || !Ready(s.inputs[turn.pick]) { return; }
      var event, err, rest := Merge(s.inputs, turn.pick);
      if err.Some? {
        ok := false;
      }
      RunSnoc(NewMerger(n), steps, Select(turn.pick));
      s := Merger(rest, Offering(event, ok), out, if ok then s.received + [event] else s.received,
                  if ok then s.origins + [turn.pick] else s.origins);
      steps := steps + [Select(turn.pick)];
      if !FromProducers(turn.during) || !Run(s, turn.during) { return; }
      s := Wait(n, steps, s, turn.during);
      steps := steps + turn.during;
      RunSnoc(NewMerger(n), steps, Emit);
      out := out + [event];
      s := s.(phase := if ok then Selecting else Returned, out := out);
      steps := steps + [Emit];
      k := k + 1;
    }
  }
}
