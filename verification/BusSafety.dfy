/** Safety of the event bus: what every step keeps. */
module BusSafety {
  import opened Texts
  import opened Topics
  import opened WorkQueues
  import opened BusProtocol

  lemma InitInv<C>(workers: nat)
    ensures Inv(NewBus<C>(workers))
  {
  }

  // ---------- no panic: neither a send on a closed channel nor a second close ----------

  lemma TargetIsRegistered<C>(s: Bus<C>, w: nat) returns (t: Text, i: nat)
    requires Inv(s) && AboutToSend(s, w)
    ensures t in s.subscribers && i < |s.subscribers[t]| && s.subscribers[t][i] == Target(s, w)
    ensures IsAncestor(t, AttemptOf(s, w).msg.topic)
  {
    var a := AttemptOf(s, w);
    assert AttemptOK(s, s.workers[w].attempt);
    t, i := MatchRegistered(s.subscribers, a.msg.topic, a.reached);
  }

  lemma TargetIsOpen<C>(s: Bus<C>, w: nat)
    requires Inv(s) && AboutToSend(s, w)
    ensures !s.chans[Target(s, w)].closed
  {
    var t, i := TargetIsRegistered(s, w);
    assert AttemptOf(s, w).msg in s.wq.processing;
  }

  lemma SendDoesNotPanic<C>(s: Bus<C>, w: nat)
    requires Inv(s) && Enabled(s, Send(w))
    ensures !Next(s, Send(w)).panicked
  {
    TargetIsOpen(s, w);
  }

  lemma CloseDoesNotPanic<C>(s: Bus<C>, a: Step<C>)
    requires TableOK(s) && Enabled(s, a) && !a.Send?
    ensures !Next(s, a).panicked
  {
  }

  // ---------- the work queue ----------

  lemma DoneKeepsQueue<C>(s: Bus<C>, w: nat)
    requires QueueOK(s) && WorkersOK(s) && Enabled(s, Done(w))
    ensures QueueOK(Next(s, Done(w)))
  {
  }

  lemma NextKeepsQueue<C>(s: Bus<C>, a: Step<C>)
    requires QueueOK(s) && Enabled(s, a) && !a.Done?
    ensures QueueOK(Next(s, a))
  {
    match a {
      case Publish(m) => AddValid(s.wq, m);
      case Mature(m) => AddValid(s.wq, m);
      case Get(w) => GetValid(s.wq);
      case _ =>
    }
  }

  // ---------- the subscriber table ----------

  lemma SubscribeKeepsTable<C>(s: Bus<C>, topic: Text, c: C)
    requires TableOK(s) && Enabled(s, Subscribe(topic, c))
    ensures TableOK(SubscribeStep(s, topic, c))
  {
  }

  lemma UnsubscribeKeepsTable<C>(s: Bus<C>, topic: Text, c: C)
    requires TableOK(s) && Enabled(s, Unsubscribe(topic, c))
    ensures TableOK(UnsubscribeStep(s, topic, c))
  {
  }

  lemma NextKeepsTable<C>(s: Bus<C>, a: Step<C>)
    requires TableOK(s) && Enabled(s, a)
    ensures TableOK(Next(s, a))
  {
    match a {
      case Subscribe(topic, c) => SubscribeKeepsTable(s, topic, c);
      case Unsubscribe(topic, c) => UnsubscribeKeepsTable(s, topic, c);
      case _ =>
    }
  }

  // ---------- the channels ----------

  lemma SendKeepsChans<C>(s: Bus<C>, w: nat)
    requires Inv(s) && Enabled(s, Send(w))
    ensures ChansOK(SendStep(s, w))
  {
    TargetIsOpen(s, w);
    var ch := s.chans[Target(s, w)];
    var m := AttemptOf(s, w).msg;
    assert EventsOf(ch.sent + [m]) == EventsOf(ch.sent) + [m.event];
    assert ch.received + (ch.buffer + [m.event]) == (ch.received + ch.buffer) + [m.event];
  }

  lemma ReceiveKeepsChans<C>(s: Bus<C>, c: C)
    requires ChansOK(s) && c in s.chans && s.chans[c].buffer != []
    ensures ChansOK(ReceiveStep(s, c))
  {
  }

  lemma SubscribeKeepsChans<C>(s: Bus<C>, topic: Text, c: C)
    requires ChansOK(s)
    ensures ChansOK(SubscribeStep(s, topic, c))
  {
  }

  lemma CloseKeepsChans<C>(s: Bus<C>, c: C)
    requires ChansOK(s) && c in s.chans
    ensures ChansOK(CloseChan(s, c))
  {
  }

  lemma NextKeepsChans<C>(s: Bus<C>, a: Step<C>)
    requires ChansOK(s) && Enabled(s, a) && !a.Send?
    ensures ChansOK(Next(s, a))
  {
    match a {
      case Subscribe(topic, c) => SubscribeKeepsChans(s, topic, c);
      case Unsubscribe(topic, c) =>
        var subs := Slice(s.subscribers, topic);
        var i := IndexOf(subs, c);
        if i < |subs| { CloseKeepsChans(s.(subscribers := s.subscribers[topic := RemoveAt(subs, i)]), c); }
      case Close(t, i) => CloseKeepsChans(s.(phase := Closing(s.phase.done + {(t, i)})), s.subscribers[t][i]);
      case Receive(c) => ReceiveKeepsChans(s, c);
      case _ =>
    }
  }

  // ---------- the workers ----------

  lemma GetKeepsWorkers<C>(s: Bus<C>, w: nat)
    requires Inv(s) && Enabled(s, Get(w))
    ensures WorkersOK(GetStep(s, w))
  {
    GetValid(s.wq);
    var r := GetStep(s, w);
    forall v | v != w && At(r, v) ensures At(s, v) && AttemptOf(r, v) == AttemptOf(s, v) { }
  }

  /** Rewriting the attempt of one worker leaves the others alone. */
  lemma AdvanceKeepsWorkers<C>(s: Bus<C>, w: nat, at: Worker, t: Attempt<C>)
    requires WorkersOK(s) && At(s, w)
    requires at.Sending? || at.Released?
    requires at.attempt == s.workers[w].attempt && t.msg == AttemptOf(s, w).msg && t.worker == w
    requires at.Sending? ==>
               && t.table == s.subscribers && t.status.Active?
               && t.targets == SubscriberMatch(s.subscribers, t.msg.topic).0
    requires at.Released? ==> !t.status.Active?
    ensures WorkersOK(Advance(s, w, at, t))
  {
    var r := Advance(s, w, at, t);
    forall v | v != w && At(r, v) ensures At(s, v) && AttemptOf(r, v) == AttemptOf(s, v) {
      assert AttemptOf(s, v).msg != AttemptOf(s, w).msg;
    }
  }

  lemma DoneKeepsWorkers<C>(s: Bus<C>, w: nat)
    requires Inv(s) && Enabled(s, Done(w))
    ensures WorkersOK(Next(s, Done(w)))
  {
  }

  lemma TableChangeKeepsWorkers<C>(s: Bus<C>, r: Bus<C>)
    requires WorkersOK(s) && r.workers == s.workers && r.attempts == s.attempts
    requires s.wq.processing <= r.wq.processing
    requires r.subscribers == s.subscribers || forall w :: w in s.workers ==> !s.workers[w].Sending?
    ensures WorkersOK(r)
  {
  }

  lemma MatchKeepsWorkers<C>(s: Bus<C>, w: nat)
    requires Inv(s) && Enabled(s, Match(w))
    ensures WorkersOK(MatchStep(s, w))
  {
    var t := AttemptOf(s, w);
    AdvanceKeepsWorkers(s, w, Sending(s.workers[w].attempt),
                        t.(table := s.subscribers, targets := SubscriberMatch(s.subscribers, t.msg.topic).0));
  }

  lemma SendKeepsWorkers<C>(s: Bus<C>, w: nat)
    requires Inv(s) && Enabled(s, Send(w))
    ensures WorkersOK(SendStep(s, w))
  {
    TargetIsOpen(s, w);
    var t := AttemptOf(s, w).(reached := AttemptOf(s, w).reached + 1);
    AdvanceKeepsWorkers(s, w, s.workers[w], t);
    TableChangeKeepsWorkers(Advance(s, w, s.workers[w], t), SendStep(s, w));
  }

  lemma BlockKeepsWorkers<C>(s: Bus<C>, w: nat)
    requires Inv(s) && Enabled(s, Block(w))
    ensures WorkersOK(BlockStep(s, w))
  {
    var t := AttemptOf(s, w).(status := Blocked);
    AdvanceKeepsWorkers(s, w, Released(s.workers[w].attempt), t);
    TableChangeKeepsWorkers(Advance(s, w, Released(s.workers[w].attempt), t), BlockStep(s, w));
  }

  lemma FinishKeepsWorkers<C>(s: Bus<C>, w: nat)
    requires Inv(s) && Enabled(s, Finish(w))
    ensures WorkersOK(FinishStep(s, w))
  {
    AdvanceKeepsWorkers(s, w, Released(s.workers[w].attempt), AttemptOf(s, w).(status := Delivered));
  }

  lemma ExitKeepsWorkers<C>(s: Bus<C>, w: nat)
    requires Inv(s) && Enabled(s, Exit(w))
    ensures WorkersOK(Next(s, Exit(w)))
  {
  }

  predicate IsWorkerStep<C>(a: Step<C>) {
    a.Get? || a.Match? || a.Send? || a.Block? || a.Finish? || a.Done? || a.Exit?
  }

  lemma OthersKeepWorkers<C>(s: Bus<C>, a: Step<C>)
    requires QueueOK(s) && WorkersOK(s) && Enabled(s, a) && !IsWorkerStep(a)
    ensures WorkersOK(Next(s, a))
  {
    TableChangeKeepsWorkers(s, Next(s, a));
  }

  lemma NextKeepsWorkers<C>(s: Bus<C>, a: Step<C>)
    requires Inv(s) && Enabled(s, a) && IsWorkerStep(a)
    ensures WorkersOK(Next(s, a))
  {
    match a {
      case Get(w) => GetKeepsWorkers(s, w);
      case Match(w) => MatchKeepsWorkers(s, w);
      case Send(w) => SendKeepsWorkers(s, w);
      case Block(w) => BlockKeepsWorkers(s, w);
      case Finish(w) => FinishKeepsWorkers(s, w);
      case Done(w) => DoneKeepsWorkers(s, w);
      case Exit(w) => ExitKeepsWorkers(s, w);
    }
  }

  // ---------- the attempts ----------

  lemma AttemptFrame<C>(s: Bus<C>, r: Bus<C>, a: nat)
    requires a < |s.attempts| && a < |r.attempts| && AttemptOK(s, a)
    requires r.attempts[a] == s.attempts[a] && s.chans.Keys <= r.chans.Keys
    requires s.attempts[a].status.Active? ==>
               At(r, s.attempts[a].worker) && r.workers[s.attempts[a].worker] == s.workers[s.attempts[a].worker]
    ensures AttemptOK(r, a)
  {
  }

  /** A step of worker `w` that rewrites only its own attempt leaves the others in order. */
  lemma AdvanceKeepsAttempts<C>(s: Bus<C>, r: Bus<C>, w: nat)
    requires Inv(s) && At(s, w) && |r.attempts| == |s.attempts| && s.chans.Keys <= r.chans.Keys
    requires forall a :: 0 <= a < |s.attempts| && a != s.workers[w].attempt ==> r.attempts[a] == s.attempts[a]
    requires w in r.workers && r.workers == s.workers[w := r.workers[w]]
    requires AttemptOK(r, s.workers[w].attempt)
    ensures AttemptsOK(r)
  {
    forall a | 0 <= a < |r.attempts| ensures AttemptOK(r, a) {
      if a != s.workers[w].attempt {
        assert AttemptOK(s, a);
        if s.attempts[a].status.Active? { assert s.attempts[a].worker != w; }
        AttemptFrame(s, r, a);
      }
    }
  }

  lemma SameWorkersKeepAttempts<C>(s: Bus<C>, r: Bus<C>)
    requires AttemptsOK(s) && r.attempts == s.attempts && r.workers == s.workers && s.chans.Keys <= r.chans.Keys
    ensures AttemptsOK(r)
  {
    forall a | 0 <= a < |r.attempts| ensures AttemptOK(r, a) {
      assert AttemptOK(s, a);
      AttemptFrame(s, r, a);
    }
  }

  lemma MatchKeepsAttempts<C>(s: Bus<C>, w: nat)
    requires Inv(s) && Enabled(s, Match(w))
    ensures AttemptsOK(MatchStep(s, w))
  {
    var r := MatchStep(s, w);
    var t := AttemptOf(s, w);
    assert AttemptOK(s, s.workers[w].attempt);
    MatchDistinct(s.subscribers, t.msg.topic);
    var targets := SubscriberMatch(s.subscribers, t.msg.topic).0;
    forall k | 0 <= k < |targets| ensures targets[k] in s.chans {
      var topic, i := MatchRegistered(s.subscribers, t.msg.topic, k);
    }
    assert AttemptOK(r, s.workers[w].attempt);
    AdvanceKeepsAttempts(s, r, w);
  }

  lemma GetKeepsAttempts<C>(s: Bus<C>, w: nat)
    requires Inv(s) && Enabled(s, Get(w))
    ensures AttemptsOK(GetStep(s, w))
  {
    var r := GetStep(s, w);
    forall a | 0 <= a < |r.attempts| ensures AttemptOK(r, a) {
      if a < |s.attempts| {
        assert AttemptOK(s, a);
        if s.attempts[a].status.Active? { assert s.attempts[a].worker != w; }
        AttemptFrame(s, r, a);
      }
    }
  }

  lemma SendKeepsAttempts<C>(s: Bus<C>, w: nat)
    requires Inv(s) && Enabled(s, Send(w))
    ensures AttemptsOK(SendStep(s, w))
  {
    TargetIsOpen(s, w);
    assert AttemptOK(s, s.workers[w].attempt);
    AdvanceKeepsAttempts(s, SendStep(s, w), w);
  }

  lemma BlockKeepsAttempts<C>(s: Bus<C>, w: nat)
    requires Inv(s) && Enabled(s, Block(w))
    ensures AttemptsOK(BlockStep(s, w))
  {
    assert AttemptOK(s, s.workers[w].attempt);
    AdvanceKeepsAttempts(s, BlockStep(s, w), w);
  }

  lemma FinishKeepsAttempts<C>(s: Bus<C>, w: nat)
    requires Inv(s) && Enabled(s, Finish(w))
    ensures AttemptsOK(FinishStep(s, w))
  {
    assert AttemptOK(s, s.workers[w].attempt);
    AdvanceKeepsAttempts(s, FinishStep(s, w), w);
  }

  lemma DoneKeepsAttempts<C>(s: Bus<C>, w: nat)
    requires Inv(s) && Enabled(s, Done(w))
    ensures AttemptsOK(Next(s, Done(w)))
  {
    assert AttemptOK(s, s.workers[w].attempt);
    AdvanceKeepsAttempts(s, Next(s, Done(w)), w);
  }

  lemma ExitKeepsAttempts<C>(s: Bus<C>, w: nat)
    requires Inv(s) && Enabled(s, Exit(w))
    ensures AttemptsOK(Next(s, Exit(w)))
  {
    var r := Next(s, Exit(w));
    forall i | 0 <= i < |s.attempts| ensures AttemptOK(r, i) {
      assert AttemptOK(s, i);
      AttemptFrame(s, r, i);
    }
  }

  lemma OthersKeepAttempts<C>(s: Bus<C>, a: Step<C>)
    requires AttemptsOK(s) && Enabled(s, a) && !IsWorkerStep(a)
    ensures AttemptsOK(Next(s, a))
  {
    SameWorkersKeepAttempts(s, Next(s, a));
  }

  lemma NextKeepsAttempts<C>(s: Bus<C>, a: Step<C>)
    requires Inv(s) && Enabled(s, a) && IsWorkerStep(a)
    ensures AttemptsOK(Next(s, a))
  {
    match a {
      case Get(w) => GetKeepsAttempts(s, w);
      case Match(w) => MatchKeepsAttempts(s, w);
      case Send(w) => SendKeepsAttempts(s, w);
      case Block(w) => BlockKeepsAttempts(s, w);
      case Finish(w) => FinishKeepsAttempts(s, w);
      case Done(w) => DoneKeepsAttempts(s, w);
      case Exit(w) => ExitKeepsAttempts(s, w);
    }
  }

  lemma NextKeepsInv<C>(s: Bus<C>, a: Step<C>)
    requires Inv(s) && Enabled(s, a)
    ensures Inv(Next(s, a))
  {
    if a.Send? { SendDoesNotPanic(s, a.worker); } else { CloseDoesNotPanic(s, a); }
    if a.Done? { DoneKeepsQueue(s, a.worker); } else { NextKeepsQueue(s, a); }
    NextKeepsTable(s, a);
    if a.Send? { SendKeepsChans(s, a.worker); } else { NextKeepsChans(s, a); }
    if IsWorkerStep(a) {
      NextKeepsWorkers(s, a);
      NextKeepsAttempts(s, a);
    } else {
      OthersKeepWorkers(s, a);
      OthersKeepAttempts(s, a);
    }
  }
}
