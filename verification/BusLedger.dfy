/** What the event bus delivers: an exact ledger of copies, and no message lost. */
module BusLedger {
  import opened Texts
  import opened Topics
  import opened BusProtocol
  import opened BusSafety
  import opened BusOrigins
  import opened Sealing

  // ---------- the ledger ----------

  /** The attempt has put `m` on channel `c`. */
  predicate Hit<C(==)>(t: Attempt<C>, m: Message, c: C) {
    t.msg == m && t.reached <= |t.targets| && c in t.targets[..t.reached]
  }

  /** The number of attempts that have put `m` on channel `c`. */
  function Copies<C(==)>(attempts: seq<Attempt<C>>, m: Message, c: C): nat {
    if attempts == [] then 0 else
      Copies(attempts[..|attempts| - 1], m, c) + (if Hit(attempts[|attempts| - 1], m, c) then 1 else 0)
  }

  /** Every channel holds exactly as many copies of a message as attempts reached it. */
  ghost predicate LedgerOK<C>(s: Bus<C>) {
    forall c, m :: c in s.chans ==> multiset(s.chans[c].sent)[m] == Copies(s.attempts, m, c)
  }

  lemma {:induction false} CopiesUpdate<C>(attempts: seq<Attempt<C>>, i: nat, t: Attempt<C>, m: Message, c: C)
    requires i < |attempts|
    ensures Copies(attempts[i := t], m, c) - (if Hit(t, m, c) then 1 else 0)
            == Copies(attempts, m, c) - (if Hit(attempts[i], m, c) then 1 else 0)
  {
    var n := |attempts| - 1;
    if i == n {
      assert attempts[i := t][..n] == attempts[..n];
    } else {
      CopiesUpdate(attempts[..n], i, t, m, c);
      assert attempts[i := t][..n] == attempts[..n][i := t];
    }
  }

  lemma {:induction false} NoCopies<C>(attempts: seq<Attempt<C>>, m: Message, c: C)
    requires forall a :: 0 <= a < |attempts| ==> c !in attempts[a].targets
    ensures Copies(attempts, m, c) == 0
  {
    if attempts != [] {
      var t := attempts[|attempts| - 1];
      assert t.reached <= |t.targets| ==> forall x :: x in t.targets[..t.reached] ==> x in t.targets;
      NoCopies(attempts[..|attempts| - 1], m, c);
    }
  }

  lemma SendKeepsLedger<C>(s: Bus<C>, w: nat)
    requires Inv(s) && LedgerOK(s) && Enabled(s, Send(w))
    ensures LedgerOK(SendStep(s, w))
  {
    TargetIsOpen(s, w);
    var r := SendStep(s, w);
    var t := AttemptOf(s, w);
    var i := s.workers[w].attempt;
    assert AttemptOK(s, i);
    assert t.targets[..t.reached + 1] == t.targets[..t.reached] + [Target(s, w)];
    assert Target(s, w) !in t.targets[..t.reached];
    forall c, m | c in r.chans ensures multiset(r.chans[c].sent)[m] == Copies(r.attempts, m, c) {
      CopiesUpdate(s.attempts, i, t.(reached := t.reached + 1), m, c);
      assert multiset(s.chans[c].sent)[m] == Copies(s.attempts, m, c);
    }
  }

  /** A step that neither sends nor makes a channel leaves every count as it was. */
  lemma RewriteKeepsLedger<C>(s: Bus<C>, r: Bus<C>, i: nat)
    requires LedgerOK(s) && i < |s.attempts| && |r.attempts| == |s.attempts|
    requires r.chans == s.chans && r.attempts == s.attempts[i := r.attempts[i]]
    requires forall c, m :: Hit(r.attempts[i], m, c) == Hit(s.attempts[i], m, c)
    ensures LedgerOK(r)
  {
    forall c, m | c in r.chans ensures multiset(r.chans[c].sent)[m] == Copies(r.attempts, m, c) {
      CopiesUpdate(s.attempts, i, r.attempts[i], m, c);
      assert multiset(s.chans[c].sent)[m] == Copies(s.attempts, m, c);
    }
  }

  lemma GetKeepsLedger<C>(s: Bus<C>, w: nat)
    requires LedgerOK(s) && Enabled(s, Get(w))
    ensures LedgerOK(GetStep(s, w))
  {
  }

  lemma SubscribeKeepsLedger<C>(s: Bus<C>, topic: Text, c: C)
    requires Inv(s) && LedgerOK(s) && Enabled(s, Subscribe(topic, c))
    ensures LedgerOK(SubscribeStep(s, topic, c))
  {
    var r := SubscribeStep(s, topic, c);
    forall a | 0 <= a < |s.attempts| ensures c !in s.attempts[a].targets { assert AttemptOK(s, a); }
    forall m ensures multiset(r.chans[c].sent)[m] == Copies(r.attempts, m, c) { NoCopies(s.attempts, m, c); }
  }

  lemma NextKeepsLedger<C>(s: Bus<C>, a: Step<C>)
    requires Inv(s) && LedgerOK(s) && Enabled(s, a)
    ensures LedgerOK(Next(s, a))
  {
    match a {
      case Subscribe(topic, c) => SubscribeKeepsLedger(s, topic, c);
      case Get(w) => GetKeepsLedger(s, w);
      case Match(w) =>
        assert AttemptOK(s, s.workers[w].attempt);
        RewriteKeepsLedger(s, MatchStep(s, w), s.workers[w].attempt);
      case Send(w) => SendKeepsLedger(s, w);
      case Block(w) => RewriteKeepsLedger(s, BlockStep(s, w), s.workers[w].attempt);
      case Finish(w) => RewriteKeepsLedger(s, FinishStep(s, w), s.workers[w].attempt);
      case _ => OthersKeepLedger(s, a);
    }
  }

  lemma OthersKeepLedger<C>(s: Bus<C>, a: Step<C>)
    requires LedgerOK(s) && Enabled(s, a)
    requires !a.Subscribe? && !a.Get? && !a.Match? && !a.Send? && !a.Block? && !a.Finish?
    ensures LedgerOK(Next(s, a))
  {
  }

  // ---------- no message is lost before shut-down ----------

  /** The publication is still waiting, or an attempt begun after it is under way or has delivered. */
  ghost predicate Kept<C>(s: Bus<C>, p: Publication) {
    || p.msg in s.wq.dirty
    || p.msg in s.wq.delayed
    || exists j :: p.before <= j < |s.attempts| && s.attempts[j].msg == p.msg && !s.attempts[j].status.Blocked?
  }

  ghost predicate NoLossOK<C>(s: Bus<C>) {
    && (forall p :: p in s.published ==> p.before <= |s.attempts|)
    && (s.phase.Running? ==> forall p :: p in s.published ==> Kept(s, p))
  }

  lemma GetKeepsPublication<C>(s: Bus<C>, w: nat, p: Publication)
    requires Enabled(s, Get(w)) && Kept(s, p) && p.before <= |s.attempts|
    ensures Kept(GetStep(s, w), p)
  {
    var r := GetStep(s, w);
    if p.msg == s.wq.queue[0] {
      assert r.attempts[|s.attempts|].msg == p.msg;
    } else if p.msg !in s.wq.dirty && p.msg !in s.wq.delayed {
      var j :| p.before <= j < |s.attempts| && s.attempts[j].msg == p.msg && !s.attempts[j].status.Blocked?;
      assert r.attempts[j] == s.attempts[j];
    }
  }

  /** Rewriting an attempt keeps every publication unless the attempt becomes blocked, and then
      the message waits for its retry. */
  lemma RewriteKeepsPublication<C>(s: Bus<C>, r: Bus<C>, i: nat, p: Publication)
    requires Kept(s, p) && i < |s.attempts| && |r.attempts| == |s.attempts|
    requires r.attempts == s.attempts[i := r.attempts[i]] && r.attempts[i].msg == s.attempts[i].msg
    requires r.wq.dirty == s.wq.dirty && s.wq.delayed <= r.wq.delayed
    requires !r.attempts[i].status.Blocked? || s.attempts[i].msg in r.wq.delayed
    ensures Kept(r, p)
  {
    if p.msg !in s.wq.dirty && p.msg !in r.wq.delayed {
      var j :| p.before <= j < |s.attempts| && s.attempts[j].msg == p.msg && !s.attempts[j].status.Blocked?;
      assert r.attempts[j].msg == p.msg && !r.attempts[j].status.Blocked?;
    }
  }

  lemma QueueKeepsPublication<C>(s: Bus<C>, r: Bus<C>, p: Publication)
    requires Kept(s, p) && r.attempts == s.attempts
    requires s.wq.dirty <= r.wq.dirty && s.wq.delayed <= r.wq.delayed + r.wq.dirty
    ensures Kept(r, p)
  {
  }

  lemma WorkerKeepsPublication<C>(s: Bus<C>, a: Step<C>, p: Publication)
    requires Inv(s) && NoLossOK(s) && Enabled(s, a) && s.phase.Running? && p in s.published
    requires a.Get? || a.Match? || a.Send? || a.Block? || a.Finish?
    ensures Kept(Next(s, a), p)
  {
    match a {
      case Get(w) => GetKeepsPublication(s, w, p);
      case Match(w) =>
        assert AttemptOf(s, w).status.Active?;
        RewriteKeepsPublication(s, MatchStep(s, w), s.workers[w].attempt, p);
      case Send(w) =>
        TargetIsOpen(s, w);
        assert AttemptOf(s, w).status.Active?;
        RewriteKeepsPublication(s, SendStep(s, w), s.workers[w].attempt, p);
      case Block(w) => RewriteKeepsPublication(s, BlockStep(s, w), s.workers[w].attempt, p);
      case Finish(w) => RewriteKeepsPublication(s, FinishStep(s, w), s.workers[w].attempt, p);
    }
  }

  lemma NextKeepsPublications<C>(s: Bus<C>, a: Step<C>)
    requires Inv(s) && NoLossOK(s) && Enabled(s, a)
    ensures NoLossOK(Next(s, a))
  {
    var r := Next(s, a);
    assert |s.attempts| <= |r.attempts|;
    if r.phase.Running? {
      forall p | p in r.published ensures Kept(r, p) {
        if p in s.published {
          if a.Get? || a.Match? || a.Send? || a.Block? || a.Finish? {
            WorkerKeepsPublication(s, a, p);
          } else {
            QueueKeepsPublication(s, r, p);
          }
        }
      }
    }
  }

  // ---------- whole runs ----------

  ghost predicate FullInv<C>(s: Bus<C>) {
    Inv(s) && LedgerOK(s) && NoLossOK(s) && OriginsOK(s)
  }

  lemma NextKeepsFullInv<C>(s: Bus<C>, a: Step<C>)
    requires FullInv(s) && Enabled(s, a)
    ensures FullInv(Next(s, a))
  {
    NextKeepsInv(s, a);
    NextKeepsLedger(s, a);
    NextKeepsPublications(s, a);
    NextKeepsOrigins(s, a);
  }

  lemma {:induction false} RunKeepsFullInv<C>(s: Bus<C>, steps: seq<Step<C>>)
    requires FullInv(s) && Run(s, steps)
    ensures FullInv(After(s, steps))
    decreases |steps|
  {
    if steps != [] {
      NextKeepsFullInv(s, steps[0]);
      RunKeepsFullInv(Next(s, steps[0]), steps[1..]);
    }
  }

  /** In every state of every interleaving the invariant, the ledger and conservation hold. */
  lemma EveryRun<C>(workers: nat, steps: seq<Step<C>>)
    requires Run(NewBus<C>(workers), steps)
    ensures FullInv(After(NewBus<C>(workers), steps))
  {
    InitInv<C>(workers);
    RunKeepsFullInv(NewBus<C>(workers), steps);
  }

  /** The run `steps` of `workers` workers ends in `s`. */
  ghost predicate ReachedBy<C>(s: Bus<C>, workers: nat, steps: seq<Step<C>>) {
    Run(NewBus<C>(workers), steps) && After(NewBus<C>(workers), steps) == s
  }

  /** ReachedBy, sealed so that proofs that only carry it along do not unroll the run. */
  ghost predicate Traced<C>(s: Bus<C>, workers: nat, steps: seq<Step<C>>) {
    forall k: nat :: Unseal(k) ==> ReachedBy(s, workers, steps)
  }

  lemma TracedInit<C>(workers: nat)
    ensures Traced(NewBus<C>(workers), workers, [])
  {
  }

  lemma TracedNext<C>(s: Bus<C>, workers: nat, steps: seq<Step<C>>, a: Step<C>)
    requires Traced(s, workers, steps) && Enabled(s, a)
    ensures Traced(Next(s, a), workers, steps + [a]) && !Next(s, a).panicked
  {
    assert Unseal(0);
    RunOne(s, a);
    RunAppend(NewBus<C>(workers), steps, [a]);
    NeverPanics<C>(workers, steps + [a]);
  }

  lemma TracedInv<C>(s: Bus<C>, workers: nat, steps: seq<Step<C>>)
    requires Traced(s, workers, steps)
    ensures FullInv(s)
  {
    assert Unseal(0);
    EveryRun<C>(workers, steps);
  }

  lemma TracedQueue<C>(s: Bus<C>, workers: nat, steps: seq<Step<C>>)
    requires Traced(s, workers, steps)
    ensures s.wq.Valid() && (s.wq.shuttingDown <==> !s.phase.Running?)
  {
    TracedInv(s, workers, steps);
  }

  lemma TracedRegistered<C>(s: Bus<C>, workers: nat, steps: seq<Step<C>>, t: Text)
    requires Traced(s, workers, steps) && t in s.subscribers
    ensures forall i :: 0 <= i < |s.subscribers[t]| ==> s.subscribers[t][i] in s.chans
  {
    TracedInv(s, workers, steps);
  }

  /** No interleaving of subscribers, unsubscribers, deliveries and shut-down sends on a closed
      channel or closes one twice; registered channels are distinct, bounded and open. */
  lemma NeverPanics<C>(workers: nat, steps: seq<Step<C>>)
    requires Run(NewBus<C>(workers), steps)
    ensures var s := After(NewBus<C>(workers), steps);
            && !s.panicked
            && UniqueRegistration(s.subscribers)
            && (forall t, i :: t in s.subscribers && 0 <= i < |s.subscribers[t]| ==>
                  && s.subscribers[t][i] in s.chans
                  && (!s.phase.Closing? ==> !s.chans[s.subscribers[t][i]].closed))
            && (forall c :: c in s.chans ==> |s.chans[c].buffer| <= 10)
  {
    EveryRun<C>(workers, steps);
  }

  ghost predicate Pending<C>(s: Bus<C>, m: Message) {
    m in s.wq.queue || m in s.wq.delayed || m in s.wq.processing
  }

  /** Attempt `j` has put its message on every channel that the table it read has under the topic of the
      message or an ancestor of it. */
  ghost predicate DeliveredToAll<C>(s: Bus<C>, j: nat) {
    && j < |s.attempts|
    && forall t, i :: t in s.attempts[j].table && IsAncestor(t, s.attempts[j].msg.topic) && 0 <= i < |s.attempts[j].table[t]| ==>
         s.attempts[j].table[t][i] in s.chans && s.attempts[j].msg in s.chans[s.attempts[j].table[t][i]].sent
  }

  lemma {:induction false} HitCounts<C>(attempts: seq<Attempt<C>>, j: nat, m: Message, c: C)
    requires j < |attempts| && Hit(attempts[j], m, c)
    ensures Copies(attempts, m, c) > 0
  {
    if j < |attempts| - 1 { HitCounts(attempts[..|attempts| - 1], j, m, c); }
  }

  lemma DeliveredReachesTargets<C>(s: Bus<C>, j: nat)
    requires FullInv(s) && j < |s.attempts| && s.attempts[j].status.Delivered?
    ensures s.attempts[j].targets == SubscriberMatch(s.attempts[j].table, s.attempts[j].msg.topic).0
    ensures forall c :: c in s.attempts[j].targets ==> c in s.chans && s.attempts[j].msg in s.chans[c].sent
  {
    var t := s.attempts[j];
    assert AttemptOK(s, j);
    forall c | c in t.targets ensures c in s.chans && t.msg in s.chans[c].sent {
      assert t.targets[..t.reached] == t.targets;
      HitCounts(s.attempts, j, t.msg, c);
      assert multiset(s.chans[c].sent)[t.msg] > 0;
    }
  }

  lemma DeliveredReachesAll<C>(s: Bus<C>, j: nat)
    requires FullInv(s) && j < |s.attempts| && s.attempts[j].status.Delivered?
    ensures DeliveredToAll(s, j)
  {
    DeliveredReachesTargets(s, j);
    MatchComplete(s.attempts[j].table, s.attempts[j].msg.topic);
  }

  /** Until shut-down, every published message is still pending, or an attempt begun after its
      publication has put the event on every channel that the table it read has under the topic of the
      message or an ancestor of it. */
  lemma NoMessageLost<C>(workers: nat, steps: seq<Step<C>>, p: Publication)
    requires Run(NewBus<C>(workers), steps)
    requires After(NewBus<C>(workers), steps).phase.Running?
    requires p in After(NewBus<C>(workers), steps).published
    ensures var s := After(NewBus<C>(workers), steps);
            || Pending(s, p.msg)
            || exists j :: p.before <= j && DeliveredToAll(s, j) && s.attempts[j].msg == p.msg
  {
    EveryRun<C>(workers, steps);
    var s := After(NewBus<C>(workers), steps);
    if !Pending(s, p.msg) {
      var j :| p.before <= j < |s.attempts| && s.attempts[j].msg == p.msg && !s.attempts[j].status.Blocked?;
      assert AttemptOK(s, j);
      DeliveredReachesAll(s, j);
    }
  }

  /** The ledger of a whole run: each finished attempt reached a prefix of its match list, the
      whole of it exactly when it delivered; a channel was sent as many copies of a message as
      attempts reached it; and it hands them out in the order they were put in. */
  lemma ExactLedger<C>(workers: nat, steps: seq<Step<C>>)
    requires Run(NewBus<C>(workers), steps)
    ensures var s := After(NewBus<C>(workers), steps);
            && (forall a :: 0 <= a < |s.attempts| && !s.attempts[a].status.Active? ==>
                  && s.attempts[a].targets == SubscriberMatch(s.attempts[a].table, s.attempts[a].msg.topic).0
                  && s.attempts[a].reached <= |s.attempts[a].targets|
                  && (s.attempts[a].status.Delivered? <==> s.attempts[a].reached == |s.attempts[a].targets|))
            && (forall c, m :: c in s.chans ==> multiset(s.chans[c].sent)[m] == Copies(s.attempts, m, c))
            && (forall c :: c in s.chans ==> EventsOf(s.chans[c].sent) == s.chans[c].received + s.chans[c].buffer)
  {
    EveryRun<C>(workers, steps);
    var s := After(NewBus<C>(workers), steps);
    forall a | 0 <= a < |s.attempts| && !s.attempts[a].status.Active?
      ensures && s.attempts[a].targets == SubscriberMatch(s.attempts[a].table, s.attempts[a].msg.topic).0
              && s.attempts[a].reached <= |s.attempts[a].targets|
              && (s.attempts[a].status.Delivered? <==> s.attempts[a].reached == |s.attempts[a].targets|)
    {
      assert AttemptOK(s, a);
    }
  }

  /** Nothing is invented: in every reachable state whatever is queued, waiting, being processed,
      attempted or sent was published, and a channel was sent only messages of the topic it subscribed
      to or of a topic below it. */
  lemma NothingInvented<C>(workers: nat, steps: seq<Step<C>>)
    requires Run(NewBus<C>(workers), steps)
    ensures var s := After(NewBus<C>(workers), steps);
            && (forall m :: Pending(s, m) ==> Published(s, m))
            && (forall a :: 0 <= a < |s.attempts| ==> Published(s, s.attempts[a].msg))
            && (forall c, m :: c in s.chans && m in s.chans[c].sent ==> Published(s, m) && IsAncestor(s.chans[c].topic, m.topic))
            && (forall t, i :: t in s.subscribers && 0 <= i < |s.subscribers[t]| ==>
                  s.subscribers[t][i] in s.chans && s.chans[s.subscribers[t][i]].topic == t)
  {
    EveryRun<C>(workers, steps);
    var s := After(NewBus<C>(workers), steps);
    forall m | Pending(s, m) ensures Published(s, m) { assert InQueue(s.wq, m); }
  }

  /** In every reachable state a worker with channels left to serve sends to the next one if it has
      room, and otherwise, and only then, gives up and leaves the message to be retried. */
  lemma SendOrBlock<C>(workers: nat, steps: seq<Step<C>>, s: Bus<C>, w: nat)
    requires Run(NewBus<C>(workers), steps) && s == After(NewBus<C>(workers), steps) && AboutToSend(s, w)
    ensures Enabled(s, Send(w)) <==> |s.chans[Target(s, w)].buffer| < 10
    ensures Enabled(s, Block(w)) <==> |s.chans[Target(s, w)].buffer| == 10
    ensures Enabled(s, Block(w)) && s.phase.Running? ==> AttemptOf(s, w).msg in Next(s, Block(w)).wq.delayed
    ensures Enabled(s, Send(w)) ==>
              Next(s, Send(w)).chans[Target(s, w)].buffer == s.chans[Target(s, w)].buffer + [AttemptOf(s, w).msg.event]
  {
    EveryRun<C>(workers, steps);
    TargetIsOpen(s, w);
  }

  // ---------- subscribing and unsubscribing ----------

  /** Subscribing registers the channel, empty and open, behind those its topic has already, and changes
      nothing else. */
  lemma SubscribeExact<C>(s: Bus<C>, topic: Text, c: C)
    requires Inv(s) && Enabled(s, Subscribe(topic, c))
    ensures var r := Next(s, Subscribe(topic, c));
            && topic in r.subscribers && r.subscribers[topic][|r.subscribers[topic]| - 1..] == [c]
            && (forall t :: t in r.subscribers && c in r.subscribers[t] ==> t == topic)
            && (forall t :: t in s.subscribers ==> t in r.subscribers && s.subscribers[t] <= r.subscribers[t])
            && (forall t, d :: d != c ==> (t in r.subscribers && d in r.subscribers[t] <==> t in s.subscribers && d in s.subscribers[t]))
            && r.chans[c].buffer == [] && !r.chans[c].closed && (forall d :: d in s.chans ==> r.chans[d] == s.chans[d])
            && r.wq == s.wq && r.workers == s.workers && r.attempts == s.attempts
  {
    var r := Next(s, Subscribe(topic, c));
    assert r.subscribers[topic] == Slice(s.subscribers, topic) + [c];
    forall t, d | t in s.subscribers && d in s.subscribers[t] ensures d in s.chans {
      assert s.subscribers[t][IndexOf(s.subscribers[t], d)] == d;
    }
  }

  function Without<C(==)>(s: seq<C>, c: C): seq<C> {
    if s == [] then [] else if s[0] == c then Without(s[1..], c) else [s[0]] + Without(s[1..], c)
  }

  lemma {:induction false} WithoutMembers<C>(s: seq<C>, c: C)
    ensures forall x :: x in Without(s, c) <==> x in s && x != c
  {
    if s != [] { WithoutMembers(s[1..], c); }
  }

  lemma {:induction false} NothingToRemove<C>(s: seq<C>, c: C)
    requires c !in s
    ensures Without(s, c) == s
  {
    if s != [] { NothingToRemove(s[1..], c); }
  }

  lemma {:induction false} RemoveAtIsWithout<C>(s: seq<C>, c: C)
    requires Distinct(s) && c in s
    ensures IndexOf(s, c) < |s| && RemoveAt(s, IndexOf(s, c)) == Without(s, c)
  {
    var i := IndexOf(s, c);
    if i == 0 {
      NothingToRemove(s[1..], c);
      assert RemoveAt(s, 0) == s[1..];
    } else {
      RemoveAtIsWithout(s[1..], c);
      assert RemoveAt(s, i) == [s[0]] + RemoveAt(s[1..], i - 1);
    }
  }

  /** Unsubscribing a registered channel closes it, takes exactly it out of its topic, and keeps
      the other channels, their order and the other topics. */
  lemma UnsubscribeExact<C>(s: Bus<C>, topic: Text, c: C)
    requires Inv(s) && Enabled(s, Unsubscribe(topic, c))
    ensures var r := Next(s, Unsubscribe(topic, c));
            if c in Slice(s.subscribers, topic) then
              && r.subscribers == s.subscribers[topic := Without(s.subscribers[topic], c)]
              && (forall t :: t in r.subscribers ==> c !in r.subscribers[t])
              && r.chans == s.chans[c := s.chans[c].(closed := true)]
            else r == s
  {
    if c in Slice(s.subscribers, topic) {
      RemoveAtIsWithout(s.subscribers[topic], c);
      var i := IndexOf(s.subscribers[topic], c);
      assert s.subscribers[topic][i] == c;
    }
  }

  // ---------- why the shut-down waits ----------

  lemma EarlyCloseOf<C>(s: Bus<C>, w: nat, t: Text, i: nat)
    requires !s.panicked && s.phase.Drained? && AboutToSend(s, w)
    requires t in s.subscribers && i < |s.subscribers[t]| && s.subscribers[t][i] == Target(s, w)
    requires !s.chans[Target(s, w)].closed
    ensures Run(s, [BeginClose, Close(t, i), Send(w)])
    ensures After(s, [BeginClose, Close(t, i), Send(w)]).panicked
  {
    var s1 := Next(s, BeginClose);
    var s2 := Next(s1, Close(t, i));
    var all: seq<Step<C>> := [BeginClose, Close(t, i), Send(w)];
    assert all[1..][1..] == [Send(w)];
    assert all[1..][1..][1..] == [];
    assert Run(s2, all[1..][1..]);
    assert Run(s1, all[1..]);
    assert After(s2, all[1..][1..]) == Next(s2, Send(w));
    assert After(s1, all[1..]) == Next(s2, Send(w));
  }

  /** The shut-down closes channels under the read lock, which does not exclude workers: in every state
      that a run reaches while it drains with a worker in its send loop, a drain that returned there and
      then would let the shut-down close the worker's next channel, and the send panic. */
  lemma DrainContractNeeded<C>(workers: nat, steps: seq<Step<C>>, s: Bus<C>, w: nat)
    requires Run(NewBus<C>(workers), steps) && s == After(NewBus<C>(workers), steps)
    requires s.phase.Draining? && AboutToSend(s, w)
    ensures exists t, i ::
              && Run(s.(phase := Drained), [BeginClose, Close(t, i), Send(w)])
              && After(s.(phase := Drained), [BeginClose, Close(t, i), Send(w)]).panicked
  {
    EveryRun<C>(workers, steps);
    var t, i := TargetIsRegistered(s, w);
    TargetIsOpen(s, w);
    EarlyCloseOf(s.(phase := Drained), w, t, i);
  }
}
