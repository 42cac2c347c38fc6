/** Where messages come from: the bus delivers only what was published, and only to channels that
    subscribed to the topic or to one of its ancestors. */
module BusOrigins {
  import opened Topics
  import opened WorkQueues
  import opened BusProtocol
  import opened BusSafety

  ghost predicate Published<C>(s: Bus<C>, m: Message) {
    exists i :: 0 <= i < |s.published| && s.published[i].msg == m
  }

  /** Message `m` is somewhere in the work queue. */
  predicate InQueue(q: WorkQueue<Message>, m: Message) {
    m in q.queue || m in q.dirty || m in q.processing || m in q.delayed
  }

  ghost predicate WorkOK<C>(s: Bus<C>) {
    && (forall m :: InQueue(s.wq, m) ==> Published(s, m))
    && (forall a :: 0 <= a < |s.attempts| ==> Published(s, s.attempts[a].msg))
  }

  /** A registered channel is registered under the topic it was subscribed to. */
  ghost predicate TopicsOK<C>(s: Bus<C>) {
    forall t, i :: t in s.subscribers && 0 <= i < |s.subscribers[t]| ==>
      s.subscribers[t][i] in s.chans && s.chans[s.subscribers[t][i]].topic == t
  }

  /** What a channel has been sent was published under its topic or below. */
  ghost predicate SentOK<C>(s: Bus<C>) {
    forall c, m :: c in s.chans && m in s.chans[c].sent ==> Published(s, m) && IsAncestor(s.chans[c].topic, m.topic)
  }

  ghost predicate OriginsOK<C>(s: Bus<C>) {
    WorkOK(s) && TopicsOK(s) && SentOK(s)
  }

  lemma PublishedLater<C>(s: Bus<C>, r: Bus<C>, m: Message)
    requires Published(s, m) && s.published <= r.published
    ensures Published(r, m)
  {
  }

  /** No step takes a publication back, and none puts a message into the queue that was not there,
      except the publication of it. */
  lemma NextQueue<C>(s: Bus<C>, a: Step<C>, m: Message)
    requires Enabled(s, a) && InQueue(Next(s, a).wq, m)
    ensures InQueue(s.wq, m) || a == Publish(m) || (a.Block? && AttemptOf(s, a.worker).msg == m)
  {
  }

  lemma NextPublished<C>(s: Bus<C>, a: Step<C>)
    requires Enabled(s, a)
    ensures s.published <= Next(s, a).published
    ensures a.Publish? ==> Published(Next(s, a), a.msg)
  {
    if a.Publish? { assert Next(s, a).published[|s.published|].msg == a.msg; }
  }

  lemma NextAttempts<C>(s: Bus<C>, a: Step<C>, i: nat)
    requires Enabled(s, a) && i < |Next(s, a).attempts|
    ensures if i < |s.attempts| then Next(s, a).attempts[i].msg == s.attempts[i].msg
            else a.Get? && Next(s, a).attempts[i].msg in s.wq.queue
  {
  }

  lemma NextKeepsWork<C>(s: Bus<C>, a: Step<C>)
    requires WorkOK(s) && Enabled(s, a)
    ensures WorkOK(Next(s, a))
  {
    var r := Next(s, a);
    NextPublished(s, a);
    forall m | InQueue(r.wq, m) ensures Published(r, m) {
      NextQueue(s, a, m);
      if a != Publish(m) { PublishedLater(s, r, m); }
    }
    forall i | 0 <= i < |r.attempts| ensures Published(r, r.attempts[i].msg) {
      NextAttempts(s, a, i);
      if i < |s.attempts| { PublishedLater(s, r, s.attempts[i].msg); } else {
        assert InQueue(s.wq, r.attempts[i].msg);
        PublishedLater(s, r, r.attempts[i].msg);
      }
    }
  }

  lemma NextKeepsTopics<C>(s: Bus<C>, a: Step<C>)
    requires TableOK(s) && TopicsOK(s) && Enabled(s, a)
    ensures TopicsOK(Next(s, a))
  {
  }

  /** Only a send adds to what a channel was sent, and no step changes the topic of a channel. */
  lemma NextSent<C>(s: Bus<C>, a: Step<C>, c: C)
    requires Enabled(s, a) && c in Next(s, a).chans
    ensures var r := Next(s, a);
            if c !in s.chans then r.chans[c].sent == []
            else r.chans[c].topic == s.chans[c].topic
                 && (r.chans[c].sent == s.chans[c].sent
                     || (a.Send? && c == Target(s, a.worker) && r.chans[c].sent == s.chans[c].sent + [AttemptOf(s, a.worker).msg]))
  {
  }

  /** No step forgets a channel. */
  lemma NextChans<C>(s: Bus<C>, a: Step<C>, c: C)
    requires Enabled(s, a) && c in s.chans
    ensures c in Next(s, a).chans
  {
  }

  /** The oldest buffered event was sent. */
  lemma BufferedWasSent<C>(s: Bus<C>, c: C)
    requires ChansOK(s) && c in s.chans && s.chans[c].buffer != []
    ensures exists m :: m in s.chans[c].sent && m.event == s.chans[c].buffer[0]
  {
    var ch := s.chans[c];
    var i := |ch.received|;
    assert EventsOf(ch.sent)[i] == (ch.received + ch.buffer)[i] == ch.buffer[0];
    assert ch.sent[i] in ch.sent;
  }

  lemma NextKeepsSent<C>(s: Bus<C>, a: Step<C>)
    requires Inv(s) && OriginsOK(s) && Enabled(s, a)
    ensures SentOK(Next(s, a))
  {
    var r := Next(s, a);
    NextPublished(s, a);
    forall c, m | c in r.chans && m in r.chans[c].sent ensures Published(r, m) && IsAncestor(r.chans[c].topic, m.topic) {
      NextSent(s, a, c);
      if m in s.chans[c].sent {
        PublishedLater(s, r, m);
      } else {
        var t, i := TargetIsRegistered(s, a.worker);
        assert s.attempts[s.workers[a.worker].attempt].msg == m;
        PublishedLater(s, r, m);
      }
    }
  }

  lemma NextKeepsOrigins<C>(s: Bus<C>, a: Step<C>)
    requires Inv(s) && OriginsOK(s) && Enabled(s, a)
    ensures OriginsOK(Next(s, a))
  {
    NextKeepsWork(s, a);
    NextKeepsTopics(s, a);
    NextKeepsSent(s, a);
  }
}
