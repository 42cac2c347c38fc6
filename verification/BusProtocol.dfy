/** The event bus as a state machine (pkg/eventbus/eventbus.go).

    A step is one critical section or one interaction with a channel or with the work queue, so a
    run is an arbitrary interleaving of subscribers, unsubscribers, publishers, consumers, any
    number of workers and the shut-down sequence. Critical sections under the write lock are
    single steps; workers hold the read lock together and send one event at a time. */
module BusProtocol {
  import opened Texts
  import opened Events
  import opened Topics
  import opened WorkQueues

  const CONSUMER_BUFFER_SIZE := 10

  datatype Message = Message(topic: Text, event: Event)

  /** A consumer channel, with the topic it was subscribed to and the history of what went in and what
      came out. */
  datatype Chan = Chan(topic: Text, buffer: seq<Event>, closed: bool, sent: seq<Message>, received: seq<Event>)

  datatype Status = Active | Delivered | Blocked

  /** One processing of a message by a worker. `table` is the subscriber table it read, `targets`
      the channels matched in it, and the first `reached` of them have been sent the event. */
  datatype Attempt<C> = Attempt(
    worker: nat, msg: Message, table: map<Text, seq<C>>, targets: seq<C>, reached: nat, status: Status)

  datatype Worker = Idle | Got(attempt: nat) | Sending(attempt: nat) | Released(attempt: nat) | Exited

  datatype Phase = Running | Draining | Drained | Closing(done: set<(Text, nat)>) | Signalling | Stopped

  /** A call of Publish, with the number of attempts begun before it. */
  datatype Publication = Publication(msg: Message, before: nat)

  datatype Bus<C> = Bus(
    subscribers: map<Text, seq<C>>,
    chans: map<C, Chan>,
    wq: WorkQueue<Message>,
    workers: map<nat, Worker>,
    phase: Phase,
    panicked: bool,
    attempts: seq<Attempt<C>>,
    published: seq<Publication>)

  datatype Step<C> =
    | Subscribe(topic: Text, chan: C)
    | Unsubscribe(topic: Text, chan: C)
    | Publish(msg: Message)
    | Receive(chan: C)
    | Mature(msg: Message)
    | Get(worker: nat)
    | Match(worker: nat)
    | Send(worker: nat)
    | Block(worker: nat)
    | Finish(worker: nat)
    | Done(worker: nat)
    | Exit(worker: nat)
    | ShutDown
    | DrainReturns
    | BeginClose
    | Close(topic: Text, index: nat)
    | ResetTable
    | Signalled

  function NewBus<C>(workers: nat): Bus<C> {
    Bus(map[], map[], EmptyQueue(), IdleWorkers(workers), Running, false, [], [])
  }

  function IdleWorkers(n: nat): (ws: map<nat, Worker>)
    ensures forall w: nat :: w in ws <==> w < n
    ensures forall w :: w in ws ==> ws[w].Idle?
  {
    if n == 0 then map[] else IdleWorkers(n - 1)[n - 1 := Idle]
  }

  // ---------- helpers on slices ----------

  function IndexOf<C(==)>(s: seq<C>, c: C): (i: nat)
    ensures i <= |s| && (i < |s| <==> c in s) && (i < |s| ==> s[i] == c) && c !in s[..i]
  {
    if s == [] || s[0] == c then 0 else
      var i := 1 + IndexOf(s[1..], c);
      assert s[..i] == [s[0]] + s[1..][..i - 1];
      i
  }

  function RemoveAt<C>(s: seq<C>, i: nat): seq<C>
    requires i < |s|
  {
    s[..i] + s[i + 1..]
  }

  function Slice<C>(subs: map<Text, seq<C>>, topic: Text): seq<C> {
    if topic in subs then subs[topic] else []
  }

  // ---------- the steps ----------

  /** Somebody holds the read lock on the subscriber table. */
  predicate ReadLocked<C>(s: Bus<C>) {
    || s.phase.Closing? || s.phase.Signalling?
    || exists w :: w in s.workers && s.workers[w].Sending?
  }

  predicate At<C>(s: Bus<C>, w: nat) {
    w in s.workers && (s.workers[w].Got? || s.workers[w].Sending? || s.workers[w].Released?)
    && s.workers[w].attempt < |s.attempts|
  }

  function AttemptOf<C>(s: Bus<C>, w: nat): Attempt<C>
    requires At(s, w)
  {
    s.attempts[s.workers[w].attempt]
  }

  /** Worker `w` is in its send loop with channels left to serve. */
  predicate AboutToSend<C>(s: Bus<C>, w: nat) {
    && At(s, w) && s.workers[w].Sending?
    && AttemptOf(s, w).reached < |AttemptOf(s, w).targets|
    && AttemptOf(s, w).targets[AttemptOf(s, w).reached] in s.chans
  }

  function Target<C>(s: Bus<C>, w: nat): C
    requires AboutToSend(s, w)
  {
    AttemptOf(s, w).targets[AttemptOf(s, w).reached]
  }

  predicate Enabled<C>(s: Bus<C>, a: Step<C>) {
    !s.panicked &&
    match a
    case Subscribe(_, c) => !ReadLocked(s) && c !in s.chans
    case Unsubscribe(_, c) => !ReadLocked(s) && c in s.chans
    case Publish(_) => true
    case Receive(c) => c in s.chans && s.chans[c].buffer != []
    case Mature(m) => m in s.wq.delayed
    case Get(w) => w in s.workers && s.workers[w].Idle? && s.wq.queue != []
    case Match(w) => At(s, w) && s.workers[w].Got?
    case Send(w) =>
      AboutToSend(s, w) && (s.chans[Target(s, w)].closed || |s.chans[Target(s, w)].buffer| < CONSUMER_BUFFER_SIZE)
    case Block(w) =>
      AboutToSend(s, w) && !s.chans[Target(s, w)].closed && |s.chans[Target(s, w)].buffer| >= CONSUMER_BUFFER_SIZE
    case Finish(w) =>
      At(s, w) && s.workers[w].Sending? && AttemptOf(s, w).reached == |AttemptOf(s, w).targets|
    case Done(w) => At(s, w) && s.workers[w].Released?
    case Exit(w) => w in s.workers && s.workers[w].Idle? && s.wq.queue == [] && s.wq.shuttingDown
    case ShutDown => s.phase.Running?
    // The drain returns once every item in the queue has been processed and marked done.
    case DrainReturns => s.phase.Draining? && s.wq.queue == [] && s.wq.processing == {}
    case BeginClose => s.phase.Drained?
    case Close(t, i) =>
      && s.phase.Closing? && t in s.subscribers && i < |s.subscribers[t]|
      && (t, i) !in s.phase.done && s.subscribers[t][i] in s.chans
    case ResetTable =>
      s.phase.Closing? && forall t, i :: t in s.subscribers && 0 <= i < |s.subscribers[t]| ==> (t, i) in s.phase.done
    case Signalled => s.phase.Signalling?
  }

  /** Closing a channel; closing it a second time panics. */
  function CloseChan<C>(s: Bus<C>, c: C): Bus<C>
    requires c in s.chans
  {
    if s.chans[c].closed then s.(panicked := true)
    else s.(chans := s.chans[c := s.chans[c].(closed := true)])
  }

  function SubscribeStep<C>(s: Bus<C>, topic: Text, c: C): Bus<C> {
    s.(chans := s.chans[c := Chan(topic, [], false, [], [])],
       subscribers := s.subscribers[topic := Slice(s.subscribers, topic) + [c]])
  }

  function UnsubscribeStep<C(==)>(s: Bus<C>, topic: Text, c: C): Bus<C>
    requires c in s.chans
  {
    var subs := Slice(s.subscribers, topic);
    var i := IndexOf(subs, c);
    if i < |subs| then CloseChan(s.(subscribers := s.subscribers[topic := RemoveAt(subs, i)]), c) else s
  }

  function ReceiveStep<C>(s: Bus<C>, c: C): Bus<C>
    requires c in s.chans && s.chans[c].buffer != []
  {
    var ch := s.chans[c];
    s.(chans := s.chans[c := ch.(buffer := ch.buffer[1..], received := ch.received + [ch.buffer[0]])])
  }

  function GetStep<C>(s: Bus<C>, w: nat): Bus<C>
    requires s.wq.queue != []
  {
    s.(wq := WorkQueues.Get(s.wq),
       attempts := s.attempts + [Attempt(w, s.wq.queue[0], map[], [], 0, Active)],
       workers := s.workers[w := Got(|s.attempts|)])
  }

  /** Rewrites the attempt of worker `w` and moves the worker on. */
  function Advance<C>(s: Bus<C>, w: nat, at: Worker, t: Attempt<C>): Bus<C>
    requires At(s, w)
  {
    s.(attempts := s.attempts[s.workers[w].attempt := t], workers := s.workers[w := at])
  }

  function MatchStep<C>(s: Bus<C>, w: nat): Bus<C>
    requires At(s, w)
  {
    var t := AttemptOf(s, w);
    Advance(s, w, Sending(s.workers[w].attempt),
            t.(table := s.subscribers, targets := SubscriberMatch(s.subscribers, t.msg.topic).0))
  }

  /** A send on a closed channel panics, even inside a select. */
  function SendStep<C>(s: Bus<C>, w: nat): Bus<C>
    requires AboutToSend(s, w)
  {
    var t := AttemptOf(s, w);
    var c := Target(s, w);
    if s.chans[c].closed then s.(panicked := true)
    else
      Advance(s, w, s.workers[w], t.(reached := t.reached + 1))
      .(chans := s.chans[c := s.chans[c].(buffer := s.chans[c].buffer + [t.msg.event],
                                          sent := s.chans[c].sent + [t.msg])])
  }

  function BlockStep<C>(s: Bus<C>, w: nat): Bus<C>
    requires At(s, w)
  {
    var t := AttemptOf(s, w);
    Advance(s, w, Released(s.workers[w].attempt), t.(status := Blocked))
    .(wq := AddRateLimited(s.wq, t.msg))
  }

  function FinishStep<C>(s: Bus<C>, w: nat): Bus<C>
    requires At(s, w)
  {
    Advance(s, w, Released(s.workers[w].attempt), AttemptOf(s, w).(status := Delivered))
  }

  function Next<C(==)>(s: Bus<C>, a: Step<C>): Bus<C>
    requires Enabled(s, a)
  {
    match a
    case Subscribe(topic, c) => SubscribeStep(s, topic, c)
    case Unsubscribe(topic, c) => UnsubscribeStep(s, topic, c)
    case Publish(m) => s.(wq := Add(s.wq, m), published := s.published + [Publication(m, |s.attempts|)])
    case Receive(c) => ReceiveStep(s, c)
    case Mature(m) => s.(wq := WorkQueues.Mature(s.wq, m))
    case Get(w) => GetStep(s, w)
    case Match(w) => MatchStep(s, w)
    case Send(w) => SendStep(s, w)
    case Block(w) => BlockStep(s, w)
    case Finish(w) => FinishStep(s, w)
    case Done(w) => s.(wq := WorkQueues.Done(s.wq, AttemptOf(s, w).msg), workers := s.workers[w := Idle])
    case Exit(w) => s.(workers := s.workers[w := Exited])
    case ShutDown => s.(phase := Draining, wq := s.wq.(shuttingDown := true))
    case DrainReturns => s.(phase := Drained)
    case BeginClose => s.(phase := Closing({}))
    case Close(t, i) => CloseChan(s.(phase := Closing(s.phase.done + {(t, i)})), s.subscribers[t][i])
    case ResetTable => s.(subscribers := map[], phase := Signalling)
    case Signalled => s.(phase := Stopped)
  }

  /** `steps` can be taken one after the other from `s`. */
  predicate Run<C(==)>(s: Bus<C>, steps: seq<Step<C>>)
    decreases |steps|
  {
    steps == [] || (Enabled(s, steps[0]) && Run(Next(s, steps[0]), steps[1..]))
  }

  function After<C(==)>(s: Bus<C>, steps: seq<Step<C>>): Bus<C>
    requires Run(s, steps)
    decreases |steps|
  {
    if steps == [] then s else After(Next(s, steps[0]), steps[1..])
  }

  lemma {:induction false} RunAppend<C>(s: Bus<C>, a: seq<Step<C>>, b: seq<Step<C>>)
    requires Run(s, a) && Run(After(s, a), b)
    ensures Run(s, a + b) && After(s, a + b) == After(After(s, a), b)
    decreases |a|
  {
    if a == [] {
      assert a + b == b;
    } else {
      assert (a + b)[1..] == a[1..] + b;
      RunAppend(Next(s, a[0]), a[1..], b);
    }
  }

  lemma RunOne<C>(s: Bus<C>, a: Step<C>)
    requires Enabled(s, a)
    ensures Run(s, [a]) && After(s, [a]) == Next(s, a)
  {
  }

  // ---------- the invariant ----------

  ghost predicate QueueOK<C>(s: Bus<C>) {
    && s.wq.Valid()
    && (s.wq.shuttingDown <==> !s.phase.Running?)
    && (!s.phase.Running? && !s.phase.Draining? ==> s.wq.queue == [] && s.wq.processing == {})
  }

  /** Every registered channel exists, is registered once, under one topic, and is open, except
      for those the shut-down has just closed. */
  ghost predicate TableOK<C>(s: Bus<C>) {
    && UniqueRegistration(s.subscribers)
    && (forall t, i :: t in s.subscribers && 0 <= i < |s.subscribers[t]| ==> s.subscribers[t][i] in s.chans)
    && (forall t, i :: t in s.subscribers && 0 <= i < |s.subscribers[t]| && s.chans[s.subscribers[t][i]].closed
                       ==> s.phase.Closing? && (t, i) in s.phase.done)
  }

  function EventsOf(msgs: seq<Message>): seq<Event> {
    seq(|msgs|, i requires 0 <= i < |msgs| => msgs[i].event)
  }

  /** No channel overflows, and what was sent is what was received followed by what is buffered. */
  ghost predicate ChansOK<C>(s: Bus<C>) {
    forall c :: c in s.chans ==>
      && |s.chans[c].buffer| <= CONSUMER_BUFFER_SIZE
      && EventsOf(s.chans[c].sent) == s.chans[c].received + s.chans[c].buffer
  }

  ghost predicate WorkersOK<C>(s: Bus<C>) {
    && (forall w :: w in s.workers && !s.workers[w].Idle? && !s.workers[w].Exited? ==>
          && At(s, w)
          && AttemptOf(s, w).worker == w
          && AttemptOf(s, w).msg in s.wq.processing
          && (AttemptOf(s, w).status.Active? <==> !s.workers[w].Released?)
          && (s.workers[w].Got? ==> AttemptOf(s, w).targets == [])
          && (s.workers[w].Sending? ==>
                && AttemptOf(s, w).table == s.subscribers
                && AttemptOf(s, w).targets == SubscriberMatch(s.subscribers, AttemptOf(s, w).msg.topic).0))
    && (forall v, w :: At(s, v) && At(s, w) && AttemptOf(s, v).msg == AttemptOf(s, w).msg ==> v == w)
  }

  ghost predicate AttemptOK<C>(s: Bus<C>, a: nat)
    requires a < |s.attempts|
  {
    var t := s.attempts[a];
    && t.reached <= |t.targets|
    && Distinct(t.targets)
    && (forall i :: 0 <= i < |t.targets| ==> t.targets[i] in s.chans)
    && (!t.status.Active? ==> t.targets == SubscriberMatch(t.table, t.msg.topic).0)
    && (t.status.Delivered? ==> t.reached == |t.targets|)
    && (t.status.Blocked? ==> t.reached < |t.targets|)
    && (t.status.Active? ==> At(s, t.worker) && s.workers[t.worker].attempt == a)
  }

  ghost predicate AttemptsOK<C>(s: Bus<C>) {
    forall a :: 0 <= a < |s.attempts| ==> AttemptOK(s, a)
  }

  ghost predicate Inv<C>(s: Bus<C>) {
    !s.panicked && QueueOK(s) && TableOK(s) && ChansOK(s) && WorkersOK(s) && AttemptsOK(s)
  }
}
