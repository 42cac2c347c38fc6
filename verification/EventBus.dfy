/** The event bus as the source writes it: an object whose methods change the subscriber table, the
    channels and the work queue in place. Every method is an execution of protocol steps, so what
    is proved of every run of the protocol holds of these methods. */
module EventBuses {
  import opened Texts
  import opened Events
  import opened Topics
  import opened WorkQueues
  import opened BusProtocol
  import opened BusLedger
  import opened Sealing

  /** A Go channel of events with CONSUMER_BUFFER_SIZE slots. */
  class Channel {
    var buffer: seq<Event>
    var closed: bool

    constructor ()
      ensures buffer == [] && !closed
    {
      buffer := [];
      closed := false;
    }
  }

  class EventBus {
    var subscribers: map<Text, seq<Channel>>
    var workqueue: WorkQueue<Message>
    ghost const workers: nat
    ghost var model: Bus<Channel>
    /** The protocol steps taken so far. */
    ghost var trace: seq<Step<Channel>>

    ghost predicate Valid()
      reads this, model.chans.Keys
    {
      && Traced(model, workers, trace) && !model.panicked
      && subscribers == model.subscribers
      && workqueue == model.wq
      && forall c :: c in model.chans ==>
           c.buffer == model.chans[c].buffer && c.closed == model.chans[c].closed
    }

    constructor (workers: nat)
      ensures Valid() && model == NewBus(workers)
    {
      subscribers := map[];
      workqueue := EmptyQueue();
      this.workers := workers;
      model := NewBus(workers);
      trace := [];
      TracedInit<Channel>(workers);
    }

    /** Records one step of the protocol. */
    ghost method Take(step: Step<Channel>)
      requires Traced(model, workers, trace) && Enabled(model, step)
      modifies this`model, this`trace
      ensures Traced(model, workers, trace) && !model.panicked
      ensures model == Next(old(model), step) && trace == old(trace) + [step]
    {
      TracedNext(model, workers, trace, step);
      model := Next(model, step);
      trace := trace + [step];
    }

    method Publish(topic: Text, event: Event)
      requires Valid()
      modifies this
      ensures Valid()
      ensures Enabled(old(model), Step.Publish(Message(topic, event)))
      ensures model == Next(old(model), Step.Publish(Message(topic, event))) && trace == old(trace) + [Step.Publish(Message(topic, event))]
    {
      workqueue := Add(workqueue, Message(topic, event));
      Take(Step.Publish(Message(topic, event)));
    }

    /** The write lock is granted when no reader holds the table. */
    method Subscribe(topic: Text) returns (ch: Channel)
      requires Valid() && !ReadLocked(model)
      modifies this
      ensures Valid() && fresh(ch)
      ensures Enabled(old(model), Step.Subscribe(topic, ch))
      ensures model == Next(old(model), Step.Subscribe(topic, ch)) && trace == old(trace) + [Step.Subscribe(topic, ch)]
    {
      ch := new Channel();
      subscribers := subscribers[topic := (if topic in subscribers then subscribers[topic] else []) + [ch]];
      Take(Step.Subscribe(topic, ch));
    }

    method Unsubscribe(topic: Text, ch: Channel)
      requires Valid() && !ReadLocked(model) && ch in model.chans
      modifies this, ch
      ensures Valid()
      ensures Enabled(old(model), Step.Unsubscribe(topic, ch))
      ensures model == Next(old(model), Step.Unsubscribe(topic, ch)) && trace == old(trace) + [Step.Unsubscribe(topic, ch)]
    {
      ghost var step := Step.Unsubscribe(topic, ch);
      var subs := if topic in subscribers then subscribers[topic] else [];
      var idx := 0;
      while idx < |subs| && subs[idx] != ch
        invariant idx <= |subs| && ch !in subs[..idx]
      {
        idx := idx + 1;
      }
      FirstIndex(subs, ch, idx);
      if idx < |subs| {
        assert !ch.closed by {
          TracedInv(model, workers, trace);
          assert model.subscribers[topic][idx] == ch;
        }
        subscribers := subscribers[topic := subs[..idx] + subs[idx + 1..]];
        ch.closed := true;
      }
      Take(step);
    }

    /** The delay of a message that is waiting to be retried has passed. */
    method Mature(m: Message)
      requires Valid() && m in workqueue.delayed
      modifies this
      ensures Valid() && Enabled(old(model), Step.Mature(m))
      ensures model == Next(old(model), Step.Mature(m)) && trace == old(trace) + [Step.Mature(m)]
    {
      workqueue := WorkQueues.Mature(workqueue, m);
      Take(Step.Mature(m));
    }

    /** A consumer takes the oldest buffered event. */
    method Receive(ch: Channel) returns (e: Event)
      requires Valid() && ch in model.chans && ch.buffer != []
      modifies this`model, this`trace, ch`buffer
      ensures Valid()
      ensures Enabled(old(model), Step.Receive(ch)) && model == Next(old(model), Step.Receive(ch))
      ensures e == old(model).chans[ch].buffer[0]
    {
      e := ch.buffer[0];
      ch.buffer := ch.buffer[1..];
      Take(Step.Receive(ch));
    }

    // ----- the parts of a worker's round -----

    /** Worker `w` holds the read lock and is in its send loop for message `m`. */
    ghost predicate InLoop(w: nat, m: Message, targets: seq<Channel>, reached: nat)
      reads this
    {
      && At(model, w) && model.workers[w].Sending?
      && AttemptOf(model, w).msg == m && AttemptOf(model, w).targets == targets
      && AttemptOf(model, w).reached == reached
    }

    method GetItem(w: nat) returns (m: Message)
      requires Valid() && w in model.workers && model.workers[w].Idle? && workqueue.queue != []
      modifies this
      ensures Valid() && trace == old(trace) + [Step.Get(w)]
      ensures m == old(workqueue).queue[0] && subscribers == old(subscribers)
      ensures model.chans == old(model).chans
      ensures At(model, w) && model.workers[w].Got? && AttemptOf(model, w).msg == m && AttemptOf(model, w).reached == 0
      ensures SameFrame(old(model), model)
      ensures workqueue == WorkQueues.Get(old(workqueue))
    {
      m := workqueue.queue[0];
      workqueue := WorkQueues.Get(workqueue);
      Take(Step.Get(w));
    }

    /** Takes the read lock and looks the subscribers up. */
    method MatchSubscribers(w: nat, m: Message) returns (targets: seq<Channel>)
      requires Valid() && At(model, w) && model.workers[w].Got?
      requires AttemptOf(model, w).msg == m && AttemptOf(model, w).reached == 0
      modifies this`model, this`trace
      ensures Valid() && trace == old(trace) + [Match(w)]
      ensures model.chans == old(model).chans
      ensures targets == SubscriberMatch(subscribers, m.topic).0
      ensures InLoop(w, m, targets, 0) && OpenTargets(model, targets)
      ensures SameFrame(old(model), model)
    {
      targets := SubscriberMatch(subscribers, m.topic).0;
      Take(Match(w));
      assert OpenTargets(model, targets) by {
        TracedInv(model, workers, trace);
        TargetsOpen(model, w);
      }
    }

    method Begin(w: nat) returns (m: Message, targets: seq<Channel>)
      requires Valid() && w in model.workers && model.workers[w].Idle? && workqueue.queue != []
      modifies this
      ensures Valid() && trace == old(trace) + [Step.Get(w), Match(w)]
      ensures m == old(workqueue).queue[0] && subscribers == old(subscribers)
      ensures model.chans == old(model).chans
      ensures targets == SubscriberMatch(subscribers, m.topic).0
      ensures InLoop(w, m, targets, 0) && OpenTargets(model, targets)
      ensures forall c :: c in targets ==> c in old(model).chans
      ensures SameFrame(old(model), model)
      ensures workqueue == WorkQueues.Get(old(workqueue))
    {
      m := GetItem(w);
      targets := MatchSubscribers(w, m);
    }

    /** The select: sends without blocking if there is room. */
    method TrySend(w: nat, m: Message, targets: seq<Channel>, k: nat, ghost s: Bus<Channel>) returns (sent: bool)
      requires Valid() && InLoop(w, m, targets, k) && k < |targets| && OpenTargets(model, targets)
      requires Progress(s, model, targets, k)
      modifies this`model, this`trace, targets[k]
      ensures Valid()
      ensures sent <==> |old(model).chans[targets[k]].buffer| < CONSUMER_BUFFER_SIZE
      ensures sent ==> trace == old(trace) + [Send(w)] && InLoop(w, m, targets, k + 1) && OpenTargets(model, targets)
      ensures sent ==> Progress(s, model, targets, k + 1)
      ensures !sent ==> model == old(model) && trace == old(trace)
      ensures SameFrame(old(model), model)
    {
      var ch := targets[k];
      sent := |ch.buffer| < CONSUMER_BUFFER_SIZE;
      if sent {
        Untouched(s, model, targets, k);
        ch.buffer := ch.buffer + [m.event];
        Take(Send(w));
        ProgressStep(s, old(model), model, targets, k);
      }
    }

    /** Releases the read lock after a full channel was met, with the message set to be retried. */
    method Requeue(w: nat, m: Message, targets: seq<Channel>, k: nat)
      requires Valid() && InLoop(w, m, targets, k) && k < |targets| && OpenTargets(model, targets)
      requires |model.chans[targets[k]].buffer| == CONSUMER_BUFFER_SIZE
      modifies this
      ensures Valid() && trace == old(trace) + [Block(w)] && subscribers == old(subscribers)
      ensures At(model, w) && model.workers[w].Released? && AttemptOf(model, w).msg == m
      ensures SameFrame(old(model), model)
      ensures workqueue == AddRateLimited(old(workqueue), m)
    {
      workqueue := AddRateLimited(workqueue, m);
      Take(Block(w));
    }

    /** Releases the read lock after every channel was served. */
    method Forget(w: nat, m: Message, targets: seq<Channel>)
      requires Valid() && InLoop(w, m, targets, |targets|)
      modifies this`model, this`trace
      ensures Valid() && trace == old(trace) + [Finish(w)]
      ensures At(model, w) && model.workers[w].Released? && AttemptOf(model, w).msg == m
      ensures SameFrame(old(model), model)
    {
      Take(Finish(w));
    }

    method MarkDone(w: nat, m: Message)
      requires Valid() && At(model, w) && model.workers[w].Released? && m == AttemptOf(model, w).msg
      modifies this
      ensures Valid() && trace == old(trace) + [Step.Done(w)] && subscribers == old(subscribers)
      ensures SameFrame(old(model), model)
      ensures workqueue == WorkQueues.Done(old(workqueue), m) && w in model.workers && model.workers[w].Idle?
    {
      workqueue := WorkQueues.Done(workqueue, m);
      Take(Step.Done(w));
    }

    /** The delivery loop of worker `w`: the event reaches the channels in front of the first full
        one, and `k` is the number of channels served. */
    method Deliver(w: nat, m: Message, targets: seq<Channel>) returns (k: nat)
      requires Valid() && InLoop(w, m, targets, 0) && OpenTargets(model, targets)
      modifies this`model, this`trace, targets
      ensures Valid() && trace == old(trace) + Sends(w, k)
      ensures IsServed(old(model), targets, k)
      ensures InLoop(w, m, targets, k) && OpenTargets(model, targets)
      ensures k < |targets| ==> |model.chans[targets[k]].buffer| == CONSUMER_BUFFER_SIZE
      ensures SameFrame(old(model), model)
    {
      ghost var s := model;
      k := 0;
      ProgressBegins(s, targets);
      while k < |targets|
        invariant k <= |targets| && InLoop(w, m, targets, k) && OpenTargets(model, targets)
        invariant Valid() && trace == old(trace) + Sends(w, k) && SameFrame(s, model)
        invariant Progress(s, model, targets, k)
      {
        var sent := TrySend(w, m, targets, k, s);
        if !sent {
          ProgressEnds(s, model, targets, k);
          return;
        }
        k := k + 1;
      }
      ProgressEnds(s, model, targets, k);
    }

    /** After the loop: forget the message or have it retried, release the lock, mark it done. */
    method Settle(w: nat, m: Message, targets: seq<Channel>, k: nat)
      requires Valid() && InLoop(w, m, targets, k) && k <= |targets| && OpenTargets(model, targets)
      requires k < |targets| ==> |model.chans[targets[k]].buffer| == CONSUMER_BUFFER_SIZE
      modifies this
      ensures Valid() && subscribers == old(subscribers)
      ensures trace == old(trace) + [if k == |targets| then Finish(w) else Block(w), Step.Done(w)]
      ensures SameFrame(old(model), model)
      ensures workqueue == WorkQueues.Done(if k == |targets| then old(workqueue) else AddRateLimited(old(workqueue), m), m)
      ensures w in model.workers && model.workers[w].Idle?
    {
      if k < |targets| {
        Requeue(w, m, targets, k);
      } else {
        Forget(w, m, targets);
      }
      MarkDone(w, m);
    }

    /** One round of worker `w`: take a message, match it under the read lock, offer it to the
        matched channels in order, and either forget it or have it retried. */
    method Round(w: nat) returns (k: nat)
      requires Valid() && w in model.workers && model.workers[w].Idle? && workqueue.queue != []
      modifies this, model.chans.Keys
      ensures Valid() && subscribers == old(subscribers)
      ensures IsRound(old(model), w, k, old(trace), trace)
      ensures SameFrame(old(model), model)
      ensures workqueue == AfterRound(old(workqueue), k == |SubscriberMatch(subscribers, old(workqueue).queue[0].topic).0|)
      ensures w in model.workers && model.workers[w].Idle?
    {
      var m, targets := Begin(w);
      k := Deliver(w, m, targets);
      assert IsServed(old(model), targets, k);
      Settle(w, m, targets, k);
      RoundTrace(old(trace), w, k, k == |targets|);
    }

    // ----- shut-down -----

    method CloseOne(t: Text, i: nat, ghost s: Bus<Channel>, ghost done: set<(Text, nat)>)
      requires Valid() && ClosedAt(s, model, done)
      requires t in subscribers && i < |subscribers[t]| && (t, i) !in done
      modifies this`model, this`trace, subscribers[t][i]
      ensures Valid() && ClosedAt(s, model, done + {(t, i)})
    {
      assert subscribers[t][i] in model.chans && !subscribers[t][i].closed by {
        TracedInv(model, workers, trace);
      }
      CloseExtends(s, model, done, t, i);
      subscribers[t][i].closed := true;
      Take(Close(t, i));
    }

    method CloseTopic(t: Text, ghost s: Bus<Channel>, ghost done: set<(Text, nat)>) returns (ghost now: set<(Text, nat)>)
      requires Valid() && ClosedAt(s, model, done) && t in subscribers
      requires forall i :: (t, i) !in done
      modifies this`model, this`trace, subscribers[t]
      ensures Valid() && ClosedAt(s, model, now)
      ensures now == done + Positions(t, |subscribers[t]|)
    {
      now := done;
      var slice := subscribers[t];
      for i := 0 to |slice|
        invariant Valid() && ClosedAt(s, model, now)
        invariant now == done + Positions(t, i)
      {
        CloseOne(t, i, s, now);
        now := now + {(t, i)};
      }
    }

    /** Closes every registered channel, topic by topic in an arbitrary order. */
    method CloseTable(ghost s: Bus<Channel>) returns (ghost done: set<(Text, nat)>)
      requires Valid() && s == model && s.phase == Closing({})
      modifies this`model, this`trace, model.chans.Keys
      ensures Valid() && ClosedAt(s, model, done)
      ensures forall t, i :: t in subscribers && 0 <= i < |subscribers[t]| ==> (t, i) in done
    {
      done := {};
      var todo := subscribers.Keys;
      while todo != {}
        invariant Valid() && ClosedAt(s, model, done)
        invariant todo <= subscribers.Keys
        invariant forall p :: p in done ==> p.0 !in todo
        invariant forall t, i :: t in subscribers && t !in todo && 0 <= i < |subscribers[t]| ==> (t, i) in done
        decreases |todo|
      {
        var t :| t in todo;
        TracedRegistered(model, workers, trace, t);
        done := CloseTopic(t, s, done);
        todo := todo - {t};
      }
    }

    /** The drain returns, and Start takes the read lock. */
    ghost method BeginClosing()
      requires Valid() && model.phase.Draining? && workqueue.queue == [] && workqueue.processing == {}
      modifies this`model, this`trace
      ensures Valid() && model == old(model).(phase := Closing({}))
    {
      Take(DrainReturns);
      Take(BeginClose);
    }

    /** What Start does once the drain has returned: close every registered channel and forget the
        table. Buffered events stay readable. */
    method CloseAll()
      requires Valid() && model.phase.Draining? && workqueue.queue == [] && workqueue.processing == {}
      modifies this, model.chans.Keys
      ensures Valid() && subscribers == map[] && workqueue == old(workqueue) && model.phase.Signalling?
      ensures AllClosed(old(model), model)
    {
      BeginClosing();
      ghost var s := model;
      ghost var done := CloseTable(s);
      ClosedEverywhere(s, model, done);
      subscribers := map[];
      Take(ResetTable);
    }

    /** The queue accepts nothing from here on. */
    method ShutDown()
      requires Valid() && model.phase.Running?
      modifies this
      ensures Valid() && Enabled(old(model), Step.ShutDown)
      ensures model == Next(old(model), Step.ShutDown) && trace == old(trace) + [Step.ShutDown]
    {
      workqueue := workqueue.(shuttingDown := true);
      Take(Step.ShutDown);
    }

    /** Worker `w` empties the queue. */
    method Drain(w: nat)
      requires Valid() && model.phase.Draining? && workqueue.processing == {}
      requires w in model.workers && model.workers[w].Idle?
      modifies this, model.chans.Keys
      ensures Valid() && model.phase.Draining? && workqueue.queue == [] && workqueue.processing == {}
      ensures subscribers == old(subscribers) && model.chans.Keys == old(model).chans.Keys
    {
      while workqueue.queue != []
        invariant Valid() && model.phase.Draining? && workqueue.processing == {}
        invariant w in model.workers && model.workers[w].Idle?
        invariant subscribers == old(subscribers) && model.chans.Keys == old(model).chans.Keys
        decreases |workqueue.queue|
      {
        TracedQueue(model, workers, trace);
        ghost var q := workqueue;
        var k := Round(w);
        RoundDrains(q, k == |SubscriberMatch(subscribers, q.queue[0].topic).0|);
      }
    }

    /** What Start does after its context is done, when no other worker is in the middle of a round:
        shut the queue down, wait until it is drained, close every registered channel and forget the
        table. `drained` is the bus between the drain and the closing. */
    method Stop(w: nat) returns (ghost drained: Bus<Channel>)
      requires Valid() && model.phase.Running? && workqueue.processing == {}
      requires w in model.workers && model.workers[w].Idle?
      modifies this, model.chans.Keys
      ensures Valid() && model.phase.Signalling? && subscribers == map[]
      ensures workqueue.queue == [] && workqueue.processing == {} && workqueue.shuttingDown
      ensures drained.subscribers == old(subscribers) && drained.chans.Keys == old(model).chans.Keys
      ensures AllClosed(drained, model)
    {
      ShutDown();
      Drain(w);
      drained := model;
      TracedQueue(model, workers, trace);
      CloseAll();
    }

    /** A worker goes on until the queue is empty and shutting down. */
    method ProcessNextWorkItem(w: nat) returns (more: bool)
      requires Valid() && w in model.workers && model.workers[w].Idle?
      requires workqueue.queue != [] || workqueue.shuttingDown
      modifies this, model.chans.Keys
      ensures Valid() && subscribers == old(subscribers)
      ensures more <==> old(workqueue).queue != []
      ensures !more ==> trace == old(trace) + [Exit(w)]
      ensures more ==> exists k :: IsRound(old(model), w, k, old(trace), trace)
    {
      more := workqueue.queue != [];
      if more {
        var k := Round(w);
      } else {
        Take(Exit(w));
      }
    }
  }

  /** The parts of the bus that a worker's round leaves alone. */
  ghost predicate SameFrame<C>(s: Bus<C>, r: Bus<C>) {
    r.phase == s.phase && r.chans.Keys == s.chans.Keys && r.workers.Keys == s.workers.Keys
  }

  /** The work queue after a round on its first item. */
  function AfterRound(q: WorkQueue<Message>, delivered: bool): WorkQueue<Message>
    requires q.queue != []
  {
    var m := q.queue[0];
    WorkQueues.Done(if delivered then WorkQueues.Get(q) else AddRateLimited(WorkQueues.Get(q), m), m)
  }

  /** While the queue shuts down a round takes one item off and puts none back. */
  lemma RoundDrains(q: WorkQueue<Message>, delivered: bool)
    requires q.Valid() && q.queue != [] && q.shuttingDown && q.processing == {}
    ensures var r := AfterRound(q, delivered); r.queue == q.queue[1..] && r.processing == {} && r.shuttingDown
  {
  }

  /** Channel `c` is at some position of the table. */
  ghost predicate Listed<C>(subs: map<Text, seq<C>>, c: C) {
    exists t, i :: t in subs && 0 <= i < |subs[t]| && subs[t][i] == c
  }

  function Positions(t: Text, n: nat): set<(Text, nat)>
    ensures forall p :: p in Positions(t, n) <==> p.0 == t && p.1 < n
  {
    if n == 0 then {} else Positions(t, n - 1) + {(t, n - 1)}
  }

  /** Exactly the channels registered in `s` have been closed on the way to `r`; no channel has
      lost or gained an event. */
  ghost predicate AllClosed<C>(s: Bus<C>, r: Bus<C>) {
    && r.chans.Keys == s.chans.Keys
    && forall c :: c in s.chans ==>
         r.chans[c] == if Listed(s.subscribers, c) then s.chans[c].(closed := true) else s.chans[c]
  }

  lemma ClosedEverywhere<C>(s: Bus<C>, r: Bus<C>, done: set<(Text, nat)>)
    requires ClosedAt(s, r, done)
    requires forall t, i :: t in s.subscribers && 0 <= i < |s.subscribers[t]| ==> (t, i) in done
    ensures AllClosed(s, r)
  {
    assert Unseal(0);
    forall c | c in s.chans && Listed(s.subscribers, c) ensures r.chans[c] == s.chans[c].(closed := true) {
      var t, i :| t in s.subscribers && 0 <= i < |s.subscribers[t]| && s.subscribers[t][i] == c;
      assert (t, i) in done;
      assert IsClosed(r, s.subscribers[(t, i).0][(t, i).1]);
    }
  }

  predicate IsClosed<C>(s: Bus<C>, c: C) {
    c in s.chans && s.chans[c].closed
  }

  lemma CloseExtends<C>(s: Bus<C>, r: Bus<C>, done: set<(Text, nat)>, t: Text, i: nat)
    requires ClosedAt(s, r, done) && Enabled(r, Close(t, i)) && !r.chans[r.subscribers[t][i]].closed
    ensures ClosedAt(s, Next(r, Close(t, i)), done + {(t, i)})
  {
    assert Unseal(0);
    var q := Next(r, Close(t, i));
    var c := r.subscribers[t][i];
    assert Listed(s.subscribers, c);
    forall p | p in done + {(t, i)}
      ensures p.0 in s.subscribers && p.1 < |s.subscribers[p.0]| && IsClosed(q, s.subscribers[p.0][p.1])
    {
      if p in done { assert IsClosed(r, s.subscribers[p.0][p.1]); }
    }
  }

  /** From `s` to `r` channels were closed at the positions `done`, and nothing else changed. */
  ghost predicate ClosedAt<C>(s: Bus<C>, r: Bus<C>, done: set<(Text, nat)>) {
    && r.subscribers == s.subscribers && r.chans.Keys == s.chans.Keys
    && r.phase == Closing(done)
    && (forall p :: p in done ==> p.0 in s.subscribers && p.1 < |s.subscribers[p.0]|)
    && forall k: nat :: Unseal(k) ==> OnlyClosed(s, r, done)
  }

  ghost predicate OnlyClosed<C>(s: Bus<C>, r: Bus<C>, done: set<(Text, nat)>)
    requires r.chans.Keys == s.chans.Keys
    requires forall p :: p in done ==> p.0 in s.subscribers && p.1 < |s.subscribers[p.0]|
  {
    && (forall p :: p in done ==> IsClosed(r, s.subscribers[p.0][p.1]))
    && (forall c :: c in s.chans ==>
          r.chans[c] == s.chans[c] || (Listed(s.subscribers, c) && r.chans[c] == s.chans[c].(closed := true)))
  }

  /** A round of worker `w` that starts in `s` and serves `k` of the matched channels: those in front
      of the first full one; the message is forgotten exactly when none is full. */
  ghost predicate IsRound<C>(s: Bus<C>, w: nat, k: nat, before: seq<Step<C>>, after: seq<Step<C>>) {
    && s.wq.queue != []
    && var targets := SubscriberMatch(s.subscribers, s.wq.queue[0].topic).0;
    && IsServed(s, targets, k)
    && after == before + RoundSteps(w, k, k == |targets|)
  }

  /** Of the channels `targets`, the first `k` have room and the next one, if any, is full. */
  ghost predicate IsServed<C>(s: Bus<C>, targets: seq<C>, k: nat) {
    && k <= |targets|
    && (forall i :: 0 <= i < |targets| ==> targets[i] in s.chans)
    && (forall i :: 0 <= i < k ==> |s.chans[targets[i]].buffer| < CONSUMER_BUFFER_SIZE)
    && (k < |targets| ==> |s.chans[targets[k]].buffer| == CONSUMER_BUFFER_SIZE)
  }

  /** From `s` to `r` the first `k` targets, which had room, were served, and the rest left alone. Sealed. */
  ghost predicate Progress<C>(s: Bus<C>, r: Bus<C>, targets: seq<C>, k: nat) {
    forall n: nat :: Unseal(n) ==>
      && k <= |targets| && (forall i :: 0 <= i < |targets| ==> targets[i] in s.chans && targets[i] in r.chans)
      && (forall i :: 0 <= i < k ==> |s.chans[targets[i]].buffer| < CONSUMER_BUFFER_SIZE)
      && (forall i :: k <= i < |targets| ==> r.chans[targets[i]] == s.chans[targets[i]])
  }

  lemma ProgressBegins<C>(s: Bus<C>, targets: seq<C>)
    requires OpenTargets(s, targets)
    ensures Progress(s, s, targets, 0)
  {
  }

  lemma Untouched<C>(s: Bus<C>, r: Bus<C>, targets: seq<C>, k: nat)
    requires Progress(s, r, targets, k) && k < |targets|
    ensures targets[k] in s.chans && targets[k] in r.chans && r.chans[targets[k]] == s.chans[targets[k]]
  {
    assert Unseal(0);
  }

  lemma ProgressStep<C>(s: Bus<C>, r: Bus<C>, q: Bus<C>, targets: seq<C>, k: nat)
    requires Progress(s, r, targets, k) && k < |targets| && q.chans.Keys == r.chans.Keys
    requires targets[k] in r.chans && |r.chans[targets[k]].buffer| < CONSUMER_BUFFER_SIZE
    requires forall i :: k < i < |targets| ==> targets[i] in r.chans && q.chans[targets[i]] == r.chans[targets[i]]
    ensures Progress(s, q, targets, k + 1)
  {
  }

  lemma ProgressEnds<C>(s: Bus<C>, r: Bus<C>, targets: seq<C>, k: nat)
    requires Progress(s, r, targets, k)
    requires k < |targets| ==> targets[k] in r.chans && |r.chans[targets[k]].buffer| == CONSUMER_BUFFER_SIZE
    ensures IsServed(s, targets, k)
  {
    assert Unseal(0);
  }

  function Sends<C>(w: nat, k: nat): seq<Step<C>> {
    if k == 0 then [] else Sends(w, k - 1) + [Send(w)]
  }

  /** The steps of a round that served `k` channels. */
  function RoundSteps<C>(w: nat, k: nat, ok: bool): seq<Step<C>> {
    [Step.Get(w), Match(w)] + Sends(w, k) + [if ok then Finish(w) else Block(w), Step.Done(w)]
  }

  lemma RoundTrace<C>(before: seq<Step<C>>, w: nat, k: nat, ok: bool)
    ensures before + [Step.Get(w), Match(w)] + Sends(w, k) + [if ok then Finish(w) else Block(w), Step.Done(w)]
            == before + RoundSteps(w, k, ok)
  {
  }

  lemma TargetsOpen<C>(s: Bus<C>, w: nat)
    requires Inv(s) && At(s, w) && s.workers[w].Sending?
    ensures OpenTargets(s, AttemptOf(s, w).targets)
  {
    var t := AttemptOf(s, w);
    assert AttemptOK(s, s.workers[w].attempt);
    forall i | 0 <= i < |t.targets| ensures !s.chans[t.targets[i]].closed {
      var topic, j := MatchRegistered(s.subscribers, t.msg.topic, i);
      assert s.subscribers[topic][j] == t.targets[i];
    }
  }

  ghost predicate OpenTargets<C>(s: Bus<C>, targets: seq<C>) {
    !s.panicked && Distinct(targets)
    && forall i :: 0 <= i < |targets| ==>
         targets[i] in s.chans && !s.chans[targets[i]].closed && |s.chans[targets[i]].buffer| <= CONSUMER_BUFFER_SIZE
  }

  lemma {:induction false} FirstIndex<C>(s: seq<C>, c: C, i: nat)
    requires i <= |s| && c !in s[..i] && (i < |s| ==> s[i] == c)
    ensures IndexOf(s, c) == i
  {
  }
}
