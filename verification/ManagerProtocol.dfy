/** The action manager as a state machine (pkg/actions/manager.go), composed with the event bus.

    Reconciliations of different names run concurrently, one at a time for each name; every
    installed countermeasure has a consumer goroutine. A step is one critical section, one
    interaction with a channel, or one move of a goroutine between them. */
module ManagerProtocol {
  import opened Texts
  import opened Events
  import opened Topics
  import opened Specs
  import opened Suppression
  import B = BusProtocol
  import BusSafety
  import BusLedger
  import opened Sealing

  type EntryId = nat

  /** Where a consumer goroutine stands in the loop of Manager.Add, with the event it handles and the
      key of that event. */
  datatype Loop =
    | Waiting
    | Dequeued(event: Event, key: Text)
    | Checking(event: Event, key: Text, entry: EntryId)
    | Cleared(event: Event, key: Text)
    | Acting(event: Event, key: Text)
    | Ended

  /** A consumer goroutine: the key and the topic it was started for, and where it stands. */
  datatype Consumer = Consumer(key: ObjectKey, topic: Text, loop: Loop)

  /** Where the reconciliation of a name stands. Locked, Cleaned, Holding and Unlinked hold the
      manager's lock. */
  datatype Task<C> =
    | Found(cm: CounterMeasure)
    | Absent(cm: CounterMeasure)
    | Subscribed(cm: CounterMeasure, chan: C)
    | Locked(cm: CounterMeasure, chan: C)
    | Cleaned(cm: CounterMeasure, chan: C)
    | Missing
    | Holding
    | Unlinked

  datatype Handle<C> = Handle(topic: Text, chan: C)

  datatype Skip = Skip(key: Text, at: int)

  /** An entry of the state table, with the history of its runs and skips and the channel of the
      goroutine started together with it. */
  datatype Entry<C> = Entry(cm: CounterMeasure, chan: C, state: EntryState, starts: seq<Start>, skips: seq<Skip>)

  datatype Manager<C> = Manager(
    bus: B.Bus<C>,
    mux: Option<NamespacedName>,
    consumers: map<NamespacedName, Handle<C>>,
    measures: map<ObjectKey, EntryId>,
    entries: map<EntryId, Entry<C>>,
    loops: map<C, Consumer>,
    tasks: map<NamespacedName, Task<C>>,
    owner: map<C, NamespacedName>,
    clock: int,
    crashed: bool)

  /** The moves of a reconciliation. A move that involves the bus carries the state the bus moves
      to. */
  datatype TaskMove<C> =
    | Read(resource: Option<CounterMeasure>)
    | Exists
    | Refresh(cm: CounterMeasure)
    | GiveUp
    | AddSubscribe(chan: C, bus: B.Bus<C>)
    | AddLock
    | AddClean
    | AddInsert(entry: EntryId)
    | RemoveLock
    | RemoveUnsubscribe(bus: B.Bus<C>)
    | RemoveFinish

  /** The moves of a consumer goroutine. */
  datatype LoopMove<C> =
    | Receive(key: Text, bus: B.Bus<C>)
    | Leave
    | Lookup(now: int)
    | Check(now: int, built: bool)
    | Break(now: int)
    | StartRun(now: int)
    | EndRun

  datatype Step<C> =
    | OnBus(step: B.Step<C>, bus: B.Bus<C>)
    | OnTask(name: NamespacedName, task: TaskMove<C>)
    | OnLoop(chan: C, loop: LoopMove<C>)

  ghost function NewManager<C>(workers: nat): Manager<C> {
    Manager(B.NewBus<C>(workers), None, map[], map[], map[], map[], map[], map[], 0, false)
  }

  /** The bus steps that are not calls of the manager; shut-down is not one of them. */
  ghost predicate Internal<C>(a: B.Step<C>) {
    a.Publish? || a.Mature? || a.Get? || a.Match? || a.Send? || a.Block? || a.Finish? || a.Done?
  }

  /** The bus takes step `a` from `b` to `r`. Sealed. */
  ghost predicate BusMoves<C>(b: B.Bus<C>, a: B.Step<C>, r: B.Bus<C>) {
    forall k: nat :: Unseal(k) ==> B.Enabled(b, a) && r == B.Next(b, a)
  }

  ghost predicate HasLoop<C>(s: Manager<C>, c: C) {
    c in s.loops && c in s.bus.chans
  }

  /** The pointer stored under the key of goroutine `c`, if any, is a live entry. */
  ghost predicate EntryLive<C>(s: Manager<C>, c: C)
    requires c in s.loops
  {
    s.loops[c].key in s.measures ==> s.measures[s.loops[c].key] in s.entries
  }

  /** `key` is what Event.Key returns for `event`. Sealed. */
  ghost predicate IsKey(event: Event, key: Text) {
    forall k: nat :: Unseal(k) ==> key == EventKey(event)
  }

  ghost predicate CanReceive<C>(s: Manager<C>, c: C) {
    HasLoop(s, c) && s.loops[c].loop.Waiting? && s.bus.chans[c].buffer != []
  }

  ghost predicate CanLookup<C>(s: Manager<C>, c: C) {
    HasLoop(s, c) && s.loops[c].loop.Dequeued? && EntryLive(s, c)
  }

  ghost predicate CanCheck<C>(s: Manager<C>, c: C) {
    HasLoop(s, c) && s.loops[c].loop.Checking? && s.loops[c].loop.entry in s.entries
  }

  ghost predicate CanStart<C>(s: Manager<C>, c: C) {
    HasLoop(s, c) && s.loops[c].loop.Cleared? && EntryLive(s, c)
  }

  ghost predicate CanEnd<C>(s: Manager<C>, c: C) {
    HasLoop(s, c) && s.loops[c].loop.Acting? && EntryLive(s, c)
  }

  ghost predicate TaskEnabled<C>(s: Manager<C>, n: NamespacedName, a: TaskMove<C>) {
    match a
    case Read(r) => n !in s.tasks && (r.Some? ==> r.value.key.name == n)
    case Exists => n in s.tasks && s.tasks[n].Found? && s.mux.None?
    case Refresh(cm) => n in s.tasks && s.tasks[n].Absent? && cm.key.name == n
    case GiveUp => n in s.tasks && s.tasks[n].Absent?
    case AddSubscribe(c, bus) =>
      && n in s.tasks && s.tasks[n].Absent?
      && BusMoves(s.bus, B.Subscribe(Topic(s.tasks[n].cm), c), bus)
    case AddLock => n in s.tasks && s.tasks[n].Subscribed? && s.mux.None?
    case AddClean => n in s.tasks && s.tasks[n].Locked?
    case AddInsert(e) => n in s.tasks && s.tasks[n].Cleaned? && e !in s.entries
    case RemoveLock => n in s.tasks && s.tasks[n].Missing? && s.mux.None?
    case RemoveUnsubscribe(bus) =>
      && n in s.tasks && s.tasks[n].Holding?
      && (if n in s.consumers then BusMoves(s.bus, B.Unsubscribe(s.consumers[n].topic, s.consumers[n].chan), bus)
          else bus == s.bus)
    case RemoveFinish => n in s.tasks && s.tasks[n].Unlinked?
  }

  ghost predicate LoopEnabled<C>(s: Manager<C>, c: C, a: LoopMove<C>) {
    match a
    case Receive(key, bus) =>
      CanReceive(s, c) && IsKey(s.bus.chans[c].buffer[0], key) && BusMoves(s.bus, B.Receive(c), bus)
    case Leave => HasLoop(s, c) && s.loops[c].loop.Waiting? && s.bus.chans[c].closed && s.bus.chans[c].buffer == []
    case Lookup(now) => CanLookup(s, c) && now >= s.clock
    case Check(now, _) => CanCheck(s, c) && now >= s.clock
    // The event is not suppressed, and a builder panics for want of its client.
    case Break(now) => CanCheck(s, c) && now >= s.clock && !IsSuppressed(s.entries[s.loops[c].loop.entry].state, s.loops[c].loop.key, now)
    case StartRun(now) => CanStart(s, c) && now >= s.clock
    case EndRun => CanEnd(s, c)
  }

  ghost predicate Enabled<C>(s: Manager<C>, a: Step<C>) {
    !s.crashed &&
    match a
    case OnBus(b, bus) => Internal(b) && BusMoves(s.bus, b, bus)
    case OnTask(n, t) => TaskEnabled(s, n, t)
    case OnLoop(c, l) => LoopEnabled(s, c, l)
  }

  ghost function Without(m: map<ObjectKey, EntryId>, name: NamespacedName): map<ObjectKey, EntryId> {
    map k | k in m && k.name != name :: m[k]
  }

  ghost function Move<C>(s: Manager<C>, c: C, loop: Loop): Manager<C>
    requires c in s.loops
  {
    s.(loops := s.loops[c := s.loops[c].(loop := loop)])
  }

  ghost function ExistsStep<C>(s: Manager<C>, n: NamespacedName): Manager<C>
    requires n in s.tasks && s.tasks[n].Found?
  {
    s.(tasks := if n in s.consumers then s.tasks - {n} else s.tasks[n := Absent(s.tasks[n].cm)])
  }

  /** Add has subscribed to channel `c`, which turned the bus into `bus`. */
  ghost function AddSubscribeWith<C>(s: Manager<C>, n: NamespacedName, c: C, bus: B.Bus<C>): Manager<C>
    requires n in s.tasks && s.tasks[n].Absent?
  {
    s.(bus := bus, tasks := s.tasks[n := Subscribed(s.tasks[n].cm, c)], owner := s.owner[c := n])
  }

  ghost function AddLockStep<C>(s: Manager<C>, n: NamespacedName): Manager<C>
    requires n in s.tasks && s.tasks[n].Subscribed?
  {
    var t := s.tasks[n];
    s.(mux := Some(n),
       consumers := s.consumers[n := Handle(Topic(t.cm), t.chan)],
       tasks := s.tasks[n := Locked(t.cm, t.chan)])
  }

  /** The state's own Remove, a critical section of its own inside Add. */
  ghost function AddCleanStep<C>(s: Manager<C>, n: NamespacedName): Manager<C>
    requires n in s.tasks && s.tasks[n].Locked?
  {
    s.(measures := Without(s.measures, n), tasks := s.tasks[n := Cleaned(s.tasks[n].cm, s.tasks[n].chan)])
  }

  ghost function AddInsertStep<C>(s: Manager<C>, n: NamespacedName, e: EntryId): Manager<C>
    requires n in s.tasks && s.tasks[n].Cleaned?
  {
    var t := s.tasks[n];
    s.(measures := s.measures[t.cm.key := e],
       entries := s.entries[e := Entry(t.cm, t.chan, NewEntry(Window(t.cm.spec)), [], [])],
       loops := s.loops[t.chan := Consumer(t.cm.key, Topic(t.cm), Waiting)],
       tasks := s.tasks - {n},
       mux := None)
  }

  ghost function RemoveLockStep<C>(s: Manager<C>, n: NamespacedName): Manager<C> {
    s.(mux := Some(n), tasks := s.tasks[n := Holding])
  }

  ghost function RemoveFinishStep<C>(s: Manager<C>, n: NamespacedName): Manager<C> {
    s.(consumers := s.consumers - {n}, measures := Without(s.measures, n), tasks := s.tasks - {n}, mux := None)
  }

  /** The goroutine takes the oldest event, which turns the bus into `bus`. */
  ghost function ReceiveWith<C>(s: Manager<C>, c: C, key: Text, bus: B.Bus<C>): Manager<C>
    requires HasLoop(s, c) && s.bus.chans[c].buffer != []
  {
    Move(s, c, Dequeued(s.bus.chans[c].buffer[0], key)).(bus := bus)
  }

  /** GetCounterMeasure: nil when the key is not installed. */
  ghost function LookupStep<C>(s: Manager<C>, c: C, now: int): Manager<C>
    requires CanLookup(s, c)
  {
    var key := s.loops[c].key;
    if key in s.measures then
      var id := s.measures[key];
      Move(s, c, Checking(s.loops[c].loop.event, s.loops[c].loop.key, id))
      .(entries := s.entries[id := s.entries[id].(state := Prune(s.entries[id].state, now))], clock := now)
    else Move(s, c, Waiting).(clock := now)
  }

  /** IsSuppressed, then NewRunner, which may fail. */
  ghost function CheckStep<C>(s: Manager<C>, c: C, now: int, built: bool): Manager<C>
    requires CanCheck(s, c)
  {
    var l := s.loops[c].loop;
    var e := s.entries[l.entry];
    if IsSuppressed(e.state, l.key, now) then
      Move(s, c, Waiting).(entries := s.entries[l.entry := e.(skips := e.skips + [Skip(l.key, now)])], clock := now)
    else Move(s, c, if built then Cleared(l.event, l.key) else Waiting).(clock := now)
  }

  /** CounterMeasureStart looks the key up again; a missing entry is a nil dereference. */
  ghost function StartStep<C>(s: Manager<C>, c: C, now: int): Manager<C>
    requires CanStart(s, c)
  {
    var l := s.loops[c].loop;
    if s.loops[c].key in s.measures then
      var id := s.measures[s.loops[c].key];
      var e := s.entries[id];
      Move(s, c, Acting(l.event, l.key))
      .(entries := s.entries[id := e.(state := RecordStart(e.state, l.key, now), starts := e.starts + [Start(l.key, now)])],
        clock := now)
    else s.(crashed := true)
  }

  ghost function EndStep<C>(s: Manager<C>, c: C): Manager<C>
    requires CanEnd(s, c)
  {
    var key := s.loops[c].key;
    if key in s.measures then
      var id := s.measures[key];
      Move(s, c, Waiting).(entries := s.entries[id := s.entries[id].(state := RecordEnd(s.entries[id].state))])
    else s.(crashed := true)
  }

  ghost function TaskNext<C>(s: Manager<C>, n: NamespacedName, a: TaskMove<C>): Manager<C>
    requires TaskEnabled(s, n, a)
  {
    match a
    case Read(r) => s.(tasks := s.tasks[n := if r.Some? then Found(r.value) else Missing])
    case Exists => ExistsStep(s, n)
    case Refresh(cm) => s.(tasks := s.tasks[n := Absent(cm)])
    case GiveUp => s.(tasks := s.tasks - {n})
    case AddSubscribe(c, bus) => AddSubscribeWith(s, n, c, bus)
    case AddLock => AddLockStep(s, n)
    case AddClean => AddCleanStep(s, n)
    case AddInsert(e) => AddInsertStep(s, n, e)
    case RemoveLock => RemoveLockStep(s, n)
    case RemoveUnsubscribe(bus) => s.(bus := bus, tasks := s.tasks[n := Unlinked])
    case RemoveFinish => RemoveFinishStep(s, n)
  }

  ghost function LoopNext<C>(s: Manager<C>, c: C, a: LoopMove<C>): Manager<C>
    requires LoopEnabled(s, c, a)
  {
    match a
    case Receive(key, bus) => ReceiveWith(s, c, key, bus)
    case Leave => Move(s, c, Ended)
    case Lookup(now) => LookupStep(s, c, now)
    case Check(now, built) => CheckStep(s, c, now, built)
    case Break(_) => s.(crashed := true)
    case StartRun(now) => StartStep(s, c, now)
    case EndRun => EndStep(s, c)
  }

  ghost function Next<C>(s: Manager<C>, a: Step<C>): Manager<C>
    requires Enabled(s, a)
  {
    match a
    case OnBus(_, bus) => s.(bus := bus)
    case OnTask(n, t) => TaskNext(s, n, t)
    case OnLoop(c, l) => LoopNext(s, c, l)
  }

  ghost predicate Run<C>(s: Manager<C>, steps: seq<Step<C>>)
    decreases |steps|
  {
    steps == [] || (Enabled(s, steps[0]) && Run(Next(s, steps[0]), steps[1..]))
  }

  ghost function After<C>(s: Manager<C>, steps: seq<Step<C>>): Manager<C>
    requires Run(s, steps)
    decreases |steps|
  {
    if steps == [] then s else After(Next(s, steps[0]), steps[1..])
  }

  // ---------- what the manager needs to know of the bus ----------

  /** The bus is in a state of one of its runs, before shut-down. Sealed. */
  ghost predicate Good<C>(b: B.Bus<C>) {
    forall k: nat :: Unseal(k) ==> BusLedger.FullInv(b) && b.phase.Running?
  }

  /** Channel `c` is registered under `topic`. */
  ghost predicate Registered<C>(b: B.Bus<C>, topic: Text, c: C) {
    c in B.Slice(b.subscribers, topic)
  }

  lemma GoodRegistered<C>(b: B.Bus<C>, topic: Text, c: C)
    requires Good(b) && Registered(b, topic, c)
    ensures c in b.chans && !b.chans[c].closed
    ensures forall t :: Registered(b, t, c) ==> t == topic
  {
    assert Unseal(0);
    assert b.subscribers[topic][B.IndexOf(b.subscribers[topic], c)] == c;
    forall t | Registered(b, t, c) ensures t == topic {
      assert b.subscribers[t][B.IndexOf(b.subscribers[t], c)] == c;
    }
  }

  lemma GoodCapacity<C>(b: B.Bus<C>, c: C)
    requires Good(b) && c in b.chans
    ensures |b.chans[c].buffer| <= B.CONSUMER_BUFFER_SIZE
  {
    assert Unseal(0);
  }

  lemma GoodReceive<C>(b: B.Bus<C>, c: C)
    requires Good(b) && c in b.chans && b.chans[c].buffer != []
    ensures B.Enabled(b, B.Receive(c)) && BusMoves(b, B.Receive(c), B.Next(b, B.Receive(c)))
  {
    assert Unseal(0);
  }

  lemma GoodSubscribe<C>(b: B.Bus<C>, topic: Text, c: C)
    requires Good(b) && !B.ReadLocked(b) && c !in b.chans
    ensures BusMoves(b, B.Subscribe(topic, c), B.SubscribeStep(b, topic, c))
  {
  }

  lemma GoodUnsubscribe<C>(b: B.Bus<C>, topic: Text, c: C)
    requires Good(b) && !B.ReadLocked(b) && c in b.chans
    ensures BusMoves(b, B.Unsubscribe(topic, c), B.UnsubscribeStep(b, topic, c))
  {
  }

  lemma GoodNext<C>(b: B.Bus<C>, a: B.Step<C>, r: B.Bus<C>)
    requires Good(b) && BusMoves(b, a, r) && !a.ShutDown?
    ensures Good(r)
  {
    assert Unseal(0);
    BusLedger.NextKeepsFullInv(b, a);
  }

  /** The bus changes without touching registrations, closes nothing, and leaves closed channels
      alone. */
  ghost predicate Quiet<C>(b: B.Bus<C>, r: B.Bus<C>) {
    && Good(r) && r.subscribers == b.subscribers && r.chans.Keys == b.chans.Keys
    && forall c :: c in b.chans ==> r.chans[c].closed == b.chans[c].closed
  }

  lemma InternalChans<C>(b: B.Bus<C>, a: B.Step<C>)
    requires B.Enabled(b, a) && Internal(a) && (a.Send? ==> !b.chans[B.Target(b, a.worker)].closed)
    ensures var r := B.Next(b, a);
            && r.subscribers == b.subscribers && r.chans.Keys == b.chans.Keys
            && forall c :: c in b.chans ==> r.chans[c].closed == b.chans[c].closed && (b.chans[c].closed ==> r.chans[c] == b.chans[c])
  {
  }

  lemma InternalFrame<C>(b: B.Bus<C>, a: B.Step<C>, r: B.Bus<C>)
    requires Good(b) && BusMoves(b, a, r) && Internal(a)
    ensures Quiet(b, r)
    ensures forall c :: c in b.chans && b.chans[c].closed ==> r.chans[c] == b.chans[c]
  {
    GoodNext(b, a, r);
    assert Unseal(0);
    if a.Send? { BusSafety.TargetIsOpen(b, a.worker); }
    InternalChans(b, a);
  }

  lemma ReceiveFrame<C>(b: B.Bus<C>, c: C, r: B.Bus<C>)
    requires Good(b) && BusMoves(b, B.Receive(c), r)
    ensures Quiet(b, r) && c in b.chans && b.chans[c].buffer != []
    ensures forall d :: d in b.chans && d != c ==> r.chans[d] == b.chans[d]
    ensures r.chans[c].buffer == b.chans[c].buffer[1..]
  {
    GoodNext(b, B.Receive(c), r);
    assert Unseal(0);
  }

  /** From `b` to `r` channel `c` was unregistered and closed. */
  ghost predicate Unsubscribed<C>(b: B.Bus<C>, r: B.Bus<C>, c: C) {
    && Good(r) && c in b.chans
    && r.chans == b.chans[c := b.chans[c].(closed := true)]
    && forall t, x :: x in b.chans ==> (Registered(r, t, x) <==> Registered(b, t, x) && x != c)
  }

  lemma UnsubscribeFrame<C>(b: B.Bus<C>, topic: Text, c: C, r: B.Bus<C>)
    requires Good(b) && BusMoves(b, B.Unsubscribe(topic, c), r) && Registered(b, topic, c)
    ensures Unsubscribed(b, r, c)
  {
    GoodNext(b, B.Unsubscribe(topic, c), r);
    assert Unseal(0);
    BusLedger.UnsubscribeExact(b, topic, c);
    BusLedger.WithoutMembers(b.subscribers[topic], c);
    forall t, x | x in b.chans ensures Registered(r, t, x) <==> Registered(b, t, x) && x != c {
      if t != topic && Registered(b, t, c) { GoodRegistered(b, topic, c); }
    }
  }

  /** From `b` to `r` the new channel `c` was registered under `topic`. */
  ghost predicate NewlySubscribed<C>(b: B.Bus<C>, r: B.Bus<C>, topic: Text, c: C) {
    && Good(r) && c !in b.chans
    && r.chans.Keys == b.chans.Keys + {c} && !r.chans[c].closed
    && (forall x :: x in b.chans ==> r.chans[x] == b.chans[x])
    && forall t, x :: x in r.chans ==> (Registered(r, t, x) <==> Registered(b, t, x) || (t == topic && x == c))
  }

  lemma SubscribeFrame<C>(b: B.Bus<C>, topic: Text, c: C, r: B.Bus<C>)
    requires Good(b) && BusMoves(b, B.Subscribe(topic, c), r)
    ensures NewlySubscribed(b, r, topic, c)
  {
    GoodNext(b, B.Subscribe(topic, c), r);
    assert Unseal(0);
  }
}
