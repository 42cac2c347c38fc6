/** The locks of the bus, the manager and the state, and the order in which every operation takes
    them. Locks are Go's sync.RWMutex: a writer first claims the lock, which makes later readers
    queue behind it, then waits for the readers already inside; when it unlocks, the queued readers
    are let in. Shut-down is not part of this protocol. */
module Locking {
  import opened Texts

  type ThreadId = nat

  datatype Lock = ConsumersMux | SubscribersMux | MeasuresMux | EntryMux(entry: nat)

  datatype Mode = Read | Write

  /** What an operation does, as far as locks are concerned. Execute runs the actions of a
      countermeasure, which may take forever. */
  datatype Op = Acquire(lock: Lock, mode: Mode) | Release(lock: Lock, mode: Mode) | Execute

  datatype RWMutex = RWMutex(claim: Option<ThreadId>, owned: bool, readers: set<ThreadId>, queued: set<ThreadId>)

  const FREE := RWMutex(None, false, {}, {})

  datatype Thread = Thread(held: map<Lock, Mode>, rest: seq<Op>)

  datatype System = System(locks: map<Lock, RWMutex>, threads: map<ThreadId, Thread>)

  // ---------- the operations ----------

  /** The operations that take locks. Handle is one pass of a consumer goroutine over an event: the
      entry it looked up, and the entries its start and its end find, which may be others. */
  datatype Routine =
    | Add
    | Remove(found: bool)
    | Exists
    | Subscribe
    | Unsubscribe
    | Deliver
    | IsDeployed
    | IsRunning
    | Ignore
    | Skip(entry: nat)
    | Handle(entry: nat, started: nat, ended: nat)

  function Section(l: Lock, m: Mode, body: seq<Op>): seq<Op> {
    [Acquire(l, m)] + body + [Release(l, m)]
  }

  /** A critical section of the state that also locks an entry. */
  function OnEntry(e: nat): seq<Op> {
    Section(MeasuresMux, Write, Section(EntryMux(e), Write, []))
  }

  function Program(r: Routine): seq<Op> {
    match r
    case Add =>
      Section(SubscribersMux, Write, []) +
      Section(ConsumersMux, Write, Section(MeasuresMux, Write, []) + Section(MeasuresMux, Write, []))
    case Remove(found) =>
      Section(ConsumersMux, Write,
              (if found then Section(SubscribersMux, Write, []) else []) + Section(MeasuresMux, Write, []))
    case Exists => Section(ConsumersMux, Read, [])
    case Subscribe => Section(SubscribersMux, Write, [])
    case Unsubscribe => Section(SubscribersMux, Write, [])
    case Deliver => Section(SubscribersMux, Read, [])
    case IsDeployed => Section(MeasuresMux, Write, [])
    case IsRunning => Section(MeasuresMux, Read, [])
    case Ignore => Section(MeasuresMux, Write, [])
    case Skip(e) => OnEntry(e) + Section(EntryMux(e), Write, [])
    case Handle(e, s, f) => OnEntry(e) + Section(EntryMux(e), Write, []) + OnEntry(s) + [Execute] + OnEntry(f)
  }

  // ---------- the state machine ----------

  function LockOf(s: System, l: Lock): RWMutex {
    if l in s.locks then s.locks[l] else FREE
  }

  datatype Step =
    | Begin(thread: ThreadId, routine: Routine)
    | Arrive(thread: ThreadId)
    | Enter(thread: ThreadId)
    | Leave(thread: ThreadId)
    | Finish(thread: ThreadId)

  /** Thread `t` is about to do `op`. */
  predicate At(s: System, t: ThreadId, op: Op) {
    t in s.threads && s.threads[t].rest != [] && s.threads[t].rest[0] == op
  }

  predicate AtAcquire(s: System, t: ThreadId) {
    t in s.threads && s.threads[t].rest != [] && s.threads[t].rest[0].Acquire?
  }

  predicate AtRelease(s: System, t: ThreadId) {
    t in s.threads && s.threads[t].rest != [] && s.threads[t].rest[0].Release?
  }

  function Wanted(s: System, t: ThreadId): Op
    requires AtAcquire(s, t)
  {
    s.threads[t].rest[0]
  }

  /** The thread is known to the lock already: it has claimed it, is inside, or queues. */
  predicate Engaged(k: RWMutex, t: ThreadId) {
    k.claim == Some(t) || t in k.readers || t in k.queued
  }

  predicate CanArrive(s: System, t: ThreadId) {
    && AtAcquire(s, t)
    && var k := LockOf(s, Wanted(s, t).lock);
    !Engaged(k, t) && (Wanted(s, t).mode.Write? ==> k.claim.None?)
  }

  predicate CanEnter(s: System, t: ThreadId) {
    && AtAcquire(s, t)
    && var k := LockOf(s, Wanted(s, t).lock);
    if Wanted(s, t).mode.Read? then t in k.readers else k.claim == Some(t) && k.readers == {}
  }

  predicate Enabled(s: System, a: Step) {
    match a
    case Begin(t, _) => t in s.threads ==> s.threads[t].rest == []
    case Arrive(t) => CanArrive(s, t)
    case Enter(t) => CanEnter(s, t)
    case Leave(t) => AtRelease(s, t)
    case Finish(t) => At(s, t, Execute)
  }

  /** The thread announces itself at the lock. */
  function Arrived(k: RWMutex, t: ThreadId, m: Mode): RWMutex {
    match m
    case Read => if k.claim.None? then k.(readers := k.readers + {t}) else k.(queued := k.queued + {t})
    case Write => k.(claim := Some(t), owned := false)
  }

  function Unlocked(k: RWMutex, t: ThreadId, m: Mode): RWMutex {
    match m
    case Read => k.(readers := k.readers - {t})
    case Write => RWMutex(None, false, k.readers + k.queued, {})
  }

  /** The lock a step concerns, and what becomes of it. */
  function LockAfter(s: System, a: Step): (Lock, RWMutex)
    requires Enabled(s, a) && (a.Arrive? || a.Enter? || a.Leave?)
  {
    var op := s.threads[a.thread].rest[0];
    var k := LockOf(s, op.lock);
    (op.lock,
     match a
     case Arrive(t) => Arrived(k, t, op.mode)
     case Enter(t) => if op.mode.Write? then k.(owned := true) else k
     case Leave(t) => Unlocked(k, t, op.mode))
  }

  function ThreadAfter(s: System, a: Step): Thread
    requires Enabled(s, a)
  {
    match a
    case Begin(t, r) => Thread(map[], Program(r))
    case Arrive(t) => s.threads[t]
    case Enter(t) =>
      var th := s.threads[t];
      Thread(th.held[th.rest[0].lock := th.rest[0].mode], th.rest[1..])
    case Leave(t) =>
      var th := s.threads[t];
      Thread(th.held - {th.rest[0].lock}, th.rest[1..])
    case Finish(t) => s.threads[t].(rest := s.threads[t].rest[1..])
  }

  function Next(s: System, a: Step): System
    requires Enabled(s, a)
  {
    System(
      if a.Arrive? || a.Enter? || a.Leave? then s.locks[LockAfter(s, a).0 := LockAfter(s, a).1] else s.locks,
      s.threads[a.thread := ThreadAfter(s, a)])
  }

  const START := System(map[], map[])

  ghost predicate Run(s: System, steps: seq<Step>)
    decreases |steps|
  {
    steps == [] || (Enabled(s, steps[0]) && Run(Next(s, steps[0]), steps[1..]))
  }

  ghost function After(s: System, steps: seq<Step>): System
    requires Run(s, steps)
    decreases |steps|
  {
    if steps == [] then s else After(Next(s, steps[0]), steps[1..])
  }

  // ---------- the lock order ----------

  function Rank(l: Lock): nat {
    match l
    case ConsumersMux => 0
    case SubscribersMux => 1
    case MeasuresMux => 2
    case EntryMux(_) => 3
  }

  /** Every lock held ranks below `l`. */
  predicate Below(held: map<Lock, Mode>, l: Lock) {
    forall h :: h in held ==> Rank(h) < Rank(l)
  }

  /** What is held after `p`, if `p` takes locks in ascending order, releases what it holds in the
      mode it took it, and executes actions only with empty hands. */
  function Effect(held: map<Lock, Mode>, p: seq<Op>): Option<map<Lock, Mode>>
    decreases |p|
  {
    if p == [] then Some(held) else
      match p[0]
      case Acquire(l, m) => if Below(held, l) then Effect(held[l := m], p[1..]) else None
      case Release(l, m) => if l in held && held[l] == m then Effect(held - {l}, p[1..]) else None
      case Execute => if held == map[] then Effect(held, p[1..]) else None
  }

  lemma {:induction false} EffectAppend(held: map<Lock, Mode>, p: seq<Op>, q: seq<Op>)
    requires Effect(held, p).Some?
    ensures Effect(held, p + q) == Effect(Effect(held, p).value, q)
    decreases |p|
  {
    if p == [] {
      assert p + q == q;
    } else {
      assert (p + q)[1..] == p[1..] + q;
      match p[0] {
        case Acquire(l, m) => EffectAppend(held[l := m], p[1..], q);
        case Release(l, _) => EffectAppend(held - {l}, p[1..], q);
        case Execute => EffectAppend(held, p[1..], q);
      }
    }
  }

  lemma SectionBalanced(held: map<Lock, Mode>, l: Lock, m: Mode, body: seq<Op>)
    requires Below(held, l) && Effect(held[l := m], body) == Some(held[l := m])
    ensures Effect(held, Section(l, m, body)) == Some(held)
  {
    EffectAppend(held[l := m], body, [Release(l, m)]);
    assert l !in held;
    assert held[l := m] - {l} == held;
    assert Section(l, m, body)[1..] == body + [Release(l, m)];
  }

  lemma OnEntryBalanced(e: nat)
    ensures Effect(map[], OnEntry(e)) == Some(map[])
  {
    SectionBalanced(map[MeasuresMux := Write], EntryMux(e), Write, []);
    SectionBalanced(map[], MeasuresMux, Write, Section(EntryMux(e), Write, []));
  }

  lemma HandleBalanced(e: nat, s: nat, f: nat)
    ensures Effect(map[], Program(Handle(e, s, f))) == Some(map[])
    ensures Effect(map[], Program(Skip(e))) == Some(map[])
  {
    OnEntryBalanced(e);
    OnEntryBalanced(s);
    OnEntryBalanced(f);
    SectionBalanced(map[], EntryMux(e), Write, []);
    var p := OnEntry(e) + Section(EntryMux(e), Write, []);
    EffectAppend(map[], OnEntry(e), Section(EntryMux(e), Write, []));
    EffectAppend(map[], p, OnEntry(s));
    assert Effect(map[], [Execute]) == Some(map[]);
    EffectAppend(map[], p + OnEntry(s), [Execute]);
    EffectAppend(map[], p + OnEntry(s) + [Execute], OnEntry(f));
  }

  lemma AddBalanced()
    ensures Effect(map[], Program(Add)) == Some(map[])
  {
    var m := Section(MeasuresMux, Write, []);
    var held := map[ConsumersMux := Write];
    SectionBalanced(map[], SubscribersMux, Write, []);
    SectionBalanced(held, MeasuresMux, Write, []);
    EffectAppend(held, m, m);
    SectionBalanced(map[], ConsumersMux, Write, m + m);
    EffectAppend(map[], Section(SubscribersMux, Write, []), Section(ConsumersMux, Write, m + m));
  }

  lemma RemoveBalanced(found: bool)
    ensures Effect(map[], Program(Remove(found))) == Some(map[])
  {
    var held := map[ConsumersMux := Write];
    var first := if found then Section(SubscribersMux, Write, []) else [];
    SectionBalanced(held, SubscribersMux, Write, []);
    SectionBalanced(held, MeasuresMux, Write, []);
    EffectAppend(held, first, Section(MeasuresMux, Write, []));
    SectionBalanced(map[], ConsumersMux, Write, first + Section(MeasuresMux, Write, []));
  }

  /** Every operation takes its locks in the order consumersMux, subscribersMux, measuresMux, entry,
      executes actions holding none, and ends holding none. */
  lemma EveryRoutineOrdered(r: Routine)
    ensures Effect(map[], Program(r)) == Some(map[])
  {
    match r {
      case Add => AddBalanced();
      case Remove(found) => RemoveBalanced(found);
      case Exists => SectionBalanced(map[], ConsumersMux, Read, []);
      case Subscribe => SectionBalanced(map[], SubscribersMux, Write, []);
      case Unsubscribe => SectionBalanced(map[], SubscribersMux, Write, []);
      case Deliver => SectionBalanced(map[], SubscribersMux, Read, []);
      case IsDeployed => SectionBalanced(map[], MeasuresMux, Write, []);
      case IsRunning => SectionBalanced(map[], MeasuresMux, Read, []);
      case Ignore => SectionBalanced(map[], MeasuresMux, Write, []);
      case Skip(e) => HandleBalanced(e, e, e);
      case Handle(e, s, f) => HandleBalanced(e, s, f);
    }
  }

  /** What an operation holds each time it asks for a lock, and the lock and mode it asks for. */
  function Requests(held: set<Lock>, p: seq<Op>): seq<(set<Lock>, Lock, Mode)>
    decreases |p|
  {
    if p == [] then [] else
      match p[0]
      case Acquire(l, m) => [(held, l, m)] + Requests(held + {l}, p[1..])
      case Release(l, _) => Requests(held - {l}, p[1..])
      case Execute => Requests(held, p[1..])
  }

  lemma {:induction false} RequestsAppend(held: set<Lock>, p: seq<Op>, q: seq<Op>, before: map<Lock, Mode>)
    requires before.Keys == held && Effect(before, p) == Some(before)
    ensures Requests(held, p + q) == Requests(held, p) + Requests(held, q)
  {
    RequestsAppendFrom(before, p, q);
  }

  lemma {:induction false} RequestsAppendFrom(held: map<Lock, Mode>, p: seq<Op>, q: seq<Op>)
    requires Effect(held, p).Some?
    ensures Requests(held.Keys, p + q) == Requests(held.Keys, p) + Requests(Effect(held, p).value.Keys, q)
    decreases |p|
  {
    if p == [] {
      assert p + q == q;
    } else {
      assert (p + q)[1..] == p[1..] + q;
      match p[0] {
        case Acquire(l, m) =>
          RequestsAppendFrom(held[l := m], p[1..], q);
          assert held[l := m].Keys == held.Keys + {l};
        case Release(l, _) =>
          RequestsAppendFrom(held - {l}, p[1..], q);
          assert (held - {l}).Keys == held.Keys - {l};
        case Execute => RequestsAppendFrom(held, p[1..], q);
      }
    }
  }

  lemma SectionRequests(held: set<Lock>, l: Lock, m: Mode, body: seq<Op>, before: map<Lock, Mode>)
    requires l !in held && before.Keys == held + {l} && Effect(before, body) == Some(before)
    ensures Requests(held, Section(l, m, body)) == [(held, l, m)] + Requests(held + {l}, body)
  {
    assert Section(l, m, body)[1..] == body + [Release(l, m)];
    RequestsAppend(held + {l}, body, [Release(l, m)], before);
    assert [Release(l, m)][1..] == [];
    assert Requests(held + {l}, [Release(l, m)]) == [];
  }

  lemma LeafRequests(held: set<Lock>, l: Lock, m: Mode)
    requires l !in held
    ensures Requests(held, Section(l, m, [])) == [(held, l, m)]
  {
    SectionRequests(held, l, m, [], AnyModes(held + {l}));
  }

  function AnyModes(held: set<Lock>): (r: map<Lock, Mode>)
    ensures r.Keys == held
  {
    map l | l in held :: Write
  }

  lemma OnEntryRequests(e: nat)
    ensures Requests({}, OnEntry(e)) == [({}, MeasuresMux, Write), ({MeasuresMux}, EntryMux(e), Write)]
  {
    SectionBalanced(map[MeasuresMux := Write], EntryMux(e), Write, []);
    SectionRequests({}, MeasuresMux, Write, Section(EntryMux(e), Write, []), map[MeasuresMux := Write]);
    LeafRequests({MeasuresMux}, EntryMux(e), Write);
    assert {} + {MeasuresMux} == {MeasuresMux};
  }

  /** Add subscribes before it takes the manager's lock, and touches the state twice while holding it. */
  lemma AddRequests()
    ensures Requests({}, Program(Add))
            == [({}, SubscribersMux, Write), ({}, ConsumersMux, Write), ({ConsumersMux}, MeasuresMux, Write), ({ConsumersMux}, MeasuresMux, Write)]
  {
    var m := Section(MeasuresMux, Write, []);
    var held := map[ConsumersMux := Write];
    SectionBalanced(map[], SubscribersMux, Write, []);
    SectionBalanced(held, MeasuresMux, Write, []);
    EffectAppend(held, m, m);
    RequestsAppend({}, Section(SubscribersMux, Write, []), Section(ConsumersMux, Write, m + m), map[]);
    LeafRequests({}, SubscribersMux, Write);
    SectionRequests({}, ConsumersMux, Write, m + m, held);
    assert {} + {ConsumersMux} == {ConsumersMux};
    RequestsAppend({ConsumersMux}, m, m, held);
    LeafRequests({ConsumersMux}, MeasuresMux, Write);
  }

  /** Remove holds the manager's lock while it unsubscribes, if it has a consumer, and while it drops the
      name from the state. */
  lemma RemoveRequests(found: bool)
    ensures Requests({}, Program(Remove(found)))
            == [({}, ConsumersMux, Write)] + (if found then [({ConsumersMux}, SubscribersMux, Write)] else [])
             + [({ConsumersMux}, MeasuresMux, Write)]
  {
    var held := map[ConsumersMux := Write];
    var first := if found then Section(SubscribersMux, Write, []) else [];
    var m := Section(MeasuresMux, Write, []);
    SectionBalanced(held, SubscribersMux, Write, []);
    SectionBalanced(held, MeasuresMux, Write, []);
    EffectAppend(held, first, m);
    SectionRequests({}, ConsumersMux, Write, first + m, held);
    assert {} + {ConsumersMux} == {ConsumersMux};
    RequestsAppend({ConsumersMux}, first, m, held);
    LeafRequests({ConsumersMux}, SubscribersMux, Write);
    LeafRequests({ConsumersMux}, MeasuresMux, Write);
  }

  /** A pass of a goroutine looks up, checks, starts and ends in separate critical sections, and executes
      the actions between the last two. */
  lemma HandleRequests(e: nat, s: nat, f: nat)
    ensures Requests({}, Program(Handle(e, s, f)))
            == [({}, MeasuresMux, Write), ({MeasuresMux}, EntryMux(e), Write), ({}, EntryMux(e), Write),
                ({}, MeasuresMux, Write), ({MeasuresMux}, EntryMux(s), Write),
                ({}, MeasuresMux, Write), ({MeasuresMux}, EntryMux(f), Write)]
    ensures exists i :: 0 <= i < |Program(Handle(e, s, f))| && Program(Handle(e, s, f))[i] == Execute
                        && Program(Handle(e, s, f))[i + 1..] == OnEntry(f)
  {
    OnEntryBalanced(e);
    OnEntryBalanced(s);
    OnEntryBalanced(f);
    OnEntryRequests(e);
    OnEntryRequests(s);
    OnEntryRequests(f);
    LeafRequests({}, EntryMux(e), Write);
    SectionBalanced(map[], EntryMux(e), Write, []);
    var check := Section(EntryMux(e), Write, []);
    var p := OnEntry(e) + check;
    EffectAppend(map[], OnEntry(e), check);
    EffectAppend(map[], p, OnEntry(s));
    EffectAppend(map[], p + OnEntry(s), [Execute]);
    RequestsAppend({}, OnEntry(e), check, map[]);
    RequestsAppend({}, p, OnEntry(s), map[]);
    RequestsAppend({}, p + OnEntry(s), [Execute], map[]);
    RequestsAppend({}, p + OnEntry(s) + [Execute], OnEntry(f), map[]);
    assert Requests({}, [Execute]) == [];
    assert Program(Handle(e, s, f))[|p + OnEntry(s)|] == Execute;
    assert Program(Handle(e, s, f))[|p + OnEntry(s)| + 1..] == OnEntry(f);
  }

  lemma SkipRequests(e: nat)
    ensures Requests({}, Program(Skip(e))) == [({}, MeasuresMux, Write), ({MeasuresMux}, EntryMux(e), Write), ({}, EntryMux(e), Write)]
  {
    OnEntryBalanced(e);
    OnEntryRequests(e);
    LeafRequests({}, EntryMux(e), Write);
    RequestsAppend({}, OnEntry(e), Section(EntryMux(e), Write, []), map[]);
  }

  /** Deliveries and Exists only read; the other operations take one lock for writing. */
  lemma OtherRequests()
    ensures Requests({}, Program(Deliver)) == [({}, SubscribersMux, Read)]
    ensures Requests({}, Program(Exists)) == [({}, ConsumersMux, Read)]
    ensures Requests({}, Program(IsRunning)) == [({}, MeasuresMux, Read)]
    ensures Requests({}, Program(Subscribe)) == Requests({}, Program(Unsubscribe)) == [({}, SubscribersMux, Write)]
    ensures Requests({}, Program(IsDeployed)) == Requests({}, Program(Ignore)) == [({}, MeasuresMux, Write)]
  {
    LeafRequests({}, SubscribersMux, Read);
    LeafRequests({}, ConsumersMux, Read);
    LeafRequests({}, MeasuresMux, Read);
    LeafRequests({}, SubscribersMux, Write);
    LeafRequests({}, MeasuresMux, Write);
  }

  // ---------- the invariant ----------

  predicate Holds(s: System, t: ThreadId, l: Lock, m: Mode) {
    t in s.threads && l in s.threads[t].held && s.threads[t].held[l] == m
  }

  /** What lock `l` records is what its threads hold or wait for. */
  ghost predicate LockOK(s: System, l: Lock) {
    var k := LockOf(s, l);
    && (forall t: ThreadId :: k.claim == Some(t) ==> if k.owned then Holds(s, t, l, Write) else At(s, t, Acquire(l, Write)))
    && (k.claim.None? ==> !k.owned && k.queued == {})
    && (k.owned ==> k.readers == {}) && k.readers !! k.queued
    && (forall t: ThreadId :: t in k.readers ==> Holds(s, t, l, Read) || At(s, t, Acquire(l, Read)))
    && (forall t: ThreadId :: t in k.queued ==> At(s, t, Acquire(l, Read)))
    && (forall t: ThreadId :: Holds(s, t, l, Write) ==> k.claim == Some(t) && k.owned)
    && (forall t: ThreadId :: Holds(s, t, l, Read) ==> t in k.readers)
  }

  ghost predicate Inv(s: System) {
    && (forall t :: t in s.threads ==> Effect(s.threads[t].held, s.threads[t].rest) == Some(map[]))
    && (forall l :: LockOK(s, l))
  }

  lemma ThreadsStayOrdered(s: System, a: Step)
    requires Inv(s) && Enabled(s, a)
    ensures var th := ThreadAfter(s, a); Effect(th.held, th.rest) == Some(map[])
  {
    if a.Begin? { EveryRoutineOrdered(a.routine); }
  }

  /** A thread that stands at an acquire of a lock does not hold it. */
  lemma WantedNotHeld(s: System, t: ThreadId, l: Lock, m: Mode)
    requires Inv(s) && At(s, t, Acquire(l, m))
    ensures l !in s.threads[t].held && Below(s.threads[t].held, l)
  {
  }

  /** The step does not concern lock `l`. */
  lemma OtherLock(s: System, a: Step, l: Lock)
    requires Inv(s) && Enabled(s, a)
    requires (a.Arrive? || a.Enter? || a.Leave?) ==> LockAfter(s, a).0 != l
    ensures LockOK(Next(s, a), l)
  {
    var r := Next(s, a);
    assert LockOK(s, l) && LockOf(r, l) == LockOf(s, l);
    assert a.thread in s.threads && s.threads[a.thread].rest == [] ==> s.threads[a.thread].held == map[];
    forall t, m ensures Holds(r, t, l, m) == Holds(s, t, l, m) { }
    forall t, m ensures At(s, t, Acquire(l, m)) ==> At(r, t, Acquire(l, m)) { }
  }

  lemma ArriveKeepsLock(s: System, t: ThreadId)
    requires Inv(s) && CanArrive(s, t)
    ensures LockOK(Next(s, Arrive(t)), Wanted(s, t).lock)
  {
    var l := Wanted(s, t).lock;
    var r := Next(s, Arrive(t));
    assert LockOK(s, l);
    assert r.threads == s.threads;
    forall u, m ensures Holds(r, u, l, m) == Holds(s, u, l, m) { }
    forall u, op ensures At(r, u, op) == At(s, u, op) { }
  }

  lemma EnterKeepsLock(s: System, t: ThreadId)
    requires Inv(s) && CanEnter(s, t)
    ensures LockOK(Next(s, Enter(t)), Wanted(s, t).lock)
  {
    var l := Wanted(s, t).lock;
    var r := Next(s, Enter(t));
    assert LockOK(s, l);
    WantedNotHeld(s, t, l, Wanted(s, t).mode);
    forall u, m | u != t ensures Holds(r, u, l, m) == Holds(s, u, l, m) && At(r, u, Acquire(l, m)) == At(s, u, Acquire(l, m)) { }
    assert Holds(r, t, l, Wanted(s, t).mode);
  }

  lemma LeaveKeepsLock(s: System, t: ThreadId)
    requires Inv(s) && AtRelease(s, t)
    ensures LockOK(Next(s, Leave(t)), s.threads[t].rest[0].lock)
  {
    var l := s.threads[t].rest[0].lock;
    var r := Next(s, Leave(t));
    assert LockOK(s, l);
    assert Holds(s, t, l, s.threads[t].rest[0].mode);
    forall u, m | u != t ensures Holds(r, u, l, m) == Holds(s, u, l, m) && At(r, u, Acquire(l, m)) == At(s, u, Acquire(l, m)) { }
    assert l !in r.threads[t].held;
  }

  lemma NextKeepsInv(s: System, a: Step)
    requires Inv(s) && Enabled(s, a)
    ensures Inv(Next(s, a))
  {
    ThreadsStayOrdered(s, a);
    forall l ensures LockOK(Next(s, a), l) {
      if (a.Arrive? || a.Enter? || a.Leave?) && LockAfter(s, a).0 == l {
        match a {
          case Arrive(t) => ArriveKeepsLock(s, t);
          case Enter(t) => EnterKeepsLock(s, t);
          case Leave(t) => LeaveKeepsLock(s, t);
        }
      } else {
        OtherLock(s, a, l);
      }
    }
  }

  lemma {:induction false} RunKeepsInv(s: System, steps: seq<Step>)
    requires Inv(s) && Run(s, steps)
    ensures Inv(After(s, steps))
    decreases |steps|
  {
    if steps != [] {
      NextKeepsInv(s, steps[0]);
      RunKeepsInv(Next(s, steps[0]), steps[1..]);
    }
  }

  // ---------- what the protocol promises ----------

  /** In every run, a thread that holds a lock for writing holds it alone. */
  lemma MutualExclusion(steps: seq<Step>, l: Lock, t: ThreadId, u: ThreadId, m: Mode)
    requires Run(START, steps) && t != u && Holds(After(START, steps), t, l, Write)
    ensures !Holds(After(START, steps), u, l, m)
  {
    RunKeepsInv(START, steps);
    assert LockOK(After(START, steps), l);
  }

  /** The thread holds a lock or stands at the acquire of one. */
  predicate Involved(s: System, t: ThreadId) {
    t in s.threads && (s.threads[t].held != map[] || AtAcquire(s, t))
  }

  predicate CanStep(s: System, t: ThreadId) {
    CanArrive(s, t) || CanEnter(s, t) || AtRelease(s, t)
  }

  /** A thread that holds a lock can step, or waits for a lock of higher rank. */
  lemma HolderAscends(s: System, t: ThreadId, l: Lock, m: Mode)
    requires Inv(s) && Holds(s, t, l, m)
    ensures AtRelease(s, t) || (AtAcquire(s, t) && Rank(l) < Rank(Wanted(s, t).lock))
  {
  }

  /** Following whoever is in the way leads, lock by ascending lock, to a thread that can step. */
  lemma FindMover(s: System, t: ThreadId) returns (u: ThreadId)
    requires Inv(s) && AtAcquire(s, t)
    ensures Involved(s, u) && CanStep(s, u)
    decreases 4 - Rank(Wanted(s, t).lock), if LockOf(s, Wanted(s, t).lock).claim == Some(t) then 0 else 1
  {
    var l := Wanted(s, t).lock;
    var k := LockOf(s, l);
    assert LockOK(s, l);
    WantedNotHeld(s, t, l, Wanted(s, t).mode);
    if CanStep(s, t) {
      u := t;
    } else if k.claim.Some? && k.claim.value != t {
      // queued behind a writer, or a writer behind another writer
      if k.owned { u := BeyondHolder(s, k.claim.value, l, Write); } else { u := FindMover(s, k.claim.value); }
    } else {
      // a writer that waits for the readers inside
      assert k.claim == Some(t) && k.readers != {};
      var v :| v in k.readers;
      if Holds(s, v, l, Read) { u := BeyondHolder(s, v, l, Read); } else { u := v; }
    }
  }

  lemma BeyondHolder(s: System, t: ThreadId, l: Lock, m: Mode) returns (u: ThreadId)
    requires Inv(s) && Holds(s, t, l, m)
    ensures Involved(s, u) && CanStep(s, u)
    decreases 3 - Rank(l), 2
  {
    HolderAscends(s, t, l, m);
    if AtRelease(s, t) { u := t; } else { u := FindMover(s, t); }
  }

  /** Deadlock freedom: in every run, whenever some thread holds or waits for a lock, a thread that
      holds or waits for one can step. */
  lemma NoDeadlock(steps: seq<Step>, t: ThreadId)
    requires Run(START, steps) && Involved(After(START, steps), t)
    ensures exists u: ThreadId :: Involved(After(START, steps), u) && CanStep(After(START, steps), u)
  {
    RunKeepsInv(START, steps);
    var s := After(START, steps);
    if AtAcquire(s, t) {
      var u := FindMover(s, t);
    } else {
      var l :| l in s.threads[t].held;
      var u := BeyondHolder(s, t, l, s.threads[t].held[l]);
    }
  }

  /** While actions execute, and between operations, a thread holds no lock. */
  lemma ExecutesWithoutLocks(steps: seq<Step>, t: ThreadId)
    requires Run(START, steps) && t in After(START, steps).threads
    requires At(After(START, steps), t, Execute) || After(START, steps).threads[t].rest == []
    ensures After(START, steps).threads[t].held == map[]
  {
    RunKeepsInv(START, steps);
  }
}
