/** The manager's tables and the bus's subscriber table stay in step. */
module Lockstep {
  import opened Texts
  import opened Topics
  import opened Specs
  import opened Suppression
  import opened ManagerProtocol
  import B = BusProtocol

  ghost predicate HoldsMux<C>(t: Task<C>) {
    t.Locked? || t.Cleaned? || t.Holding? || t.Unlinked?
  }

  /** An Add is between registering the consumer and inserting its entry. */
  ghost predicate Installing<C>(s: Manager<C>, n: NamespacedName) {
    n in s.tasks && (s.tasks[n].Locked? || s.tasks[n].Cleaned?)
  }

  ghost predicate Unlinking<C>(s: Manager<C>, n: NamespacedName) {
    n in s.tasks && s.tasks[n].Unlinked?
  }

  ghost predicate MuxOK<C>(s: Manager<C>) {
    && (s.mux.Some? ==> s.mux.value in s.tasks)
    && (forall n :: n in s.tasks ==> (HoldsMux(s.tasks[n]) <==> s.mux == Some(n)))
  }

  ghost predicate TaskOK<C>(s: Manager<C>, n: NamespacedName)
    requires n in s.tasks
  {
    var t := s.tasks[n];
    && (t.Found? || t.Absent? || t.Subscribed? || t.Locked? || t.Cleaned? ==> t.cm.key.name == n)
    && (t.Absent? || t.Subscribed? ==> n !in s.consumers)
    && (t.Subscribed? || t.Locked? || t.Cleaned? ==>
          t.chan !in s.loops && t.chan in s.owner && s.owner[t.chan] == n && Registered(s.bus, Topic(t.cm), t.chan))
    && (t.Locked? || t.Cleaned? ==> n in s.consumers && s.consumers[n] == Handle(Topic(t.cm), t.chan))
    && (t.Unlinked? && n in s.consumers ==>
          s.consumers[n].chan in s.bus.chans && s.bus.chans[s.consumers[n].chan].closed)
  }

  /** An installed name has a registered channel, a goroutine on it, and the entry of that
      goroutine's key in the state table. */
  ghost predicate ConsumerOK<C>(s: Manager<C>, n: NamespacedName)
    requires n in s.consumers
  {
    var h := s.consumers[n];
    && h.chan in s.owner && s.owner[h.chan] == n
    && (!Unlinking(s, n) ==> Registered(s.bus, h.topic, h.chan))
    && (!Installing(s, n) ==>
          && h.chan in s.loops && s.loops[h.chan].key.name == n
          && s.loops[h.chan].key in s.measures
          && s.measures[s.loops[h.chan].key] in s.entries
          && s.entries[s.measures[s.loops[h.chan].key]].chan == h.chan)
  }

  /** An entry in the state table belongs to an installed name, and is the only one of that name. */
  ghost predicate KeyOK<C>(s: Manager<C>, k: ObjectKey)
    requires k in s.measures
  {
    && s.measures[k] in s.entries && s.entries[s.measures[k]].cm.key == k
    && !Installing(s, k.name)
    && k.name in s.consumers && s.consumers[k.name].chan in s.loops && s.loops[s.consumers[k.name].chan].key == k
  }

  ghost predicate RegistrationOK<C>(s: Manager<C>, t: Text, c: C) {
    && c in s.owner
    && var n := s.owner[c];
    || (n in s.consumers && s.consumers[n] == Handle(t, c))
    || (n in s.tasks && s.tasks[n].Subscribed? && s.tasks[n].chan == c && Topic(s.tasks[n].cm) == t)
  }

  /** A goroutine's channel is the current one of its name, or has been closed. */
  ghost predicate LoopOK<C>(s: Manager<C>, c: C)
    requires c in s.loops
  {
    var n := s.loops[c].key.name;
    && c in s.bus.chans && c in s.owner && s.owner[c] == n
    && ((n in s.consumers && s.consumers[n].chan == c) || s.bus.chans[c].closed)
    && (s.loops[c].loop.Checking? ==>
          s.loops[c].loop.entry in s.entries && s.entries[s.loops[c].loop.entry].cm.key == s.loops[c].key)
  }

  ghost predicate TablesOK<C>(s: Manager<C>) {
    && (forall n :: n in s.tasks ==> TaskOK(s, n))
    && (forall n :: n in s.consumers ==> ConsumerOK(s, n))
    && (forall k :: k in s.measures ==> KeyOK(s, k))
  }

  ghost predicate ChannelsOK<C>(s: Manager<C>) {
    && Good(s.bus) && MuxOK(s)
    && (forall t, c :: c in s.bus.chans && Registered(s.bus, t, c) ==> RegistrationOK(s, t, c))
    && (forall c :: c in s.loops ==> LoopOK(s, c))
    && (forall c :: c in s.owner ==> c in s.bus.chans)
  }

  ghost predicate Inv<C>(s: Manager<C>) {
    TablesOK(s) && ChannelsOK(s)
  }

  lemma InitInv<C>(workers: nat)
    ensures Inv(NewManager<C>(workers))
  {
  }

  // ---------- steps of the bus and of the goroutines ----------

  lemma QuietBusKeepsTasks<C>(s: Manager<C>, bus: B.Bus<C>)
    requires TablesOK(s) && Quiet(s.bus, bus)
    ensures var r := s.(bus := bus); forall m :: m in r.tasks ==> TaskOK(r, m)
  {
  }

  lemma QuietBusKeepsConsumers<C>(s: Manager<C>, bus: B.Bus<C>)
    requires TablesOK(s) && Quiet(s.bus, bus)
    ensures var r := s.(bus := bus); forall m :: m in r.consumers ==> ConsumerOK(r, m)
  {
  }

  lemma QuietBusKeepsTables<C>(s: Manager<C>, bus: B.Bus<C>)
    requires TablesOK(s) && Quiet(s.bus, bus)
    ensures TablesOK(s.(bus := bus))
  {
    var r := s.(bus := bus);
    QuietBusKeepsTasks(s, bus);
    QuietBusKeepsConsumers(s, bus);
    forall k | k in r.measures ensures KeyOK(r, k) { assert KeyOK(s, k); }
  }

  lemma QuietBusKeepsChannels<C>(s: Manager<C>, bus: B.Bus<C>)
    requires Inv(s) && Quiet(s.bus, bus)
    ensures ChannelsOK(s.(bus := bus))
  {
    var r := s.(bus := bus);
    assert forall t, c :: Registered(r.bus, t, c) == Registered(s.bus, t, c);
    forall t, d | d in r.bus.chans && Registered(r.bus, t, d) ensures RegistrationOK(r, t, d) { assert RegistrationOK(s, t, d); }
    forall d | d in r.loops ensures LoopOK(r, d) { assert LoopOK(s, d); }
  }

  /** Goroutine `c` moves on; entries keep their keys and channels; all else stays. */
  ghost predicate Moved<C>(s: Manager<C>, r: Manager<C>, c: C) {
    && c in s.loops && c in r.loops
    && r.loops == s.loops[c := s.loops[c].(loop := r.loops[c].loop)]
    && (r.loops[c].loop.Checking? ==>
          r.loops[c].loop.entry in s.entries && s.entries[r.loops[c].loop.entry].cm.key == s.loops[c].key)
    && r.entries.Keys == s.entries.Keys
    && (forall e :: e in s.entries ==> r.entries[e].cm == s.entries[e].cm && r.entries[e].chan == s.entries[e].chan)
    && r.bus == s.bus && r.mux == s.mux && r.consumers == s.consumers && r.measures == s.measures
    && r.tasks == s.tasks && r.owner == s.owner
  }

  lemma MoveKeepsTables<C>(s: Manager<C>, r: Manager<C>, c: C)
    requires TablesOK(s) && Moved(s, r, c)
    ensures TablesOK(r)
  {
    forall m | m in r.tasks ensures TaskOK(r, m) { assert TaskOK(s, m); }
    forall m | m in r.consumers ensures ConsumerOK(r, m) { assert ConsumerOK(s, m); }
    forall k | k in r.measures ensures KeyOK(r, k) { assert KeyOK(s, k); }
  }

  lemma MoveKeepsChannels<C>(s: Manager<C>, r: Manager<C>, c: C)
    requires Inv(s) && Moved(s, r, c)
    ensures ChannelsOK(r)
  {
    forall t, d | d in r.bus.chans && Registered(r.bus, t, d) ensures RegistrationOK(r, t, d) { assert RegistrationOK(s, t, d); }
    forall d | d in r.loops ensures LoopOK(r, d) { assert LoopOK(s, d); }
  }

  lemma MoveKeepsInv<C>(s: Manager<C>, r: Manager<C>, c: C)
    requires Inv(s) && Moved(s, r, c)
    ensures Inv(r)
  {
    MoveKeepsTables(s, r, c);
    MoveKeepsChannels(s, r, c);
  }

  lemma ReceiveKeepsInv<C>(s: Manager<C>, c: C, key: Text, bus: B.Bus<C>)
    requires Inv(s) && HasLoop(s, c) && s.bus.chans[c].buffer != [] && Quiet(s.bus, bus)
    ensures Inv(ReceiveWith(s, c, key, bus))
  {
    QuietBusKeepsTables(s, bus);
    QuietBusKeepsChannels(s, bus);
    MoveKeepsInv(s.(bus := bus), ReceiveWith(s, c, key, bus), c);
  }

  lemma LookupMoves<C>(s: Manager<C>, c: C, now: int)
    requires CanLookup(s, c)
    requires s.loops[c].key in s.measures ==> s.entries[s.measures[s.loops[c].key]].cm.key == s.loops[c].key
    ensures Moved(s, LookupStep(s, c, now), c)
  {
  }

  lemma CheckMoves<C>(s: Manager<C>, c: C, now: int, built: bool)
    requires CanCheck(s, c)
    ensures Moved(s, CheckStep(s, c, now, built), c)
  {
    var r := CheckStep(s, c, now, built);
    var l := s.loops[c].loop;
    if IsSuppressed(s.entries[l.entry].state, l.key, now) {
      assert r.loops == Move(s, c, Waiting).loops;
    } else {
      assert r.entries == s.entries;
      assert r.loops == Move(s, c, if built then Cleared(l.event, l.key) else Waiting).loops;
    }
  }

  lemma CrashMoves<C>(s: Manager<C>, c: C)
    requires CanCheck(s, c) && s.entries[s.loops[c].loop.entry].cm.key == s.loops[c].key
    ensures Moved(s, s.(crashed := true), c)
  {
    assert s.loops == s.loops[c := s.loops[c].(loop := s.loops[c].loop)];
  }

  lemma StartMoves<C>(s: Manager<C>, c: C, now: int)
    requires CanStart(s, c)
    ensures Moved(s, StartStep(s, c, now), c)
  {
    if s.loops[c].key !in s.measures { assert s.loops == s.loops[c := s.loops[c].(loop := s.loops[c].loop)]; }
  }

  lemma EndMoves<C>(s: Manager<C>, c: C)
    requires CanEnd(s, c)
    ensures Moved(s, EndStep(s, c), c)
  {
    if s.loops[c].key !in s.measures { assert s.loops == s.loops[c := s.loops[c].(loop := s.loops[c].loop)]; }
  }

  // ---------- steps of a reconciliation ----------

  /** Task `n` starts, moves on without the lock, or ends. */
  ghost predicate TaskMoved<C>(s: Manager<C>, n: NamespacedName, tasks: map<NamespacedName, Task<C>>) {
    && (forall m :: m != n ==> (m in tasks <==> m in s.tasks) && (m in tasks ==> tasks[m] == s.tasks[m]))
    && (n in s.tasks ==> !HoldsMux(s.tasks[n]) && !s.tasks[n].Subscribed?)
    && (n in tasks ==> tasks[n].Found? || tasks[n].Absent? || tasks[n].Missing?)
    && (n in tasks && (tasks[n].Found? || tasks[n].Absent?) ==> tasks[n].cm.key.name == n)
    && (n in tasks && tasks[n].Absent? ==> n !in s.consumers)
  }

  lemma TaskKeepsTables<C>(s: Manager<C>, n: NamespacedName, tasks: map<NamespacedName, Task<C>>)
    requires TablesOK(s) && TaskMoved(s, n, tasks)
    ensures TablesOK(s.(tasks := tasks))
  {
    var r := s.(tasks := tasks);
    forall m | m in r.tasks ensures TaskOK(r, m) { if m != n { assert TaskOK(s, m); } }
    forall m | m in r.consumers ensures ConsumerOK(r, m) { assert ConsumerOK(s, m); }
    forall k | k in r.measures ensures KeyOK(r, k) { assert KeyOK(s, k); }
  }

  lemma TaskKeepsChannels<C>(s: Manager<C>, n: NamespacedName, tasks: map<NamespacedName, Task<C>>)
    requires Inv(s) && TaskMoved(s, n, tasks)
    ensures ChannelsOK(s.(tasks := tasks))
  {
    var r := s.(tasks := tasks);
    forall t, d | d in r.bus.chans && Registered(r.bus, t, d) ensures RegistrationOK(r, t, d) { assert RegistrationOK(s, t, d); }
    forall d | d in r.loops ensures LoopOK(r, d) { assert LoopOK(s, d); }
  }

  lemma UnlockedKeepsInv<C>(s: Manager<C>, n: NamespacedName, a: TaskMove<C>)
    requires Inv(s) && TaskEnabled(s, n, a) && (a.Read? || a.Exists? || a.Refresh? || a.GiveUp?)
    ensures Inv(TaskNext(s, n, a))
  {
    if n in s.tasks { assert TaskOK(s, n); }
    TaskKeepsTables(s, n, TaskNext(s, n, a).tasks);
    TaskKeepsChannels(s, n, TaskNext(s, n, a).tasks);
  }

  lemma AddSubscribeKeepsTasks<C>(s: Manager<C>, n: NamespacedName, c: C, bus: B.Bus<C>)
    requires Inv(s) && n in s.tasks && s.tasks[n].Absent?
    requires NewlySubscribed(s.bus, bus, Topic(s.tasks[n].cm), c)
    ensures var r := AddSubscribeWith(s, n, c, bus); forall m :: m in r.tasks ==> TaskOK(r, m)
  {
    var r := AddSubscribeWith(s, n, c, bus);
    assert TaskOK(s, n);
    assert c !in s.owner;
    forall m | m in r.tasks ensures TaskOK(r, m) { if m != n { assert TaskOK(s, m); } }
  }

  lemma AddSubscribeKeepsConsumers<C>(s: Manager<C>, n: NamespacedName, c: C, bus: B.Bus<C>)
    requires Inv(s) && n in s.tasks && s.tasks[n].Absent?
    requires NewlySubscribed(s.bus, bus, Topic(s.tasks[n].cm), c)
    ensures var r := AddSubscribeWith(s, n, c, bus); forall m :: m in r.consumers ==> ConsumerOK(r, m)
  {
    var r := AddSubscribeWith(s, n, c, bus);
    assert TaskOK(s, n);
    assert c !in s.owner;
    forall m | m in r.consumers ensures ConsumerOK(r, m) { assert ConsumerOK(s, m); }
  }

  lemma AddSubscribeKeepsTables<C>(s: Manager<C>, n: NamespacedName, c: C, bus: B.Bus<C>)
    requires Inv(s) && n in s.tasks && s.tasks[n].Absent?
    requires NewlySubscribed(s.bus, bus, Topic(s.tasks[n].cm), c)
    ensures TablesOK(AddSubscribeWith(s, n, c, bus))
  {
    var r := AddSubscribeWith(s, n, c, bus);
    AddSubscribeKeepsTasks(s, n, c, bus);
    AddSubscribeKeepsConsumers(s, n, c, bus);
    forall k | k in r.measures ensures KeyOK(r, k) { assert KeyOK(s, k); }
  }

  lemma AddSubscribeKeepsChannels<C>(s: Manager<C>, n: NamespacedName, c: C, bus: B.Bus<C>)
    requires Inv(s) && n in s.tasks && s.tasks[n].Absent?
    requires NewlySubscribed(s.bus, bus, Topic(s.tasks[n].cm), c)
    ensures ChannelsOK(AddSubscribeWith(s, n, c, bus))
  {
    var r := AddSubscribeWith(s, n, c, bus);
    assert TaskOK(s, n);
    assert c !in s.owner;
    forall t, d | d in r.bus.chans && Registered(r.bus, t, d) ensures RegistrationOK(r, t, d) { if d != c { assert RegistrationOK(s, t, d); } else if Registered(s.bus, t, d) { GoodRegistered(s.bus, t, d); } }
    forall d | d in r.loops ensures LoopOK(r, d) { assert LoopOK(s, d); }
  }

  lemma AddLockKeepsTables<C>(s: Manager<C>, n: NamespacedName)
    requires TablesOK(s) && n in s.tasks && s.tasks[n].Subscribed? && s.mux.None?
    ensures TablesOK(AddLockStep(s, n))
  {
    var r := AddLockStep(s, n);
    assert TaskOK(s, n);
    forall m | m in r.tasks ensures TaskOK(r, m) { if m != n { assert TaskOK(s, m); } }
    forall m | m in r.consumers ensures ConsumerOK(r, m) { if m != n { assert ConsumerOK(s, m); } }
    forall k | k in r.measures ensures KeyOK(r, k) { assert KeyOK(s, k); }
  }

  lemma AddLockKeepsChannels<C>(s: Manager<C>, n: NamespacedName)
    requires Inv(s) && n in s.tasks && s.tasks[n].Subscribed? && s.mux.None?
    ensures ChannelsOK(AddLockStep(s, n))
  {
    var r := AddLockStep(s, n);
    assert TaskOK(s, n);
    forall t, d | d in r.bus.chans && Registered(r.bus, t, d) ensures RegistrationOK(r, t, d) { assert RegistrationOK(s, t, d); }
    forall d | d in r.loops ensures LoopOK(r, d) { assert LoopOK(s, d); }
  }

  /** When Add gets to clearing the state table, no generation of its name is left in it. */
  lemma NothingToClean<C>(s: Manager<C>, n: NamespacedName)
    requires TablesOK(s) && Installing(s, n)
    ensures Without(s.measures, n) == s.measures
  {
  }

  lemma AddCleanKeepsTables<C>(s: Manager<C>, n: NamespacedName)
    requires TablesOK(s) && n in s.tasks && s.tasks[n].Locked?
    ensures TablesOK(AddCleanStep(s, n))
  {
    var r := AddCleanStep(s, n);
    NothingToClean(s, n);
    assert TaskOK(s, n);
    forall m | m in r.tasks ensures TaskOK(r, m) { if m != n { assert TaskOK(s, m); } }
    forall m | m in r.consumers ensures ConsumerOK(r, m) { assert ConsumerOK(s, m); }
    forall k | k in r.measures ensures KeyOK(r, k) { assert KeyOK(s, k); }
  }

  lemma AddCleanKeepsChannels<C>(s: Manager<C>, n: NamespacedName)
    requires Inv(s) && n in s.tasks && s.tasks[n].Locked?
    ensures ChannelsOK(AddCleanStep(s, n))
  {
    var r := AddCleanStep(s, n);
    NothingToClean(s, n);
    assert TaskOK(s, n);
    forall t, d | d in r.bus.chans && Registered(r.bus, t, d) ensures RegistrationOK(r, t, d) { assert RegistrationOK(s, t, d); }
    forall d | d in r.loops ensures LoopOK(r, d) { assert LoopOK(s, d); }
  }

  lemma AddInsertKeepsTasks<C>(s: Manager<C>, n: NamespacedName, e: EntryId)
    requires Inv(s) && n in s.tasks && s.tasks[n].Cleaned? && e !in s.entries
    ensures var r := AddInsertStep(s, n, e); forall m :: m in r.tasks ==> TaskOK(r, m)
  {
  }

  lemma AddInsertKeepsConsumers<C>(s: Manager<C>, n: NamespacedName, e: EntryId)
    requires TablesOK(s) && n in s.tasks && s.tasks[n].Cleaned? && e !in s.entries
    requires s.tasks[n].cm.key !in s.measures && s.tasks[n].cm.key.name == n
    ensures var r := AddInsertStep(s, n, e); forall m :: m in r.consumers ==> ConsumerOK(r, m)
  {
    var r := AddInsertStep(s, n, e);
    assert TaskOK(s, n);
    forall m | m in r.consumers ensures ConsumerOK(r, m) { assert ConsumerOK(s, m); }
  }

  lemma AddInsertKeepsKeys<C>(s: Manager<C>, n: NamespacedName, e: EntryId)
    requires TablesOK(s) && n in s.tasks && s.tasks[n].Cleaned? && e !in s.entries
    requires s.tasks[n].cm.key !in s.measures && s.tasks[n].cm.key.name == n
    ensures var r := AddInsertStep(s, n, e); forall k :: k in r.measures ==> KeyOK(r, k)
  {
  }

  lemma AddInsertKeepsTables<C>(s: Manager<C>, n: NamespacedName, e: EntryId)
    requires Inv(s) && n in s.tasks && s.tasks[n].Cleaned? && e !in s.entries
    ensures TablesOK(AddInsertStep(s, n, e))
  {
    assert s.tasks[n].cm.key.name == n by { assert TaskOK(s, n); }
    NothingToClean(s, n);
    AddInsertKeepsTasks(s, n, e);
    AddInsertKeepsConsumers(s, n, e);
    AddInsertKeepsKeys(s, n, e);
  }

  lemma AddInsertKeepsChannels<C>(s: Manager<C>, n: NamespacedName, e: EntryId)
    requires Inv(s) && n in s.tasks && s.tasks[n].Cleaned? && e !in s.entries
    ensures ChannelsOK(AddInsertStep(s, n, e))
  {
    var r := AddInsertStep(s, n, e);
    var t' := s.tasks[n];
    assert TaskOK(s, n);
    NothingToClean(s, n);
    GoodRegistered(s.bus, Topic(t'.cm), t'.chan);
    assert t'.cm.key !in s.measures by { assert t'.cm.key.name == n; }
    forall t, d | d in r.bus.chans && Registered(r.bus, t, d) ensures RegistrationOK(r, t, d) { assert RegistrationOK(s, t, d); }
    forall d | d in r.loops ensures LoopOK(r, d) { if d != t'.chan { assert LoopOK(s, d); } }
  }

  lemma RemoveLockKeepsTables<C>(s: Manager<C>, n: NamespacedName)
    requires TablesOK(s) && n in s.tasks && s.tasks[n].Missing? && s.mux.None?
    ensures TablesOK(RemoveLockStep(s, n))
  {
    var r := RemoveLockStep(s, n);
    forall m | m in r.tasks ensures TaskOK(r, m) { if m != n { assert TaskOK(s, m); } }
    forall m | m in r.consumers ensures ConsumerOK(r, m) { assert ConsumerOK(s, m); }
    forall k | k in r.measures ensures KeyOK(r, k) { assert KeyOK(s, k); }
  }

  lemma RemoveLockKeepsChannels<C>(s: Manager<C>, n: NamespacedName)
    requires Inv(s) && n in s.tasks && s.tasks[n].Missing? && s.mux.None?
    ensures ChannelsOK(RemoveLockStep(s, n))
  {
  }

  lemma RemoveUnsubscribeKeepsTasks<C>(s: Manager<C>, n: NamespacedName, bus: B.Bus<C>)
    requires Inv(s) && n in s.tasks && s.tasks[n].Holding?
    requires if n in s.consumers then Unsubscribed(s.bus, bus, s.consumers[n].chan) else bus == s.bus
    ensures var r := s.(bus := bus, tasks := s.tasks[n := Unlinked]); forall m :: m in r.tasks ==> TaskOK(r, m)
  {
    var r := s.(bus := bus, tasks := s.tasks[n := Unlinked]);
    if n in s.consumers { assert ConsumerOK(s, n); }
    forall m | m in r.tasks ensures TaskOK(r, m) { if m != n { assert TaskOK(s, m); } }
  }

  lemma RemoveUnsubscribeKeepsConsumers<C>(s: Manager<C>, n: NamespacedName, bus: B.Bus<C>)
    requires Inv(s) && n in s.tasks && s.tasks[n].Holding?
    requires if n in s.consumers then Unsubscribed(s.bus, bus, s.consumers[n].chan) else bus == s.bus
    ensures var r := s.(bus := bus, tasks := s.tasks[n := Unlinked]); forall m :: m in r.consumers ==> ConsumerOK(r, m)
  {
    var r := s.(bus := bus, tasks := s.tasks[n := Unlinked]);
    if n in s.consumers { assert ConsumerOK(s, n); }
    forall m | m in r.consumers ensures ConsumerOK(r, m) { assert ConsumerOK(s, m); }
  }

  lemma RemoveUnsubscribeKeepsTables<C>(s: Manager<C>, n: NamespacedName, bus: B.Bus<C>)
    requires Inv(s) && n in s.tasks && s.tasks[n].Holding?
    requires if n in s.consumers then Unsubscribed(s.bus, bus, s.consumers[n].chan) else bus == s.bus
    ensures TablesOK(s.(bus := bus, tasks := s.tasks[n := Unlinked]))
  {
    var r := s.(bus := bus, tasks := s.tasks[n := Unlinked]);
    RemoveUnsubscribeKeepsTasks(s, n, bus);
    RemoveUnsubscribeKeepsConsumers(s, n, bus);
    forall k | k in r.measures ensures KeyOK(r, k) { assert KeyOK(s, k); }
  }

  lemma RemoveUnsubscribeKeepsLoops<C>(s: Manager<C>, n: NamespacedName, bus: B.Bus<C>)
    requires Inv(s) && n in s.tasks && s.tasks[n].Holding?
    requires if n in s.consumers then Unsubscribed(s.bus, bus, s.consumers[n].chan) else bus == s.bus
    ensures var r := s.(bus := bus, tasks := s.tasks[n := Unlinked]); forall d :: d in r.loops ==> LoopOK(r, d)
  {
  }

  lemma RemoveUnsubscribeKeepsChannels<C>(s: Manager<C>, n: NamespacedName, bus: B.Bus<C>)
    requires Inv(s) && n in s.tasks && s.tasks[n].Holding?
    requires if n in s.consumers then Unsubscribed(s.bus, bus, s.consumers[n].chan) else bus == s.bus
    ensures ChannelsOK(s.(bus := bus, tasks := s.tasks[n := Unlinked]))
  {
    var r := s.(bus := bus, tasks := s.tasks[n := Unlinked]);
    if n in s.consumers { assert ConsumerOK(s, n); }
    RemoveUnsubscribeKeepsLoops(s, n, bus);
    forall t, d | d in r.bus.chans && Registered(r.bus, t, d) ensures RegistrationOK(r, t, d) { assert RegistrationOK(s, t, d); }
  }

  lemma RemoveFinishKeepsTasks<C>(s: Manager<C>, n: NamespacedName)
    requires TablesOK(s) && n in s.tasks && s.tasks[n].Unlinked?
    ensures var r := RemoveFinishStep(s, n); forall m :: m in r.tasks ==> TaskOK(r, m)
  {
  }

  lemma RemoveFinishKeepsConsumers<C>(s: Manager<C>, n: NamespacedName)
    requires TablesOK(s) && n in s.tasks && s.tasks[n].Unlinked?
    ensures var r := RemoveFinishStep(s, n); forall m :: m in r.consumers ==> ConsumerOK(r, m)
  {
    var r := RemoveFinishStep(s, n);
    forall m | m in r.consumers ensures ConsumerOK(r, m) { assert ConsumerOK(s, m); }
  }

  lemma RemoveFinishKeepsTables<C>(s: Manager<C>, n: NamespacedName)
    requires TablesOK(s) && n in s.tasks && s.tasks[n].Unlinked?
    ensures TablesOK(RemoveFinishStep(s, n))
  {
    var r := RemoveFinishStep(s, n);
    assert TaskOK(s, n);
    RemoveFinishKeepsTasks(s, n);
    RemoveFinishKeepsConsumers(s, n);
    forall k | k in r.measures ensures KeyOK(r, k) { assert KeyOK(s, k); }
  }

  lemma RemoveFinishKeepsChannels<C>(s: Manager<C>, n: NamespacedName)
    requires Inv(s) && n in s.tasks && s.tasks[n].Unlinked?
    ensures ChannelsOK(RemoveFinishStep(s, n))
  {
    var r := RemoveFinishStep(s, n);
    assert TaskOK(s, n);
    forall t, d | d in r.bus.chans && Registered(r.bus, t, d) ensures RegistrationOK(r, t, d) { assert RegistrationOK(s, t, d); GoodRegistered(s.bus, t, d); }
    forall d | d in r.loops ensures LoopOK(r, d) { assert LoopOK(s, d); }
  }

  // ---------- every run ----------

  lemma LoopKeepsInv<C>(s: Manager<C>, c: C, a: LoopMove<C>)
    requires Inv(s) && LoopEnabled(s, c, a)
    ensures Inv(LoopNext(s, c, a))
  {
    match a {
      case Receive(key, bus) =>
        ReceiveFrame(s.bus, c, bus);
        ReceiveKeepsInv(s, c, key, bus);
      case Leave => MoveKeepsInv(s, Move(s, c, Ended), c);
      case Lookup(now) =>
        if s.loops[c].key in s.measures { assert KeyOK(s, s.loops[c].key); }
        LookupMoves(s, c, now);
        MoveKeepsInv(s, LookupStep(s, c, now), c);
      case Check(now, built) =>
        CheckMoves(s, c, now, built);
        MoveKeepsInv(s, CheckStep(s, c, now, built), c);
      case Break(_) =>
        assert LoopOK(s, c);
        CrashMoves(s, c);
        MoveKeepsInv(s, s.(crashed := true), c);
      case StartRun(now) =>
        StartMoves(s, c, now);
        MoveKeepsInv(s, StartStep(s, c, now), c);
      case EndRun =>
        EndMoves(s, c);
        MoveKeepsInv(s, EndStep(s, c), c);
    }
  }

  lemma SubscriptionKeepsInv<C>(s: Manager<C>, n: NamespacedName, a: TaskMove<C>)
    requires Inv(s) && TaskEnabled(s, n, a) && (a.AddSubscribe? || a.RemoveUnsubscribe?)
    ensures Inv(TaskNext(s, n, a))
  {
    match a {
      case AddSubscribe(c, bus) =>
        SubscribeFrame(s.bus, Topic(s.tasks[n].cm), c, bus);
        AddSubscribeKeepsTables(s, n, c, bus);
        AddSubscribeKeepsChannels(s, n, c, bus);
      case RemoveUnsubscribe(bus) =>
        if n in s.consumers {
          assert ConsumerOK(s, n);
          UnsubscribeFrame(s.bus, s.consumers[n].topic, s.consumers[n].chan, bus);
        }
        RemoveUnsubscribeKeepsTables(s, n, bus);
        RemoveUnsubscribeKeepsChannels(s, n, bus);
    }
  }

  lemma LockedKeepsInv<C>(s: Manager<C>, n: NamespacedName, a: TaskMove<C>)
    requires Inv(s) && TaskEnabled(s, n, a)
    requires a.AddLock? || a.AddClean? || a.AddInsert? || a.RemoveLock? || a.RemoveFinish?
    ensures Inv(TaskNext(s, n, a))
  {
    match a {
      case AddLock => AddLockKeepsTables(s, n); AddLockKeepsChannels(s, n);
      case AddClean => AddCleanKeepsTables(s, n); AddCleanKeepsChannels(s, n);
      case AddInsert(e) => AddInsertKeepsTables(s, n, e); AddInsertKeepsChannels(s, n, e);
      case RemoveLock => RemoveLockKeepsTables(s, n); RemoveLockKeepsChannels(s, n);
      case RemoveFinish => RemoveFinishKeepsTables(s, n); RemoveFinishKeepsChannels(s, n);
    }
  }

  lemma NextKeepsInv<C>(s: Manager<C>, a: Step<C>)
    requires Inv(s) && Enabled(s, a)
    ensures Inv(Next(s, a))
  {
    match a {
      case OnBus(b, bus) =>
        InternalFrame(s.bus, b, bus);
        QuietBusKeepsTables(s, bus);
        QuietBusKeepsChannels(s, bus);
      case OnTask(n, t) =>
        if t.Read? || t.Exists? || t.Refresh? || t.GiveUp? {
          UnlockedKeepsInv(s, n, t);
        } else if t.AddSubscribe? || t.RemoveUnsubscribe? {
          SubscriptionKeepsInv(s, n, t);
        } else {
          LockedKeepsInv(s, n, t);
        }
      case OnLoop(c, l) => LoopKeepsInv(s, c, l);
    }
  }

  lemma {:induction false} RunKeepsInv<C>(s: Manager<C>, steps: seq<Step<C>>)
    requires Inv(s) && Run(s, steps)
    ensures Inv(After(s, steps))
    decreases |steps|
  {
    if steps != [] {
      NextKeepsInv(s, steps[0]);
      RunKeepsInv(Next(s, steps[0]), steps[1..]);
    }
  }

  lemma EveryRun<C>(workers: nat, steps: seq<Step<C>>)
    requires Run(NewManager<C>(workers), steps)
    ensures Inv(After(NewManager<C>(workers), steps))
  {
    InitInv<C>(workers);
    RunKeepsInv(NewManager<C>(workers), steps);
  }

  /** Channel `c` belongs to an Add that has subscribed but not yet taken the manager's lock. */
  ghost predicate InFlight<C>(s: Manager<C>, c: C) {
    && c in s.owner && s.owner[c] in s.tasks
    && s.tasks[s.owner[c]].Subscribed? && s.tasks[s.owner[c]].chan == c
  }

  /** Whenever the manager's lock is free, the installed names are the names in the state table,
      each with exactly one generation, the one its goroutine serves; and the registered channels
      other than those of Adds in flight correspond one to one to the installed names. */
  lemma LockstepWhenFree<C>(workers: nat, steps: seq<Step<C>>)
    requires Run(NewManager<C>(workers), steps) && After(NewManager<C>(workers), steps).mux.None?
    ensures var s := After(NewManager<C>(workers), steps);
            && (forall k :: k in s.measures ==> k.name in s.consumers)
            && (forall j, k :: j in s.measures && k in s.measures && j.name == k.name ==> j == k)
            && (forall n :: n in s.consumers ==>
                  && s.consumers[n].chan in s.loops
                  && s.loops[s.consumers[n].chan].key.name == n && s.loops[s.consumers[n].chan].key in s.measures)
            && (forall n :: n in s.consumers ==> Registered(s.bus, s.consumers[n].topic, s.consumers[n].chan))
            && (forall m, n :: m in s.consumers && n in s.consumers && s.consumers[m].chan == s.consumers[n].chan ==> m == n)
            && (forall t, c :: Registered(s.bus, t, c) ==>
                  InFlight(s, c) || (c in s.owner && s.owner[c] in s.consumers && s.consumers[s.owner[c]] == Handle(t, c)))
  {
    EveryRun(workers, steps);
    var s := After(NewManager<C>(workers), steps);
    forall k | k in s.measures ensures KeyOK(s, k) { }
    forall n | n in s.consumers
      ensures && s.consumers[n].chan in s.loops && s.loops[s.consumers[n].chan].key.name == n
              && s.loops[s.consumers[n].chan].key in s.measures
              && Registered(s.bus, s.consumers[n].topic, s.consumers[n].chan)
              && s.consumers[n].chan in s.owner && s.owner[s.consumers[n].chan] == n
    {
      assert ConsumerOK(s, n);
    }
    forall t, c | Registered(s.bus, t, c)
      ensures InFlight(s, c) || (c in s.owner && s.owner[c] in s.consumers && s.consumers[s.owner[c]] == Handle(t, c))
    {
      GoodRegistered(s.bus, t, c);
      assert RegistrationOK(s, t, c);
    }
  }

  /** When Remove finishes, no channel subscribed for its name is registered any more, and no
      generation of the name is left. */
  lemma RemoveLeavesNoOrphan<C>(workers: nat, steps: seq<Step<C>>, n: NamespacedName)
    requires Run(NewManager<C>(workers), steps)
    requires Enabled(After(NewManager<C>(workers), steps), OnTask(n, RemoveFinish))
    ensures var s := Next(After(NewManager<C>(workers), steps), OnTask(n, RemoveFinish));
            && n !in s.consumers
            && (forall k :: k in s.measures ==> k.name != n)
            && (forall t, c :: Registered(s.bus, t, c) ==> c in s.owner && s.owner[c] != n)
  {
    EveryRun(workers, steps);
    var s := After(NewManager<C>(workers), steps);
    NextKeepsInv(s, OnTask(n, RemoveFinish));
    var r := Next(s, OnTask(n, RemoveFinish));
    forall t, c | Registered(r.bus, t, c) ensures c in r.owner && r.owner[c] != n {
      GoodRegistered(r.bus, t, c);
      assert RegistrationOK(r, t, c);
    }
  }
}
