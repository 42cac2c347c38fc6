/** The action manager as the source writes it (pkg/actions/manager.go), and the reconciliation that
    drives it (controllers/countermeasure/countermeasure_controller.go). The methods run with the
    locks granted; ManagerProtocol has the interleavings. */
module Reconciliation {
  import opened Texts
  import opened Topics
  import opened Specs
  import opened Suppression
  import opened BusProtocol
  import opened EventBuses
  import opened ActionStates
  import opened Admission
  import M = ManagerProtocol

  type Handle<C> = M.Handle<C>

  /** The manager as a value: the bus, the consumers by name, the state table, and the goroutines
      started, by channel, each with its key. */
  datatype Snapshot<C> = Snapshot(
    bus: Bus<C>,
    consumers: map<NamespacedName, Handle<C>>,
    measures: Installed,
    goroutines: map<C, ObjectKey>)

  /** What the cluster answers: the resource, what marking it as initializing reads back, whether the
      sources selected can be listed, and whether the final status can be written. */
  datatype Fetch = Found(cm: CounterMeasure) | NotFound | ReadError
  datatype Cluster = Cluster(read: Fetch, marked: Option<CounterMeasure>, listed: bool, written: bool)

  /** The answers are about `name`. */
  predicate About(cluster: Cluster, name: NamespacedName) {
    && (cluster.read.Found? ==> cluster.read.cm.key.name == name)
    && (cluster.marked.Some? ==> cluster.marked.value.key.name == name)
  }

  // ---------- the manager's operations on values ----------

  /** The sources of a selector cannot be listed. */
  predicate AddFails(cm: CounterMeasure, listed: bool) {
    cm.spec.onEvent.sourceSelector.Some? && !listed
  }

  ghost function Added<C>(v: Snapshot<C>, cm: CounterMeasure, ch: C): Snapshot<C> {
    var topic := Topic(cm);
    Snapshot(SubscribeStep(v.bus, topic, ch),
         v.consumers[cm.key.name := M.Handle(topic, ch)],
         RemoveName(v.measures, cm.key.name)[cm.key := (cm, NewEntry(Window(cm.spec)))],
         v.goroutines[ch := cm.key])
  }

  /** The channels of the consumers exist. */
  ghost predicate Known<C>(v: Snapshot<C>) {
    forall n :: n in v.consumers ==> v.consumers[n].chan in v.bus.chans
  }

  ghost function Removed<C>(v: Snapshot<C>, name: NamespacedName): Snapshot<C>
    requires Known(v)
  {
    v.(bus := if name in v.consumers then UnsubscribeStep(v.bus, v.consumers[name].topic, v.consumers[name].chan) else v.bus,
       consumers := v.consumers - {name},
       measures := RemoveName(v.measures, name))
  }

  /** The reconciliation of `name` gets to a successful Add. */
  ghost predicate Installs<C>(v: Snapshot<C>, name: NamespacedName, cluster: Cluster) {
    && cluster.read.Found? && name !in v.consumers
    && cluster.marked.Some? && GoodSpec(cluster.marked.value.spec) && !AddFails(cluster.marked.value, cluster.listed)
  }

  ghost function Reconciled<C>(v: Snapshot<C>, name: NamespacedName, cluster: Cluster, ch: C): Snapshot<C>
    requires Known(v)
  {
    if Installs(v, name, cluster) then Added(v, cluster.marked.value, ch)
    else if cluster.read.NotFound? then Removed(v, name)
    else v
  }

  // ---------- the objects ----------

  /** A handled error is retried after a while; a returned one at once. */
  datatype Outcome = Success | HandledError | ReturnedError

  class Manager {
    const bus: EventBus
    const state: ActionState
    var consumers: map<NamespacedName, Handle<Channel>>
    var goroutines: map<Channel, ObjectKey>

    ghost predicate Valid()
      reads this, bus, bus.model.chans.Keys, state
    {
      && bus.Valid() && state.Valid()
      && forall n :: n in consumers ==> consumers[n].chan in bus.model.chans
    }

    ghost function View(): Snapshot<Channel>
      reads this, bus, state, state.counterMeasures.Values
    {
      Snapshot(bus.model, consumers, state.View(), goroutines)
    }

    constructor (bus: EventBus)
      requires bus.Valid()
      ensures Valid() && this.bus == bus && fresh(state)
      ensures View() == Snapshot(bus.model, map[], map[], map[])
    {
      this.bus := bus;
      state := new ActionState();
      consumers := map[];
      goroutines := map[];
    }

    method Attach(topic: Text) returns (ch: Channel)
      requires Valid() && !ReadLocked(bus.model)
      modifies bus
      ensures Valid() && fresh(ch) && state.View() == old(state.View())
      ensures bus.model == SubscribeStep(old(bus.model), topic, ch) && bus.trace == old(bus.trace) + [Step.Subscribe(topic, ch)]
    {
      ch := bus.Subscribe(topic);
    }

    /** What Add does under the manager's lock. */
    method Install(cm: CounterMeasure, ch: Channel)
      requires Valid() && ch in bus.model.chans
      modifies this, state
      ensures Valid() && consumers == old(consumers)[cm.key.name := M.Handle(Topic(cm), ch)]
      ensures state.View() == RemoveName(old(state.View()), cm.key.name)[cm.key := (cm, NewEntry(Window(cm.spec)))]
      ensures goroutines == old(goroutines)[ch := cm.key]
    {
      ghost var measures := state.View();
      consumers := consumers[cm.key.name := M.Handle(Topic(cm), ch)];
      assert state.View() == measures;
      state.Add(cm);
      goroutines := goroutines[ch := cm.key];
    }

    method Detach(h: Handle<Channel>)
      requires Valid() && !ReadLocked(bus.model) && h.chan in bus.model.chans
      modifies bus, h.chan
      ensures Valid() && state.View() == old(state.View())
      ensures bus.model == UnsubscribeStep(old(bus.model), h.topic, h.chan)
      ensures bus.trace == old(bus.trace) + [Step.Unsubscribe(h.topic, h.chan)]
    {
      bus.Unsubscribe(h.topic, h.chan);
    }

    /** `listed` says whether the sources selected can be listed. An error leaves everything as it
        was. */
    method Add(cm: CounterMeasure, listed: bool) returns (err: bool, ghost ch: Channel?)
      requires Valid() && !ReadLocked(bus.model)
      modifies this, bus, state
      ensures Valid()
      ensures err <==> cm.spec.onEvent.sourceSelector.Some? && !listed
      ensures err ==> ch == null && View() == old(View()) && bus.trace == old(bus.trace)
      ensures !err ==> ch != null && fresh(ch) && View() == Added(old(View()), cm, ch)
      ensures !err ==> bus.trace == old(bus.trace) + [Step.Subscribe(Topic(cm), ch)]
    {
      if cm.spec.onEvent.sourceSelector.Some? {
        if !listed {
          return true, null;
        }
      }
      var consumer := Attach(Topic(cm));
      Install(cm, consumer);
      return false, consumer;
    }

    method Uninstall(name: NamespacedName)
      requires Valid()
      modifies this, state
      ensures Valid() && consumers == old(consumers) - {name} && goroutines == old(goroutines)
      ensures state.View() == RemoveName(old(state.View()), name)
    {
      consumers := consumers - {name};
      state.Remove(name);
    }

    method Remove(name: NamespacedName)
      requires Valid() && !ReadLocked(bus.model)
      modifies this, bus, bus.model.chans.Keys, state
      ensures Valid() && old(Known(View())) && View() == Removed(old(View()), name)
      ensures bus.trace == old(bus.trace)
                         + if name in old(consumers) then [Step.Unsubscribe(old(consumers)[name].topic, old(consumers)[name].chan)]
                           else []
    {
      if name in consumers {
        Detach(consumers[name]);
      }
      Uninstall(name);
    }

    /** Ignores the generation. */
    method Exists(name: NamespacedName) returns (r: bool)
      ensures r <==> name in View().consumers
    {
      r := name in consumers;
    }

    method Reconcile(name: NamespacedName, cluster: Cluster) returns (outcome: Outcome, ghost ch: Channel?)
      requires Valid() && !ReadLocked(bus.model) && About(cluster, name)
      modifies this, bus, bus.model.chans.Keys, state
      ensures Valid() && old(Known(View()))
      ensures ch != null <==> Installs(old(View()), name, cluster)
      ensures ch != null ==> fresh(ch) && View() == Reconciled(old(View()), name, cluster, ch)
      ensures ch == null ==> forall c: Channel :: View() == Reconciled(old(View()), name, cluster, c)
      ensures outcome.Success? <==> cluster.read.NotFound? || (cluster.read.Found? && name in View().consumers && cluster.written)
      ensures outcome.HandledError? <==>
                cluster.read.Found? && cluster.marked.Some? && name !in View().consumers && cluster.written
    {
      ch := null;
      match cluster.read {
        case NotFound =>
          Remove(name);
          return Success, null;
        case ReadError =>
          return ReturnedError, null;
        case Found(cm) =>
          var installed := Exists(cm.key.name);
          if installed {
            return if cluster.written then Success else ReturnedError, null;
          }
          if cluster.marked.None? {
            return ReturnedError, null;
          }
          var errors := ValidateSpec(cluster.marked.value.spec);
          if errors != [] {
            return if cluster.written then HandledError else ReturnedError, null;
          }
          var err: bool;
          err, ch := Add(cluster.marked.value, cluster.listed);
          return if !cluster.written then ReturnedError else if err then HandledError else Success, ch;
      }
    }
  }

  // ---------- what reconciliation promises ----------

  /** An Add registers its channel last under the event name of the countermeasure and under no other topic,
      leaves the other subscriptions alone, and installs the countermeasure with a fresh entry in place
      of every generation of its name. */
  lemma AddedExact<C>(v: Snapshot<C>, cm: CounterMeasure, ch: C)
    requires BusProtocol.TableOK(v.bus) && ch !in v.bus.chans
    ensures var r := Added(v, cm, ch);
            var topic := cm.spec.onEvent.eventName;
            && topic in r.bus.subscribers
            && r.bus.subscribers[topic] == (if topic in v.bus.subscribers then v.bus.subscribers[topic] else []) + [ch]
            && (forall t :: t != topic ==> (t in r.bus.subscribers <==> t in v.bus.subscribers))
            && (forall t :: t != topic && t in r.bus.subscribers ==> r.bus.subscribers[t] == v.bus.subscribers[t] && ch !in r.bus.subscribers[t])
            && cm.key.name in r.consumers && r.consumers[cm.key.name].topic == topic && r.consumers[cm.key.name].chan == ch
            && ch in r.goroutines && r.goroutines[ch] == cm.key
    ensures var m := Added(v, cm, ch).measures;
            && (forall k :: k in m <==> k == cm.key || (k in v.measures && k.name != cm.key.name))
            && m[cm.key].0 == cm && !m[cm.key].1.running && m[cm.key].1.lastRuns == map[]
            && (forall k :: k in m && k != cm.key ==> m[k] == v.measures[k])
  {
    forall t, d | t in v.bus.subscribers && d in v.bus.subscribers[t] ensures d in v.bus.chans {
      assert v.bus.subscribers[t][IndexOf(v.bus.subscribers[t], d)] == d;
    }
  }

  /** Afterwards a name is installed if and only if its resource was found and it was installed
      before or its spec validates and Add succeeds; no other name is touched. What is installed is the
      resource as it was read back, under a valid spec. */
  lemma ReconcileConverges<C>(v: Snapshot<C>, name: NamespacedName, cluster: Cluster, ch: C)
    requires Known(v) && About(cluster, name) && !cluster.read.ReadError?
    ensures var r := Reconciled(v, name, cluster, ch);
            && (name in r.consumers <==>
                  && cluster.read.Found?
                  && (name in v.consumers
                      || (cluster.marked.Some? && GoodSpec(cluster.marked.value.spec)
                          && (cluster.marked.value.spec.onEvent.sourceSelector.Some? ==> cluster.listed))))
            && (name in r.consumers && name !in v.consumers ==>
                  cluster.marked.value.key in r.measures && r.measures[cluster.marked.value.key].0 == cluster.marked.value)
            && (forall n :: n != name ==> (n in r.consumers <==> n in v.consumers))
            && (forall n :: n != name && n in v.consumers ==> r.consumers[n] == v.consumers[n])
            && (forall k: ObjectKey :: k.name != name ==> (k in r.measures <==> k in v.measures))
            && (forall k: ObjectKey :: k.name != name && k in v.measures ==> r.measures[k] == v.measures[k])
  {
  }

  /** Repeating a reconciliation on an unchanged cluster changes nothing, on the bus or in the
      manager. */
  lemma ReconcileIdempotent<C>(v: Snapshot<C>, name: NamespacedName, cluster: Cluster, c: C, d: C)
    requires Known(v) && About(cluster, name)
    ensures Known(Reconciled(v, name, cluster, c))
    ensures Reconciled(Reconciled(v, name, cluster, c), name, cluster, d) == Reconciled(v, name, cluster, c)
  {
  }

  // ---------- the tables stay in step ----------

  /** The channel has not been closed. */
  predicate Open<C(==)>(b: Bus<C>, c: C) {
    c in b.chans && !b.chans[c].closed
  }

  /** The goroutine on `c` reads from the channel of its name's consumer, or its channel is closed. */
  ghost predicate Serves<C>(v: Snapshot<C>, c: C)
    requires c in v.goroutines
  {
    var n := v.goroutines[c].name;
    c in v.bus.chans && (Open(v.bus, c) ==> n in v.consumers && v.consumers[n].chan == c)
  }

  /** No goroutine listens on an open channel that the manager has lost. */
  ghost predicate NoOrphan<C>(v: Snapshot<C>) {
    forall c :: c in v.goroutines ==> Serves(v, c)
  }

  /** Every installed name has a registered channel of its own, with a goroutine on it. */
  ghost predicate Subscribed<C>(v: Snapshot<C>) {
    && (forall n :: n in v.consumers ==> M.Registered(v.bus, v.consumers[n].topic, v.consumers[n].chan))
    && (forall n :: n in v.consumers ==> v.consumers[n].chan in v.goroutines && v.goroutines[v.consumers[n].chan].name == n)
  }

  /** The names are the names of the keys, each with one generation. */
  ghost predicate Matching(keys: set<ObjectKey>, names: set<NamespacedName>) {
    && (forall k :: k in keys ==> k.name in names)
    && (forall n :: n in names ==> exists k :: k in keys && k.name == n)
    && (forall j, k :: j in keys && k in keys && j.name == k.name ==> j == k)
  }

  /** The installed names are the names in the state table, each with one generation. */
  ghost predicate InStep<C>(v: Snapshot<C>) {
    Matching(v.measures.Keys, v.consumers.Keys)
  }

  ghost predicate Consistent<C>(v: Snapshot<C>) {
    M.Good(v.bus) && Subscribed(v) && InStep(v) && NoOrphan(v)
  }

  lemma ConsistentKnown<C>(v: Snapshot<C>)
    requires M.Good(v.bus) && Subscribed(v)
    ensures Known(v)
  {
    forall n | n in v.consumers ensures v.consumers[n].chan in v.bus.chans {
      M.GoodRegistered(v.bus, v.consumers[n].topic, v.consumers[n].chan);
    }
  }

  function KeysWithout(keys: set<ObjectKey>, name: NamespacedName): set<ObjectKey> {
    set k | k in keys && k.name != name
  }

  lemma MatchingAdd(keys: set<ObjectKey>, names: set<NamespacedName>, key: ObjectKey)
    requires Matching(keys, names)
    ensures Matching(KeysWithout(keys, key.name) + {key}, names + {key.name})
  {
  }

  lemma AddedInStep<C>(v: Snapshot<C>, cm: CounterMeasure, ch: C)
    requires InStep(v)
    ensures InStep(Added(v, cm, ch))
  {
    MatchingAdd(v.measures.Keys, v.consumers.Keys, cm.key);
    assert Added(v, cm, ch).measures.Keys == KeysWithout(v.measures.Keys, cm.key.name) + {cm.key};
    assert Added(v, cm, ch).consumers.Keys == v.consumers.Keys + {cm.key.name};
  }

  /** Adding a name that is installed loses the channel its goroutine reads from. */
  lemma AddOrphans<C>(v: Snapshot<C>, cm: CounterMeasure, ch: C)
    requires Consistent(v) && ch !in v.bus.chans && cm.key.name in v.consumers
    ensures !NoOrphan(Added(v, cm, ch))
  {
    var former := v.consumers[cm.key.name];
    M.GoodRegistered(v.bus, former.topic, former.chan);
    assert !Serves(Added(v, cm, ch), former.chan);
  }

  lemma AddKeepsSubscribed<C>(v: Snapshot<C>, cm: CounterMeasure, ch: C)
    requires Consistent(v) && !ReadLocked(v.bus) && ch !in v.bus.chans
    ensures M.Good(Added(v, cm, ch).bus) && Subscribed(Added(v, cm, ch))
  {
    ConsistentKnown(v);
    M.GoodSubscribe(v.bus, Topic(cm), ch);
    M.SubscribeFrame(v.bus, Topic(cm), ch, Added(v, cm, ch).bus);
  }

  lemma AddKeepsNoOrphan<C>(v: Snapshot<C>, cm: CounterMeasure, ch: C)
    requires Consistent(v) && !ReadLocked(v.bus) && ch !in v.bus.chans && cm.key.name !in v.consumers
    ensures NoOrphan(Added(v, cm, ch))
  {
    var r := Added(v, cm, ch);
    forall c | c in r.goroutines ensures Serves(r, c) { if c != ch { assert Serves(v, c); } }
  }

  /** Add keeps the tables in step, and leaves no orphan if and only if the name was not installed:
      the check that Reconcile makes first is what prevents the leak. */
  lemma AddKeepsConsistentIff<C>(v: Snapshot<C>, cm: CounterMeasure, ch: C)
    requires Consistent(v) && !ReadLocked(v.bus) && ch !in v.bus.chans
    ensures Consistent(Added(v, cm, ch)) <==> cm.key.name !in v.consumers
  {
    AddedInStep(v, cm, ch);
    AddKeepsSubscribed(v, cm, ch);
    if cm.key.name in v.consumers { AddOrphans(v, cm, ch); } else { AddKeepsNoOrphan(v, cm, ch); }
  }

  lemma RemovedInStep<C>(v: Snapshot<C>, name: NamespacedName)
    requires Known(v) && InStep(v)
    ensures InStep(Removed(v, name))
  {
  }

  lemma RemoveKeepsConsistent<C>(v: Snapshot<C>, name: NamespacedName)
    requires Consistent(v) && !ReadLocked(v.bus)
    ensures Known(v) && Consistent(Removed(v, name))
  {
    ConsistentKnown(v);
    RemovedInStep(v, name);
    var r := Removed(v, name);
    if name in v.consumers {
      var h := v.consumers[name];
      M.GoodUnsubscribe(v.bus, h.topic, h.chan);
      M.UnsubscribeFrame(v.bus, h.topic, h.chan, r.bus);
    }
    forall c | c in r.goroutines ensures Serves(r, c) { assert Serves(v, c); }
  }

  /** Reconciliation keeps bus, consumers, state table and goroutines in step, whatever the cluster
      answers. */
  lemma ReconcileKeepsConsistent<C>(v: Snapshot<C>, name: NamespacedName, cluster: Cluster, ch: C)
    requires Consistent(v) && !ReadLocked(v.bus) && ch !in v.bus.chans && About(cluster, name)
    ensures Known(v) && Consistent(Reconciled(v, name, cluster, ch))
  {
    ConsistentKnown(v);
    if Installs(v, name, cluster) {
      AddKeepsConsistentIff(v, cluster.marked.value, ch);
    } else if cluster.read.NotFound? {
      RemoveKeepsConsistent(v, name);
    }
  }
}
