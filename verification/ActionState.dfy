/** The state of the installed countermeasures (pkg/actions/state/state.go). Every method is one or
    two critical sections under the state's lock; the clock is a parameter. */
module ActionStates {
  import opened Texts
  import opened Topics
  import opened Specs
  import opened Suppression

  class Entry {
    const countermeasure: CounterMeasure
    var running: bool
    var lastRuns: map<Text, int>

    ghost function View(): EntryState
      reads this
    {
      EntryState(Window(countermeasure.spec), running, lastRuns)
    }

    constructor (cm: CounterMeasure)
      ensures View() == NewEntry(Window(cm.spec)) && countermeasure == cm
    {
      countermeasure := cm;
      running := false;
      lastRuns := map[];
    }

    method IsSuppressed(eventKey: Text, now: int) returns (r: bool)
      ensures r == Suppression.IsSuppressed(View(), eventKey, now)
    {
      var suppressed := false;
      if eventKey in lastRuns {
        suppressed := lastRuns[eventKey] > now;
      }
      r := running || suppressed;
    }

    /** Ranges over the table in an arbitrary order, deleting what has expired. */
    method ClearExpiredLastRuns(now: int)
      modifies this
      ensures View() == Prune(old(View()), now)
      ensures running == old(running)
      ensures forall k :: k in lastRuns <==> k in old(lastRuns) && !(old(lastRuns)[k] < now)
      ensures forall k :: k in lastRuns ==> lastRuns[k] == old(lastRuns)[k]
    {
      var todo := lastRuns.Keys;
      while todo != {}
        invariant running == old(running) && lastRuns.Keys <= old(lastRuns).Keys && todo <= lastRuns.Keys
        invariant forall k :: k in lastRuns ==> lastRuns[k] == old(lastRuns)[k]
        invariant forall k :: k in old(lastRuns) && k !in todo ==> (k in lastRuns <==> !(old(lastRuns)[k] < now))
        decreases |todo|
      {
        var k :| k in todo;
        todo := todo - {k};
        if lastRuns[k] < now {
          lastRuns := lastRuns - {k};
        }
      }
      assert lastRuns == Prune(old(View()), now).lastRuns;
    }
  }

  /** The installed countermeasures and their entries, as values. */
  type Installed = map<ObjectKey, (CounterMeasure, EntryState)>

  /** Drops every generation of a name. */
  function RemoveName(m: Installed, name: NamespacedName): Installed {
    map k | k in m && k.name != name :: m[k]
  }

  /** Right after a run of `key` started at `now` has ended, an event of that key is suppressed exactly
      until the duration of the spec's policy has passed. */
  lemma PolicySuppresses(spec: Spec, e: EntryState, key: Text, now: int, d: int, t: int)
    requires e.window == Window(spec) && spec.onEvent.suppressionPolicy == Some(SuppressionPolicy(Some(d)))
    ensures RecordStart(e, key, now).running
    ensures Suppression.IsSuppressed(RecordEnd(RecordStart(e, key, now)), key, t) <==> t < now + d
    ensures forall k :: k != key ==>
              (Suppression.IsSuppressed(RecordEnd(RecordStart(e, key, now)), k, t) <==> Suppression.IsSuppressed(RecordEnd(e), k, t))
  {
  }

  /** Without a policy, or with a policy without a duration, a run leaves no trace in the table. */
  lemma NoPolicyNoTrace(spec: Spec, e: EntryState, key: Text, now: int)
    requires e.window == Window(spec)
    requires spec.onEvent.suppressionPolicy.None? || spec.onEvent.suppressionPolicy.value.duration.None?
    ensures RecordStart(e, key, now).running && RecordEnd(RecordStart(e, key, now)) == RecordEnd(e)
  {
  }

  /** A fresh entry suppresses nothing. */
  lemma NewSuppressesNothing(spec: Spec, key: Text, t: int)
    ensures !Suppression.IsSuppressed(NewEntry(Window(spec)), key, t)
  {
  }

  class ActionState {
    var counterMeasures: map<ObjectKey, Entry>

    ghost predicate Valid()
      reads this
    {
      forall j, k :: j in counterMeasures && k in counterMeasures && counterMeasures[j] == counterMeasures[k] ==> j == k
    }

    ghost function View(): Installed
      reads this, counterMeasures.Values
    {
      map k | k in counterMeasures :: (counterMeasures[k].countermeasure, counterMeasures[k].View())
    }

    constructor ()
      ensures Valid() && View() == map[]
    {
      counterMeasures := map[];
    }

    method IsDeployed(key: ObjectKey) returns (r: bool)
      ensures r <==> key in View()
    {
      r := key in counterMeasures;
    }

    method IsRunning(key: ObjectKey) returns (r: bool)
      ensures r <==> key in View() && View()[key].1.running
    {
      if key !in counterMeasures {
        return false;
      }
      r := counterMeasures[key].running;
    }

    method Remove(name: NamespacedName)
      requires Valid()
      modifies this
      ensures Valid() && View() == RemoveName(old(View()), name)
      ensures forall k :: k in View() <==> k in old(View()) && k.name != name
      ensures forall k :: k in counterMeasures ==> k in old(counterMeasures) && counterMeasures[k] == old(counterMeasures)[k]
    {
      var todo := counterMeasures.Keys;
      while todo != {}
        invariant counterMeasures.Keys <= old(counterMeasures).Keys && todo <= counterMeasures.Keys
        invariant forall k :: k in counterMeasures ==> counterMeasures[k] == old(counterMeasures)[k]
        invariant forall k :: k in old(counterMeasures) && k !in todo ==> (k in counterMeasures <==> k.name != name)
        decreases |todo|
      {
        var k :| k in todo;
        todo := todo - {k};
        if k.name == name {
          counterMeasures := counterMeasures - {k};
        }
      }
    }

    /** Installs a countermeasure in place of every generation of its name. */
    method Add(cm: CounterMeasure)
      requires Valid()
      modifies this
      ensures Valid()
      ensures View() == RemoveName(old(View()), cm.key.name)[cm.key := (cm, NewEntry(Window(cm.spec)))]
      ensures fresh(counterMeasures.Values - old(counterMeasures).Values)
    {
      Remove(cm.key.name);
      var entry := new Entry(cm);
      counterMeasures := counterMeasures[cm.key := entry];
    }

    /** Looks an entry up and prunes its table; nil when the key is not installed. */
    method GetCounterMeasure(key: ObjectKey, now: int) returns (entry: Entry?)
      requires Valid()
      modifies counterMeasures.Values
      ensures entry == null <==> key !in counterMeasures
      ensures entry != null ==> entry == counterMeasures[key]
      ensures View() == if key in old(View()) then old(View())[key := (old(View())[key].0, Prune(old(View())[key].1, now))]
                        else old(View())
    {
      if key !in counterMeasures {
        return null;
      }
      entry := counterMeasures[key];
      entry.ClearExpiredLastRuns(now);
    }

    /** Records a start. A missing key is a nil dereference: `ok` is false and nothing changes. */
    method CounterMeasureStart(eventKey: Text, key: ObjectKey, now: int) returns (ok: bool)
      requires Valid()
      modifies counterMeasures.Values
      ensures ok <==> key in old(View())
      ensures ok ==> key in View() && View()[key].1.running
      ensures forall d, t :: ok && View()[key].0.spec.onEvent.suppressionPolicy == Some(SuppressionPolicy(Some(d))) ==>
                (Suppression.IsSuppressed(RecordEnd(View()[key].1), eventKey, t) <==> t < now + d)
      ensures View() == if ok then old(View())[key := (old(View())[key].0, RecordStart(old(View())[key].1, eventKey, now))]
                        else old(View())
    {
      ok := key in counterMeasures;
      if ok {
        var entry := counterMeasures[key];
        entry.running := true;
        if Window(entry.countermeasure.spec).Some? {
          entry.lastRuns := entry.lastRuns[eventKey := now + Window(entry.countermeasure.spec).value];
        }
      }
    }

    /** Records an end. A missing key is a nil dereference: `ok` is false and nothing changes. */
    method CounterMeasureEnd(key: ObjectKey) returns (ok: bool)
      requires Valid()
      modifies counterMeasures.Values
      ensures ok <==> key in old(View())
      ensures View() == if ok then old(View())[key := (old(View())[key].0, RecordEnd(old(View())[key].1))]
                        else old(View())
    {
      ok := key in counterMeasures;
      if ok {
        counterMeasures[key].running := false;
      }
    }
  }
}
