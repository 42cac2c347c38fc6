/** The producer end of the pipeline (pkg/producer/prometheus): one poll turns the active alerts of
    a Prometheus server into events and publishes them. */
module Polling {
  import opened Texts
  import opened Events
  import opened Topics
  import opened BusProtocol
  import opened EventBuses

  datatype AlertState = Firing | Pending | Inactive

  datatype Alert = Alert(state: AlertState, labels: map<Text, Text>, activeAt: int)

  /** "alertname" */
  const ALERT_NAME: Text := [97, 108, 101, 114, 116, 110, 97, 109, 101]

  lemma AlertNameSpelled()
    ensures |ALERT_NAME| == |"alertname"| && forall i :: 0 <= i < |ALERT_NAME| ==> ALERT_NAME[i] == "alertname"[i] as int
  {
  }

  predicate Active(a: Alert, includePending: bool) {
    a.state.Firing? || (includePending && a.state.Pending?)
  }

  /** A label that is missing reads as the empty string. */
  function NameOf(a: Alert): Text {
    if ALERT_NAME in a.labels then a.labels[ALERT_NAME] else []
  }

  /** The event of an alert; `ref` is the address of its copy of the labels. */
  function EventOf(a: Alert, ref: nat): Event {
    Event(NameOf(a), a.activeAt, Some(LabelsPtr(ref, a.labels)))
  }

  /** The event tells all there is to the alert: its time, every label, and as its name the value of the
      label "alertname", or nothing if there is none. */
  ghost predicate Represents(e: Event, a: Alert) {
    && e.activeTime == a.activeAt && e.data.Some? && e.data.value.labels == a.labels
    && (ALERT_NAME in a.labels ==> e.name == a.labels[ALERT_NAME])
    && (ALERT_NAME !in a.labels ==> e.name == [])
  }

  /** `indices` lists, in ascending order, the active alerts and no others. */
  ghost predicate ListsActive(alerts: seq<Alert>, includePending: bool, indices: seq<nat>) {
    && (forall j, k :: 0 <= j < k < |indices| ==> indices[j] < indices[k])
    && (forall k :: 0 <= k < |indices| ==> indices[k] < |alerts|)
    && (forall i: nat :: i < |alerts| ==>
          (i in indices <==> alerts[i].state.Firing? || (includePending && alerts[i].state.Pending?)))
  }

  /** The active alerts, in order. */
  function Actives(alerts: seq<Alert>, includePending: bool): seq<Alert> {
    if alerts == [] then [] else
      var n := |alerts| - 1;
      Actives(alerts[..n], includePending) + (if Active(alerts[n], includePending) then [alerts[n]] else [])
  }

  method FindActiveAlert(alerts: seq<Alert>, includePending: bool) returns (found: seq<Alert>)
    ensures found == Actives(alerts, includePending)
  {
    found := [];
    for i := 0 to |alerts|
      invariant found == Actives(alerts[..i], includePending)
    {
      assert alerts[..i + 1][..i] == alerts[..i];
      if alerts[i].state.Firing? || (includePending && alerts[i].state.Pending?) {
        found := found + [alerts[i]];
      }
    }
    assert alerts[..|alerts|] == alerts;
  }

  /** The positions of the active alerts. */
  lemma {:induction false} ActiveIndices(alerts: seq<Alert>, includePending: bool) returns (indices: seq<nat>)
    ensures ListsActive(alerts, includePending, indices) && |indices| == |Actives(alerts, includePending)|
    ensures forall k :: 0 <= k < |indices| ==> Actives(alerts, includePending)[k] == alerts[indices[k]]
    decreases |alerts|
  {
    indices := [];
    if alerts != [] {
      var n := |alerts| - 1;
      indices := ActiveIndices(alerts[..n], includePending);
      if Active(alerts[n], includePending) { indices := indices + [n]; }
    }
  }

  /** Copies a label map entry by entry, in an arbitrary order. */
  method CopyLabels(labels: map<Text, Text>) returns (copy: map<Text, Text>)
    ensures copy == labels
  {
    copy := map[];
    var todo := labels.Keys;
    while todo != {}
      invariant todo <= labels.Keys && copy.Keys == labels.Keys - todo
      invariant forall k :: k in copy ==> copy[k] == labels[k]
      decreases |todo|
    {
      var k :| k in todo;
      todo := todo - {k};
      copy := copy[k := labels[k]];
    }
  }

  /** None when no alert is active. The labels of the events are copied to `next` and the addresses
      after it. */
  method ToEvents(alerts: seq<Alert>, includePending: bool, next: nat)
    returns (events: Option<seq<Event>>, ghost indices: seq<nat>)
    ensures ListsActive(alerts, includePending, indices)
    ensures events.None? <==> indices == []
    ensures events.Some? ==> events.value == AlertEvents(alerts, indices, next)
    ensures events.Some? ==> |events.value| == |indices| && forall k :: 0 <= k < |indices| ==>
              Represents(events.value[k], alerts[indices[k]]) && events.value[k].data.value.ref == next + k
  {
    var found := FindActiveAlert(alerts, includePending);
    indices := ActiveIndices(alerts, includePending);
    if |found| == 0 {
      return None, [];
    }
    assert Active(alerts[indices[0]], includePending) by { assert indices[0] in indices; }
    var list: seq<Event> := [];
    for k := 0 to |found|
      invariant list == AlertEvents(alerts, indices[..k], next)
    {
      var labels := CopyLabels(found[k].labels);
      var name := if ALERT_NAME in found[k].labels then found[k].labels[ALERT_NAME] else [];
      list := list + [Event(name, found[k].activeAt, Some(LabelsPtr(next + k, labels)))];
    }
    assert indices[..|indices|] == indices;
    return Some(list), indices;
  }

  /** The events of the alerts listed. */
  function AlertEvents(alerts: seq<Alert>, indices: seq<nat>, next: nat): (r: seq<Event>)
    requires forall k :: 0 <= k < |indices| ==> indices[k] < |alerts|
    ensures |r| == |indices|
  {
    seq(|indices|, k requires 0 <= k < |indices| => EventOf(alerts[indices[k]], next + k))
  }

  /** Publishing the events, each under its name qualified by the source. */
  function Publications<C>(events: seq<Event>, source: NamespacedName): (r: seq<Step<C>>)
    ensures |r| == |events|
  {
    seq(|events|, k requires 0 <= k < |events| =>
      Step.Publish(Message(FullyQualifiedTopicName(events[k].name, source), events[k])))
  }

  /** One poll. `alerts` is None when the server cannot be reached. Publishing to the bus never
      fails, so it is never retried. */
  method Poll(bus: EventBus, source: NamespacedName, includePending: bool, alerts: Option<seq<Alert>>, next: nat)
    returns (ghost indices: seq<nat>)
    requires bus.Valid()
    modifies bus
    ensures bus.Valid()
    ensures alerts.None? ==> bus.trace == old(bus.trace)
    ensures alerts.Some? ==>
              && ListsActive(alerts.value, includePending, indices)
              && bus.trace == old(bus.trace) + Publications(AlertEvents(alerts.value, indices, next), source)
  {
    indices := [];
    if alerts.None? {
      return;
    }
    var events: Option<seq<Event>>;
    events, indices := ToEvents(alerts.value, includePending, next);
    ghost var none: seq<Step<Channel>> := Publications(AlertEvents(alerts.value, [], next), source);
    assert none == [];
    if events.None? {
      return;
    }
    for k := 0 to |events.value|
      invariant bus.Valid()
      invariant bus.trace == old(bus.trace) + Publications(events.value[..k], source)
    {
      var event := events.value[k];
      var topic := FullyQualifiedTopicName(event.name, source);
      bus.Publish(topic, event);
      ghost var before: seq<Step<Channel>> := Publications(events.value[..k], source);
      ghost var after: seq<Step<Channel>> := Publications(events.value[..k + 1], source);
      assert after == before + [Step.Publish(Message(topic, event))];
    }
    assert events.value[..|events.value|] == events.value;
  }

  /** The message published for the k-th of the alerts listed: an event that represents the alert, at an
      address of its own, under its name qualified by the source. */
  lemma PublishedAt<C>(alerts: seq<Alert>, indices: seq<nat>, next: nat, source: NamespacedName, k: nat)
    requires k < |indices| && forall j :: 0 <= j < |indices| ==> indices[j] < |alerts|
    ensures var step: Step<C> := Publications(AlertEvents(alerts, indices, next), source)[k];
            && step.Publish? && Represents(step.msg.event, alerts[indices[k]]) && step.msg.event.data.value.ref == next + k
            && step.msg.topic == FullyQualifiedTopicName(step.msg.event.name, source)
  {
  }

  /** A poll publishes a message for every alert that is firing, or pending when that is asked for. */
  lemma EveryActivePublished<C>(alerts: seq<Alert>, includePending: bool, indices: seq<nat>, next: nat, source: NamespacedName, i: nat)
    requires ListsActive(alerts, includePending, indices) && i < |alerts|
    requires alerts[i].state.Firing? || (includePending && alerts[i].state.Pending?)
    ensures var steps: seq<Step<C>> := Publications(AlertEvents(alerts, indices, next), source);
            exists k :: 0 <= k < |steps| && indices[k] == i && steps[k].Publish? && Represents(steps[k].msg.event, alerts[i])
  {
    var steps: seq<Step<C>> := Publications(AlertEvents(alerts, indices, next), source);
    var k :| 0 <= k < |indices| && indices[k] == i;
    PublishedAt<C>(alerts, indices, next, source, k);
    assert steps[k].Publish? && Represents(steps[k].msg.event, alerts[i]);
  }

  /** End to end: every message of a poll represents an alert that is firing, or pending when that is asked
      for, and, whatever the subscriptions, goes exactly to the channels registered under its topic or an
      ancestor of it; from a colon-free source these topics are name:namespace:source, name:namespace and
      name if and only if the name is colon-free. */
  lemma PollRouting<C>(alerts: seq<Alert>, includePending: bool, indices: seq<nat>, next: nat, source: NamespacedName,
                       subs: map<Text, seq<C>>, k: nat)
    requires ListsActive(alerts, includePending, indices) && k < |indices|
    requires source != NamespacedName([], []) && ColonFree(source.namespace) && ColonFree(source.name)
    ensures var step: Step<C> := Publications(AlertEvents(alerts, indices, next), source)[k];
            var alert := alerts[indices[k]];
            && (alert.state.Firing? || (includePending && alert.state.Pending?))
            && step.Publish? && Represents(step.msg.event, alert)
            && (forall t, i :: t in subs && IsAncestor(t, step.msg.topic) && 0 <= i < |subs[t]| ==>
                  subs[t][i] in SubscriberMatch(subs, step.msg.topic).0)
            && (forall c :: c in SubscriberMatch(subs, step.msg.topic).0 ==>
                  exists t, i :: t in subs && IsAncestor(t, step.msg.topic) && 0 <= i < |subs[t]| && subs[t][i] == c)
    ensures var step: Step<C> := Publications(AlertEvents(alerts, indices, next), source)[k];
            var name := step.msg.event.name;
            && step.msg.topic == name + [COLON] + source.namespace + [COLON] + source.name
            && (ColonFree(name) <==>
                forall t :: IsAncestor(t, step.msg.topic) <==> t == step.msg.topic || t == name + [COLON] + source.namespace || t == name)
  {
    PublishedAt<C>(alerts, indices, next, source, k);
    assert indices[k] in indices;
    var step: Step<C> := Publications(AlertEvents(alerts, indices, next), source)[k];
    MatchComplete(subs, step.msg.topic);
    RoutesIff(step.msg.event.name, source);
  }

  lemma RoutesIff(name: Text, source: NamespacedName)
    requires source != NamespacedName([], []) && ColonFree(source.namespace) && ColonFree(source.name)
    ensures var fq := FullyQualifiedTopicName(name, source);
            ColonFree(name) <==> forall t :: IsAncestor(t, fq) <==> t == fq || t == name + [COLON] + source.namespace || t == name
  {
    var fq := FullyQualifiedTopicName(name, source);
    AncestorsExact(fq);
    if ColonFree(name) {
      QualifiedAncestors(name, source);
    } else {
      var p, q := ColonAt(name);
      assert p + [COLON] <= fq;
      assert IsAncestor(p, fq) && |p| < |name|;
    }
  }
}
