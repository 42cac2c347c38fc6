/** The countermeasure resource (apis/countermeasure/v1alpha1/countermeasure_types.go). */
module Specs {
  import opened Texts
  import opened Topics

  datatype ObjectKey = ObjectKey(name: NamespacedName, generation: int)

  datatype ObjectReference = ObjectReference(namespace: Text, name: Text, kind: Text, apiVersion: Text)
  datatype DeleteSpec = DeleteSpec(target: ObjectReference)
  datatype PatchSpec = PatchSpec(target: ObjectReference, patchType: Text, yamlTemplate: Text)
  datatype DebugSpec = DebugSpec(name: Text, command: seq<Text>, args: seq<Text>, image: Text, pod: NamespacedName)
  datatype RestartSpec = RestartSpec(deployment: NamespacedName)

  /** The optional fields are Go pointers; None is nil. */
  datatype Action = Action(
    name: Text,
    retryEnabled: bool,
    delete: Option<DeleteSpec>,
    patch: Option<PatchSpec>,
    debug: Option<DebugSpec>,
    restart: Option<RestartSpec>)

  /** Durations are in nanoseconds, and may be negative. */
  datatype SuppressionPolicy = SuppressionPolicy(duration: Option<int>)

  datatype OnEvent = OnEvent(
    eventName: Text, sourceSelector: Option<map<Text, Text>>, suppressionPolicy: Option<SuppressionPolicy>)

  datatype Spec = Spec(onEvent: OnEvent, actions: seq<Action>, dryRun: bool)

  datatype CounterMeasure = CounterMeasure(key: ObjectKey, spec: Spec)

  /** The topic that a countermeasure subscribes to. */
  function Topic(cm: CounterMeasure): Text {
    cm.spec.onEvent.eventName
  }

  /** The suppression window, when both the policy and its duration are given. */
  function Window(spec: Spec): Option<int> {
    if spec.onEvent.suppressionPolicy.Some? then spec.onEvent.suppressionPolicy.value.duration else None
  }
}
