/** The admission of a countermeasure (apis/countermeasure/v1alpha1/webhook_validation.go) and the
    construction of its runner from a registry of builders (pkg/actions/action.go). */
module Admission {
  import opened Texts
  import opened Specs

  datatype Kind = DeleteKind | PatchKind | DebugKind | RestartKind

  /** A field of the action record, as reflection shows it. */
  datatype Field = Scalar | Pointer(kind: Kind, isNil: bool)

  /** The fields of an action, in the order of the record. */
  function Fields(a: Action): (r: seq<Field>)
    ensures forall k :: k in Kinds(a) <==> exists i :: 0 <= i < |r| && r[i] == Pointer(k, false)
  {
    var r := [Scalar, Scalar, Pointer(DeleteKind, a.delete.None?), Pointer(PatchKind, a.patch.None?),
              Pointer(DebugKind, a.debug.None?), Pointer(RestartKind, a.restart.None?)];
    assert r[2] == Pointer(DeleteKind, a.delete.None?) && r[3] == Pointer(PatchKind, a.patch.None?);
    assert r[4] == Pointer(DebugKind, a.debug.None?) && r[5] == Pointer(RestartKind, a.restart.None?);
    r
  }

  predicate IsSet(a: Action, k: Kind) {
    match k
    case DeleteKind => a.delete.Some?
    case PatchKind => a.patch.Some?
    case DebugKind => a.debug.Some?
    case RestartKind => a.restart.Some?
  }

  /** The kinds an action sets. */
  function Kinds(a: Action): set<Kind> {
    set k: Kind | IsSet(a, k)
  }

  // ---------- validation ----------

  datatype ActionError = ImageRequired(name: Text) | NoActionType(name: Text) | SeveralActionTypes

  datatype SpecError = EventNameRequired | ActionsRequired | BadAction(errors: seq<ActionError>)

  /** Exactly one kind, and an image for a debug container. */
  ghost predicate GoodAction(a: Action) {
    (exists k :: Kinds(a) == {k}) && (a.debug.Some? ==> a.debug.value.image != [])
  }

  ghost predicate GoodSpec(spec: Spec) {
    spec.onEvent.eventName != [] && spec.actions != [] && forall i :: 0 <= i < |spec.actions| ==> GoodAction(spec.actions[i])
  }

  function SetBefore(a: Action, n: nat): set<Kind>
    requires n <= |Fields(a)|
  {
    set i | 0 <= i < n && Fields(a)[i].Pointer? && !Fields(a)[i].isNil :: Fields(a)[i].kind
  }

  /** Counting one more field adds its kind, which no earlier field has. */
  lemma SetBeforeStep(a: Action, i: nat)
    requires i < |Fields(a)|
    ensures SetBefore(a, i + 1) ==
            if Fields(a)[i].Pointer? && !Fields(a)[i].isNil then SetBefore(a, i) + {Fields(a)[i].kind} else SetBefore(a, i)
    ensures Fields(a)[i].Pointer? ==> Fields(a)[i].kind !in SetBefore(a, i)
  {
  }

  lemma SetBeforeAll(a: Action)
    ensures SetBefore(a, |Fields(a)|) == Kinds(a)
  {
  }

  lemma SingletonKind(a: Action)
    ensures |Kinds(a)| == 1 <==> exists k :: Kinds(a) == {k}
  {
    if |Kinds(a)| == 1 {
      var k :| k in Kinds(a);
      assert |Kinds(a) - {k}| == 0;
      assert Kinds(a) == {k};
    }
  }

  /** Counts the pointers that are set, field by field. */
  method CountTypes(a: Action) returns (count: nat)
    ensures count == |Kinds(a)|
  {
    var fields := Fields(a);
    count := 0;
    for i := 0 to |fields|
      invariant count == |SetBefore(a, i)|
    {
      SetBeforeStep(a, i);
      if fields[i].Pointer? && !fields[i].isNil {
        count := count + 1;
      }
    }
    SetBeforeAll(a);
  }

  method ValidateAction(a: Action) returns (errors: seq<ActionError>)
    ensures errors == [] <==> GoodAction(a)
    ensures ImageRequired(a.name) in errors <==> a.debug.Some? && a.debug.value.image == []
    ensures NoActionType(a.name) in errors <==> Kinds(a) == {}
    ensures SeveralActionTypes in errors <==> |Kinds(a)| > 1
  {
    errors := [];
    if a.debug.Some? {
      if |a.debug.value.image| == 0 {
        errors := errors + [ImageRequired(a.name)];
      }
    }
    var count := CountTypes(a);
    SingletonKind(a);
    if count == 0 {
      errors := errors + [NoActionType(a.name)];
    }
    if count > 1 {
      errors := errors + [SeveralActionTypes];
    }
  }

  method ValidateOnEvent(e: OnEvent) returns (err: Option<SpecError>)
    ensures err == if e.eventName == [] then Some(EventNameRequired) else None
  {
    if |e.eventName| == 0 {
      return Some(EventNameRequired);
    }
    return None;
  }

  /** How many of the actions are refused. */
  ghost function Refused(actions: seq<Action>): nat {
    if actions == [] then 0
    else Refused(actions[..|actions| - 1]) + if GoodAction(actions[|actions| - 1]) then 0 else 1
  }

  lemma {:induction false} NoneRefused(actions: seq<Action>)
    ensures Refused(actions) == 0 <==> forall i :: 0 <= i < |actions| ==> GoodAction(actions[i])
    decreases |actions|
  {
    if actions != [] { NoneRefused(actions[..|actions| - 1]); }
  }

  /** Reports every fault: the missing name, the missing actions, and one error for each action
      refused. */
  method ValidateSpec(spec: Spec) returns (errors: seq<SpecError>)
    ensures errors == [] <==> GoodSpec(spec)
    ensures |errors| == (if spec.onEvent.eventName == [] then 1 else 0)
                      + (if spec.actions == [] then 1 else Refused(spec.actions))
    ensures EventNameRequired in errors <==> spec.onEvent.eventName == []
    ensures ActionsRequired in errors <==> spec.actions == []
    ensures forall e :: e in errors && e.BadAction? ==> e.errors != []
  {
    errors := [];
    var err := ValidateOnEvent(spec.onEvent);
    if err.Some? {
      errors := errors + [err.value];
    }
    if |spec.actions| != 0 {
      for i := 0 to |spec.actions|
        invariant |errors| == (if spec.onEvent.eventName == [] then 1 else 0) + Refused(spec.actions[..i])
        invariant EventNameRequired in errors <==> spec.onEvent.eventName == []
        invariant ActionsRequired !in errors && forall e :: e in errors && e.BadAction? ==> e.errors != []
      {
        assert spec.actions[..i + 1][..i] == spec.actions[..i];
        var actionErrors := ValidateAction(spec.actions[i]);
        if actionErrors != [] {
          errors := errors + [BadAction(actionErrors)];
        }
      }
      assert spec.actions[..|spec.actions|] == spec.actions;
      NoneRefused(spec.actions);
    } else {
      errors := errors + [ActionsRequired];
    }
  }

  // ---------- the registry ----------

  datatype Body =
    | DeleteBody(delete: DeleteSpec)
    | PatchBody(patch: PatchSpec)
    | DebugBody(debug: DebugSpec)
    | RestartBody(restart: RestartSpec)

  /** An executable action. */
  datatype Impl = Impl(name: Text, dryRun: bool, retryEnabled: bool, body: Body)

  /** The builders that Initialize registers; each dereferences the field of its own kind. */
  datatype Builder = BuildDelete | BuildPatch | BuildDebug | BuildRestart

  datatype Built = Ok(impl: Impl) | NilDereference | NoClient | UnknownAction(name: Text)

  function NewBase(a: Action, dryRun: bool, body: Body): Impl {
    Impl(a.name, dryRun, a.retryEnabled, body)
  }

  /** Calls a builder. `client` says whether a client can be made for a debug action. */
  function Call(b: Builder, a: Action, client: bool, dryRun: bool): Built {
    match b
    case BuildDelete => if a.delete.Some? then Ok(NewBase(a, dryRun, DeleteBody(a.delete.value))) else NilDereference
    case BuildPatch => if a.patch.Some? then Ok(NewBase(a, dryRun, PatchBody(a.patch.value))) else NilDereference
    case BuildDebug =>
      if !client then NoClient
      else if a.debug.Some? then Ok(NewBase(a, dryRun, DebugBody(a.debug.value))) else NilDereference
    case BuildRestart => if a.restart.Some? then Ok(NewBase(a, dryRun, RestartBody(a.restart.value))) else NilDereference
  }

  const STANDARD := map[DeleteKind := BuildDelete, DebugKind := BuildDebug, PatchKind := BuildPatch, RestartKind := BuildRestart]

  /** The kind whose builder `create` calls: the first field, in the order of the record, that is set
      and has a builder. */
  ghost predicate Chosen(builders: map<Kind, Builder>, a: Action, i: nat) {
    && i < |Fields(a)| && Buildable(builders, Fields(a)[i])
    && forall j :: 0 <= j < i ==> !Buildable(builders, Fields(a)[j])
  }

  lemma OneChosen(builders: map<Kind, Builder>, a: Action, i: nat)
    requires Chosen(builders, a, i)
    ensures forall j: nat :: Chosen(builders, a, j) ==> j == i
  {
  }

  predicate Buildable(builders: map<Kind, Builder>, f: Field) {
    f.Pointer? && !f.isNil && f.kind in builders
  }

  datatype Runner = Runner(impls: seq<Impl>) | Failed(cause: Built)

  class Registry {
    var builders: map<Kind, Builder>

    constructor ()
      ensures builders == map[]
    {
      builders := map[];
    }

    method RegisterAction(prototype: Kind, builder: Builder)
      modifies this
      ensures builders == old(builders)[prototype := builder]
    {
      builders := builders[prototype := builder];
    }

    method Initialize()
      modifies this
      ensures builders == old(builders) + STANDARD
    {
      RegisterAction(DeleteKind, BuildDelete);
      RegisterAction(DebugKind, BuildDebug);
      RegisterAction(PatchKind, BuildPatch);
      RegisterAction(RestartKind, BuildRestart);
    }

    method Create(a: Action, client: bool, dryRun: bool) returns (r: Built)
      ensures forall i: nat :: Chosen(builders, a, i) ==> r == Call(builders[Fields(a)[i].kind], a, client, dryRun)
      ensures (forall i: nat :: !Chosen(builders, a, i)) ==> r == UnknownAction(a.name)
    {
      var fields := Fields(a);
      for i := 0 to |fields|
        invariant forall j :: 0 <= j < i ==> !Buildable(builders, fields[j])
      {
        if fields[i].Pointer? && !fields[i].isNil {
          if fields[i].kind in builders {
            OneChosen(builders, a, i);
            return Call(builders[fields[i].kind], a, client, dryRun);
          }
        }
      }
      return UnknownAction(a.name);
    }

    /** Builds the actions in order; the first that cannot be built decides the outcome. */
    method NewRunner(spec: Spec, client: bool) returns (r: Runner)
      ensures r == BuildAll(builders, spec.actions, client, spec.dryRun)
    {
      var impls := [];
      for i := 0 to |spec.actions|
        invariant BuildAll(builders, spec.actions, client, spec.dryRun)
                  == Prepend(impls, BuildAll(builders, spec.actions[i..], client, spec.dryRun))
      {
        var impl := Create(spec.actions[i], client, spec.dryRun);
        WinnerChosen(builders, spec.actions[i]);
        assert spec.actions[i..][1..] == spec.actions[i + 1..];
        if !impl.Ok? {
          return Failed(impl);
        }
        PrependTwice(impls, impl.impl, BuildAll(builders, spec.actions[i + 1..], client, spec.dryRun));
        impls := impls + [impl.impl];
      }
      return Runner(impls);
    }
  }

  // ---------- what an initialised registry builds ----------

  predicate Usable(builders: map<Kind, Builder>, a: Action, k: Kind) {
    IsSet(a, k) && k in builders
  }

  /** The kind that wins when several are set. */
  function Winner(builders: map<Kind, Builder>, a: Action): (r: Option<Kind>)
    ensures r.Some? ==> Usable(builders, a, r.value)
  {
    if Usable(builders, a, DeleteKind) then Some(DeleteKind)
    else if Usable(builders, a, PatchKind) then Some(PatchKind)
    else if Usable(builders, a, DebugKind) then Some(DebugKind)
    else if Usable(builders, a, RestartKind) then Some(RestartKind)
    else None
  }

  lemma WinnerChosen(builders: map<Kind, Builder>, a: Action)
    ensures Winner(builders, a).Some? ==>
              exists i: nat :: Chosen(builders, a, i) && Fields(a)[i].kind == Winner(builders, a).value
    ensures Winner(builders, a).None? ==> forall i: nat :: !Chosen(builders, a, i)
  {
    if Winner(builders, a).Some? {
      var i := match Winner(builders, a).value case DeleteKind => 2 case PatchKind => 3 case DebugKind => 4 case RestartKind => 5;
      assert Chosen(builders, a, i);
    }
  }

  function BuildOne(builders: map<Kind, Builder>, a: Action, client: bool, dryRun: bool): Built {
    var k := Winner(builders, a);
    if k.Some? then Call(builders[k.value], a, client, dryRun) else UnknownAction(a.name)
  }

  function Prepend(impls: seq<Impl>, r: Runner): Runner {
    if r.Runner? then Runner(impls + r.impls) else r
  }

  lemma PrependTwice(impls: seq<Impl>, impl: Impl, r: Runner)
    ensures Prepend(impls, Prepend([impl], r)) == Prepend(impls + [impl], r)
  {
  }

  function BuildAll(builders: map<Kind, Builder>, actions: seq<Action>, client: bool, dryRun: bool): Runner {
    if actions == [] then Runner([]) else
      var first := BuildOne(builders, actions[0], client, dryRun);
      if first.Ok? then Prepend([first.impl], BuildAll(builders, actions[1..], client, dryRun)) else Failed(first)
  }

  function KindOf(b: Body): Kind {
    match b
    case DeleteBody(_) => DeleteKind
    case PatchBody(_) => PatchKind
    case DebugBody(_) => DebugKind
    case RestartBody(_) => RestartKind
  }

  /** The implementation does what one field of the action says, under the action's name and retry
      setting and the countermeasure's dry-run setting. */
  predicate Implements(impl: Impl, a: Action, dryRun: bool) {
    && impl.name == a.name && impl.retryEnabled == a.retryEnabled && impl.dryRun == dryRun
    && match impl.body
       case DeleteBody(d) => a.delete == Some(d)
       case PatchBody(p) => a.patch == Some(p)
       case DebugBody(d) => a.debug == Some(d)
       case RestartBody(x) => a.restart == Some(x)
  }

  /** Its first kind is debug. */
  predicate NeedsClient(a: Action) {
    a.debug.Some? && a.delete.None? && a.patch.None?
  }

  /** Whatever the registry, what is built does what the spec says: one implementation of each action, in
      order. */
  lemma {:induction false} BuiltImplements(builders: map<Kind, Builder>, actions: seq<Action>, client: bool, dryRun: bool)
    ensures var r := BuildAll(builders, actions, client, dryRun);
            r.Runner? ==> |r.impls| == |actions| && forall i :: 0 <= i < |actions| ==> Implements(r.impls[i], actions[i], dryRun)
    decreases |actions|
  {
    if actions != [] {
      BuiltImplements(builders, actions[1..], client, dryRun);
      assert forall i :: 1 <= i < |actions| ==> actions[i] == actions[1..][i - 1];
    }
  }

  /** When an action sets several kinds, the first of delete, patch, debug and restart is built. */
  lemma FirstKindWins(a: Action, client: bool, dryRun: bool)
    ensures var r := BuildOne(STANDARD, a, client, dryRun);
            && (a.delete.Some? ==> r.Ok? && r.impl.body == DeleteBody(a.delete.value))
            && (a.delete.None? && a.patch.Some? ==> r.Ok? && r.impl.body == PatchBody(a.patch.value))
            && (a.delete.None? && a.patch.None? && a.debug.Some? ==>
                  if client then r.Ok? && r.impl.body == DebugBody(a.debug.value) else r.NoClient?)
            && (a.delete.None? && a.patch.None? && a.debug.None? && a.restart.Some? ==>
                  r.Ok? && r.impl.body == RestartBody(a.restart.value))
            && (a.delete.None? && a.patch.None? && a.debug.None? && a.restart.None? ==> r == UnknownAction(a.name))
  {
  }

  lemma {:induction false} BuildsWhen(actions: seq<Action>, client: bool, dryRun: bool)
    ensures var r := BuildAll(STANDARD, actions, client, dryRun);
            && (r.Failed? ==> !r.cause.Ok? && !r.cause.NilDereference?)
            && (r.Runner? <==> forall i :: 0 <= i < |actions| ==> Kinds(actions[i]) != {} && (NeedsClient(actions[i]) ==> client))
    decreases |actions|
  {
    if actions != [] {
      BuildsWhen(actions[1..], client, dryRun);
      SomeKind(actions[0]);
      var first := BuildOne(STANDARD, actions[0], client, dryRun);
      assert first.Ok? <==> Kinds(actions[0]) != {} && (NeedsClient(actions[0]) ==> client);
      assert forall i :: 1 <= i < |actions| ==> actions[i] == actions[1..][i - 1];
      assert forall i :: 0 <= i < |actions[1..]| ==> actions[1..][i] == actions[i + 1];
    }
  }

  /** For every spec, accepted or not: no builder dereferences nil; the runner is built if and only if
      every action sets some kind and the client is there for those that need it; and it then has one
      implementation of each action, in order. */
  lemma BuildsIff(actions: seq<Action>, client: bool, dryRun: bool)
    ensures var r := BuildAll(STANDARD, actions, client, dryRun);
            && (r.Failed? ==> !r.cause.Ok? && !r.cause.NilDereference?)
            && (r.Runner? <==> forall i :: 0 <= i < |actions| ==> Kinds(actions[i]) != {} && (NeedsClient(actions[i]) ==> client))
            && (r.Runner? ==> |r.impls| == |actions|)
            && (r.Runner? ==> forall i :: 0 <= i < |actions| ==> Implements(r.impls[i], actions[i], dryRun))
  {
    BuildsWhen(actions, client, dryRun);
    BuiltImplements(STANDARD, actions, client, dryRun);
  }

  /** Action `i` is the first that cannot be built, and this is why. */
  ghost predicate FailsAt(actions: seq<Action>, client: bool, i: nat, cause: Built) {
    && i < |actions|
    && (forall j :: 0 <= j < i ==> Kinds(actions[j]) != {} && (NeedsClient(actions[j]) ==> client))
    && if Kinds(actions[i]) == {} then cause == UnknownAction(actions[i].name)
       else NeedsClient(actions[i]) && !client && cause == NoClient
  }

  /** A runner that cannot be built fails at the first action that sets no kind, with an error, or that
      needs the client that cannot be made, with a panic. */
  lemma {:induction false} BuildFailure(actions: seq<Action>, client: bool, dryRun: bool)
    ensures var r := BuildAll(STANDARD, actions, client, dryRun); r.Failed? ==> exists i :: FailsAt(actions, client, i, r.cause)
    decreases |actions|
  {
    var r := BuildAll(STANDARD, actions, client, dryRun);
    if actions != [] {
      SomeKind(actions[0]);
      FirstKindWins(actions[0], client, dryRun);
      BuildFailure(actions[1..], client, dryRun);
      if r.Failed? && BuildOne(STANDARD, actions[0], client, dryRun).Ok? {
        var i :| FailsAt(actions[1..], client, i, r.cause);
        FailsAtCons(actions, client, i, r.cause);
      } else if r.Failed? {
        assert FailsAt(actions, client, 0, r.cause);
      }
    }
  }

  lemma FailsAtCons(actions: seq<Action>, client: bool, i: nat, cause: Built)
    requires actions != [] && FailsAt(actions[1..], client, i, cause)
    requires Kinds(actions[0]) != {} && (NeedsClient(actions[0]) ==> client)
    ensures FailsAt(actions, client, i + 1, cause)
  {
    assert forall j :: 1 <= j < |actions| ==> actions[j] == actions[1..][j - 1];
  }

  lemma SomeKind(a: Action)
    ensures Winner(STANDARD, a).Some? <==> Kinds(a) != {}
    ensures Winner(STANDARD, a).Some? ==> Winner(STANDARD, a).value in Kinds(a)
  {
  }

  /** An accepted spec always builds, given the debug client: one implementation per action, in order,
      each of the single kind its action sets. */
  lemma ValidatedSpecsBuild(spec: Spec)
    requires GoodSpec(spec)
    ensures var r := BuildAll(STANDARD, spec.actions, true, spec.dryRun);
            && r.Runner? && |r.impls| == |spec.actions|
            && forall i :: 0 <= i < |spec.actions| ==>
                 && Kinds(spec.actions[i]) == {KindOf(r.impls[i].body)}
                 && Implements(r.impls[i], spec.actions[i], spec.dryRun)
  {
    BuildsIff(spec.actions, true, spec.dryRun);
    var r := BuildAll(STANDARD, spec.actions, true, spec.dryRun);
    forall i | 0 <= i < |spec.actions| ensures Kinds(spec.actions[i]) == {KindOf(r.impls[i].body)} {
      assert GoodAction(spec.actions[i]) && Implements(r.impls[i], spec.actions[i], spec.dryRun);
      assert KindOf(r.impls[i].body) in Kinds(spec.actions[i]);
    }
  }
}
