/** The chain the manager assembles at start-up, and what it says about every object. */
module Production {
  import opened Domain
  import opened Facts
  import opened Resolvers
  import opened Classifier

  const PROTECTION_ANNOTATION := "janitor.io/protected"
  const TTL_ANNOTATION := "janitor.io/ttl"
  const EXPIRES_AT_ANNOTATION := "janitor.io/expires-at"

  const PRODUCTION_RESOLVERS := [OwnerRefResolver, ConfigMapResolver, NamespaceResolver]

  function Guard(protectedNamespaces: set<string>): ProtectionConfig {
    ProtectionConfig(PROTECTION_ANNOTATION, map[], protectedNamespaces)
  }

  const TTL := TtlConfig(TTL_ANNOTATION, 0)

  function Chain(protectedNamespaces: set<string>, resolvers: seq<Resolver>): seq<Strategy> {
    [ Strategy("protection", (obj, env) => ProtectionVerdict(Guard(protectedNamespaces), obj)),
      Strategy("finalizer", (obj, env) => FinalizerVerdict(obj)),
      Strategy("ttl", (obj, env) => TtlVerdict(TTL, obj, env)),
      Strategy("expires-at", (obj, env) => ExpiresAtVerdict(EXPIRES_AT_ANNOTATION, obj, env)),
      Strategy("owner-ref", (obj, env) => OwnerRefVerdict(obj, env)),
      Strategy("resolver", (obj, env) => ResolverVerdict(resolvers, obj, env)) ]
  }

  /** What the six strategies of the chain amount to for one object. */
  function Staged(protectedNamespaces: set<string>, resolvers: seq<Resolver>, obj: Obj, env: Env): Verdict {
    if !Silent(ProtectionVerdict(Guard(protectedNamespaces), obj)) then ProtectionVerdict(Guard(protectedNamespaces), obj)
    else if !Silent(FinalizerVerdict(obj)) then FinalizerVerdict(obj)
    else if !Silent(TtlVerdict(TTL, obj, env)) then TtlVerdict(TTL, obj, env)
    else if !Silent(ExpiresAtVerdict(EXPIRES_AT_ANNOTATION, obj, env)) then ExpiresAtVerdict(EXPIRES_AT_ANNOTATION, obj, env)
    else if obj.owners != [] then OwnerRefVerdict(obj, env)
    else ResolverVerdict(resolvers, obj, env)
  }

  lemma ChainIsStaged(protectedNamespaces: set<string>, resolvers: seq<Resolver>, obj: Obj, env: Env)
    ensures Classify(Chain(protectedNamespaces, resolvers), obj, env) ==
      Report(obj, Staged(protectedNamespaces, resolvers, obj, env))
  {
    var chain := Chain(protectedNamespaces, resolvers);
    var i :=
      if !Silent(ProtectionVerdict(Guard(protectedNamespaces), obj)) then 0
      else if !Silent(FinalizerVerdict(obj)) then 1
      else if !Silent(TtlVerdict(TTL, obj, env)) then 2
      else if !Silent(ExpiresAtVerdict(EXPIRES_AT_ANNOTATION, obj, env)) then 3
      else if obj.owners != [] then 4
      else 5;
    assert FirstSpeaker(chain, i, obj, env);
    FirstSpeakerWins(chain, obj, env);
  }

  /** Every classification that succeeds is one of six classes, never Unknown; its confidence is
      0.6 exactly for Abandoned and 0.9 for all others; and it refers to the classified object. */
  lemma RangeOfChain(protectedNamespaces: set<string>, resolvers: seq<Resolver>, obj: Obj, env: Env)
    ensures
      match Classify(Chain(protectedNamespaces, resolvers), obj, env)
      case Bad(_) => true
      case Good(f) =>
        && f.cls in {Protected, Blocked, Expired, Active, Orphaned, Abandoned}
        && f.confidence == (if f.cls == Abandoned then 0.6 else 0.9)
        && f.ref == RefOf(obj)
  {
    ChainIsStaged(protectedNamespaces, resolvers, obj, env);
  }

  /** Exactly which objects are Protected, and which Blocked: both whatever the later annotations
      say, so a malformed TTL or timestamp never hides them behind an error. */
  lemma ProtectedAndBlockedExactly(protectedNamespaces: set<string>, resolvers: seq<Resolver>, obj: Obj, env: Env)
    ensures
      var result := Classify(Chain(protectedNamespaces, resolvers), obj, env);
      var shielded :=
        || obj.namespace in protectedNamespaces
        || (obj.namespace == "" && obj.name in protectedNamespaces)
        || ("janitor.io/protected" in obj.annotations && obj.annotations["janitor.io/protected"] == "true");
      && ((result.Good? && result.value.cls == Protected) <==> shielded)
      && ((result.Good? && result.value.cls == Blocked) <==>
            !shielded && exists f :: f in obj.finalizers && f != "janitor.io/cleanup")
  {
    ChainIsStaged(protectedNamespaces, resolvers, obj, env);
    ProtectionByManifest(Guard(protectedNamespaces), obj);
  }

  /** The list means namespaces: an object that lives in a namespace off the list is not protected by
      a name that happens to be on it. */
  lemma NameAloneDoesNotProtect(protectedNamespaces: set<string>, resolvers: seq<Resolver>, obj: Obj, env: Env)
    requires obj.namespace != "" && obj.namespace !in protectedNamespaces && obj.name in protectedNamespaces
    requires "janitor.io/protected" !in obj.annotations
    ensures
      var result := Classify(Chain(protectedNamespaces, resolvers), obj, env);
      result.Good? ==> result.value.cls != Protected
  {
    ProtectedAndBlockedExactly(protectedNamespaces, resolvers, obj, env);
  }

  /** Neither protected nor held by a foreign finalizer. */
  ghost predicate Free(protectedNamespaces: set<string>, obj: Obj) {
    && !OnList(protectedNamespaces, obj.namespace, obj.name) && !Annotated(obj, "janitor.io/protected", "true")
    && !HeldByOthers(obj)
  }

  /** What the first four strategies come to, in terms of the manifest. */
  lemma EarlyStrategies(protectedNamespaces: set<string>, obj: Obj, env: Env)
    ensures
      (Silent(ProtectionVerdict(Guard(protectedNamespaces), obj)) && Silent(FinalizerVerdict(obj))) <==>
        Free(protectedNamespaces, obj)
    ensures Silent(TtlVerdict(TTL, obj, env)) <==> !UnreadableTtl(obj, env) && !TtlPassed(obj, env)
    ensures TtlVerdict(TTL, obj, env).Fails? <==> UnreadableTtl(obj, env)
    ensures Silent(ExpiresAtVerdict(EXPIRES_AT_ANNOTATION, obj, env)) <==>
      !UnreadableDeadline(obj, env) && !DeadlinePassed(obj, env)
    ensures ExpiresAtVerdict(EXPIRES_AT_ANNOTATION, obj, env).Fails? <==> UnreadableDeadline(obj, env)
  {
    ProtectionByManifest(Guard(protectedNamespaces), obj);
    TtlByManifest(TTL, obj, env);
    ExpiresAtByManifest(EXPIRES_AT_ANNOTATION, obj, env);
  }

  /** Exactly which objects are Expired, and exactly when there is no classification: an unreadable
      TTL hides even a passed deadline, and a passed TTL hides an unreadable deadline. */
  lemma ExpiredAndFailedExactly(protectedNamespaces: set<string>, resolvers: seq<Resolver>, obj: Obj, env: Env)
    ensures
      var result := Classify(Chain(protectedNamespaces, resolvers), obj, env);
      && (result.Good? && result.value.cls == Expired <==>
            && Free(protectedNamespaces, obj) && !UnreadableTtl(obj, env)
            && (TtlPassed(obj, env) || DeadlinePassed(obj, env)))
      && (result.Bad? <==>
            && Free(protectedNamespaces, obj)
            && (|| UnreadableTtl(obj, env)
                || (!TtlPassed(obj, env) && UnreadableDeadline(obj, env))
                || (&& !TtlPassed(obj, env) && !DeadlinePassed(obj, env)
                    && if obj.owners != [] then exists j: nat :: CannotBeRead(obj, env, j)
                       else Resolved(resolvers, obj, env).error.Some?)))
  {
    ChainIsStaged(protectedNamespaces, resolvers, obj, env);
    EarlyStrategies(protectedNamespaces, obj, env);
    if obj.owners != [] {
      OwnerVerdictExactly(obj, env);
    }
  }

  /** A class that says something about owners or references is given only on those grounds. */
  lemma OwnersDecideClass(protectedNamespaces: set<string>, resolvers: seq<Resolver>, obj: Obj, env: Env)
    requires Classify(Chain(protectedNamespaces, resolvers), obj, env).Good?
    ensures
      var f := Classify(Chain(protectedNamespaces, resolvers), obj, env).value;
      && (f.cls == Orphaned ==> obj.owners != [] && OwnerRefs(obj, env) == Good([]))
      && (f.cls == Abandoned ==> obj.owners == [] && Resolved(resolvers, obj, env) == Resolution([], None))
      && (f.cls == Active && obj.owners != [] ==> OwnerRefs(obj, env).Good? && OwnerRefs(obj, env).value != [])
      && (f.cls == Active && obj.owners == [] ==> Resolved(resolvers, obj, env).refs != [])
  {
    ChainIsStaged(protectedNamespaces, resolvers, obj, env);
    if obj.owners != [] {
      OwnerChecksAgree(obj, env);
    }
  }

  /** The owner resolver is redundant in this chain: registering it, at any place among any other
      resolvers, changes no result for any object, error or finding. */
  lemma OwnerResolverRedundant(
    protectedNamespaces: set<string>, a: seq<Resolver>, b: seq<Resolver>, obj: Obj, env: Env)
    ensures Classify(Chain(protectedNamespaces, a + [OwnerRefResolver] + b), obj, env) ==
      Classify(Chain(protectedNamespaces, a + b), obj, env)
  {
    ChainIsStaged(protectedNamespaces, a + [OwnerRefResolver] + b, obj, env);
    ChainIsStaged(protectedNamespaces, a + b, obj, env);
    if obj.owners == [] {
      AggregateOfConcat(a, b, obj, env);
      AggregateOfConcat(a + [OwnerRefResolver], b, obj, env);
      AggregateOfConcat(a, [OwnerRefResolver], obj, env);
      var alone := AggregateOf([OwnerRefResolver], obj, env);
      assert alone == Aggregate([], []) by {
        assert [OwnerRefResolver][1..] == [];
      }
      var first := AggregateOf(a, obj, env);
      assert first.refs + alone.refs == first.refs && first.faults + alone.faults == first.faults;
    }
  }

  /** Failing safe: when an object reaches the resolvers and any that handles it fails, there is
      no classification at all. */
  lemma BrokenResolverStopsClassify(
    protectedNamespaces: set<string>, resolvers: seq<Resolver>, r: Resolver, obj: Obj, env: Env)
    requires r in resolvers && Breaks(r, obj, env)
    ensures
      var result := Classify(Chain(protectedNamespaces, resolvers), obj, env);
      result.Good? ==> result.value.cls in {Protected, Blocked, Expired} || obj.owners != []
  {
    ChainIsStaged(protectedNamespaces, resolvers, obj, env);
    AggregationFailsSafe(resolvers, obj, env);
  }

  // ----- the last two strategies -----

  /** Nothing that comes before the owners says anything about the object. */
  ghost predicate LeftToOwners(protectedNamespaces: set<string>, obj: Obj, env: Env) {
    && Free(protectedNamespaces, obj)
    && !UnreadableTtl(obj, env) && !TtlPassed(obj, env)
    && !UnreadableDeadline(obj, env) && !DeadlinePassed(obj, env)
  }

  ghost predicate LeftToResolvers(protectedNamespaces: set<string>, obj: Obj, env: Env) {
    LeftToOwners(protectedNamespaces, obj, env) && obj.owners == []
  }

  /** An object with owners left to them is Active if one of them lives on, Orphaned if none does, and not
      classified if one cannot be read. */
  lemma OwnedByLookups(protectedNamespaces: set<string>, resolvers: seq<Resolver>, obj: Obj, env: Env)
    requires LeftToOwners(protectedNamespaces, obj, env) && obj.owners != []
    ensures
      var result := Classify(Chain(protectedNamespaces, resolvers), obj, env);
      if exists j: nat :: CannotBeRead(obj, env, j) then result.Bad?
      else result.Good? && result.value.cls == if exists j: nat :: LivesOn(obj, env, j) then Active else Orphaned
  {
    ChainIsStaged(protectedNamespaces, resolvers, obj, env);
    EarlyStrategies(protectedNamespaces, obj, env);
    OwnerVerdictExactly(obj, env);
  }

  lemma {:induction false} SomeReferenceIffNamed(pods: seq<Pod>, cm: ObjectRef)
    ensures CollectPodReferences(pods, cm) != [] <==> exists p :: p in pods && Names(p, cm.name)
  {
    if pods != [] {
      PodReferenceExact(pods[0], cm);
      SomeReferenceIffNamed(pods[1..], cm);
      assert forall p :: p in pods <==> p == pods[0] || p in pods[1..];
    }
  }

  lemma ConfigMapAggregate(obj: Obj, env: Env)
    requires obj.gvk.kind == "ConfigMap" && obj.owners == []
    ensures AggregateOf(PRODUCTION_RESOLVERS, obj, env) ==
      match ConfigMapRefs(obj, env)
      case Good(refs) => Aggregate(refs, [])
      case Bad(fault) => Aggregate([], [fault])
  {
    var rest := PRODUCTION_RESOLVERS[1..];
    assert rest[0] == ConfigMapResolver && rest[1..] == [NamespaceResolver];
    assert AggregateOf([NamespaceResolver], obj, env) == Aggregate([], []) by {
      assert [NamespaceResolver][1..] == [];
    }
    if ConfigMapRefs(obj, env).Good? {
      assert ConfigMapRefs(obj, env).value + [] == ConfigMapRefs(obj, env).value;
    }
  }

  /** A ConfigMap left to the resolvers is Active if a listed Pod names it and Abandoned if none does;
      without the listing there is no classification. */
  lemma ConfigMapLeftToResolvers(protectedNamespaces: set<string>, obj: Obj, env: Env)
    requires LeftToResolvers(protectedNamespaces, obj, env) && obj.gvk.kind == "ConfigMap"
    ensures
      var result := Classify(Chain(protectedNamespaces, PRODUCTION_RESOLVERS), obj, env);
      match env.pods(obj.namespace)
      case ListFailed => result.Bad?
      case Listed(pods) =>
        result.Good? && result.value.cls == if exists p :: p in pods && Names(p, obj.name) then Active else Abandoned
  {
    ChainIsStaged(protectedNamespaces, PRODUCTION_RESOLVERS, obj, env);
    EarlyStrategies(protectedNamespaces, obj, env);
    ConfigMapAggregate(obj, env);
    if env.pods(obj.namespace).Listed? {
      SomeReferenceIffNamed(env.pods(obj.namespace).items, ConfigMapRef(obj));
    }
  }

  lemma NamespaceAggregate(obj: Obj, env: Env)
    requires obj.gvk.kind == "Namespace" && obj.owners == []
    ensures AggregateOf(PRODUCTION_RESOLVERS, obj, env) ==
      match NamespaceRefs(obj, env)
      case Good(refs) => Aggregate(refs, [])
      case Bad(fault) => Aggregate([], [fault])
  {
    var rest := PRODUCTION_RESOLVERS[1..];
    assert rest[0] == ConfigMapResolver && rest[1..] == [NamespaceResolver];
    assert "Namespace"[0] != "ConfigMap"[0];
    if NamespaceRefs(obj, env).Good? {
      assert NamespaceRefs(obj, env).value + [] == NamespaceRefs(obj, env).value;
    }
    assert AggregateOf([NamespaceResolver], obj, env) ==
      match NamespaceRefs(obj, env)
      case Good(refs) => Aggregate(refs, [])
      case Bad(fault) => Aggregate([], [fault]) by {
      assert [NamespaceResolver][1..] == [];
    }
    assert AggregateOf(rest, obj, env) == AggregateOf([NamespaceResolver], obj, env);
  }

  /** A Namespace left to the resolvers is Active if a Pod listed in it is running or pending, or else a
      Deployment is listed, and Abandoned if neither; without the Pods there is no classification, and
      without the Deployments only if no such Pod settles it. */
  lemma NamespaceLeftToResolvers(protectedNamespaces: set<string>, obj: Obj, env: Env)
    requires LeftToResolvers(protectedNamespaces, obj, env) && obj.gvk.kind == "Namespace"
    ensures
      var result := Classify(Chain(protectedNamespaces, PRODUCTION_RESOLVERS), obj, env);
      match env.pods(obj.name)
      case ListFailed => result.Bad?
      case Listed(pods) =>
        if exists p :: p in pods && (p.phase == Running || p.phase == Pending) then
          result.Good? && result.value.cls == Active
        else
          match env.deployments(obj.name)
          case ListFailed => result.Bad?
          case Listed(deployments) =>
            result.Good? && result.value.cls == if deployments != [] then Active else Abandoned
  {
    ChainIsStaged(protectedNamespaces, PRODUCTION_RESOLVERS, obj, env);
    EarlyStrategies(protectedNamespaces, obj, env);
    NamespaceAggregate(obj, env);
    if env.pods(obj.name).Listed? {
      NamespaceEarlyExitExact(obj, env);
      NoWorkloadIffNoneLive(obj, env.pods(obj.name).items);
    }
  }

  lemma OtherAggregate(obj: Obj, env: Env)
    requires obj.gvk.kind != "ConfigMap" && obj.gvk.kind != "Namespace" && obj.owners == []
    ensures AggregateOf(PRODUCTION_RESOLVERS, obj, env) == Aggregate([], [])
  {
    var rest := PRODUCTION_RESOLVERS[1..];
    assert rest[0] == ConfigMapResolver && rest[1..] == [NamespaceResolver];
    assert AggregateOf([NamespaceResolver], obj, env) == Aggregate([], []) by {
      assert [NamespaceResolver][1..] == [];
    }
  }

  // ----- the class of every object -----

  /** What uses an object without owners: Pods that name a ConfigMap, workloads in a Namespace. None if
      that cannot be told. */
  ghost function InUse(obj: Obj, env: Env): Option<bool> {
    if obj.gvk.kind == "ConfigMap" then
      match env.pods(obj.namespace)
      case ListFailed => None
      case Listed(pods) => Some(exists p :: p in pods && Names(p, obj.name))
    else if obj.gvk.kind == "Namespace" then
      match env.pods(obj.name)
      case ListFailed => None
      case Listed(pods) =>
        if exists p :: p in pods && (p.phase == Running || p.phase == Pending) then Some(true)
        else
          match env.deployments(obj.name)
          case ListFailed => None
          case Listed(deployments) => Some(deployments != [])
    else Some(false)
  }

  /** The class of an object by its manifest, its owners and what uses it; None if there is none. */
  ghost function ClassByState(protectedNamespaces: set<string>, obj: Obj, env: Env): Option<Class> {
    if OnList(protectedNamespaces, obj.namespace, obj.name) || Annotated(obj, "janitor.io/protected", "true") then
      Some(Protected)
    else if HeldByOthers(obj) then Some(Blocked)
    else if UnreadableTtl(obj, env) then None
    else if TtlPassed(obj, env) then Some(Expired)
    else if UnreadableDeadline(obj, env) then None
    else if DeadlinePassed(obj, env) then Some(Expired)
    else if obj.owners != [] then
      if exists j: nat :: CannotBeRead(obj, env, j) then None
      else Some(if exists j: nat :: LivesOn(obj, env, j) then Active else Orphaned)
    else
      match InUse(obj, env)
      case None => None
      case Some(used) => Some(if used then Active else Abandoned)
  }

  /** The manager's chain gives exactly this class to every object, and its confidence is 0.6 for
      Abandoned and 0.9 for every other class. */
  lemma ChainByState(protectedNamespaces: set<string>, obj: Obj, env: Env)
    ensures
      var result := Classify(Chain(protectedNamespaces, PRODUCTION_RESOLVERS), obj, env);
      match ClassByState(protectedNamespaces, obj, env)
      case None => result.Bad?
      case Some(cls) =>
        && result.Good? && result.value.cls == cls
        && result.value.confidence == (if cls == Abandoned then 0.6 else 0.9)
        && result.value.ref == ObjectRef(obj.gvk, obj.namespace, obj.name, obj.uid)
  {
    RangeOfChain(protectedNamespaces, PRODUCTION_RESOLVERS, obj, env);
    ProtectedAndBlockedExactly(protectedNamespaces, PRODUCTION_RESOLVERS, obj, env);
    ExpiredAndFailedExactly(protectedNamespaces, PRODUCTION_RESOLVERS, obj, env);
    if LeftToOwners(protectedNamespaces, obj, env) {
      OwnersByState(protectedNamespaces, obj, env);
    }
  }

  lemma OwnersByState(protectedNamespaces: set<string>, obj: Obj, env: Env)
    requires LeftToOwners(protectedNamespaces, obj, env)
    ensures
      var result := Classify(Chain(protectedNamespaces, PRODUCTION_RESOLVERS), obj, env);
      match ClassByState(protectedNamespaces, obj, env)
      case None => result.Bad?
      case Some(cls) => result.Good? && result.value.cls == cls
  {
    if obj.owners != [] {
      OwnedByLookups(protectedNamespaces, PRODUCTION_RESOLVERS, obj, env);
    } else if obj.gvk.kind == "ConfigMap" {
      ConfigMapLeftToResolvers(protectedNamespaces, obj, env);
    } else if obj.gvk.kind == "Namespace" {
      NamespaceLeftToResolvers(protectedNamespaces, obj, env);
    } else {
      ChainIsStaged(protectedNamespaces, PRODUCTION_RESOLVERS, obj, env);
      EarlyStrategies(protectedNamespaces, obj, env);
      OtherAggregate(obj, env);
    }
  }
}
