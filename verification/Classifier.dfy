/** The classification strategies and the chain that applies them. */
module Classifier {
  import opened Domain
  import opened Facts
  import opened Resolvers

  function OneReason(cls: Class, confidence: real, code: string, evidence: seq<Evidence>): Verdict {
    Verdict(cls, confidence, [Reason(code, evidence)])
  }

  // ----- protection -----

  /** Labels are protected pairs; an object carrying all of them is protected. A label the object
      does not carry reads as the empty string. */
  datatype ProtectionConfig = ProtectionConfig(
    annotationKey: string, labels: map<string, string>, namespaces: set<string>)

  method NewProtectionStrategy(annotationKey: string, protectedNamespaces: seq<string>)
    returns (config: ProtectionConfig)
    ensures config.namespaces == set n | n in protectedNamespaces
    ensures config.labels == map[]
    ensures config.annotationKey == if annotationKey == "" then "janitor.io/protected" else annotationKey
  {
    var key := annotationKey;
    if key == "" {
      key := "janitor.io/protected";
    }
    var ns: set<string> := {};
    for i := 0 to |protectedNamespaces|
      invariant ns == set n | n in protectedNamespaces[..i]
    {
      ns := ns + {protectedNamespaces[i]};
    }
    return ProtectionConfig(key, map[], ns);
  }

  function Lookup(m: map<string, string>, key: string): string {
    if key in m then m[key] else ""
  }

  predicate InProtectedNamespace(namespaces: set<string>, namespace: string, name: string) {
    namespace in namespaces || (namespace == "" && name in namespaces)
  }

  predicate CarriesAll(labels: map<string, string>, required: map<string, string>) {
    forall k :: k in required ==> Lookup(labels, k) == required[k]
  }

  function ProtectionVerdict(config: ProtectionConfig, obj: Obj): Verdict {
    if InProtectedNamespace(config.namespaces, obj.namespace, obj.name) then
      OneReason(Protected, CONFIDENCE_HIGH, "protected-namespace", [Evidence(AnnotationEvidence, ControllerConfig)])
    else if Lookup(obj.annotations, config.annotationKey) == "true" then
      OneReason(Protected, CONFIDENCE_HIGH, "protection-annotation",
        [Evidence(AnnotationEvidence, AnnotationSource(config.annotationKey))])
    else if config.labels != map[] && CarriesAll(obj.labels, config.labels) then
      OneReason(Protected, CONFIDENCE_HIGH, "protection-label", [Evidence(LabelEvidence, ControllerConfig)])
    else NO_VERDICT
  }

  /** Visits the required labels in an arbitrary order and stops at the first one that differs. */
  method CheckLabels(labels: map<string, string>, required: map<string, string>) returns (allMatch: bool)
    ensures allMatch == CarriesAll(labels, required)
  {
    allMatch := true;
    var pending := required.Keys;
    while pending != {}
      invariant pending <= required.Keys && allMatch
      invariant forall k :: k in required && k !in pending ==> Lookup(labels, k) == required[k]
      decreases pending
    {
      var k :| k in pending;
      if Lookup(labels, k) != required[k] {
        allMatch := false;
        break;
      }
      pending := pending - {k};
    }
  }

  /** The object carries the label with this value, or does not carry it and the value is empty. */
  predicate ReadsAs(obj: Obj, key: string, value: string) {
    (key in obj.labels && obj.labels[key] == value) || (key !in obj.labels && value == "")
  }

  /** Protected by the list, by the annotation or by the labels, in this order, and by nothing else. */
  lemma ProtectionByManifest(config: ProtectionConfig, obj: Obj)
    ensures
      var v := ProtectionVerdict(config, obj);
      if obj.namespace in config.namespaces || (obj.namespace == "" && obj.name in config.namespaces) then
        v == Verdict(Protected, 0.9, [Reason("protected-namespace", [Evidence(AnnotationEvidence, ControllerConfig)])])
      else if Annotated(obj, config.annotationKey, "true") then
        v == Verdict(Protected, 0.9,
          [Reason("protection-annotation", [Evidence(AnnotationEvidence, AnnotationSource(config.annotationKey))])])
      else if config.labels != map[] && forall k :: k in config.labels ==> ReadsAs(obj, k, config.labels[k]) then
        v == Verdict(Protected, 0.9, [Reason("protection-label", [Evidence(LabelEvidence, ControllerConfig)])])
      else v == Verdict(Unknown, 0.0, [])
  {
    assert forall k :: k in config.labels ==>
      (Lookup(obj.labels, k) == config.labels[k] <==> ReadsAs(obj, k, config.labels[k]));
  }

  method ClassifyProtection(config: ProtectionConfig, obj: Obj) returns (verdict: Verdict)
    ensures verdict == ProtectionVerdict(config, obj)
    ensures verdict.Verdict? && (verdict.cls == Protected <==>
      || obj.namespace in config.namespaces || (obj.namespace == "" && obj.name in config.namespaces)
      || Annotated(obj, config.annotationKey, "true")
      || (config.labels != map[] && forall k :: k in config.labels ==> ReadsAs(obj, k, config.labels[k])))
  {
    ProtectionByManifest(config, obj);
    if obj.namespace in config.namespaces {
      return OneReason(Protected, CONFIDENCE_HIGH, "protected-namespace", [Evidence(AnnotationEvidence, ControllerConfig)]);
    }
    if obj.namespace == "" {
      if obj.name in config.namespaces {
        return OneReason(Protected, CONFIDENCE_HIGH, "protected-namespace", [Evidence(AnnotationEvidence, ControllerConfig)]);
      }
    }
    if Lookup(obj.annotations, config.annotationKey) == "true" {
      return OneReason(Protected, CONFIDENCE_HIGH, "protection-annotation",
        [Evidence(AnnotationEvidence, AnnotationSource(config.annotationKey))]);
    }
    if |config.labels| > 0 {
      var allMatch := CheckLabels(obj.labels, config.labels);
      if allMatch {
        return OneReason(Protected, CONFIDENCE_HIGH, "protection-label", [Evidence(LabelEvidence, ControllerConfig)]);
      }
    }
    return NO_VERDICT;
  }

  // ----- finalizers -----

  predicate OnlyJanitorFinalizers(finalizers: seq<string>) {
    forall f :: f in finalizers ==> f == JANITOR_FINALIZER
  }

  function FinalizerVerdict(obj: Obj): Verdict {
    if OnlyJanitorFinalizers(obj.finalizers) then NO_VERDICT
    else OneReason(Blocked, CONFIDENCE_HIGH, "foreign-finalizers", [Evidence(FinalizerEvidence, FinalizersSource)])
  }

  lemma OnlyJanitorAppend(finalizers: seq<string>, f: string)
    ensures OnlyJanitorFinalizers(finalizers + [f]) <==> OnlyJanitorFinalizers(finalizers) && f == JANITOR_FINALIZER
  {
    assert forall x :: x in finalizers + [f] <==> x in finalizers || x == f;
    assert f in finalizers + [f];
    assert forall x :: x in finalizers ==> x in finalizers + [f];
  }

  method ClassifyFinalizer(obj: Obj) returns (verdict: Verdict)
    ensures verdict == FinalizerVerdict(obj)
    ensures verdict ==
      if HeldByOthers(obj) then
        Verdict(Blocked, 0.9, [Reason("foreign-finalizers", [Evidence(FinalizerEvidence, FinalizersSource)])])
      else Verdict(Unknown, 0.0, [])
  {
    if |obj.finalizers| == 0 {
      return NO_VERDICT;
    }
    var foreign := [];
    for i := 0 to |obj.finalizers|
      invariant foreign == [] <==> OnlyJanitorFinalizers(obj.finalizers[..i])
    {
      assert obj.finalizers[..i + 1] == obj.finalizers[..i] + [obj.finalizers[i]];
      OnlyJanitorAppend(obj.finalizers[..i], obj.finalizers[i]);
      if obj.finalizers[i] != JANITOR_FINALIZER {
        foreign := foreign + [obj.finalizers[i]];
      }
    }
    assert obj.finalizers[..|obj.finalizers|] == obj.finalizers;
    if |foreign| == 0 {
      return NO_VERDICT;
    }
    return OneReason(Blocked, CONFIDENCE_HIGH, "foreign-finalizers", [Evidence(FinalizerEvidence, FinalizersSource)]);
  }

  // ----- time to live -----

  /** Go's Time.Sub: the exact difference clamped to the range of a Duration. */
  function SaturatingSub(a: Time, b: Time): Duration {
    if a - b > MAX_DURATION then MAX_DURATION
    else if a - b < MIN_DURATION then MIN_DURATION
    else a - b
  }

  /** Two's-complement wrap-around of a 64-bit subtraction. */
  function WrappingSub(a: Duration, b: Duration): Duration {
    var d := a - b;
    if d > MAX_DURATION then d - 0x1_0000_0000_0000_0000
    else if d < MIN_DURATION then d + 0x1_0000_0000_0000_0000
    else d
  }

  datatype TtlConfig = TtlConfig(annotationKey: string, defaultTtl: Duration)

  function ResolveTtl(config: TtlConfig, obj: Obj, parse: Parsers): Outcome<(Duration, Source)> {
    if config.annotationKey in obj.annotations then
      var text := obj.annotations[config.annotationKey];
      match parse.duration(text)
      case None => Bad(BadDuration(text))
      case Some(d) => Good((d, AnnotationSource(config.annotationKey)))
    else if config.defaultTtl > 0 then Good((config.defaultTtl, DefaultTtlSource))
    else Good((0, ControllerConfig))
  }

  /** The decision of the TTL strategy once the TTL is known: a zero TTL means none. */
  predicate TtlElapsed(ttl: Duration, created: Time, now: Time) {
    ttl != 0 && SaturatingSub(now, created) > ttl
  }

  function TtlVerdict(config: TtlConfig, obj: Obj, env: Env): Verdict {
    match ResolveTtl(config, obj, env.parse)
    case Bad(fault) => Fails(fault)
    case Good(resolved) =>
      if TtlElapsed(resolved.0, obj.created, env.now) then
        OneReason(Expired, CONFIDENCE_HIGH, "ttl-expired", [Evidence(TtlEvidence, resolved.1)])
      else NO_VERDICT
  }

  function ExpiresAtVerdict(annotationKey: string, obj: Obj, env: Env): Verdict {
    var text := Lookup(obj.annotations, annotationKey);
    if text == "" then NO_VERDICT
    else
      match env.parse.timestamp(text)
      case None => Fails(BadTimestamp(text))
      case Some(t) =>
        if env.now < t then NO_VERDICT
        else OneReason(Expired, CONFIDENCE_HIGH, "expires-at-elapsed",
          [Evidence(ExpiresAtEvidence, AnnotationSource(annotationKey))])
  }

  /** Saturation changes the decision exactly when the true age is past the longest duration and
      the TTL is that duration: the code then never sees the object as expired. */
  lemma SaturationHarmless(ttl: Duration, created: Time, now: Time)
    ensures (TtlElapsed(ttl, created, now) <==> ttl != 0 && now - created > ttl) <==>
      !(ttl == 0x7FFF_FFFF_FFFF_FFFF && now - created > 0x7FFF_FFFF_FFFF_FFFF)
  {
    assert now - created < MIN_DURATION ==> SaturatingSub(now, created) == MIN_DURATION <= ttl;
  }

  lemma ElapsedIsOutlived(ttl: Duration, created: Time, now: Time)
    ensures TtlElapsed(ttl, created, now) <==> Outlived(ttl, created, now)
  {
    SaturationHarmless(ttl, created, now);
  }

  /** A readable TTL of the object comes first and a positive default second; Expired is what has
      outlived its TTL, and an unreadable TTL is an error. */
  lemma TtlByManifest(config: TtlConfig, obj: Obj, env: Env)
    ensures
      var v := TtlVerdict(config, obj, env);
      if config.annotationKey in obj.annotations then
        var text := obj.annotations[config.annotationKey];
        match env.parse.duration(text)
        case None => v == Fails(BadDuration(text))
        case Some(d) =>
          v == if Outlived(d, obj.created, env.now) then
            Verdict(Expired, 0.9, [Reason("ttl-expired", [Evidence(TtlEvidence, AnnotationSource(config.annotationKey))])])
          else Verdict(Unknown, 0.0, [])
      else
        v == if config.defaultTtl > 0 && Outlived(config.defaultTtl, obj.created, env.now) then
          Verdict(Expired, 0.9, [Reason("ttl-expired", [Evidence(TtlEvidence, DefaultTtlSource)])])
        else Verdict(Unknown, 0.0, [])
  {
    var resolved := ResolveTtl(config, obj, env.parse);
    if resolved.Good? {
      ElapsedIsOutlived(resolved.value.0, obj.created, env.now);
    }
  }

  /** Expired from the very instant of the timestamp on; an absent or empty annotation means nothing. */
  lemma ExpiresAtByManifest(annotationKey: string, obj: Obj, env: Env)
    ensures
      var v := ExpiresAtVerdict(annotationKey, obj, env);
      if annotationKey in obj.annotations && obj.annotations[annotationKey] != "" then
        var text := obj.annotations[annotationKey];
        match env.parse.timestamp(text)
        case None => v == Fails(BadTimestamp(text))
        case Some(t) =>
          v == if t <= env.now then
            Verdict(Expired, 0.9,
              [Reason("expires-at-elapsed", [Evidence(ExpiresAtEvidence, AnnotationSource(annotationKey))])])
          else Verdict(Unknown, 0.0, [])
      else v == Verdict(Unknown, 0.0, [])
  {
  }

  /** Once expired, always expired; and for a positive TTL the overdue amount is exact. */
  lemma TtlMonotone(ttl: Duration, created: Time, now: Time, later: Time)
    requires TtlElapsed(ttl, created, now) && now <= later
    ensures TtlElapsed(ttl, created, later)
    ensures now - created > ttl
    ensures ttl > 0 ==>
      var age := SaturatingSub(now, created);
      WrappingSub(age, ttl) == age - ttl && WrappingSub(age, ttl) > 0
  {
    var age := SaturatingSub(now, created);
    assert age - ttl > 0;
  }

  predicate SaysExpired(v: Verdict) {
    v.Verdict? && v.cls == Expired
  }

  /** The true age is past the longest duration and the TTL is that duration. */
  predicate Saturates(ttl: Duration, created: Time, now: Time) {
    ttl == 0x7FFF_FFFF_FFFF_FFFF && now - created > ttl
  }

  /** On one object with both: a TTL of d gives the verdict of an expires-at one nanosecond later than
      created + d, unless the age saturates; against an expires-at of created + d it also differs at
      that single instant. */
  lemma TtlAgainstExpiresAt(config: TtlConfig, annotationKey: string, obj: Obj, env: Env)
    requires ResolveTtl(config, obj, env.parse).Good? && Lookup(obj.annotations, annotationKey) != ""
    ensures
      var ttl := ResolveTtl(config, obj, env.parse).value.0;
      var at := env.parse.timestamp(Lookup(obj.annotations, annotationKey));
      var agree := SaysExpired(TtlVerdict(config, obj, env)) == SaysExpired(ExpiresAtVerdict(annotationKey, obj, env));
      && (ttl != 0 && at == Some(obj.created + ttl + 1) ==> (agree <==> !Saturates(ttl, obj.created, env.now)))
      && (ttl != 0 && at == Some(obj.created + ttl) ==>
            (agree <==> env.now != obj.created + ttl && !Saturates(ttl, obj.created, env.now)))
  {
    SaturationHarmless(ResolveTtl(config, obj, env.parse).value.0, obj.created, env.now);
  }

  // ----- owners -----

  datatype Owners = Owners(live: seq<nat>, dead: seq<nat>)

  /** The owners from i on, in the order and with the early exit of the strategy's loop. */
  function StrategyScan(obj: Obj, env: Env, i: nat, live: seq<nat>, dead: seq<nat>): Outcome<Owners>
    requires i <= |obj.owners|
    decreases |obj.owners| - i
  {
    if i == |obj.owners| then Good(Owners(live, dead))
    else
      match StatusOf(obj, env, i)
      case Live => StrategyScan(obj, env, i + 1, live + [i], dead)
      case Unreadable => Bad(OwnerUnreadable(i))
      case _ => StrategyScan(obj, env, i + 1, live, dead + [i])
  }

  function OwnerRefVerdict(obj: Obj, env: Env): Verdict {
    if obj.owners == [] then NO_VERDICT
    else
      match StrategyScan(obj, env, 0, [], [])
      case Bad(fault) => Fails(fault)
      case Good(owners) =>
        if owners.live != [] then
          OneReason(Active, CONFIDENCE_HIGH, "live-owner", [Evidence(OwnerRefEvidence, OwnerReferencesSource)])
        else
          OneReason(Orphaned, CONFIDENCE_HIGH, "dead-owners", [Evidence(OwnerRefEvidence, OwnerReferencesSource)])
  }

  method ClassifyOwnerRef(obj: Obj, env: Env) returns (verdict: Verdict)
    ensures verdict == OwnerRefVerdict(obj, env)
  {
    if |obj.owners| == 0 {
      return NO_VERDICT;
    }
    var liveOwners: seq<nat>, deadOwners: seq<nat> := [], [];
    for i := 0 to |obj.owners|
      invariant StrategyScan(obj, env, i, liveOwners, deadOwners) == StrategyScan(obj, env, 0, [], [])
    {
      var owner := obj.owners[i];
      var gv := env.parse.groupVersion(owner.apiVersion);
      if gv.None? {
        deadOwners := deadOwners + [i];
        continue;
      }
      var answer := env.owner(i, GVK(gv.value.0, gv.value.1, owner.kind), obj.namespace, owner.name);
      if answer.Ok? && answer.value == owner.uid {
        liveOwners := liveOwners + [i];
      } else if answer.Ok? && answer.value != owner.uid {
        deadOwners := deadOwners + [i];
      } else if answer.NotFound? {
        deadOwners := deadOwners + [i];
      } else {
        return Fails(OwnerUnreadable(i));
      }
    }
    if |liveOwners| > 0 {
      return OneReason(Active, CONFIDENCE_HIGH, "live-owner", [Evidence(OwnerRefEvidence, OwnerReferencesSource)]);
    }
    return OneReason(Orphaned, CONFIDENCE_HIGH, "dead-owners", [Evidence(OwnerRefEvidence, OwnerReferencesSource)]);
  }

  /** Both liveness checks visit the owners in step: they fail at the same owner with the same
      fault, and otherwise find exactly the same live owners, one reference for each. */
  lemma {:induction false} ScansAgree(
    obj: Obj, env: Env, i: nat, live: seq<nat>, dead: seq<nat>, refs: seq<Reference>)
    requires i <= |obj.owners| && |live| + |dead| == i
    requires MatchesLive(obj, live, refs)
    ensures
      match (StrategyScan(obj, env, i, live, dead), ResolverScan(obj, env, i, refs))
      case (Bad(f), Bad(g)) => f == g
      case (Good(owners), Good(found)) =>
        |owners.live| + |owners.dead| == |obj.owners| && MatchesLive(obj, owners.live, found)
      case _ => false
    decreases |obj.owners| - i
  {
    if i < |obj.owners| {
      match StatusOf(obj, env, i) {
        case Unreadable =>
        case Live => ScansAgree(obj, env, i + 1, live + [i], dead, refs + [OwnerReferenceTo(obj, obj.owners[i])]);
        case _ => ScansAgree(obj, env, i + 1, live, dead + [i], refs);
      }
    }
  }

  ghost predicate MatchesLive(obj: Obj, live: seq<nat>, refs: seq<Reference>) {
    && |live| == |refs|
    && forall k :: 0 <= k < |live| ==> live[k] < |obj.owners| && RefersToOwner(obj, obj.owners[live[k]], refs[k])
  }

  predicate RefersToOwner(obj: Obj, owner: OwnerRef, ref: Reference) {
    ref == Reference(
      ObjectRef(GVK("", "", owner.kind), obj.namespace, owner.name, owner.uid),
      ObjectRef(GVK("", "", obj.gvk.kind), obj.namespace, obj.name, obj.uid),
      OwnerReference, Evidence(OwnerRefEvidence, OwnerReferencesSource))
  }

  /** The owner strategy and the owner resolver give the same answer about every object: the same
      fault, or Active exactly when the resolver returns a reference. */
  lemma OwnerChecksAgree(obj: Obj, env: Env)
    requires obj.owners != []
    ensures OwnerRefVerdict(obj, env).Fails? <==> OwnerRefs(obj, env).Bad?
    ensures OwnerRefVerdict(obj, env).Fails? ==> OwnerRefVerdict(obj, env).fault == OwnerRefs(obj, env).fault
    ensures OwnerRefs(obj, env).Good? ==>
      OwnerRefVerdict(obj, env).cls == if OwnerRefs(obj, env).value != [] then Active else Orphaned
    ensures OwnerRefs(obj, env).Good? ==>
      exists live: seq<nat> ::
        && MatchesLive(obj, live, OwnerRefs(obj, env).value)
        && Ascending(live, |obj.owners|)
        && (forall k: nat :: k in live <==> LivesOn(obj, env, k))
  {
    ScansAgree(obj, env, 0, [], [], []);
    LiveMembers(obj, env, 0, [], []);
    LiveInOrder(obj, env, 0, [], []);
  }

  /** Independent of the scans: the lookup of the i-th owner finds an object, and it has the UID that
      the reference names. */
  ghost predicate LivesOn(obj: Obj, env: Env, i: nat) {
    i < |obj.owners| && exists gv :: Looked(obj, env, i, gv, Ok(obj.owners[i].uid))
  }

  ghost predicate CannotBeRead(obj: Obj, env: Env, i: nat) {
    i < |obj.owners| && exists gv :: Looked(obj, env, i, gv, Unavailable)
  }

  predicate Looked(obj: Obj, env: Env, i: nat, gv: (string, string), answer: Answer<string>)
    requires i < |obj.owners|
  {
    var owner := obj.owners[i];
    env.parse.groupVersion(owner.apiVersion) == Some(gv)
    && env.owner(i, GVK(gv.0, gv.1, owner.kind), obj.namespace, owner.name) == answer
  }

  lemma StatusMeans(obj: Obj, env: Env, i: nat)
    requires i < |obj.owners|
    ensures StatusOf(obj, env, i) == Live <==> LivesOn(obj, env, i)
    ensures StatusOf(obj, env, i) == Unreadable <==> CannotBeRead(obj, env, i)
  {
    var parsed := env.parse.groupVersion(obj.owners[i].apiVersion);
    if parsed.Some? {
      assert Looked(obj, env, i, parsed.value,
        env.owner(i, GVK(parsed.value.0, parsed.value.1, obj.owners[i].kind), obj.namespace, obj.owners[i].name));
    }
  }

  ghost predicate SomeLiveFrom(obj: Obj, env: Env, i: nat) {
    exists j :: i <= j && LivesOn(obj, env, j)
  }

  /** The j-th owner is the first from i on that cannot be read. */
  ghost predicate FirstUnreadable(obj: Obj, env: Env, i: nat, j: nat) {
    i <= j && CannotBeRead(obj, env, j) && forall k :: i <= k < j ==> !CannotBeRead(obj, env, k)
  }

  lemma OneOwnerOn(obj: Obj, env: Env, i: nat)
    ensures SomeLiveFrom(obj, env, i) <==> LivesOn(obj, env, i) || SomeLiveFrom(obj, env, i + 1)
    ensures CannotBeRead(obj, env, i) ==> FirstUnreadable(obj, env, i, i)
    ensures !CannotBeRead(obj, env, i) ==>
      forall j :: FirstUnreadable(obj, env, i + 1, j) ==> FirstUnreadable(obj, env, i, j)
  {
  }

  lemma {:induction false} StrategyScanExact(obj: Obj, env: Env, i: nat, live: seq<nat>, dead: seq<nat>)
    requires i <= |obj.owners|
    ensures
      var result := StrategyScan(obj, env, i, live, dead);
      && (result.Bad? ==> exists j: nat :: FirstUnreadable(obj, env, i, j) && result.fault == OwnerUnreadable(j))
      && (result.Good? ==> forall j: nat :: i <= j ==> !CannotBeRead(obj, env, j))
      && (result.Good? ==> (result.value.live != [] <==> live != [] || SomeLiveFrom(obj, env, i)))
    decreases |obj.owners| - i
  {
    if i < |obj.owners| {
      StatusMeans(obj, env, i);
      OneOwnerOn(obj, env, i);
      match StatusOf(obj, env, i) {
        case Unreadable =>
        case Live => StrategyScanExact(obj, env, i + 1, live + [i], dead);
        case _ => StrategyScanExact(obj, env, i + 1, live, dead + [i]);
      }
    }
  }

  lemma {:induction false} LiveMembers(obj: Obj, env: Env, i: nat, live: seq<nat>, dead: seq<nat>)
    requires i <= |obj.owners|
    ensures
      var result := StrategyScan(obj, env, i, live, dead);
      result.Good? ==> forall k: nat :: k in result.value.live <==> k in live || (i <= k && LivesOn(obj, env, k))
    decreases |obj.owners| - i
  {
    if i < |obj.owners| {
      StatusMeans(obj, env, i);
      match StatusOf(obj, env, i) {
        case Unreadable =>
        case Live =>
          assert forall k :: k in live + [i] <==> k in live || k == i;
          LiveMembers(obj, env, i + 1, live + [i], dead);
        case _ => LiveMembers(obj, env, i + 1, live, dead + [i]);
      }
    }
  }

  ghost predicate Ascending(s: seq<nat>, bound: nat) {
    (forall j, k :: 0 <= j < k < |s| ==> s[j] < s[k]) && forall k :: 0 <= k < |s| ==> s[k] < bound
  }

  lemma {:induction false} LiveInOrder(obj: Obj, env: Env, i: nat, live: seq<nat>, dead: seq<nat>)
    requires i <= |obj.owners| && Ascending(live, i)
    ensures
      var result := StrategyScan(obj, env, i, live, dead);
      result.Good? ==> Ascending(result.value.live, |obj.owners|)
    decreases |obj.owners| - i
  {
    if i < |obj.owners| {
      assert Ascending(live, i + 1) && Ascending(live + [i], i + 1);
      match StatusOf(obj, env, i) {
        case Unreadable =>
        case Live => LiveInOrder(obj, env, i + 1, live + [i], dead);
        case _ => LiveInOrder(obj, env, i + 1, live, dead + [i]);
      }
    }
  }

  /** The owner strategy fails exactly when some owner cannot be read, and names the first such owner;
      otherwise an object with owners is Active if any of them lives on and Orphaned if none does. */
  lemma OwnerVerdictExactly(obj: Obj, env: Env)
    requires obj.owners != []
    ensures
      var v := OwnerRefVerdict(obj, env);
      && (v.Fails? ==> exists j: nat :: FirstUnreadable(obj, env, 0, j) && v.fault == OwnerUnreadable(j))
      && (v.Verdict? ==> forall j: nat :: !CannotBeRead(obj, env, j))
      && (v.Verdict? ==> v == Verdict(
            if SomeLiveFrom(obj, env, 0) then Active else Orphaned, 0.9,
            [Reason(if SomeLiveFrom(obj, env, 0) then "live-owner" else "dead-owners",
              [Evidence(OwnerRefEvidence, OwnerReferencesSource)])]))
  {
    StrategyScanExact(obj, env, 0, [], []);
  }

  // ----- the resolver strategy -----

  function EvidenceOf(refs: seq<Reference>): (evidence: seq<Evidence>)
    ensures |evidence| == |refs|
  {
    seq(|refs|, i requires 0 <= i < |refs| => refs[i].evidence)
  }

  function FromResolution(found: Resolution): Verdict {
    if found.error.Some? then Fails(found.error.value)
    else if found.refs != [] then OneReason(Active, CONFIDENCE_HIGH, "referenced", EvidenceOf(found.refs))
    else OneReason(Abandoned, CONFIDENCE_MEDIUM, "no-references", [Evidence(AgeEvidence, RegistrySource)])
  }

  function ResolverVerdict(resolvers: seq<Resolver>, obj: Obj, env: Env): Verdict {
    FromResolution(Resolved(resolvers, obj, env))
  }

  /** The error of the registry; or Active at 0.9 with the evidence of each reference in order; or, with
      no reference, Abandoned at 0.6. */
  lemma VerdictByReferences(found: Resolution)
    ensures
      var v := FromResolution(found);
      && (v.Fails? <==> found.error.Some?) && (v.Fails? ==> found.error == Some(v.fault))
      && (v.Verdict? && found.refs == [] ==>
            v == Verdict(Abandoned, 0.6, [Reason("no-references", [Evidence(AgeEvidence, RegistrySource)])]))
      && (v.Verdict? && found.refs != [] ==>
            && v.cls == Active && v.confidence == 0.9 && |v.reasons| == 1 && v.reasons[0].code == "referenced"
            && |v.reasons[0].evidence| == |found.refs|
            && forall i :: 0 <= i < |found.refs| ==> v.reasons[0].evidence[i] == found.refs[i].evidence)
  {
  }

  method ClassifyByResolvers(registry: Registry, obj: Obj, env: Env) returns (verdict: Verdict)
    ensures verdict == ResolverVerdict(registry.resolvers, obj, env)
  {
    var found := registry.ResolveAll(obj, env);
    if found.error.Some? {
      return Fails(found.error.value);
    }
    if |found.refs| > 0 {
      var evidence := [];
      for i := 0 to |found.refs|
        invariant |evidence| == i && evidence == EvidenceOf(found.refs)[..i]
      {
        evidence := evidence + [found.refs[i].evidence];
      }
      assert evidence == EvidenceOf(found.refs);
      return OneReason(Active, CONFIDENCE_HIGH, "referenced", evidence);
    }
    return OneReason(Abandoned, CONFIDENCE_MEDIUM, "no-references", [Evidence(AgeEvidence, RegistrySource)]);
  }

  // ----- the chain -----

  const UNMATCHED := [Reason("no-strategy-matched", [])]

  function Classify(chain: seq<Strategy>, obj: Obj, env: Env): Outcome<Finding> {
    if chain == [] then Good(Finding(RefOf(obj), Unknown, CONFIDENCE_LOW, UNMATCHED, ""))
    else
      match chain[0].classify(obj, env)
      case Fails(fault) => Bad(fault)
      case Verdict(cls, confidence, reasons) =>
        if cls == Unknown then Classify(chain[1..], obj, env)
        else Good(Finding(RefOf(obj), cls, confidence, reasons, ""))
  }

  predicate Silent(v: Verdict) {
    v.Verdict? && v.cls == Unknown
  }

  /** A strategy speaks when it returns an error or a class other than Unknown. */
  ghost predicate Speaks(s: Strategy, obj: Obj, env: Env) {
    s.classify(obj, env).Fails? || s.classify(obj, env).cls != Unknown
  }

  ghost predicate FirstSpeaker(chain: seq<Strategy>, i: nat, obj: Obj, env: Env)
    requires i < |chain|
  {
    Speaks(chain[i], obj, env) && forall j :: 0 <= j < i ==> !Speaks(chain[j], obj, env)
  }

  function Report(obj: Obj, v: Verdict): Outcome<Finding> {
    match v
    case Fails(fault) => Bad(fault)
    case Verdict(cls, confidence, reasons) => Good(Finding(RefOf(obj), cls, confidence, reasons, ""))
  }

  /** For any chain at all: the result is what the first speaking strategy says, and when none
      speaks it is Unknown at low confidence. */
  lemma {:induction false} FirstSpeakerWins(chain: seq<Strategy>, obj: Obj, env: Env)
    ensures forall i :: 0 <= i < |chain| && FirstSpeaker(chain, i, obj, env) ==>
      Classify(chain, obj, env) == Report(obj, chain[i].classify(obj, env))
    ensures (forall s :: s in chain ==> !Speaks(s, obj, env)) ==>
      Classify(chain, obj, env) == Good(Finding(RefOf(obj), Unknown, 0.3, [Reason("no-strategy-matched", [])], ""))
  {
    if chain != [] {
      FirstSpeakerWins(chain[1..], obj, env);
      if !Speaks(chain[0], obj, env) {
        forall i | 0 <= i < |chain| && FirstSpeaker(chain, i, obj, env)
          ensures Classify(chain, obj, env) == Report(obj, chain[i].classify(obj, env))
        {
          assert i > 0;
          assert chain[1..][i - 1] == chain[i];
          assert forall j :: 0 <= j < i - 1 ==> chain[1..][j] == chain[j + 1];
          assert FirstSpeaker(chain[1..], i - 1, obj, env);
        }
      }
    }
  }

  lemma {:induction false} ClassifyRefersTo(chain: seq<Strategy>, obj: Obj, env: Env)
    ensures
      match Classify(chain, obj, env)
      case Good(finding) => finding.ref == RefOf(obj) == ObjectRef(obj.gvk, obj.namespace, obj.name, obj.uid)
      case Bad(_) => true
  {
    if chain != [] {
      ClassifyRefersTo(chain[1..], obj, env);
    }
  }

  /** Strategies after a speaking one are never consulted, and a silent one can stand anywhere. */
  lemma {:induction false} LaterStrategiesIrrelevant(
    before: seq<Strategy>, s: Strategy, after: seq<Strategy>, other: seq<Strategy>, obj: Obj, env: Env)
    ensures Speaks(s, obj, env) ==>
      Classify(before + [s] + after, obj, env) == Classify(before + [s] + other, obj, env)
    ensures !Speaks(s, obj, env) ==>
      Classify(before + [s] + after, obj, env) == Classify(before + after, obj, env)
  {
    if before == [] {
      assert before + [s] + after == [s] + after && before + [s] + other == [s] + other && before + after == after;
      assert ([s] + after)[1..] == after && ([s] + other)[1..] == other;
    } else {
      LaterStrategiesIrrelevant(before[1..], s, after, other, obj, env);
      assert (before + [s] + after)[1..] == before[1..] + [s] + after;
      assert (before + [s] + other)[1..] == before[1..] + [s] + other;
      assert (before + after)[1..] == before[1..] + after;
    }
  }
}
