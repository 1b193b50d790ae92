/** The reference resolvers and their registry: which live objects refer to, or own, an object. */
module Resolvers {
  import opened Domain

  // ----- owner references -----

  datatype OwnerStatus = Malformed | Live | Replaced | Gone | Unreadable

  /** What the API says about the i-th owner: a malformed apiVersion is never looked up. */
  function StatusOf(obj: Obj, env: Env, i: nat): OwnerStatus
    requires i < |obj.owners|
  {
    var owner := obj.owners[i];
    match env.parse.groupVersion(owner.apiVersion)
    case None => Malformed
    case Some(gv) =>
      match env.owner(i, GVK(gv.0, gv.1, owner.kind), obj.namespace, owner.name)
      case Ok(uid) => if uid == owner.uid then Live else Replaced
      case NotFound => Gone
      case Unavailable => Unreadable
  }

  function OwnerReferenceTo(obj: Obj, owner: OwnerRef): Reference {
    Reference(
      ObjectRef(GVK("", "", owner.kind), obj.namespace, owner.name, owner.uid),
      ObjectRef(GVK("", "", obj.gvk.kind), obj.namespace, obj.name, obj.uid),
      OwnerReference,
      Evidence(OwnerRefEvidence, OwnerReferencesSource))
  }

  /** The owners from i on, in the order and with the early exit of the resolver's loop. */
  function ResolverScan(obj: Obj, env: Env, i: nat, refs: seq<Reference>): Outcome<seq<Reference>>
    requires i <= |obj.owners|
    decreases |obj.owners| - i
  {
    if i == |obj.owners| then Good(refs)
    else
      match StatusOf(obj, env, i)
      case Unreadable => Bad(OwnerUnreadable(i))
      case Live => ResolverScan(obj, env, i + 1, refs + [OwnerReferenceTo(obj, obj.owners[i])])
      case _ => ResolverScan(obj, env, i + 1, refs)
  }

  function OwnerRefs(obj: Obj, env: Env): Outcome<seq<Reference>> {
    ResolverScan(obj, env, 0, [])
  }

  method ResolveOwners(obj: Obj, env: Env) returns (result: Outcome<seq<Reference>>)
    ensures result == OwnerRefs(obj, env)
  {
    var refs := [];
    for i := 0 to |obj.owners|
      invariant ResolverScan(obj, env, i, refs) == OwnerRefs(obj, env)
    {
      var owner := obj.owners[i];
      var gv := env.parse.groupVersion(owner.apiVersion);
      if gv.None? {
        continue;
      }
      var answer := env.owner(i, GVK(gv.value.0, gv.value.1, owner.kind), obj.namespace, owner.name);
      if answer.NotFound? {
        continue;
      }
      if answer.Unavailable? {
        return Bad(OwnerUnreadable(i));
      }
      if answer.value != owner.uid {
        continue;
      }
      refs := refs + [OwnerReferenceTo(obj, owner)];
    }
    return Good(refs);
  }

  const OwnerRefResolver := Resolver("ownerref", (obj: Obj) => |obj.owners| > 0, OwnerRefs)

  // ----- ConfigMaps named by Pods -----

  /** One place in a Pod that may name a ConfigMap. */
  datatype Site = Site(typ: RefType, source: Source, target: Option<string>)

  function VolumeSites(pod: Pod): (sites: seq<Site>)
    ensures |sites| == |pod.volumes|
  {
    seq(|pod.volumes|, i requires 0 <= i < |pod.volumes| =>
      Site(VolumeMount, PodSource(pod.namespace, pod.name), pod.volumes[i].configMap))
  }

  function ContainerSource(pod: Pod, c: Container): Source {
    Source.ContainerSource(pod.namespace, pod.name, c.name)
  }

  function EnvFromSites(pod: Pod, c: Container): (sites: seq<Site>)
    ensures |sites| == |c.envFrom|
  {
    seq(|c.envFrom|, i requires 0 <= i < |c.envFrom| =>
      Site(EnvFrom, ContainerSource(pod, c), c.envFrom[i]))
  }

  function EnvSites(pod: Pod, c: Container): (sites: seq<Site>)
    ensures |sites| == |c.env|
  {
    seq(|c.env|, i requires 0 <= i < |c.env| =>
      Site(EnvFrom, ContainerSource(pod, c), c.env[i].configMapKey))
  }

  function SitesOf(pod: Pod, c: Container): seq<Site> {
    EnvFromSites(pod, c) + EnvSites(pod, c)
  }

  function ContainerSites(pod: Pod, cs: seq<Container>): seq<Site> {
    if cs == [] then [] else SitesOf(pod, cs[0]) + ContainerSites(pod, cs[1..])
  }

  /** Every examined place of a Pod, in examination order. */
  function Sites(pod: Pod): seq<Site> {
    VolumeSites(pod) + ContainerSites(pod, pod.initContainers + pod.containers)
  }

  function FirstSite(sites: seq<Site>, name: string): (r: Option<Site>)
    ensures r.Some? ==> r.value in sites && r.value.target == Some(name)
    ensures r.None? <==> forall s :: s in sites ==> s.target != Some(name)
  {
    if sites == [] then None
    else if sites[0].target == Some(name) then Some(sites[0])
    else FirstSite(sites[1..], name)
  }

  lemma {:induction false} FirstSiteOfConcat(a: seq<Site>, b: seq<Site>, name: string)
    ensures FirstSite(a + b, name) == if FirstSite(a, name).Some? then FirstSite(a, name) else FirstSite(b, name)
  {
    if a == [] {
      assert a + b == b;
    } else {
      assert (a + b)[1..] == a[1..] + b;
      FirstSiteOfConcat(a[1..], b, name);
    }
  }

  function PodRef(pod: Pod): ObjectRef {
    ObjectRef(GVK("", "v1", "Pod"), pod.namespace, pod.name, pod.uid)
  }

  function SiteReference(pod: Pod, site: Site, cm: ObjectRef): Reference {
    Reference(PodRef(pod), cm, site.typ, Evidence(VolumeMountEvidence, site.source))
  }

  /** The reference given by the first of some places of a Pod that names the ConfigMap. */
  function ReferenceFrom(pod: Pod, sites: seq<Site>, cm: ObjectRef): Option<Reference> {
    match FirstSite(sites, cm.name)
    case None => None
    case Some(site) => Some(SiteReference(pod, site, cm))
  }

  function PodReference(pod: Pod, cm: ObjectRef): Option<Reference> {
    ReferenceFrom(pod, Sites(pod), cm)
  }

  lemma ReferenceFromConcat(pod: Pod, a: seq<Site>, b: seq<Site>, cm: ObjectRef)
    ensures ReferenceFrom(pod, a + b, cm) ==
      if ReferenceFrom(pod, a, cm).Some? then ReferenceFrom(pod, a, cm) else ReferenceFrom(pod, b, cm)
  {
    FirstSiteOfConcat(a, b, cm.name);
  }

  lemma OneContainerOn(pod: Pod, cs: seq<Container>, k: nat, cm: ObjectRef)
    requires k < |cs|
    ensures
      var first := ReferenceFrom(pod, SitesOf(pod, cs[k]), cm);
      ReferenceFrom(pod, ContainerSites(pod, cs[k..]), cm) ==
        if first.Some? then first else ReferenceFrom(pod, ContainerSites(pod, cs[k + 1..]), cm)
  {
    assert cs[k..][1..] == cs[k + 1..];
    ReferenceFromConcat(pod, SitesOf(pod, cs[k]), ContainerSites(pod, cs[k + 1..]), cm);
  }

  method PodReferencesConfigMap(pod: Pod, cm: ObjectRef) returns (found: Option<Reference>)
    ensures found == PodReference(pod, cm)
  {
    var all := pod.initContainers + pod.containers;
    ReferenceFromConcat(pod, VolumeSites(pod), ContainerSites(pod, all), cm);
    found := SearchVolumes(pod, cm);
    if found.Some? {
      return;
    }
    for k := 0 to |all|
      invariant PodReference(pod, cm) == ReferenceFrom(pod, ContainerSites(pod, all[k..]), cm)
    {
      OneContainerOn(pod, all, k, cm);
      found := SearchContainer(pod, all[k], cm);
      if found.Some? {
        return;
      }
    }
    return None;
  }

  method SearchVolumes(pod: Pod, cm: ObjectRef) returns (found: Option<Reference>)
    ensures found == ReferenceFrom(pod, VolumeSites(pod), cm)
  {
    ghost var sites := VolumeSites(pod);
    for i := 0 to |pod.volumes|
      invariant FirstSite(sites, cm.name) == FirstSite(sites[i..], cm.name)
    {
      if pod.volumes[i].configMap == Some(cm.name) {
        return Some(Reference(PodRef(pod), cm, VolumeMount,
          Evidence(VolumeMountEvidence, PodSource(pod.namespace, pod.name))));
      }
      assert sites[i..][1..] == sites[i + 1..];
    }
    return None;
  }

  method SearchContainer(pod: Pod, c: Container, cm: ObjectRef) returns (found: Option<Reference>)
    ensures found == ReferenceFrom(pod, SitesOf(pod, c), cm)
  {
    ghost var a, b := EnvFromSites(pod, c), EnvSites(pod, c);
    FirstSiteOfConcat(a, b, cm.name);
    for i := 0 to |c.envFrom|
      invariant FirstSite(a, cm.name) == FirstSite(a[i..], cm.name)
    {
      if c.envFrom[i] == Some(cm.name) {
        return Some(Reference(PodRef(pod), cm, EnvFrom,
          Evidence(VolumeMountEvidence, ContainerSource(pod, c))));
      }
      assert a[i..][1..] == a[i + 1..];
    }
    for i := 0 to |c.env|
      invariant FirstSite(b, cm.name) == FirstSite(b[i..], cm.name)
    {
      if c.env[i].configMapKey == Some(cm.name) {
        return Some(Reference(PodRef(pod), cm, EnvFrom,
          Evidence(VolumeMountEvidence, ContainerSource(pod, c))));
      }
      assert b[i..][1..] == b[i + 1..];
    }
    return None;
  }

  function CollectPodReferences(pods: seq<Pod>, cm: ObjectRef): seq<Reference> {
    if pods == [] then []
    else
      match PodReference(pods[0], cm)
      case Some(ref) => [ref] + CollectPodReferences(pods[1..], cm)
      case None => CollectPodReferences(pods[1..], cm)
  }

  function ConfigMapRef(obj: Obj): ObjectRef {
    ObjectRef(GVK("", "v1", "ConfigMap"), obj.namespace, obj.name, obj.uid)
  }

  function ConfigMapRefs(obj: Obj, env: Env): Outcome<seq<Reference>> {
    match env.pods(obj.namespace)
    case ListFailed => Bad(PodsUnlisted(obj.namespace))
    case Listed(pods) => Good(CollectPodReferences(pods, ConfigMapRef(obj)))
  }

  method ResolveConfigMap(obj: Obj, env: Env) returns (result: Outcome<seq<Reference>>)
    ensures result == ConfigMapRefs(obj, env)
  {
    var listing := env.pods(obj.namespace);
    if listing.ListFailed? {
      return Bad(PodsUnlisted(obj.namespace));
    }
    var cm := ConfigMapRef(obj);
    var refs := [];
    for i := 0 to |listing.items|
      invariant refs + CollectPodReferences(listing.items[i..], cm) == CollectPodReferences(listing.items, cm)
    {
      assert listing.items[i..][1..] == listing.items[i + 1..];
      var found := PodReferencesConfigMap(listing.items[i], cm);
      if found.Some? {
        refs := refs + [found.value];
      }
    }
    assert refs + [] == refs;
    return Good(refs);
  }

  const ConfigMapResolver := Resolver("configmap", (obj: Obj) => obj.gvk.kind == "ConfigMap", ConfigMapRefs)

  /** Independent statement of "this Pod names that ConfigMap", in the terms of a Pod manifest. */
  ghost predicate ContainerNames(c: Container, name: string) {
    Some(name) in c.envFrom || exists e :: e in c.env && e.configMapKey == Some(name)
  }

  ghost predicate Names(pod: Pod, name: string) {
    || (exists v :: v in pod.volumes && v.configMap == Some(name))
    || (exists c :: (c in pod.initContainers || c in pod.containers) && ContainerNames(c, name))
  }

  lemma VolumeSiteExact(pod: Pod, name: string)
    ensures
      var site := FirstSite(VolumeSites(pod), name);
      && (site.Some? <==> exists v :: v in pod.volumes && v.configMap == Some(name))
      && (site.Some? ==> site.value.typ == VolumeMount && site.value.source == PodSource(pod.namespace, pod.name))
  {
    var sites := VolumeSites(pod);
    if v :| v in pod.volumes && v.configMap == Some(name) {
      var i :| 0 <= i < |pod.volumes| && pod.volumes[i] == v;
      assert sites[i] in sites;
    }
    if FirstSite(sites, name).Some? {
      var i :| 0 <= i < |sites| && sites[i] == FirstSite(sites, name).value;
      assert pod.volumes[i] in pod.volumes;
    }
  }

  /** A place in a container, if one names the ConfigMap. */
  ghost predicate IsSiteOf(site: Option<Site>, pod: Pod, c: Container, name: string) {
    && (site.Some? <==> ContainerNames(c, name))
    && (site.Some? ==>
          site.value.typ == EnvFrom && site.value.source == Source.ContainerSource(pod.namespace, pod.name, c.name))
  }

  lemma EnvFromSiteExact(pod: Pod, c: Container, name: string)
    ensures
      var site := FirstSite(EnvFromSites(pod, c), name);
      && (site.Some? <==> Some(name) in c.envFrom)
      && (site.Some? ==> site.value.typ == EnvFrom && site.value.source == ContainerSource(pod, c))
  {
    var sites := EnvFromSites(pod, c);
    if Some(name) in c.envFrom {
      var i :| 0 <= i < |c.envFrom| && c.envFrom[i] == Some(name);
      assert sites[i] in sites;
    }
    if FirstSite(sites, name).Some? {
      var i :| 0 <= i < |sites| && sites[i] == FirstSite(sites, name).value;
      assert c.envFrom[i] in c.envFrom;
    }
  }

  lemma EnvSiteExact(pod: Pod, c: Container, name: string)
    ensures
      var site := FirstSite(EnvSites(pod, c), name);
      && (site.Some? <==> exists e :: e in c.env && e.configMapKey == Some(name))
      && (site.Some? ==> site.value.typ == EnvFrom && site.value.source == ContainerSource(pod, c))
  {
    var sites := EnvSites(pod, c);
    if e :| e in c.env && e.configMapKey == Some(name) {
      var i :| 0 <= i < |c.env| && c.env[i] == e;
      assert sites[i] in sites;
    }
    if FirstSite(sites, name).Some? {
      var i :| 0 <= i < |sites| && sites[i] == FirstSite(sites, name).value;
      assert c.env[i] in c.env;
    }
  }

  lemma ContainerSiteExact(pod: Pod, c: Container, name: string)
    ensures IsSiteOf(FirstSite(SitesOf(pod, c), name), pod, c, name)
  {
    FirstSiteOfConcat(EnvFromSites(pod, c), EnvSites(pod, c), name);
    EnvFromSiteExact(pod, c, name);
    EnvSiteExact(pod, c, name);
  }

  ghost predicate FirstNaming(cs: seq<Container>, i: nat, name: string) {
    i < |cs| && ContainerNames(cs[i], name) && forall j :: 0 <= j < i ==> !ContainerNames(cs[j], name)
  }

  lemma {:induction false} ContainerSitesComplete(pod: Pod, cs: seq<Container>, name: string)
    ensures
      var site := FirstSite(ContainerSites(pod, cs), name);
      && (site.Some? <==> exists c :: c in cs && ContainerNames(c, name))
      && (site.Some? ==> exists i: nat :: FirstNaming(cs, i, name) && IsSiteOf(site, pod, cs[i], name))
  {
    if cs != [] {
      ContainerSiteExact(pod, cs[0], name);
      ContainerSitesComplete(pod, cs[1..], name);
      FirstSiteOfConcat(SitesOf(pod, cs[0]), ContainerSites(pod, cs[1..]), name);
      assert forall x :: x in cs <==> x == cs[0] || x in cs[1..];
      if ContainerNames(cs[0], name) {
        assert FirstNaming(cs, 0, name);
      } else if FirstSite(ContainerSites(pod, cs[1..]), name).Some? {
        var i: nat :| FirstNaming(cs[1..], i, name)
          && IsSiteOf(FirstSite(ContainerSites(pod, cs[1..]), name), pod, cs[1..][i], name);
        assert FirstNaming(cs, i + 1, name);
      }
    }
  }

  /** A Pod contributes a reference exactly when it names the ConfigMap. */
  lemma PodReferenceExact(pod: Pod, cm: ObjectRef)
    ensures PodReference(pod, cm).Some? <==> Names(pod, cm.name)
  {
    var all := pod.initContainers + pod.containers;
    FirstSiteOfConcat(VolumeSites(pod), ContainerSites(pod, all), cm.name);
    ContainerSitesComplete(pod, all, cm.name);
    VolumeSiteExact(pod, cm.name);
  }

  ghost function NamingPods(pods: seq<Pod>, name: string): seq<Pod> {
    if pods == [] then []
    else (if Names(pods[0], name) then [pods[0]] else []) + NamingPods(pods[1..], name)
  }

  /** Exactly one reference per listed Pod that names the ConfigMap, in list order, each from that
      Pod, to the ConfigMap, and backed by a place of that Pod before which no place names it. */
  lemma {:induction false} ConfigMapReferencesExact(pods: seq<Pod>, cm: ObjectRef)
    ensures
      var refs, naming := CollectPodReferences(pods, cm), NamingPods(pods, cm.name);
      && |refs| == |naming|
      && forall i :: 0 <= i < |refs| ==> Backs(refs[i], naming[i], cm)
  {
    if pods != [] {
      PodReferenceExact(pods[0], cm);
      if PodReference(pods[0], cm).Some? {
        PodReferenceBacked(pods[0], cm);
      }
      ConfigMapReferencesExact(pods[1..], cm);
      var rest, naming := CollectPodReferences(pods[1..], cm), NamingPods(pods[1..], cm.name);
      assert CollectPodReferences(pods, cm) ==
        (if PodReference(pods[0], cm).Some? then [PodReference(pods[0], cm).value] else []) + rest;
      assert NamingPods(pods, cm.name) == (if Names(pods[0], cm.name) then [pods[0]] else []) + naming;
    }
  }

  /** The ConfigMap resolver, from its reads on: the Pods of the object's own namespace, and references to
      the object itself. */
  lemma ConfigMapRefsExact(obj: Obj, env: Env)
    ensures
      var cm := ObjectRef(GVK("", "v1", "ConfigMap"), obj.namespace, obj.name, obj.uid);
      match env.pods(obj.namespace)
      case ListFailed => ConfigMapRefs(obj, env) == Bad(PodsUnlisted(obj.namespace))
      case Listed(pods) =>
        var naming := NamingPods(pods, obj.name);
        && ConfigMapRefs(obj, env).Good? && |ConfigMapRefs(obj, env).value| == |naming|
        && forall i :: 0 <= i < |naming| ==> Backs(ConfigMapRefs(obj, env).value[i], naming[i], cm)
  {
    if env.pods(obj.namespace).Listed? {
      ConfigMapReferencesExact(env.pods(obj.namespace).items, ConfigMapRef(obj));
    }
  }

  lemma PodReferenceBacked(pod: Pod, cm: ObjectRef)
    requires PodReference(pod, cm).Some?
    ensures Backs(PodReference(pod, cm).value, pod, cm)
  {
    var all := pod.initContainers + pod.containers;
    FirstSiteOfConcat(VolumeSites(pod), ContainerSites(pod, all), cm.name);
    VolumeSiteExact(pod, cm.name);
    if !exists v :: v in pod.volumes && v.configMap == Some(cm.name) {
      ContainerSitesComplete(pod, all, cm.name);
      var i: nat :| FirstNaming(all, i, cm.name)
        && IsSiteOf(FirstSite(ContainerSites(pod, all), cm.name), pod, all[i], cm.name);
      assert ByContainer(PodReference(pod, cm).value.evidence, pod, all, i, cm.name);
    }
  }

  /** What a reference says: from the Pod, to the ConfigMap, by a volume if one names it, and otherwise
      by the environment of the first container, init containers first, that names it. */
  ghost predicate Backs(ref: Reference, pod: Pod, cm: ObjectRef) {
    && ref.from == ObjectRef(GVK("", "v1", "Pod"), pod.namespace, pod.name, pod.uid) && ref.to == cm
    && if exists v :: v in pod.volumes && v.configMap == Some(cm.name) then
         ref.typ == VolumeMount && ref.evidence == Evidence(VolumeMountEvidence, PodSource(pod.namespace, pod.name))
       else ref.typ == EnvFrom && ByFirstContainer(ref.evidence, pod, pod.initContainers + pod.containers, cm.name)
  }

  ghost predicate ByFirstContainer(evidence: Evidence, pod: Pod, cs: seq<Container>, name: string) {
    exists i: nat :: ByContainer(evidence, pod, cs, i, name)
  }

  ghost predicate ByContainer(evidence: Evidence, pod: Pod, cs: seq<Container>, i: nat, name: string) {
    FirstNaming(cs, i, name)
    && evidence == Evidence(VolumeMountEvidence, Source.ContainerSource(pod.namespace, pod.name, cs[i].name))
  }

  ghost predicate IsFirst(sites: seq<Site>, i: nat, name: string)
    requires i < |sites|
  {
    sites[i].target == Some(name) && forall j :: 0 <= j < i ==> sites[j].target != Some(name)
  }

  lemma {:induction false} FirstSiteIsLeast(sites: seq<Site>, name: string)
    requires FirstSite(sites, name).Some?
    ensures exists i :: 0 <= i < |sites| && IsFirst(sites, i, name) && sites[i] == FirstSite(sites, name).value
  {
    if sites[0].target != Some(name) {
      FirstSiteIsLeast(sites[1..], name);
      var i :| 0 <= i < |sites[1..]| && IsFirst(sites[1..], i, name)
        && sites[1..][i] == FirstSite(sites[1..], name).value;
      assert forall j :: 0 < j <= i + 1 ==> sites[j] == sites[1..][j - 1];
      assert IsFirst(sites, i + 1, name);
    } else {
      assert IsFirst(sites, 0, name);
    }
  }

  // ----- workloads inside a Namespace -----

  predicate IsLive(pod: Pod) {
    pod.phase == Running || pod.phase == Pending
  }

  function NamespaceRef(obj: Obj): ObjectRef {
    ObjectRef(GVK("", "v1", "Namespace"), "", obj.name, obj.uid)
  }

  function PodWorkload(obj: Obj, pod: Pod): Reference {
    Reference(
      ObjectRef(GVK("", "v1", "Pod"), obj.name, pod.name, pod.uid), NamespaceRef(obj), LabelSelector,
      Evidence(EndpointEvidence, PodSource(obj.name, pod.name)))
  }

  function DeploymentWorkload(obj: Obj, d: Deployment): Reference {
    Reference(
      ObjectRef(GVK("apps", "v1", "Deployment"), obj.name, d.name, d.uid), NamespaceRef(obj), LabelSelector,
      Evidence(EndpointEvidence, DeploymentSource(obj.name, d.name)))
  }

  function FirstLivePod(pods: seq<Pod>): Option<Pod> {
    if pods == [] then None
    else if IsLive(pods[0]) then Some(pods[0])
    else FirstLivePod(pods[1..])
  }

  function NamespaceRefs(obj: Obj, env: Env): Outcome<seq<Reference>> {
    match env.pods(obj.name)
    case ListFailed => Bad(PodsUnlisted(obj.name))
    case Listed(pods) =>
      match FirstLivePod(pods)
      case Some(pod) => Good([PodWorkload(obj, pod)])
      case None =>
        match env.deployments(obj.name)
        case ListFailed => Bad(DeploymentsUnlisted(obj.name))
        case Listed(ds) => Good(if ds == [] then [] else [DeploymentWorkload(obj, ds[0])])
  }

  method ResolveNamespace(obj: Obj, env: Env) returns (result: Outcome<seq<Reference>>)
    ensures result == NamespaceRefs(obj, env)
  {
    var refs := [];
    var podList := env.pods(obj.name);
    if podList.ListFailed? {
      return Bad(PodsUnlisted(obj.name));
    }
    for i := 0 to |podList.items|
      invariant refs == []
      invariant FirstLivePod(podList.items) == FirstLivePod(podList.items[i..])
    {
      var pod := podList.items[i];
      if pod.phase == Running || pod.phase == Pending {
        refs := refs + [PodWorkload(obj, pod)];
        assert refs == [PodWorkload(obj, pod)];
        return Good(refs);
      }
      assert podList.items[i..][1..] == podList.items[i + 1..];
    }
    var deployList := env.deployments(obj.name);
    if deployList.ListFailed? {
      return Bad(DeploymentsUnlisted(obj.name));
    }
    for i := 0 to |deployList.items|
      invariant refs == [] && i == 0
    {
      refs := refs + [DeploymentWorkload(obj, deployList.items[i])];
      assert refs == [DeploymentWorkload(obj, deployList.items[0])];
      return Good(refs);
    }
    return Good([]);
  }

  const NamespaceResolver := Resolver("namespace", (obj: Obj) => obj.gvk.kind == "Namespace", NamespaceRefs)

  /** The version without early exits: every Pod that is running or pending, then every Deployment. */
  function PodWorkloads(obj: Obj, pods: seq<Pod>): seq<Reference> {
    if pods == [] then []
    else (if pods[0].phase in {Running, Pending} then [WorkloadIn(obj, "", "Pod", pods[0].name, pods[0].uid,
      PodSource(obj.name, pods[0].name))] else []) + PodWorkloads(obj, pods[1..])
  }

  function WorkloadIn(obj: Obj, group: string, kind: string, name: string, uid: string, source: Source): Reference {
    Reference(
      ObjectRef(GVK(group, "v1", kind), obj.name, name, uid),
      ObjectRef(GVK("", "v1", "Namespace"), "", obj.name, obj.uid),
      LabelSelector, Evidence(EndpointEvidence, source))
  }

  function AllWorkloads(obj: Obj, pods: seq<Pod>, ds: seq<Deployment>): seq<Reference> {
    PodWorkloads(obj, pods) + seq(|ds|, i requires 0 <= i < |ds| =>
      WorkloadIn(obj, "apps", "Deployment", ds[i].name, ds[i].uid, DeploymentSource(obj.name, ds[i].name)))
  }

  lemma {:induction false} NoWorkloadIffNoneLive(obj: Obj, pods: seq<Pod>)
    ensures PodWorkloads(obj, pods) != [] <==> exists p :: p in pods && (p.phase == Running || p.phase == Pending)
  {
    if pods != [] {
      NoWorkloadIffNoneLive(obj, pods[1..]);
      assert forall p :: p in pods <==> p == pods[0] || p in pods[1..];
    }
  }

  lemma {:induction false} FirstLivePodLeads(obj: Obj, pods: seq<Pod>)
    ensures FirstLivePod(pods).None? ==> PodWorkloads(obj, pods) == []
    ensures FirstLivePod(pods).Some? ==>
      PodWorkloads(obj, pods) != [] && PodWorkloads(obj, pods)[0] == PodWorkload(obj, FirstLivePod(pods).value)
  {
    if pods != [] {
      FirstLivePodLeads(obj, pods[1..]);
    }
  }

  /** With both listings available, the early exits return the first workload of all that exist
      (so none exactly when there is none); without the second, they still answer if a Pod is live. */
  lemma NamespaceEarlyExitExact(obj: Obj, env: Env)
    ensures
      match env.pods(obj.name)
      case ListFailed => NamespaceRefs(obj, env) == Bad(PodsUnlisted(obj.name))
      case Listed(pods) =>
        match env.deployments(obj.name)
        case Listed(ds) =>
          var all := AllWorkloads(obj, pods, ds);
          NamespaceRefs(obj, env) == Good(if all == [] then [] else all[..1])
        case ListFailed =>
          var live := PodWorkloads(obj, pods);
          NamespaceRefs(obj, env) == if live == [] then Bad(DeploymentsUnlisted(obj.name)) else Good(live[..1])
  {
    if env.pods(obj.name).Listed? {
      var pods := env.pods(obj.name).items;
      FirstLivePodLeads(obj, pods);
      if FirstLivePod(pods).Some? {
        assert PodWorkloads(obj, pods)[..1] == [PodWorkloads(obj, pods)[0]];
      }
      if env.deployments(obj.name).Listed? {
        var ds := env.deployments(obj.name).items;
        var all := AllWorkloads(obj, pods, ds);
        if FirstLivePod(pods).Some? {
          assert all[..1] == [PodWorkloads(obj, pods)[0]];
        } else if ds != [] {
          assert all[0] == DeploymentWorkload(obj, ds[0]);
          assert all[..1] == [DeploymentWorkload(obj, ds[0])];
        } else {
          assert all == [];
        }
      }
    }
  }

  // ----- the registry -----

  datatype Aggregate = Aggregate(refs: seq<Reference>, faults: seq<Fault>)

  function AggregateOf(resolvers: seq<Resolver>, obj: Obj, env: Env): Aggregate {
    if resolvers == [] then Aggregate([], [])
    else
      var rest := AggregateOf(resolvers[1..], obj, env);
      if !resolvers[0].handles(obj) then rest
      else
        match resolvers[0].resolve(obj, env)
        case Good(refs) => Aggregate(refs + rest.refs, rest.faults)
        case Bad(fault) => Aggregate(rest.refs, [fault] + rest.faults)
  }

  /** ResolveAll hands back the references it has even when it also reports an error. */
  datatype Resolution = Resolution(refs: seq<Reference>, error: Option<Fault>)

  function Resolved(resolvers: seq<Resolver>, obj: Obj, env: Env): Resolution {
    var a := AggregateOf(resolvers, obj, env);
    Resolution(a.refs, if a.faults == [] then None else Some(ResolversFailed(a.faults)))
  }

  class Registry {
    var resolvers: seq<Resolver>

    constructor ()
      ensures resolvers == []
    {
      resolvers := [];
    }

    method Register(resolver: Resolver)
      modifies this
      ensures resolvers == old(resolvers) + [resolver]
    {
      resolvers := resolvers + [resolver];
    }

    method ResolveAll(obj: Obj, env: Env) returns (result: Resolution)
      ensures result == Resolved(resolvers, obj, env)
    {
      var allRefs, errs := [], [];
      for i := 0 to |resolvers|
        invariant AggregateOf(resolvers, obj, env) ==
          var rest := AggregateOf(resolvers[i..], obj, env);
          Aggregate(allRefs + rest.refs, errs + rest.faults)
      {
        assert resolvers[i..][1..] == resolvers[i + 1..];
        if !resolvers[i].handles(obj) {
          continue;
        }
        var found := resolvers[i].resolve(obj, env);
        if found.Bad? {
          errs := errs + [found.fault];
          continue;
        }
        allRefs := allRefs + found.value;
      }
      assert AggregateOf(resolvers[|resolvers|..], obj, env) == Aggregate([], []);
      assert allRefs + [] == allRefs && errs + [] == errs;
      if |errs| > 0 {
        return Resolution(allRefs, Some(ResolversFailed(errs)));
      }
      return Resolution(allRefs, None);
    }
  }

  /** Registering is appending: the answer of a longer registry is the answer of its parts, in order. */
  lemma {:induction false} AggregateOfConcat(a: seq<Resolver>, b: seq<Resolver>, obj: Obj, env: Env)
    ensures AggregateOf(a + b, obj, env) == Aggregate(
      AggregateOf(a, obj, env).refs + AggregateOf(b, obj, env).refs,
      AggregateOf(a, obj, env).faults + AggregateOf(b, obj, env).faults)
  {
    if a == [] {
      assert a + b == b;
    } else {
      assert (a + b)[0] == a[0] && (a + b)[1..] == a[1..] + b;
      AggregateOfConcat(a[1..], b, obj, env);
    }
  }

  ghost predicate Breaks(r: Resolver, obj: Obj, env: Env) {
    r.handles(obj) && r.resolve(obj, env).Bad?
  }

  /** ResolveAll errs exactly when some resolver that handles the object failed. Its references
      are exactly those found by the handling resolvers that succeeded, whatever the others did. */
  lemma {:induction false} AggregationFailsSafe(resolvers: seq<Resolver>, obj: Obj, env: Env)
    ensures Resolved(resolvers, obj, env).error.Some? <==> exists r :: r in resolvers && Breaks(r, obj, env)
    ensures forall ref :: ref in Resolved(resolvers, obj, env).refs <==>
      exists r :: r in resolvers && Finds(r, obj, env, ref)
  {
    if resolvers != [] {
      AggregationFailsSafe(resolvers[1..], obj, env);
      var r0 := resolvers[0];
      assert forall r :: r in resolvers <==> r == r0 || r in resolvers[1..];
      assert Breaks(r0, obj, env) ==> Resolved(resolvers, obj, env).error.Some?;
      forall ref
        ensures ref in Resolved(resolvers, obj, env).refs <==>
          Finds(r0, obj, env, ref) || ref in Resolved(resolvers[1..], obj, env).refs
      {
      }
    }
  }

  ghost predicate Finds(r: Resolver, obj: Obj, env: Env, ref: Reference) {
    r.handles(obj) && r.resolve(obj, env).Good? && ref in r.resolve(obj, env).value
  }
}
