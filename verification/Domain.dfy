/** The types shared by every stage of the reconcile pipeline: Kubernetes metadata as the
    controller reads it, findings, decisions and policies, and the answers of the API server. */
module Domain {
  datatype Option<+T> = None | Some(value: T)

  /** Instants are nanoseconds on an unbounded line; durations are Go's signed 64-bit nanoseconds. */
  type Time = int
  const MAX_DURATION: int := 0x7FFF_FFFF_FFFF_FFFF
  const MIN_DURATION: int := -0x8000_0000_0000_0000
  type Duration = d: int | MIN_DURATION <= d <= MAX_DURATION

  const CONFIDENCE_LOW := 0.3
  const CONFIDENCE_MEDIUM := 0.6
  const CONFIDENCE_HIGH := 0.9

  const JANITOR_FINALIZER := "janitor.io/cleanup"

  datatype GVK = GVK(group: string, version: string, kind: string)

  datatype OwnerRef = OwnerRef(apiVersion: string, kind: string, name: string, uid: string)

  /** A Namespace or ConfigMap as some reader returned it. `gvk` is the type the object itself
      reports; `terminating` stands for a Namespace status phase of Terminating. */
  datatype Obj = Obj(
    gvk: GVK, namespace: string, name: string, uid: string, created: Time,
    annotations: map<string, string>, labels: map<string, string>,
    finalizers: seq<string>, owners: seq<OwnerRef>,
    deleting: bool, terminating: bool)

  datatype ObjectRef = ObjectRef(gvk: GVK, namespace: string, name: string, uid: string)

  function RefOf(obj: Obj): ObjectRef {
    ObjectRef(obj.gvk, obj.namespace, obj.name, obj.uid)
  }

  /** The two kinds a reconciler exists for, and where an API server keeps such an object. */
  datatype Kind = NamespaceKind | ConfigMapKind
  datatype Key = Key(kind: Kind, namespace: string, name: string)

  function KindName(kind: Kind): string {
    match kind
    case NamespaceKind => "Namespace"
    case ConfigMapKind => "ConfigMap"
  }

  function KeyOf(kind: Kind, ref: ObjectRef): Key {
    Key(kind, ref.namespace, ref.name)
  }

  /** What identifies the place an evidence item came from; its formatted text is not modelled. */
  datatype Source =
    | ControllerConfig
    | AnnotationSource(key: string)
    | DefaultTtlSource
    | OwnerReferencesSource
    | FinalizersSource
    | RegistrySource
    | PodSource(namespace: string, name: string)
    | ContainerSource(namespace: string, name: string, container: string)
    | DeploymentSource(namespace: string, name: string)

  datatype EvidenceType =
    OwnerRefEvidence | LabelEvidence | AnnotationEvidence | TtlEvidence | ExpiresAtEvidence
    | VolumeMountEvidence | EndpointEvidence | AgeEvidence | FinalizerEvidence

  datatype Evidence = Evidence(typ: EvidenceType, source: Source)

  datatype Reason = Reason(code: string, evidence: seq<Evidence>)

  datatype Class = Active | Ephemeral | Expired | Orphaned | Abandoned | Protected | Blocked | Unknown

  datatype Finding = Finding(
    ref: ObjectRef, cls: Class, confidence: real, reasons: seq<Reason>, reconcileId: string)

  /** `OtherAction` stands for any string that is not one of the three declared actions. */
  datatype Action = NoAction | ReportAction | DeleteAction | OtherAction(text: string)

  datatype Decision = Decision(action: Action, dryRun: bool, policyRef: string, reconcileId: string)

  datatype RefType = OwnerReference | LabelSelector | VolumeMount | EnvFrom

  datatype Reference = Reference(from: ObjectRef, to: ObjectRef, typ: RefType, evidence: Evidence)

  /** `OtherMode` stands for any string that is not one of the three declared modes. */
  datatype Mode = DryRunMode | ReportMode | DeleteMode | OtherMode(text: string)

  datatype Policy = Policy(name: string, kinds: seq<GVK>, mode: Mode, threshold: Option<real>)

  /** The answer to a Get, and to a List. */
  datatype Answer<+T> = Ok(value: T) | NotFound | Unavailable
  datatype Listing<+T> = Listed(items: seq<T>) | ListFailed

  /** The answer to a Delete: an error can be reported for a request that was carried out. */
  datatype DeleteAnswer = Accepted | AlreadyGone | DeleteFailed(applied: bool)

  /** Why a strategy, a resolver or the classifier returned an error. */
  datatype Fault =
    | BadDuration(text: string)
    | BadTimestamp(text: string)
    | OwnerUnreadable(index: nat)
    | PodsUnlisted(namespace: string)
    | DeploymentsUnlisted(namespace: string)
    | ResolversFailed(faults: seq<Fault>)
    | OtherFault(text: string)

  datatype Outcome<+T> = Good(value: T) | Bad(fault: Fault)

  /** The parts of a Pod the resolvers look at. */
  datatype EnvVar = EnvVar(name: string, configMapKey: Option<string>)
  datatype Container = Container(name: string, envFrom: seq<Option<string>>, env: seq<EnvVar>)
  datatype Volume = Volume(name: string, configMap: Option<string>)
  datatype PodPhase = Pending | Running | OtherPhase(text: string)
  datatype Pod = Pod(
    namespace: string, name: string, uid: string, phase: PodPhase,
    volumes: seq<Volume>, initContainers: seq<Container>, containers: seq<Container>)

  datatype Deployment = Deployment(name: string, uid: string)

  /** Library parsers, uninterpreted: a malformed text gives None. A group and version is a pair. */
  datatype Parsers = Parsers(
    duration: string -> Option<Duration>,
    timestamp: string -> Option<Time>,
    groupVersion: string -> Option<(string, string)>)

  /** What the outside world answers during one Classify: the i-th owner lookup (which reads
      the UID of the object found under a kind, namespace and name), the listings, and the clock. */
  datatype Env = Env(
    owner: (nat, GVK, string, string) -> Answer<string>,
    pods: string -> Listing<Pod>,
    deployments: string -> Listing<Deployment>,
    parse: Parsers,
    now: Time)

  /** A classification strategy and a resolver, as values of the Go interfaces. */
  datatype Verdict = Verdict(cls: Class, confidence: real, reasons: seq<Reason>) | Fails(fault: Fault)

  const NO_VERDICT := Verdict(Unknown, 0.0, [])

  datatype Strategy = Strategy(name: string, classify: (Obj, Env) -> Verdict)

  datatype Resolver = Resolver(
    name: string, handles: Obj -> bool, resolve: (Obj, Env) -> Outcome<seq<Reference>>)
}
