/** Deep copies of a policy spec, on the heap: pointers are nullable references, slices and Go maps
    are references too, and a nil one differs from an empty one. Structs a spec embeds by value are
    objects of its own.

    A copy of a struct onto itself is modelled too: what a pointer leads to is then replaced by a new
    zero value before it is read, so such a copy keeps the scalars and loses what is pointed to. */
module DeepCopy {
  import opened Domain

  class DurationCell {
    var value: Duration
    constructor (value: Duration)
      ensures this.value == value
    {
      this.value := value;
    }
  }

  class RealCell {
    var value: real
    constructor (value: real)
      ensures this.value == value
    {
      this.value := value;
    }
  }

  class StringMap {
    var entries: map<string, string>
    constructor ()
      ensures entries == map[]
    {
      entries := map[];
    }
  }

  /** A library type with a deep copy of its own; only its content as a whole is modelled. */
  class LabelSelector {
    var matchLabels: map<string, string>
    constructor (matchLabels: map<string, string>)
      ensures this.matchLabels == matchLabels
    {
      this.matchLabels := matchLabels;
    }
  }

  // ----- what references stand for -----

  function DurationOf(cell: DurationCell?): Option<Duration>
    reads cell
  {
    if cell == null then None else Some(cell.value)
  }

  function RealOf(cell: RealCell?): Option<real>
    reads cell
  {
    if cell == null then None else Some(cell.value)
  }

  function EntriesOf(cell: StringMap?): Option<map<string, string>>
    reads cell
  {
    if cell == null then None else Some(cell.entries)
  }

  function SelectorOf(cell: LabelSelector?): Option<map<string, string>>
    reads cell
  {
    if cell == null then None else Some(cell.matchLabels)
  }

  function SliceOf<T>(slice: array?<T>): Option<seq<T>>
    reads slice
  {
    if slice == null then None else Some(slice[..])
  }

  twostate predicate Unwritten(o: object?)
    reads o
  {
    o != null ==> unchanged(o)
  }

  // ----- copies of the leaves; `same` says that source and destination are one -----

  const ZERO_KIND := GVK("", "", "")

  function ZeroedIf<T>(same: bool, value: Option<T>, zero: T): Option<T> {
    if same && value.Some? then Some(zero) else value
  }

  function ZeroedSliceIf<T>(same: bool, value: Option<seq<T>>, zero: T): Option<seq<T>> {
    if same && value.Some? then Some(seq(|value.value|, i => zero)) else value
  }

  method CopyDuration(cell: DurationCell?, same: bool) returns (copy: DurationCell?)
    ensures DurationOf(copy) == ZeroedIf(same, DurationOf(cell), 0)
    ensures (copy == null <==> cell == null) && (copy != null ==> copy.value == if same then 0 else cell.value)
    ensures copy == null || fresh(copy)
  {
    copy := null;
    if cell != null {
      copy := new DurationCell(0);
      var source := if same then copy else cell;
      copy.value := source.value;
    }
  }

  method CopyReal(cell: RealCell?, same: bool) returns (copy: RealCell?)
    ensures RealOf(copy) == ZeroedIf(same, RealOf(cell), 0.0)
    ensures (copy == null <==> cell == null) && (copy != null ==> copy.value == if same then 0.0 else cell.value)
    ensures copy == null || fresh(copy)
  {
    copy := null;
    if cell != null {
      copy := new RealCell(0.0);
      var source := if same then copy else cell;
      copy.value := source.value;
    }
  }

  method CopySelector(cell: LabelSelector?, same: bool) returns (copy: LabelSelector?)
    ensures SelectorOf(copy) == ZeroedIf(same, SelectorOf(cell), map[])
    ensures (copy == null <==> cell == null) && (copy != null ==> copy.matchLabels == if same then map[] else cell.matchLabels)
    ensures copy == null || fresh(copy)
  {
    copy := null;
    if cell != null {
      copy := new LabelSelector(map[]);
      var source := if same then copy else cell;
      copy.matchLabels := source.matchLabels;
    }
  }

  /** Inserts the entries one by one, in an arbitrary order. */
  method CopyMap(cell: StringMap?, same: bool) returns (copy: StringMap?)
    ensures EntriesOf(copy) == ZeroedIf(same, EntriesOf(cell), map[])
    ensures (copy == null <==> cell == null) && (copy != null ==> copy.entries == if same then map[] else cell.entries)
    ensures copy == null || fresh(copy)
  {
    copy := null;
    if cell != null {
      copy := new StringMap();
      var source := if same then copy.entries else cell.entries;
      var pending := source.Keys;
      while pending != {}
        invariant pending <= source.Keys && fresh(copy)
        invariant copy.entries.Keys == source.Keys - pending
        invariant forall k :: k in copy.entries ==> copy.entries[k] == source[k]
        decreases pending
      {
        var k :| k in pending;
        copy.entries := copy.entries[k := source[k]];
        pending := pending - {k};
      }
      assert copy.entries == source;
    }
  }

  method CopySlice<T>(slice: array?<T>, same: bool, zero: T) returns (copy: array?<T>)
    ensures SliceOf(copy) == ZeroedSliceIf(same, SliceOf(slice), zero)
    ensures (copy == null <==> slice == null) && (copy != null ==> copy.Length == slice.Length)
    ensures copy != null ==> forall i :: 0 <= i < copy.Length ==> copy[i] == if same then zero else slice[i]
    ensures copy == null || fresh(copy)
  {
    copy := null;
    if slice != null {
      copy := new T[slice.Length](i => zero);
      ghost var zeros := copy[..];
      var source := if same then copy else slice;
      for i := 0 to slice.Length
        invariant copy.Length == source.Length == slice.Length && fresh(copy)
        invariant copy[..i] == source[..i]
        invariant same ==> copy[..] == zeros
      {
        copy[i] := source[i];
      }
      assert copy[..] == copy[..slice.Length] == source[..];
      assert same ==> copy[..] == seq(slice.Length, i => zero);
    }
  }

  // ----- the structs -----

  datatype SelectorValue = SelectorValue(
    kinds: Option<seq<GVK>>, namespaceSelector: Option<map<string, string>>, labelSelector: Option<map<string, string>>)
  {
    /** What is left after a copy of the struct onto itself, if it is one. */
    function CopiedIf(same: bool): SelectorValue {
      SelectorValue(
        ZeroedSliceIf(same, kinds, ZERO_KIND), ZeroedIf(same, namespaceSelector, map[]),
        ZeroedIf(same, labelSelector, map[]))
    }
  }

  class ResourceSelector {
    var kinds: array?<GVK>
    var namespaceSelector: LabelSelector?
    var labelSelector: LabelSelector?

    constructor ()
      ensures kinds == null && namespaceSelector == null && labelSelector == null
    {
      kinds, namespaceSelector, labelSelector := null, null, null;
    }

    function Value(): SelectorValue
      reads this, kinds, namespaceSelector, labelSelector
    {
      SelectorValue(SliceOf(kinds), SelectorOf(namespaceSelector), SelectorOf(labelSelector))
    }

    method DeepCopyInto(out: ResourceSelector)
      modifies out
      ensures out.Value() == old(Value()).CopiedIf(out == this)
      ensures out.kinds == null || fresh(out.kinds)
      ensures out.namespaceSelector == null || fresh(out.namespaceSelector)
      ensures out.labelSelector == null || fresh(out.labelSelector)
    {
      var k := CopySlice(kinds, out == this, ZERO_KIND);
      var n := CopySelector(namespaceSelector, out == this);
      var l := CopySelector(labelSelector, out == this);
      out.kinds, out.namespaceSelector, out.labelSelector := k, n, l;
    }
  }

  datatype TtlValue = TtlValue(defaultTtl: Option<Duration>, annotation: string, expiresAtAnnotation: string) {
    function CopiedIf(same: bool): TtlValue {
      this.(defaultTtl := ZeroedIf(same, defaultTtl, 0))
    }
  }

  const ZERO_TTL := TtlValue(None, "", "")

  class TTLConfig {
    var defaultTtl: DurationCell?
    var annotation: string
    var expiresAtAnnotation: string

    constructor ()
      ensures defaultTtl == null && annotation == expiresAtAnnotation == ""
    {
      defaultTtl, annotation, expiresAtAnnotation := null, "", "";
    }

    function Value(): TtlValue
      reads this, defaultTtl
    {
      TtlValue(DurationOf(defaultTtl), annotation, expiresAtAnnotation)
    }

    method DeepCopyInto(out: TTLConfig)
      modifies out
      ensures out.Value() == old(Value()).CopiedIf(out == this)
      ensures out.annotation == old(annotation) && out.expiresAtAnnotation == old(expiresAtAnnotation)
      ensures out.defaultTtl == null || fresh(out.defaultTtl)
    {
      out.annotation, out.expiresAtAnnotation := annotation, expiresAtAnnotation;
      var d := CopyDuration(defaultTtl, out == this);
      out.defaultTtl := d;
    }
  }

  datatype ProtectionValue = ProtectionValue(
    labels: Option<map<string, string>>, annotationKey: string, namespaces: Option<seq<string>>)
  {
    function CopiedIf(same: bool): ProtectionValue {
      ProtectionValue(ZeroedIf(same, labels, map[]), annotationKey, ZeroedSliceIf(same, namespaces, ""))
    }
  }

  const ZERO_PROTECTION := ProtectionValue(None, "", None)

  class ProtectionConfig {
    var labels: StringMap?
    var annotationKey: string
    var namespaces: array?<string>

    constructor ()
      ensures labels == null && annotationKey == "" && namespaces == null
    {
      labels, annotationKey, namespaces := null, "", null;
    }

    function Value(): ProtectionValue
      reads this, labels, namespaces
    {
      ProtectionValue(EntriesOf(labels), annotationKey, SliceOf(namespaces))
    }

    method DeepCopyInto(out: ProtectionConfig)
      modifies out
      ensures out.Value() == old(Value()).CopiedIf(out == this)
      ensures out.annotationKey == old(annotationKey)
      ensures out.labels == null || fresh(out.labels)
      ensures out.namespaces == null || fresh(out.namespaces)
    {
      out.annotationKey := annotationKey;
      var l := CopyMap(labels, out == this);
      var n := CopySlice(namespaces, out == this, "");
      out.labels, out.namespaces := l, n;
    }
  }

  datatype OrphanValue = OrphanValue(enabled: bool, minAge: Option<Duration>, threshold: Option<real>) {
    function CopiedIf(same: bool): OrphanValue {
      OrphanValue(enabled, ZeroedIf(same, minAge, 0), ZeroedIf(same, threshold, 0.0))
    }
  }

  const ZERO_ORPHAN := OrphanValue(false, None, None)

  class OrphanConfig {
    var enabled: bool
    var minAge: DurationCell?
    var threshold: RealCell?

    constructor ()
      ensures !enabled && minAge == null && threshold == null
    {
      enabled, minAge, threshold := false, null, null;
    }

    function Value(): OrphanValue
      reads this, minAge, threshold
    {
      OrphanValue(enabled, DurationOf(minAge), RealOf(threshold))
    }

    method DeepCopyInto(out: OrphanConfig)
      modifies out
      ensures out.Value() == old(Value()).CopiedIf(out == this)
      ensures out.enabled == old(enabled)
      ensures out.minAge == null || fresh(out.minAge)
      ensures out.threshold == null || fresh(out.threshold)
    {
      out.enabled := enabled;
      var m := CopyDuration(minAge, out == this);
      var t := CopyReal(threshold, out == this);
      out.minAge, out.threshold := m, t;
    }
  }

  datatype PRNamespaceValue = PRNamespaceValue(
    enabled: bool, labelKey: string, stateAnnotation: string, closedTtl: Option<Duration>)
  {
    function CopiedIf(same: bool): PRNamespaceValue {
      this.(closedTtl := ZeroedIf(same, closedTtl, 0))
    }
  }

  const ZERO_PR_NAMESPACE := PRNamespaceValue(false, "", "", None)

  class PRNamespaceConfig {
    var enabled: bool
    var labelKey: string
    var stateAnnotation: string
    var closedTtl: DurationCell?

    constructor ()
      ensures !enabled && labelKey == stateAnnotation == "" && closedTtl == null
    {
      enabled, labelKey, stateAnnotation, closedTtl := false, "", "", null;
    }

    function Value(): PRNamespaceValue
      reads this, closedTtl
    {
      PRNamespaceValue(enabled, labelKey, stateAnnotation, DurationOf(closedTtl))
    }

    method DeepCopyInto(out: PRNamespaceConfig)
      modifies out
      ensures out.Value() == old(Value()).CopiedIf(out == this)
      ensures out.enabled == old(enabled) && out.labelKey == old(labelKey) && out.stateAnnotation == old(stateAnnotation)
      ensures out.closedTtl == null || fresh(out.closedTtl)
    {
      out.enabled, out.labelKey, out.stateAnnotation := enabled, labelKey, stateAnnotation;
      var c := CopyDuration(closedTtl, out == this);
      out.closedTtl := c;
    }
  }

  datatype ActionValue = ActionValue(mode: Mode, threshold: Option<real>) {
    function CopiedIf(same: bool): ActionValue {
      this.(threshold := ZeroedIf(same, threshold, 0.0))
    }
  }

  class ActionConfig {
    var mode: Mode
    var threshold: RealCell?

    constructor ()
      ensures threshold == null
    {
      mode, threshold := DryRunMode, null;
    }

    function Value(): ActionValue
      reads this, threshold
    {
      ActionValue(mode, RealOf(threshold))
    }

    method DeepCopyInto(out: ActionConfig)
      modifies out
      ensures out.Value() == old(Value()).CopiedIf(out == this)
      ensures out.mode == old(mode)
      ensures out.threshold == null || fresh(out.threshold)
    {
      out.mode := mode;
      var t := CopyReal(threshold, out == this);
      out.threshold := t;
    }

    /** Plain assignment of the struct: the pointer is shared. */
    method AssignTo(out: ActionConfig)
      modifies out
      ensures out.mode == old(mode) && out.threshold == old(threshold)
    {
      out.mode, out.threshold := mode, threshold;
    }
  }

  class ReportingConfig {
    var events: bool
    var annotations: bool

    constructor (events: bool, annotations: bool)
      ensures this.events == events && this.annotations == annotations
    {
      this.events, this.annotations := events, annotations;
    }
  }

  // ----- pointers to structs -----

  function TtlOf(c: TTLConfig?): Option<TtlValue>
    reads c, if c == null then null else c.defaultTtl
  {
    if c == null then None else Some(c.Value())
  }

  ghost predicate InTtl(c: TTLConfig?, o: object)
    reads c
  {
    c != null && (o == c || o == c.defaultTtl)
  }

  method CopyTtl(c: TTLConfig?, same: bool) returns (copy: TTLConfig?)
    ensures TtlOf(copy) == ZeroedIf(same, TtlOf(c), ZERO_TTL)
    ensures copy != null ==> fresh(copy)
    ensures copy != null ==> copy.defaultTtl == null || fresh(copy.defaultTtl)
  {
    copy := null;
    if c != null {
      copy := new TTLConfig();
      var source := if same then copy else c;
      source.DeepCopyInto(copy);
    }
  }

  function ProtectionOf(c: ProtectionConfig?): Option<ProtectionValue>
    reads c, if c == null then null else c.labels, if c == null then null else c.namespaces
  {
    if c == null then None else Some(c.Value())
  }

  ghost predicate InProtection(c: ProtectionConfig?, o: object)
    reads c
  {
    c != null && (o == c || o == c.labels || o == c.namespaces)
  }

  method CopyProtection(c: ProtectionConfig?, same: bool) returns (copy: ProtectionConfig?)
    ensures ProtectionOf(copy) == ZeroedIf(same, ProtectionOf(c), ZERO_PROTECTION)
    ensures copy != null ==> fresh(copy)
    ensures copy != null ==> copy.labels == null || fresh(copy.labels)
    ensures copy != null ==> copy.namespaces == null || fresh(copy.namespaces)
  {
    copy := null;
    if c != null {
      copy := new ProtectionConfig();
      var source := if same then copy else c;
      source.DeepCopyInto(copy);
    }
  }

  function OrphanOf(c: OrphanConfig?): Option<OrphanValue>
    reads c, if c == null then null else c.minAge, if c == null then null else c.threshold
  {
    if c == null then None else Some(c.Value())
  }

  ghost predicate InOrphan(c: OrphanConfig?, o: object)
    reads c
  {
    c != null && (o == c || o == c.minAge || o == c.threshold)
  }

  method CopyOrphan(c: OrphanConfig?, same: bool) returns (copy: OrphanConfig?)
    ensures OrphanOf(copy) == ZeroedIf(same, OrphanOf(c), ZERO_ORPHAN)
    ensures copy != null ==> fresh(copy)
    ensures copy != null ==> copy.minAge == null || fresh(copy.minAge)
    ensures copy != null ==> copy.threshold == null || fresh(copy.threshold)
  {
    copy := null;
    if c != null {
      copy := new OrphanConfig();
      var source := if same then copy else c;
      source.DeepCopyInto(copy);
    }
  }

  function PRNamespaceOf(c: PRNamespaceConfig?): Option<PRNamespaceValue>
    reads c, if c == null then null else c.closedTtl
  {
    if c == null then None else Some(c.Value())
  }

  ghost predicate InPRNamespace(c: PRNamespaceConfig?, o: object)
    reads c
  {
    c != null && (o == c || o == c.closedTtl)
  }

  method CopyPRNamespace(c: PRNamespaceConfig?, same: bool) returns (copy: PRNamespaceConfig?)
    ensures PRNamespaceOf(copy) == ZeroedIf(same, PRNamespaceOf(c), ZERO_PR_NAMESPACE)
    ensures copy != null ==> fresh(copy)
    ensures copy != null ==> copy.closedTtl == null || fresh(copy.closedTtl)
  {
    copy := null;
    if c != null {
      copy := new PRNamespaceConfig();
      var source := if same then copy else c;
      source.DeepCopyInto(copy);
    }
  }

  function ReportingOf(c: ReportingConfig?): Option<(bool, bool)>
    reads c
  {
    if c == null then None else Some((c.events, c.annotations))
  }

  method CopyReporting(c: ReportingConfig?, same: bool) returns (copy: ReportingConfig?)
    ensures ReportingOf(copy) == ZeroedIf(same, ReportingOf(c), (false, false)) && (copy == null || fresh(copy))
  {
    copy := null;
    if c != null {
      copy := new ReportingConfig(false, false);
      var source := if same then copy else c;
      copy.events, copy.annotations := source.events, source.annotations;
    }
  }

  // ----- the spec -----

  datatype PointersValue = PointersValue(
    ttl: Option<TtlValue>, protection: Option<ProtectionValue>, orphan: Option<OrphanValue>,
    prNamespace: Option<PRNamespaceValue>, reporting: Option<(bool, bool)>)
  {
    function CopiedIf(same: bool): PointersValue {
      PointersValue(
        ZeroedIf(same, ttl, ZERO_TTL), ZeroedIf(same, protection, ZERO_PROTECTION), ZeroedIf(same, orphan, ZERO_ORPHAN),
        ZeroedIf(same, prNamespace, ZERO_PR_NAMESPACE), ZeroedIf(same, reporting, (false, false)))
    }
  }

  class JanitorPolicySpec {
    const selector: ResourceSelector
    var ttl: TTLConfig?
    var protection: ProtectionConfig?
    var orphan: OrphanConfig?
    var prNamespace: PRNamespaceConfig?
    const action: ActionConfig
    var reporting: ReportingConfig?

    constructor ()
      ensures fresh(selector) && fresh(action)
      ensures action.threshold == null
    {
      selector := new ResourceSelector();
      action := new ActionConfig();
      ttl, protection, orphan, prNamespace, reporting := null, null, null, null, null;
    }

    ghost predicate PointsInto(o: object)
      reads this, ttl, protection, orphan, prNamespace
    {
      InTtl(ttl, o) || InProtection(protection, o) || InOrphan(orphan, o) || InPRNamespace(prNamespace, o) || o == reporting
    }

    ghost predicate EmbedsPointerTo(o: object)
      reads selector, action
    {
      o == selector.kinds || o == selector.namespaceSelector || o == selector.labelSelector || o == action.threshold
    }

    /** The object is reached from the spec through a pointer, slice or map. */
    ghost predicate Reaches(o: object)
      reads this, selector, action, ttl, protection, orphan, prNamespace
    {
      PointsInto(o) || EmbedsPointerTo(o)
    }

    function Pointers(): PointersValue
      reads this, ttl, protection, orphan, prNamespace, reporting
      reads if ttl == null then null else ttl.defaultTtl
      reads if protection == null then null else protection.labels
      reads if protection == null then null else protection.namespaces
      reads if orphan == null then null else orphan.minAge
      reads if orphan == null then null else orphan.threshold
      reads if prNamespace == null then null else prNamespace.closedTtl
    {
      PointersValue(
        TtlOf(ttl), ProtectionOf(protection), OrphanOf(orphan), PRNamespaceOf(prNamespace), ReportingOf(reporting))
    }

    method CopyTimes(same: bool) returns (t: TTLConfig?, r: OrphanConfig?, n: PRNamespaceConfig?)
      ensures TtlOf(t) == ZeroedIf(same, TtlOf(ttl), ZERO_TTL)
      ensures OrphanOf(r) == ZeroedIf(same, OrphanOf(orphan), ZERO_ORPHAN)
      ensures PRNamespaceOf(n) == ZeroedIf(same, PRNamespaceOf(prNamespace), ZERO_PR_NAMESPACE)
      ensures forall o :: InTtl(t, o) || InOrphan(r, o) || InPRNamespace(n, o) ==> fresh(o)
    {
      t := CopyTtl(ttl, same);
      r := CopyOrphan(orphan, same);
      n := CopyPRNamespace(prNamespace, same);
    }

    method CopyRest(same: bool) returns (p: ProtectionConfig?, g: ReportingConfig?)
      ensures ProtectionOf(p) == ZeroedIf(same, ProtectionOf(protection), ZERO_PROTECTION)
      ensures ReportingOf(g) == ZeroedIf(same, ReportingOf(reporting), (false, false))
      ensures (forall o :: InProtection(p, o) ==> fresh(o)) && (g == null || fresh(g))
    {
      p := CopyProtection(protection, same);
      g := CopyReporting(reporting, same);
    }

    method CopyConfigs(same: bool)
      returns (t: TTLConfig?, p: ProtectionConfig?, r: OrphanConfig?, n: PRNamespaceConfig?, g: ReportingConfig?)
      ensures PointersValue(TtlOf(t), ProtectionOf(p), OrphanOf(r), PRNamespaceOf(n), ReportingOf(g)) ==
        old(Pointers()).CopiedIf(same)
      ensures forall o :: InTtl(t, o) || InOrphan(r, o) || InPRNamespace(n, o) ==> fresh(o)
      ensures (forall o :: InProtection(p, o) ==> fresh(o)) && (g == null || fresh(g))
    {
      t, r, n := CopyTimes(same);
      p, g := CopyRest(same);
    }

    method Point(
        ttl: TTLConfig?, protection: ProtectionConfig?, orphan: OrphanConfig?, prNamespace: PRNamespaceConfig?,
        reporting: ReportingConfig?)
      modifies this
      ensures this.ttl == ttl && this.protection == protection && this.orphan == orphan
      ensures this.prNamespace == prNamespace && this.reporting == reporting
    {
      this.ttl, this.protection, this.orphan := ttl, protection, orphan;
      this.prNamespace, this.reporting := prNamespace, reporting;
    }

    /** The pointers to structs of their own. */
    method CopyPointersInto(out: JanitorPolicySpec)
      modifies out
      ensures out.Pointers() == old(Pointers()).CopiedIf(out == this)
      ensures forall o :: out.PointsInto(o) ==> fresh(o)
    {
      var t, p, r, n, g := CopyConfigs(out == this);
      out.Point(t, p, r, n, g);
    }

    /** The structs embedded by value. */
    method CopyEmbeddedInto(out: JanitorPolicySpec)
      requires (out == this <==> out.selector == selector) && (out == this <==> out.action == action)
      modifies out.selector, out.action
      ensures out.selector.Value() == old(selector.Value()).CopiedIf(out == this)
      ensures out.action.Value() == old(action.Value()) && out.action.threshold == old(action.threshold)
      ensures forall o :: out.EmbedsPointerTo(o) ==> fresh(o) || o == old(action.threshold)
    {
      selector.DeepCopyInto(out.selector);
      action.AssignTo(out.action);
    }

    /** Into another spec, the copy is equal, with nil and empty kept apart; onto itself, everything
        pointed to is lost but the action's threshold. All that the copy reaches is new, but for the
        cell of that threshold: the action is copied by plain assignment, which shares it. */
    method DeepCopyInto(out: JanitorPolicySpec)
      requires (out == this <==> out.selector == selector) && (out == this <==> out.action == action)
      modifies out, out.selector, out.action
      ensures out.Pointers() == old(Pointers()).CopiedIf(out == this)
      ensures out.selector.Value() == old(selector.Value()).CopiedIf(out == this)
      ensures out.action.Value() == old(action.Value())
      ensures forall o :: out.Reaches(o) ==> fresh(o) || o == old(action.threshold)
      ensures out.action.threshold == old(action.threshold)
    {
      CopyEmbeddedInto(out);
      CopyPointersInto(out);
    }

    twostate lemma OldAndNewReach(new out: JanitorPolicySpec)
      requires unchanged(this) && unchanged(selector) && unchanged(action)
      requires (ttl == null || unchanged(ttl)) && (protection == null || unchanged(protection))
      requires (orphan == null || unchanged(orphan)) && (prNamespace == null || unchanged(prNamespace))
      requires out.action.threshold == action.threshold
      requires forall o :: out.Reaches(o) ==> (fresh(o) <==> o != action.threshold)
      ensures action.threshold == null <==> forall o: object :: Reaches(o) ==> !out.Reaches(o)
    {
      assert forall o: object :: Reaches(o) ==> !fresh(o);
      assert action.threshold != null ==> Reaches(action.threshold) && out.Reaches(action.threshold);
    }

    method NewCopy() returns (out: JanitorPolicySpec)
      ensures fresh(out) && fresh(out.selector) && fresh(out.action)
      ensures out.Pointers() == old(Pointers())
      ensures out.selector.Value() == old(selector.Value()) && out.action.Value() == old(action.Value())
      ensures out.action.threshold == action.threshold
      ensures forall o :: out.Reaches(o) ==> (fresh(o) <==> o != action.threshold)
    {
      out := new JanitorPolicySpec();
      DeepCopyInto(out);
    }

    /** What the copy reaches is new, except exactly the cell that holds the action's threshold. So the
        two reach nothing in common if and only if the action sets none. */
    method DeepCopy() returns (out: JanitorPolicySpec)
      ensures fresh(out) && fresh(out.selector) && fresh(out.action)
      ensures out.Pointers() == old(Pointers())
      ensures out.selector.Value() == old(selector.Value()) && out.action.Value() == old(action.Value())
      ensures out.action.threshold == action.threshold
      ensures forall o :: out.Reaches(o) ==> (fresh(o) <==> o != action.threshold)
      ensures action.threshold == null <==> forall o: object :: Reaches(o) ==> !out.Reaches(o)
    {
      out := NewCopy();
      OldAndNewReach(out);
    }

    /** What is written in place to the parts of another spec leaves this one with its value, if the two
        reach nothing in common. */
    twostate lemma WritesToAnother(other: JanitorPolicySpec)
      requires other != this && other.selector != selector && other.action != action
      requires forall o: object | old(allocated(o)) :: old(Reaches(o)) ==> !old(other.Reaches(o))
      requires forall o: object | old(allocated(o)) ::
        old(other.Reaches(o)) || o in {other, other.selector, other.action} || Unwritten(o)
      ensures Pointers() == old(Pointers())
      ensures selector.Value() == old(selector.Value()) && action.Value() == old(action.Value())
    {
      forall o: object | old(allocated(o)) && (old(Reaches(o)) || o in {this as object, selector, action})
        ensures Unwritten(o)
      {
        assert !old(other.Reaches(o));
      }
      assert Unwritten(this) && Unwritten(selector) && Unwritten(action);
      assert Unwritten(selector.kinds) && Unwritten(selector.namespaceSelector) && Unwritten(selector.labelSelector);
      assert Unwritten(action.threshold) && Unwritten(reporting);
      assert ttl != null ==> Unwritten(ttl) && Unwritten(ttl.defaultTtl);
      assert protection != null ==>
        Unwritten(protection) && Unwritten(protection.labels) && Unwritten(protection.namespaces);
      assert orphan != null ==> Unwritten(orphan) && Unwritten(orphan.minAge) && Unwritten(orphan.threshold);
      assert prNamespace != null ==> Unwritten(prNamespace) && Unwritten(prNamespace.closedTtl);
    }
  }

  /** Some writes in place to a spec and to what it reaches. Callers know no more of it than that, so
      what they prove holds whatever is written there. */
  method Edit(spec: JanitorPolicySpec, duration: Duration, number: real, text: string)
    modifies spec, spec.selector, spec.action, set o: object | spec.Reaches(o)
  {
    spec.selector.labelSelector := null;
    if spec.action.threshold != null {
      spec.action.threshold.value := number;
    }
    if spec.ttl != null && spec.ttl.defaultTtl != null {
      spec.ttl.defaultTtl.value := duration;
    }
    if spec.protection != null {
      spec.protection.annotationKey := text;
      if spec.protection.labels != null {
        spec.protection.labels.entries := map[text := text];
      }
    }
    spec.reporting := null;
  }

  /** For every spec whose action sets no threshold: whatever is written in place to a copy and what it
      reaches, nothing that existed before the copy changes. */
  method EditCopy(original: JanitorPolicySpec, duration: Duration, number: real, text: string)
    returns (copy: JanitorPolicySpec)
    requires original.action.threshold == null
    ensures fresh(copy)
    ensures original.Pointers() == old(original.Pointers())
    ensures original.selector.Value() == old(original.selector.Value())
    ensures original.action.Value() == old(original.action.Value())
  {
    copy := original.DeepCopy();
    Edit(copy, duration, number, text);
  }

  /** And whatever is written in place to the original and what it reaches, the copy keeps its value. */
  method EditOriginal(original: JanitorPolicySpec, duration: Duration, number: real, text: string)
    returns (copy: JanitorPolicySpec)
    requires original.action.threshold == null
    modifies original, original.selector, original.action, set o: object | original.Reaches(o)
    ensures copy.Pointers() == old(original.Pointers())
    ensures copy.selector.Value() == old(original.selector.Value())
    ensures copy.action.Value() == old(original.action.Value())
  {
    copy := original.DeepCopy();
    label Copied:
    Edit(original, duration, number, text);
    copy.WritesToAnother@Copied(original);
  }

  /** For every spec whose action sets one: a write to the copy's threshold is a write to the original's. */
  method EditThresholdOfCopy(original: JanitorPolicySpec, number: real) returns (copy: JanitorPolicySpec)
    requires original.action.threshold != null
    modifies original.action.threshold
    ensures fresh(copy) && original.action.Value().threshold == copy.action.Value().threshold == Some(number)
  {
    copy := original.DeepCopy();
    copy.action.threshold.value := number;
  }

  /** The same on one concrete spec. */
  method ThresholdIsShared() returns (before: Option<real>, after: Option<real>)
    ensures before == Some(0.9) && after == Some(0.1)
  {
    var original := new JanitorPolicySpec();
    original.action.threshold := new RealCell(0.9);
    before := original.action.Value().threshold;
    var copy := EditThresholdOfCopy(original, 0.1);
    after := original.action.Value().threshold;
  }
}
