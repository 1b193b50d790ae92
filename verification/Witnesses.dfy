/** Deletions that the documentation rules out, by the production controller on concrete objects. */
module Witnesses {
  import opened Domain
  import opened Facts
  import opened Resolvers
  import opened PolicyEngine
  import opened Production
  import opened Pipeline
  import opened Reconcilers
  import opened OneReconcile

  const REQ := Request(ConfigMapKind, "team", "settings")

  const SETTINGS := Obj(
    GVK("", "v1", "ConfigMap"), "team", "settings", "uid-1", 0, map[], map[], [], [], false, false)

  const MOUNTING_POD := Pod("team", "web-0", "uid-2", Running, [Volume("config", Some("settings"))], [], [])

  /** Nothing can be parsed or looked up; only the Pods of every namespace can be listed. */
  function Listing(pods: seq<Pod>): Env {
    Env(
      (i, gvk, namespace, name) => NotFound, namespace => Listed(pods), namespace => Listed([]),
      Parsers(text => None, text => None, text => None), 0)
  }

  function DeletePolicy(threshold: Option<real>): Policy {
    Policy("cleanup", [GVK("", "v1", "ConfigMap")], DeleteMode, threshold)
  }

  /** The object is unchanged, one policy is listed and the Delete is accepted. */
  function Given(pods: seq<Pod>, threshold: Option<real>): Answers {
    Answers(Ok(SETTINGS), Listing(pods), Listed([DeletePolicy(threshold)]), Ok(SETTINGS), Accepted)
  }

  lemma SettingsLeftToResolvers(pods: seq<Pod>)
    ensures LeftToResolvers({}, SETTINGS, Listing(pods))
  {
  }

  /** With no override, the one policy decides as soon as its threshold is met. */
  lemma PolicyDecides(finding: Finding, threshold: Option<real>)
    requires finding.ref == RefOf(SETTINGS) && finding.cls !in {Protected, Unknown, Blocked}
    requires Meets(DeletePolicy(threshold), finding.confidence, 0.9)
    ensures Authorised(false, SETTINGS.annotations, finding, KindFilter([DeletePolicy(threshold)], "ConfigMap"))
  {
    var policy := DeletePolicy(threshold);
    assert policy.kinds[0].kind == "ConfigMap";
    assert KindFilter([policy], "ConfigMap") == [policy] by {
      assert [policy][1..] == [];
    }
    assert FirstMatch([policy], 0, "ConfigMap") && AuthorisedByPolicy(finding, [policy]);
  }

  lemma SettingsIsDeleted(pods: seq<Pod>, threshold: Option<real>, view: View)
    requires Meets(
      DeletePolicy(threshold), if exists p :: p in pods && Names(p, "settings") then 0.9 else 0.6, 0.9)
    ensures
      var decided := DecisionFor(Manager({}, false), REQ, SETTINGS, Given(pods, threshold));
      && decided.Some?
      && decided.value.0.cls == (if exists p :: p in pods && Names(p, "settings") then Active else Abandoned)
      && decided.value.0.confidence ==
           (if exists p :: p in pods && Names(p, "settings") then 0.9 else 0.6)
    ensures Complete(Manager({}, false), Fetching(REQ), Given(pods, threshold), view).0.deletes ==
      view.deletes + [RequestKey(REQ)]
  {
    var (setup, a) := (Manager({}, false), Given(pods, threshold));
    SettingsLeftToResolvers(pods);
    ConfigMapLeftToResolvers({}, SETTINGS, a.env);
    RangeOfChain({}, PRODUCTION_RESOLVERS, SETTINGS, a.env);
    var (finding, decision) := DecisionFor(setup, REQ, SETTINGS, a).value;
    PolicyDecides(finding, threshold);
    LiveDeleteExactly(false, SETTINGS.annotations, finding, KindFilter([DeletePolicy(threshold)], "ConfigMap"));
    QuiescentReconcileExact({}, false, REQ, SETTINGS, a, view);
  }

  /** A ConfigMap that a running Pod mounts is deleted, by a policy without a threshold of its own. */
  lemma ActiveConfigMapIsDeleted(view: View)
    ensures DecisionFor(Manager({}, false), REQ, SETTINGS, Given([MOUNTING_POD], None)).Some?
    ensures DecisionFor(Manager({}, false), REQ, SETTINGS, Given([MOUNTING_POD], None)).value.0.cls == Active
    ensures Complete(Manager({}, false), Fetching(REQ), Given([MOUNTING_POD], None), view).0.deletes ==
      view.deletes + [RequestKey(REQ)]
  {
    assert MOUNTING_POD.volumes[0].configMap == Some("settings");
    assert MOUNTING_POD in [MOUNTING_POD] && Names(MOUNTING_POD, "settings");
    SettingsIsDeleted([MOUNTING_POD], None, view);
  }

  /** An Abandoned ConfigMap, of confidence 0.6, is deleted by a policy with a threshold of 0.6. */
  lemma DeletedBelowDefaultThreshold(view: View)
    ensures DecisionFor(Manager({}, false), REQ, SETTINGS, Given([], Some(0.6))).Some?
    ensures
      var finding := DecisionFor(Manager({}, false), REQ, SETTINGS, Given([], Some(0.6))).value.0;
      finding.cls == Abandoned && finding.confidence < 0.9
    ensures Complete(Manager({}, false), Fetching(REQ), Given([], Some(0.6)), view).0.deletes ==
      view.deletes + [RequestKey(REQ)]
  {
    SettingsIsDeleted([], Some(0.6), view);
  }
}
