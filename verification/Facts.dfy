/** Facts about objects and policies in the words of their manifests: annotation texts, finalizers,
    numbers. They are independent of the functions by which the code is modelled, and the theorems say
    with them what those functions mean. */
module Facts {
  import opened Domain

  // ----- objects -----

  /** In a protected namespace, or itself a protected namespace. */
  predicate OnList(namespaces: set<string>, namespace: string, name: string) {
    namespace in namespaces || (namespace == "" && name in namespaces)
  }

  predicate Annotated(obj: Obj, key: string, text: string) {
    key in obj.annotations && obj.annotations[key] == text
  }

  ghost predicate HeldByOthers(obj: Obj) {
    exists f :: f in obj.finalizers && f != "janitor.io/cleanup"
  }

  predicate UnreadableTtl(obj: Obj, env: Env) {
    "janitor.io/ttl" in obj.annotations && env.parse.duration(obj.annotations["janitor.io/ttl"]) == None
  }

  /** Older than its TTL, unless that is the longest duration there is. */
  ghost predicate TtlPassed(obj: Obj, env: Env) {
    "janitor.io/ttl" in obj.annotations && exists ttl ::
      env.parse.duration(obj.annotations["janitor.io/ttl"]) == Some(ttl) && Outlived(ttl, obj.created, env.now)
  }

  predicate Outlived(ttl: int, created: Time, now: Time) {
    ttl != 0 && now - created > ttl && ttl < 0x7FFF_FFFF_FFFF_FFFF
  }

  predicate UnreadableDeadline(obj: Obj, env: Env) {
    && "janitor.io/expires-at" in obj.annotations && obj.annotations["janitor.io/expires-at"] != ""
    && env.parse.timestamp(obj.annotations["janitor.io/expires-at"]) == None
  }

  ghost predicate DeadlinePassed(obj: Obj, env: Env) {
    && "janitor.io/expires-at" in obj.annotations && obj.annotations["janitor.io/expires-at"] != ""
    && exists t :: env.parse.timestamp(obj.annotations["janitor.io/expires-at"]) == Some(t) && t <= env.now
  }

  // ----- policies -----

  predicate Says(annotations: map<string, string>, text: string) {
    "janitor.io/action" in annotations && annotations["janitor.io/action"] == text
  }

  /** No annotation, or one with a text that means nothing. */
  predicate SaysNothing(annotations: map<string, string>) {
    !Says(annotations, "skip") && !Says(annotations, "report") && !Says(annotations, "delete")
  }

  ghost predicate NamesKind(policy: Policy, kind: string) {
    exists k :: k in policy.kinds && k.kind == kind
  }

  /** The i-th policy is the first in the list that names the kind. */
  ghost predicate FirstMatch(policies: seq<Policy>, i: nat, kind: string) {
    i < |policies| && NamesKind(policies[i], kind) && forall j :: 0 <= j < i ==> !NamesKind(policies[j], kind)
  }

  /** The confidence meets the policy's own threshold, or the default where it sets none. */
  predicate Meets(policy: Policy, confidence: real, byDefault: real) {
    match policy.threshold
    case Some(t) => t <= confidence
    case None => byDefault <= confidence
  }
}
