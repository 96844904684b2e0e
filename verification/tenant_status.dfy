/** The persisted state of a Tenant and the rules that every reachable state of it satisfies. */
module TenantStates {
  import opened Base
  import opened Conditions
  import opened Clusters
  import opened Registries
  import opened Stages
  import opened TenantResources
  import opened TenantWebhook

  datatype TenantPhase = NoPhase | Pending | Provisioning | Active | Suspended | Terminating | Failed

  datatype TenantStatus = TenantStatus(
    phase: TenantPhase, conditions: seq<Condition>, observedGeneration: nat, namespace: string,
    environmentCount: nat, integrationCount: nat, lastReconcileTime: Option<int>)

  const EMPTY_STATUS := TenantStatus(NoPhase, [], 0, "", 0, 0, None)

  type Tenant = Resource<TenantSpec, TenantStatus>
  type History = seq<Moment<TenantSpec, TenantStatus>>

  /** Ready=True exactly in phase Active, which excludes Degraded and Progressing; one entry
      per condition type. */
  predicate PhaseAgrees(s: TenantStatus) {
    && Unique(s.conditions)
    && (Holds(s.conditions, READY, True) <==> s.phase == Active)
    && (s.phase == Active ==> Find(s.conditions, DEGRADED).None? && Holds(s.conditions, PROGRESSING, False))
  }

  /** A live Tenant reports Ready for its current generation. */
  predicate ClaimsReady(t: Tenant) {
    !t.deleting && Holds(t.status.conditions, READY, True) && t.status.observedGeneration == t.generation
  }

  /** A version names its one namespace or none, and is not ahead of its own generation. */
  predicate VersionFits(name: string, prefix: string, t: Tenant) {
    && PhaseAgrees(t.status) && t.spec.namespacePrefix == prefix
    && t.status.namespace in {"", NamespaceName(name, prefix)}
    && t.status.observedGeneration <= t.generation
  }

  /** What is owed when the Tenant is released. */
  predicate NamespaceReclaimed(name: string, prefix: string, t: Tenant, objects: Objects) {
    t.spec.deletionPolicy != Orphan && t.status.namespace != "" ==>
      Reclaimed(objects, NamespaceKey(NamespaceName(name, prefix)))
  }

  /** Ready means converged: a live Tenant that reports Ready for its current generation has the
      five objects that its spec asks for. Ready changes its transition time exactly on a
      status flip, and the Tenant is released only over a reclaimed namespace. */
  ghost function TenantRules(name: string, prefix: string): Rules<TenantSpec, TenantStatus> {
    Rules(
      Managed(name, prefix),
      (t: Tenant) => VersionFits(name, prefix, t),
      (s: TenantStatus) => s.observedGeneration,
      (a: TenantStatus, b: TenantStatus, start: int, finish: int) =>
        ReadyHonest(a.conditions, b.conditions, start, finish),
      (t: Tenant, o: Objects) => ClaimsReady(t) ==> Matches(o, name, t.spec),
      (t: Tenant, o: Objects) => NamespaceReclaimed(name, prefix, t, o),
      (before: Objects, after: Objects) => true,
      (t: Tenant, time: int) => false)
  }

  function Managed(name: string, prefix: string): Key -> bool {
    (key: Key) => Owns(NamespaceName(name, prefix), key)
  }

  lemma RulesAreLawful(name: string, prefix: string, identity: TenantSpec -> string)
    requires forall s: TenantSpec :: identity(s) == s.namespacePrefix
    ensures TenantRules(name, prefix).Lawful(identity)
  {
    hide PhaseAgrees, Matches, Holds, NamespaceName, ReadyHonest;
    var rules := TenantRules(name, prefix);
    assert forall s: TenantStatus, start, finish :: rules.link(s, s, start, finish) by {
      forall s: TenantStatus, start, finish ensures ReadyHonest(s.conditions, s.conditions, start, finish) {
        HonestToItself(s.conditions, start, finish);
      }
    }
    forall t: Tenant, o | t.deleting ensures rules.claim(t, o) {
      assert !ClaimsReady(t);
    }
    forall a: Tenant, b: Tenant | rules.fits(a) && Edited(identity, a, b) ensures rules.fits(b) {
      assert identity(a.spec) == identity(b.spec);
    }
    forall a: Tenant, b: Tenant, o | rules.fits(a) && rules.claim(a, o) && Edited(identity, a, b)
      ensures rules.claim(b, o)
    {
      if ClaimsReady(b) {
        assert a.generation == b.generation && ClaimsReady(a);
      }
    }
    forall t: Tenant, o, key, slot | !rules.managed(key) && rules.fits(t) && rules.closed(t, o)
      ensures rules.closed(t, Place(o, key, slot))
    {
      assert key != NamespaceKey(NamespaceName(name, prefix));
    }
    forall t: Tenant, o, key, slot | !rules.managed(key) && rules.fits(t) && rules.claim(t, o)
      ensures rules.claim(t, Place(o, key, slot))
    {
      if ClaimsReady(t) {
        MatchesKept(o, Place(o, key, slot), name, t.spec);
      }
    }
  }

  /** A new Tenant. */
  lemma StartsWell(name: string, prefix: string, t: Tenant, o: Objects)
    requires t.spec.namespacePrefix == prefix && t.status == EMPTY_STATUS
    ensures var rules := TenantRules(name, prefix);
            && rules.fits(t) && rules.claim(t, o) && rules.observed(t.status) == 0
            && forall key :: Managed(name, prefix)(key) == rules.managed(key)
  {
    hide Matches;
    assert !ClaimsReady(t);
  }

  lemma HonestToItself(list: seq<Condition>, start: int, finish: int)
    ensures ReadyHonest(list, list, start, finish)
  {
  }

  // ---- The children of a Tenant ----

  function CountOf(children: map<string, string>, tenant: string): nat {
    |set k | k in children && children[k] == tenant|
  }

  /** The children after one of them is put under a key with a reference, or dropped. */
  function Changed(children: map<string, string>, key: string, ref: Option<string>): map<string, string> {
    if ref.Some? then children[key := ref.value] else children - {key}
  }

  /** The tenants whose count a change may move: those named before and after it. */
  predicate Concerns(children: map<string, string>, key: string, ref: Option<string>, tenant: string) {
    ref == Some(tenant) || (key in children && children[key] == tenant)
  }

  /** A change that names the tenant neither before nor after it leaves the tenant's count alone. */
  lemma OthersKeepCount(children: map<string, string>, key: string, ref: Option<string>, tenant: string)
    requires ref != Some(tenant) && (key in children ==> children[key] != tenant)
    ensures var after := if ref.Some? then children[key := ref.value] else children - {key};
            && after == Changed(children, key, ref) && CountOf(after, tenant) == CountOf(children, tenant)
            && CountOf(children, tenant) == |set k | k in children && children[k] == tenant|
  {
    var after := Changed(children, key, ref);
    assert (set k | k in children && children[k] == tenant) == (set k | k in after && after[k] == tenant);
  }

  lemma CountMeans(children: map<string, string>, tenant: string)
    ensures CountOf(children, tenant) == |set k | k in children && children[k] == tenant|
  {
  }

  // ---- One pass ----

  /** What a pass may persist over version v: Ready was written once, at a time of the pass. */
  lemma DraftFits(name: string, prefix: string, v: Tenant, before: seq<Condition>, status: TenantStatus,
                  ready: Condition, at: int, start: int, finish: int)
    requires VersionFits(name, prefix, v) && start <= at <= finish && ready.kind == READY
    requires Find(before, READY) == Find(v.status.conditions, READY)
    requires Find(status.conditions, READY) == Some(Merged(Find(before, READY), ready, at))
    requires Unique(status.conditions) && status.observedGeneration <= v.generation
    requires status.namespace in {"", NamespaceName(name, prefix)}
    requires ready.status == True <==> status.phase == Active
    requires status.phase == Active ==> Find(status.conditions, DEGRADED).None? &&
                                        Holds(status.conditions, PROGRESSING, False)
    ensures VersionFits(name, prefix, v.(status := status))
    ensures ReadyHonest(v.status.conditions, status.conditions, start, finish)
  {
  }

  /** Provisioning keeps a standing claim: it is about the spec that the pass works from. */
  lemma ClaimKept(name: string, prefix: string, t: Tenant, spec: TenantSpec, k: nat, before: Objects, after: Objects,
                  ok: bool, failed: bool)
    requires k < STEPS && (t.status.observedGeneration == t.generation ==> t.spec == spec)
    requires var key := StepKey(k, name, spec);
             Stepped(before, after, key, Desired(k, Slot(before, key), name, spec), ok, failed)
    ensures TenantRules(name, prefix).claim(t, before) ==> TenantRules(name, prefix).claim(t, after)
  {
    hide Desired, StepKey, Matches, Holds;
    if ClaimsReady(t) && Matches(before, name, t.spec) && after != before {
      StepKeepsMatches(before, name, spec, k);
    }
  }

  // ---- Whole runs ----

  /** The claim, said of a moment of a run. */
  lemma ReadyMeansConverged(name: string, prefix: string, history: History, i: nat)
    requires Faithful(TenantRules(name, prefix), history) && i < |history|
    requires !history[i].gone && !history[i].resource.deleting
    requires Holds(history[i].resource.status.conditions, "Ready", True)
    requires history[i].resource.status.observedGeneration == history[i].resource.generation
    ensures Matches(history[i].objects, name, history[i].resource.spec)
  {
    hide Matches, VersionFits;
    assert Good(TenantRules(name, prefix), history[i]);
  }

  /** All moments of a run speak of one namespace; and once the controller has released the
      Tenant, exactly that namespace is gone or going, unless it was to be orphaned or the
      status never named it. */
  lemma OneNamespace(name: string, prefix: string, history: History, i: nat)
    requires Faithful(TenantRules(name, prefix), history) && i < |history|
    ensures var m, ns := history[i], (if prefix == "" then "tenant" else prefix) + "-" + name;
            && m.resource.spec.namespacePrefix == prefix && m.resource.status.namespace in {"", ns}
            && (m.released && m.resource.spec.deletionPolicy != Orphan && m.resource.status.namespace != "" ==>
                  Reclaimed(m.objects, Key(Namespace, "", ns)))
  {
    hide Matches, PhaseAgrees;
    assert Good(TenantRules(name, prefix), history[i]);
  }

  /** Phase and conditions agree in every persisted status of a run: Ready=True iff Active, and
      then no Degraded and Progressing=False; one entry per condition type. */
  lemma PhasesAgree(name: string, prefix: string, history: History, i: nat)
    requires Faithful(TenantRules(name, prefix), history) && i < |history|
    ensures var s := history[i].resource.status;
            && (Holds(s.conditions, "Ready", True) <==> s.phase == Active)
            && (s.phase == Active ==> Find(s.conditions, "Degraded").None? && Holds(s.conditions, "Progressing", False))
            && forall j, k | 0 <= j < k < |s.conditions| :: s.conditions[j].kind != s.conditions[k].kind
  {
    hide Matches, Find;
    assert Good(TenantRules(name, prefix), history[i]);
  }

  /** Readiness is dated honestly: over any stretch of a run in which it does not change, lost
      writes included, its transition time stays the same. */
  lemma ReadySince(name: string, prefix: string, history: History, i: nat, j: nat, s: ConditionStatus)
    requires Faithful(TenantRules(name, prefix), history) && i <= j < |history|
    requires forall k | i <= k <= j :: Conditions.Holds(history[k].resource.status.conditions, READY, s)
    ensures var first := Find(history[i].resource.status.conditions, READY);
            var last := Find(history[j].resource.status.conditions, READY);
            first.Some? && last.Some? && first.value.lastTransition == last.value.lastTransition
  {
    hide ReadyHonest, Find, Conditions.Holds, PhaseAgrees;
    ReadyTimeStays(TenantRules(name, prefix), (s: TenantStatus) => s.conditions, history, i, j, s);
  }

  /** A new transition time comes with a flip, and is a time of the pass that wrote it. */
  lemma ReadyFlipsInPass(name: string, prefix: string, history: History, i: nat)
    requires Faithful(TenantRules(name, prefix), history) && 0 < i < |history|
    ensures var before := Find(history[i - 1].resource.status.conditions, READY);
            var after := Find(history[i].resource.status.conditions, READY);
            after.Some? ==>
              if before.Some? && before.value.status == after.value.status
              then after.value.lastTransition == before.value.lastTransition
              else history[i].started <= after.value.lastTransition <= history[i].time
  {
    hide ReadyHonest, Find, PhaseAgrees, Matches;
    ReadyFlips(TenantRules(name, prefix), (s: TenantStatus) => s.conditions, history, i);
  }

  /** The Tenant controller never requests the deletion of a Tenant. */
  lemma NeverDeletes(name: string, prefix: string, history: History, i: nat)
    requires Faithful(TenantRules(name, prefix), history) && 0 < i < |history| && !history[i].outside
    ensures history[i].resource.deleting ==> history[i - 1].resource.deleting
  {
    if history[i].resource.deleting && !history[i - 1].resource.deleting {
      DeletionWasDue(TenantRules(name, prefix), history, i);
    }
  }
}
