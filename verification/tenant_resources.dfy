/** The five ordered provisioning steps of reconcileTenant, as a function on the cluster, and
    what they guarantee when passes are repeated, cut off or interleaved with suspension. */
module TenantResources {
  import opened Base
  import opened Labels
  import opened Clusters
  import opened Namespaces
  import opened Quotas
  import opened NetworkPolicies
  import opened Rbac
  import opened Convergence

  datatype DeletionPolicy = DeleteNamespace | Orphan | UnsetPolicy

  datatype Limits = Limits(default: ResourceList, defaultRequest: ResourceList, max: ResourceList)

  datatype TenantSpec = TenantSpec(
    tier: string, namespacePrefix: string, quota: Option<ResourceList>, limits: Option<Limits>,
    isolation: Isolation, admins: seq<SubjectReference>, extraLabels: Labels, suspended: bool,
    deletionPolicy: DeletionPolicy)

  const DEFAULT_PREFIX := "tenant"
  const STEPS := 5

  function NamespaceName(tenant: string, prefix: string): string {
    (if prefix == "" then DEFAULT_PREFIX else prefix) + "-" + tenant
  }

  function Hard(spec: TenantSpec): ResourceList {
    if spec.quota.Some? then spec.quota.value else map[]
  }

  function LimitsOf(spec: TenantSpec): Limits {
    if spec.limits.Some? then spec.limits.value else Limits(map[], map[], map[])
  }

  function Component(k: nat): string {
    ["namespace", "quota", "limits", "networkpolicy", "rbac"][if k < STEPS then k else 0]
  }

  /** The object that step k converges, in the tenant namespace `ns`. */
  function TenantKey(k: nat, ns: string): Key {
    match k
    case 0 => NamespaceKey(ns)
    case 1 => QuotaKey(ns)
    case 2 => LimitsKey(ns)
    case 3 => PolicyKey(ns)
    case _ => BindingKey(ns)
  }

  function StepKey(k: nat, tenant: string, spec: TenantSpec): Key {
    TenantKey(k, NamespaceName(tenant, spec.namespacePrefix))
  }

  /** The five objects of a tenant. */
  predicate Owns(ns: string, key: Key) {
    match key.kind
    case Namespace => key == Key(Namespace, "", ns)
    case ResourceQuota => key == Key(ResourceQuota, ns, "upo-tenant-quota")
    case LimitRange => key == Key(LimitRange, ns, "upo-tenant-limits")
    case NetworkPolicy => key == Key(NetworkPolicy, ns, "upo-tenant-default")
    case RoleBinding => key == Key(RoleBinding, ns, "upo-tenant-admins")
    case _ => false
  }

  /** The tenant's objects are the same, whatever has become of all others. */
  ghost predicate SameOwned(ns: string, a: Objects, b: Objects) {
    forall key | Owns(ns, key) :: Slot(a, key) == Slot(b, key)
  }

  /** What step k makes of its object. */
  function Desired(k: nat, slot: Option<Child>, tenant: string, spec: TenantSpec): Result<Option<Child>> {
    var labels := TenantLabels(tenant, Component(k), spec.extraLabels);
    match k
    case 0 => DesiredNamespace(slot, labels, Some(tenant))
    case 1 => DesiredQuota(slot, Hard(spec), spec.suspended, labels, Some(tenant))
    case 2 => var l := LimitsOf(spec); DesiredLimits(slot, l.default, l.defaultRequest, l.max, labels, Some(tenant))
    case 3 => DesiredPolicy(slot, spec.isolation, labels, tenant)
    case _ => DesiredBinding(slot, spec.admins, labels, tenant)
  }

  /** The provisioning pass for one spec. */
  function TenantPlan(tenant: string, spec: TenantSpec): (p: Plan)
    ensures |p.keys| == STEPS
    ensures forall k: nat | k < STEPS :: p.keys[k] == StepKey(k, tenant, spec)
  {
    Plan(seq(STEPS, k requires 0 <= k => StepKey(k, tenant, spec)), (k: nat, slot) => Desired(k, slot, tenant, spec))
  }

  // ---- What a tenant's spec asks for, told without reference to how it is reached ----

  /** The five objects of a tenant, by kind, namespace and name. */
  function ObjectKey(k: nat, tenant: string, spec: TenantSpec): Key {
    var ns := (if spec.namespacePrefix == "" then "tenant" else spec.namespacePrefix) + "-" + tenant;
    match k
    case 0 => Key(Namespace, "", ns)
    case 1 => Key(ResourceQuota, ns, "upo-tenant-quota")
    case 2 => Key(LimitRange, ns, "upo-tenant-limits")
    case 3 => Key(NetworkPolicy, ns, "upo-tenant-default")
    case _ => Key(RoleBinding, ns, "upo-tenant-admins")
  }

  /** Each step works on the object that is meant. */
  lemma StepReachesObject(k: nat, tenant: string, spec: TenantSpec)
    requires k < STEPS
    ensures StepKey(k, tenant, spec) == ObjectKey(k, tenant, spec)
  {
  }

  predicate Owned(child: Child, component: string, tenant: string, spec: TenantSpec) {
    child.controller == Some(tenant) && Labelled(child.labels, tenant, component, spec.extraLabels)
  }

  /** The quota has exactly the limits of the spec, but for the pods of a suspended tenant. */
  predicate Enforces(hard: ResourceList, quota: Option<ResourceList>, suspended: bool) {
    && (suspended ==> "pods" in hard && hard["pods"] == 0)
    && (quota.Some? ==>
          forall r | r in quota.value && !(suspended && r == "pods") :: r in hard && hard[r] == quota.value[r])
    && (forall r | r in hard :: (suspended && r == "pods") || (quota.Some? && r in quota.value))
  }

  predicate Unlimited(limits: Option<Limits>) {
    limits.None? || limits.value == Limits(map[], map[], map[])
  }

  predicate Declares(field: Option<ResourceList>, rl: ResourceList) {
    if rl == map[] then field.None? else field == Some(rl)
  }

  ghost predicate Posture(policy: Body, isolation: Isolation) {
    && policy.PolicyBody?
    && policy.podSelector == map[] && Ingress in policy.policyTypes && Egress in policy.policyTypes
    && (isolation == Strict ==> forall t :: !Admits(policy, t))
    && (isolation == Baseline ==>
          forall t :: Admits(policy, t) <==> t.sameNamespace || (t.direction == Egress && t.port.number == 53))
  }

  ghost predicate SlotMatches(k: nat, slot: Option<Child>, tenant: string, spec: TenantSpec) {
    match k
    case 0 => slot.Some? && Owned(slot.value, "namespace", tenant, spec)
    case 1 =>
      if spec.quota in {None, Some(map[])} && !spec.suspended then slot.None?
      else slot.Some? && Owned(slot.value, "quota", tenant, spec) && slot.value.body.QuotaBody?
           && Enforces(slot.value.body.hard, spec.quota, spec.suspended)
    case 2 =>
      if Unlimited(spec.limits) then slot.None?
      else slot.Some? && Owned(slot.value, "limits", tenant, spec) && slot.value.body.LimitsBody?
           && |slot.value.body.items| == 1
           && Declares(slot.value.body.items[0].default, spec.limits.value.default)
           && Declares(slot.value.body.items[0].defaultRequest, spec.limits.value.defaultRequest)
           && Declares(slot.value.body.items[0].max, spec.limits.value.max)
    case 3 =>
      if spec.isolation == Open then slot.None?
      else slot.Some? && Owned(slot.value, "networkpolicy", tenant, spec) && Posture(slot.value.body, spec.isolation)
    case _ =>
      if spec.admins == [] then slot.None?
      else slot.Some? && Owned(slot.value, "rbac", tenant, spec) && slot.value.body.BindingBody?
           && slot.value.body.roleRef == RoleRef("rbac.authorization.k8s.io", "ClusterRole", "admin")
           && |slot.value.body.subjects| == |spec.admins|
           && forall i | 0 <= i < |spec.admins| :: Grants(slot.value.body.subjects[i], spec.admins[i])
  }

  /** The cluster is exactly what the spec asks for, with labels a superset. */
  ghost predicate Matches(objects: Objects, tenant: string, spec: TenantSpec) {
    forall k: nat | k < 5 :: SlotMatches(k, Slot(objects, ObjectKey(k, tenant, spec)), tenant, spec)
  }

  // ---- One step ----

  lemma NamespaceFacts(slot: Option<Child>, labels: Labels, owner: string)
    requires DesiredNamespace(slot, labels, Some(owner)).Ok?
    ensures var child := DesiredNamespace(slot, labels, Some(owner)).value;
            && child.Some? && child.value.controller == Some(owner) && Carries(child.value.labels, labels)
            && DesiredNamespace(child, labels, Some(owner)) == Ok(child)
  {
    var have := if slot.Some? then slot.value.labels else map[];
    assert (have + labels) + labels == have + labels;
  }

  /** Whatever was in the slot, a step that goes through leaves what the spec asks for. */
  lemma DesiredMatches(k: nat, slot: Option<Child>, tenant: string, spec: TenantSpec)
    requires k < STEPS && Desired(k, slot, tenant, spec).Ok?
    ensures SlotMatches(k, Desired(k, slot, tenant, spec).value, tenant, spec)
  {
    hide Overwrite, TenantLabels, Labelled, Carries;
    var labels := TenantLabels(tenant, Component(k), spec.extraLabels);
    var made := Desired(k, slot, tenant, spec).value;
    if made.Some? {
      CarriesMeans(made.value.labels, tenant, Component(k), spec.extraLabels);
    }
    if k == 0 {
      NamespaceFacts(slot, labels, tenant);
    } else if k == 1 {
      QuotaMatches(slot, labels, tenant, spec);
    } else if k == 2 {
      LimitsMatch(slot, labels, tenant, spec);
    } else if k == 3 {
      if spec.isolation != Open {
        var body := PostureBody(slot, spec.isolation);
        OverwriteFacts(slot, labels, body, body, Some(tenant));
        assert body.policyTypes[0] == Ingress && body.policyTypes[1] == Egress;
        forall t { PostureMeaning(slot, t); }
      }
    } else if spec.admins != [] {
      var body := BindingBody(ADMIN_ROLE, ToSubjects(spec.admins));
      OverwriteFacts(slot, labels, body, body, Some(tenant));
    }
  }

  lemma PinnedEnforces(spec: TenantSpec)
    ensures Enforces(if spec.suspended then Hard(spec)[PODS := 0] else Hard(spec), spec.quota, spec.suspended)
    ensures |Hard(spec)| == 0 <==> spec.quota in {None, Some(map[])}
  {
    assert |Hard(spec)| == 0 <==> Hard(spec) == map[];
  }

  lemma QuotaMatches(slot: Option<Child>, labels: Labels, tenant: string, spec: TenantSpec)
    requires labels == TenantLabels(tenant, Component(1), spec.extraLabels)
    requires DesiredQuota(slot, Hard(spec), spec.suspended, labels, Some(tenant)).Ok?
    ensures SlotMatches(1, DesiredQuota(slot, Hard(spec), spec.suspended, labels, Some(tenant)).value, tenant, spec)
  {
    hide Overwrite, Enforces, TenantLabels, Hard, Labelled, Carries;
    PinnedEnforces(spec);
    var made := DesiredQuota(slot, Hard(spec), spec.suspended, labels, Some(tenant)).value;
    if |Hard(spec)| != 0 || spec.suspended {
      var body := QuotaBody(if spec.suspended then Hard(spec)[PODS := 0] else Hard(spec));
      OverwriteFacts(slot, labels, body, body, Some(tenant));
      CarriesMeans(made.value.labels, tenant, "quota", spec.extraLabels);
    }
  }

  lemma LimitsMatch(slot: Option<Child>, labels: Labels, tenant: string, spec: TenantSpec)
    requires labels == TenantLabels(tenant, Component(2), spec.extraLabels)
    requires var l := LimitsOf(spec); DesiredLimits(slot, l.default, l.defaultRequest, l.max, labels, Some(tenant)).Ok?
    ensures var l := LimitsOf(spec);
            SlotMatches(2, DesiredLimits(slot, l.default, l.defaultRequest, l.max, labels, Some(tenant)).value,
                        tenant, spec)
  {
    hide Overwrite, TenantLabels, Labelled, Carries;
    var l := LimitsOf(spec);
    assert |l.default| == 0 <==> l.default == map[];
    assert |l.defaultRequest| == 0 <==> l.defaultRequest == map[];
    assert |l.max| == 0 <==> l.max == map[];
    var made := DesiredLimits(slot, l.default, l.defaultRequest, l.max, labels, Some(tenant)).value;
    if l != Limits(map[], map[], map[]) {
      var body := LimitsBody([ContainerLimits(NonEmpty(l.default), NonEmpty(l.defaultRequest), NonEmpty(l.max))]);
      OverwriteFacts(slot, labels, body, body, Some(tenant));
      CarriesMeans(made.value.labels, tenant, "limits", spec.extraLabels);
    }
  }

  /** A step leaves alone what is not its own: labels under other keys, a deletion under way, and
      all of the namespace but labels and owner. */
  lemma StepKeepsTheRest(k: nat, slot: Option<Child>, tenant: string, spec: TenantSpec, foreign: string)
    requires k < STEPS && slot.Some? && Desired(k, slot, tenant, spec).Ok? && Desired(k, slot, tenant, spec).value.Some?
    ensures var have, made := slot.value, Desired(k, slot, tenant, spec).value.value;
            && made.terminating == have.terminating && (k == 0 ==> made.body == have.body)
            && (foreign in have.labels && foreign !in spec.extraLabels &&
                foreign !in {"app.kubernetes.io/managed-by", "app.kubernetes.io/part-of", "platform.upo.io/tenant",
                             "platform.upo.io/component"} ==>
                  Has(made.labels, foreign, have.labels[foreign]))
  {
    hide TenantLabels, Hard, LimitsOf, NonEmpty, ToSubjects, PostureBody, Overwrite, Component;
    var labels := TenantLabels(tenant, Component(k), spec.extraLabels);
    assert Component(k) != "" by { ComponentsNamed(k); }
    LabelKeys(tenant, Component(k), spec.extraLabels);
    var l := LimitsOf(spec);
    var hard := if spec.suspended then Hard(spec)[PODS := 0] else Hard(spec);
    var item := ContainerLimits(NonEmpty(l.default), NonEmpty(l.defaultRequest), NonEmpty(l.max));
    OverwriteKeeps(slot, labels, QuotaBody(hard), Some(tenant), foreign);
    OverwriteKeeps(slot, labels, LimitsBody([item]), Some(tenant), foreign);
    OverwriteKeeps(slot, labels, PostureBody(slot, spec.isolation), Some(tenant), foreign);
    OverwriteKeeps(slot, labels, BindingBody(ADMIN_ROLE, ToSubjects(spec.admins)), Some(tenant), foreign);
  }

  lemma ComponentsNamed(k: nat)
    ensures Component(k) != ""
  {
  }

  /** A step run on its own result changes nothing. */
  lemma DesiredAbsorbs(k: nat, slot: Option<Child>, tenant: string, spec: TenantSpec)
    requires k < STEPS && Desired(k, slot, tenant, spec).Ok?
    ensures Desired(k, Desired(k, slot, tenant, spec).value, tenant, spec) == Desired(k, slot, tenant, spec)
  {
    var labels := TenantLabels(tenant, Component(k), spec.extraLabels);
    match k
    case 0 => NamespaceFacts(slot, labels, tenant);
    case 1 => QuotaAbsorbs(slot, Hard(spec), spec.suspended, labels, tenant);
    case 2 => LimitsAbsorb(slot, LimitsOf(spec), labels, tenant);
    case 3 => PolicyAbsorbs(slot, spec.isolation, labels, tenant);
    case _ => BindingAbsorbs(slot, spec.admins, labels, tenant);
  }

  lemma QuotaAbsorbs(slot: Option<Child>, hard: ResourceList, suspended: bool, labels: Labels, owner: string)
    requires DesiredQuota(slot, hard, suspended, labels, Some(owner)).Ok?
    ensures var made := DesiredQuota(slot, hard, suspended, labels, Some(owner));
            DesiredQuota(made.value, hard, suspended, labels, Some(owner)) == made
  {
    if |hard| != 0 || suspended {
      var body := QuotaBody(if suspended then hard[PODS := 0] else hard);
      OverwriteFacts(slot, labels, body, body, Some(owner));
    }
  }

  lemma LimitsAbsorb(slot: Option<Child>, l: Limits, labels: Labels, owner: string)
    requires DesiredLimits(slot, l.default, l.defaultRequest, l.max, labels, Some(owner)).Ok?
    ensures var made := DesiredLimits(slot, l.default, l.defaultRequest, l.max, labels, Some(owner));
            DesiredLimits(made.value, l.default, l.defaultRequest, l.max, labels, Some(owner)) == made
  {
    if |l.default| != 0 || |l.defaultRequest| != 0 || |l.max| != 0 {
      var body := LimitsBody([ContainerLimits(NonEmpty(l.default), NonEmpty(l.defaultRequest), NonEmpty(l.max))]);
      OverwriteFacts(slot, labels, body, body, Some(owner));
    }
  }

  lemma PolicyAbsorbs(slot: Option<Child>, isolation: Isolation, labels: Labels, owner: string)
    requires DesiredPolicy(slot, isolation, labels, owner).Ok?
    ensures var made := DesiredPolicy(slot, isolation, labels, owner);
            DesiredPolicy(made.value, isolation, labels, owner) == made
  {
    if isolation != Open {
      var body := PostureBody(slot, isolation);
      OverwriteFacts(slot, labels, body, body, Some(owner));
    }
  }

  lemma BindingAbsorbs(slot: Option<Child>, admins: seq<SubjectReference>, labels: Labels, owner: string)
    requires DesiredBinding(slot, admins, labels, owner).Ok?
    ensures var made := DesiredBinding(slot, admins, labels, owner);
            DesiredBinding(made.value, admins, labels, owner) == made
  {
    if admins != [] {
      var body := BindingBody(ADMIN_ROLE, ToSubjects(admins));
      OverwriteFacts(slot, labels, body, body, Some(owner));
    }
  }

  lemma PlanIsSound(tenant: string, spec: TenantSpec)
    ensures TenantPlan(tenant, spec).Separate() && TenantPlan(tenant, spec).Absorbing()
  {
    var plan := TenantPlan(tenant, spec);
    forall i, j | 0 <= i < j < |plan.keys| ensures plan.keys[i] != plan.keys[j] {
      assert plan.keys[i] == StepKey(i, tenant, spec) && plan.keys[j] == StepKey(j, tenant, spec);
    }
    forall k: nat, slot | k < |plan.keys| && plan.want(k, slot).Ok?
      ensures plan.want(k, plan.want(k, slot).value) == plan.want(k, slot)
    {
      DesiredAbsorbs(k, slot, tenant, spec);
    }
  }

  // ---- Whole passes ----

  /** The cluster after the first n steps of a pass. */
  function Provision(objects: Objects, tenant: string, spec: TenantSpec, n: nat): Objects
    requires n <= STEPS
  {
    Run(objects, TenantPlan(tenant, spec), n)
  }

  /** A pass of this spec can complete: the API server accepts each of its steps. */
  predicate Completable(objects: Objects, tenant: string, spec: TenantSpec) {
    Feasible(objects, TenantPlan(tenant, spec), STEPS)
  }

  // ---- When a pass can complete, as one can see before it starts ----

  /** The spec asks for the k-th object, rather than for none. */
  predicate Wanted(k: nat, spec: TenantSpec) {
    match k
    case 0 => true
    case 1 => spec.quota !in {None, Some(map[])} || spec.suspended
    case 2 => !Unlimited(spec.limits)
    case 3 => spec.isolation != Open
    case _ => spec.admins != []
  }

  predicate ForeignController(slot: Option<Child>, tenant: string) {
    slot.Some? && slot.value.controller.Some? && slot.value.controller.value != tenant
  }

  /** The namespace takes no new children. */
  predicate Draining(objects: Objects, tenant: string, spec: TenantSpec) {
    var ns := ObjectKey(0, tenant, spec);
    ns in objects && objects[ns].terminating
  }

  /** Nothing about the k-th object keeps its step from going through. */
  predicate Clear(objects: Objects, tenant: string, spec: TenantSpec, k: nat) {
    var key := ObjectKey(k, tenant, spec);
    Wanted(k, spec) ==>
      && !ForeignController(Slot(objects, key), tenant)
      && (k >= 4 ==> !ForeignRole(Slot(objects, key)))
      && (k > 0 && key !in objects ==> !Draining(objects, tenant, spec))
  }

  /** In terms of what the steps are given. */
  lemma WantedMeans(k: nat, spec: TenantSpec)
    ensures k == 1 ==> (Wanted(k, spec) <==> |Hard(spec)| != 0 || spec.suspended)
    ensures var l := LimitsOf(spec);
            k == 2 ==> (Wanted(k, spec) <==> |l.default| != 0 || |l.defaultRequest| != 0 || |l.max| != 0)
  {
    var l := LimitsOf(spec);
    assert |Hard(spec)| == 0 <==> Hard(spec) == map[];
    assert |l.default| == 0 <==> l.default == map[];
    assert |l.defaultRequest| == 0 <==> l.defaultRequest == map[];
    assert |l.max| == 0 <==> l.max == map[];
  }

  lemma WantMeans(k: nat, slot: Option<Child>, tenant: string, spec: TenantSpec)
    requires k < STEPS
    ensures Desired(k, slot, tenant, spec).Ok? <==> !Wanted(k, spec) || !ForeignController(slot, tenant)
    ensures Desired(k, slot, tenant, spec).Ok? ==> (Desired(k, slot, tenant, spec).value.Some? <==> Wanted(k, spec))
    ensures Desired(k, slot, tenant, spec).Ok? && Wanted(k, spec) && 0 < k < 4 ==>
              !Desired(k, slot, tenant, spec).value.value.body.BindingBody?
    ensures Desired(k, slot, tenant, spec).Ok? && Wanted(k, spec) && k == 4 ==>
              var body := Desired(k, slot, tenant, spec).value.value.body;
              body.BindingBody? && body.roleRef == ADMIN_ROLE
    ensures k == 0 && Desired(k, slot, tenant, spec).Ok? ==>
              var child := Desired(k, slot, tenant, spec).value.value;
              && child.terminating == (slot.Some? && slot.value.terminating)
              && (slot.Some? ==> child.body == slot.value.body)
  {
    hide TenantLabels, ToSubjects, NonEmpty, Hard, LimitsOf, Component, Unlimited;
    WantedMeans(k, spec);
    assert spec.admins == [] <==> |spec.admins| == 0;
  }

  /** Once the namespace step has gone through, a later step is possible iff it is clear. */
  lemma StepMeans(objects: Objects, tenant: string, spec: TenantSpec, k: nat)
    requires k < STEPS && Clear(objects, tenant, spec, 0)
    ensures StepPossible(objects, TenantPlan(tenant, spec), k) <==> Clear(objects, tenant, spec, k)
  {
    hide Desired, Wanted, Run;
    var plan := TenantPlan(tenant, spec);
    var before := Run(objects, plan, k);
    PlanIsSound(tenant, spec);
    StepReachesObject(k, tenant, spec);
    StepReachesObject(0, tenant, spec);
    TurnOfStep(objects, plan, k);
    WantMeans(k, Slot(objects, plan.keys[k]), tenant, spec);
    assert plan.keys[k] in before <==> plan.keys[k] in objects by {
      assert Slot(before, plan.keys[k]) == Slot(objects, plan.keys[k]);
    }
    if k > 0 {
      var ns := plan.keys[0];
      RunSlot(objects, plan, k, 0);
      WantMeans(0, Slot(objects, ns), tenant, spec);
      assert Wanted(0, spec) by { NamespaceIsWanted(spec); }
      assert Live(before, ns) <==> !Draining(objects, tenant, spec) by {
        assert Slot(before, ns) == Desired(0, Slot(objects, ns), tenant, spec).value;
      }
    }
  }

  lemma NamespaceIsWanted(spec: TenantSpec)
    ensures Wanted(0, spec)
  {
  }

  /** A pass without API fault completes exactly if none of the objects that it has to write
      belongs to another controller, the binding does not refer to another role, and a draining
      namespace lacks none of them. */
  lemma CompletableMeans(objects: Objects, tenant: string, spec: TenantSpec)
    ensures Completable(objects, tenant, spec) <==> forall k: nat | k < STEPS :: Clear(objects, tenant, spec, k)
  {
    hide Desired, Clear, StepPossible;
    var plan := TenantPlan(tenant, spec);
    FirstStepMeans(objects, tenant, spec);
    if Clear(objects, tenant, spec, 0) {
      forall k: nat | k < STEPS ensures StepPossible(objects, plan, k) <==> Clear(objects, tenant, spec, k) {
        StepMeans(objects, tenant, spec, k);
      }
    }
  }

  lemma FirstStepMeans(objects: Objects, tenant: string, spec: TenantSpec)
    ensures StepPossible(objects, TenantPlan(tenant, spec), 0) <==> Clear(objects, tenant, spec, 0)
  {
    StepReachesObject(0, tenant, spec);
    WantMeans(0, Slot(objects, StepKey(0, tenant, spec)), tenant, spec);
  }

  /** A foreign RoleRef is never converged: a pass over it cannot complete. */
  lemma ForeignRoleIsNeverCompletable(objects: Objects, tenant: string, spec: TenantSpec)
    requires spec.admins != [] && ForeignRole(Slot(objects, ObjectKey(4, tenant, spec)))
    ensures !Completable(objects, tenant, spec)
  {
    CompletableMeans(objects, tenant, spec);
    assert !Clear(objects, tenant, spec, 4);
  }

  /** A pass that completes reaches what the spec asks for, and touches no other object. */
  lemma ProvisionMatches(objects: Objects, tenant: string, spec: TenantSpec, other: Key)
    requires Completable(objects, tenant, spec)
    requires forall k: nat | k < 5 :: other != ObjectKey(k, tenant, spec)
    ensures Matches(Provision(objects, tenant, spec, STEPS), tenant, spec)
    ensures Slot(Provision(objects, tenant, spec, STEPS), other) == Slot(objects, other)
  {
    hide Run, Desired;
    var plan := TenantPlan(tenant, spec);
    PlanIsSound(tenant, spec);
    forall k: nat | k < STEPS ensures other != plan.keys[k] {
      StepReachesObject(k, tenant, spec);
    }
    forall k: nat | k < STEPS
      ensures SlotMatches(k, Slot(Provision(objects, tenant, spec, STEPS), ObjectKey(k, tenant, spec)), tenant, spec)
    {
      StepReachesObject(k, tenant, spec);
      assert StepPossible(objects, plan, k);
      TurnOfStep(objects, plan, k);
      RunSlot(objects, plan, STEPS, k);
      DesiredMatches(k, Slot(objects, plan.keys[k]), tenant, spec);
    }
    RunElsewhere(objects, plan, STEPS, other);
  }

  lemma CompletableKept(a: Objects, b: Objects, tenant: string, spec: TenantSpec)
    requires SameOwned(NamespaceName(tenant, spec.namespacePrefix), a, b)
    ensures Completable(a, tenant, spec) == Completable(b, tenant, spec)
  {
    hide Completable, Owns;
    CompletableMeans(a, tenant, spec);
    CompletableMeans(b, tenant, spec);
    StepIsOwned(0, tenant, spec);
    StepReachesObject(0, tenant, spec);
    assert Slot(a, ObjectKey(0, tenant, spec)) == Slot(b, ObjectKey(0, tenant, spec));
    forall k: nat | k < STEPS ensures Clear(a, tenant, spec, k) == Clear(b, tenant, spec, k) {
      StepIsOwned(k, tenant, spec);
      StepReachesObject(k, tenant, spec);
      assert Slot(a, ObjectKey(k, tenant, spec)) == Slot(b, ObjectKey(k, tenant, spec));
    }
  }

  /** It is only the five objects that matter. */
  lemma MatchesKept(a: Objects, b: Objects, tenant: string, spec: TenantSpec)
    requires SameOwned(NamespaceName(tenant, spec.namespacePrefix), a, b) && Matches(a, tenant, spec)
    ensures Matches(b, tenant, spec)
  {
    hide SlotMatches;
    forall k: nat | k < STEPS ensures SlotMatches(k, Slot(b, ObjectKey(k, tenant, spec)), tenant, spec) {
      StepReachesObject(k, tenant, spec);
      assert Owns(NamespaceName(tenant, spec.namespacePrefix), StepKey(k, tenant, spec));
    }
  }

  /** The next step, on a cluster whose own objects are those after k steps. */
  lemma StepAdvances(start: Objects, before: Objects, after: Objects, tenant: string, spec: TenantSpec, k: nat,
                     ok: bool, failed: bool)
    requires k < STEPS && Feasible(start, TenantPlan(tenant, spec), k)
    requires SameOwned(NamespaceName(tenant, spec.namespacePrefix), before, Provision(start, tenant, spec, k))
    requires var key := StepKey(k, tenant, spec);
             Stepped(before, after, key, Desired(k, Slot(before, key), tenant, spec), ok, failed)
    ensures var ns := NamespaceName(tenant, spec.namespacePrefix);
            && (forall key | !Owns(ns, key) :: Slot(after, key) == Slot(before, key))
            && (SameOwned(ns, after, Provision(start, tenant, spec, k)) ||
                 SameOwned(ns, after, Provision(start, tenant, spec, k + 1)))
            && (ok ==> SameOwned(ns, after, Provision(start, tenant, spec, k + 1)) &&
                       Feasible(start, TenantPlan(tenant, spec), k + 1))
            && (!ok ==> failed || !Completable(start, tenant, spec))
            && (ok ==> !failed)
  {
    hide Desired, StepKey, Writable;
    var plan, key := TenantPlan(tenant, spec), StepKey(k, tenant, spec);
    var own := Provision(start, tenant, spec, k);
    PlanIsSound(tenant, spec);
    StepIsOwned(k, tenant, spec);
    assert Slot(before, key) == Slot(own, key);
    if Desired(k, Slot(before, key), tenant, spec).Ok? && Desired(k, Slot(before, key), tenant, spec).value.Some? {
      SameWritable(tenant, spec, k, before, own, Desired(k, Slot(before, key), tenant, spec).value.value);
    }
    assert StepPossible(start, plan, k) <==> Possible(before, key, Desired(k, Slot(before, key), tenant, spec));
  }

  lemma SameWritable(tenant: string, spec: TenantSpec, k: nat, a: Objects, b: Objects, child: Child)
    requires k < STEPS && SameOwned(NamespaceName(tenant, spec.namespacePrefix), a, b)
    ensures Writable(a, StepKey(k, tenant, spec), child) == Writable(b, StepKey(k, tenant, spec), child)
  {
    var ns := NamespaceName(tenant, spec.namespacePrefix);
    var key := StepKey(k, tenant, spec);
    assert Slot(a, key) == Slot(b, key) && Slot(a, NamespaceKey(ns)) == Slot(b, NamespaceKey(ns));
  }

  lemma StepIsOwned(k: nat, tenant: string, spec: TenantSpec)
    requires k < STEPS
    ensures Owns(NamespaceName(tenant, spec.namespacePrefix), StepKey(k, tenant, spec))
  {
  }

  /** One step over a converged cluster keeps it converged. */
  lemma StepKeepsMatches(objects: Objects, tenant: string, spec: TenantSpec, k: nat)
    requires k < STEPS && Matches(objects, tenant, spec)
    requires Desired(k, Slot(objects, StepKey(k, tenant, spec)), tenant, spec).Ok?
    ensures var key := StepKey(k, tenant, spec);
            Matches(Place(objects, key, Desired(k, Slot(objects, key), tenant, spec).value), tenant, spec)
  {
    var plan := TenantPlan(tenant, spec);
    var key := StepKey(k, tenant, spec);
    var after := Place(objects, key, Desired(k, Slot(objects, key), tenant, spec).value);
    PlanIsSound(tenant, spec);
    forall j: nat | j < STEPS ensures SlotMatches(j, Slot(after, ObjectKey(j, tenant, spec)), tenant, spec) {
      StepReachesObject(j, tenant, spec);
      if j == k {
        DesiredMatches(k, Slot(objects, key), tenant, spec);
      } else {
        assert plan.keys[j] != plan.keys[k];
        assert Slot(after, StepKey(j, tenant, spec)) == Slot(objects, StepKey(j, tenant, spec));
      }
    }
  }

  /** Crash-absorbing convergence of a tenant: any series of passes of one spec, each cut off
      at any call, followed by one completed pass, leaves the cluster of a single completed
      pass; that cluster is what the spec asks for, and no later pass of the spec moves it. Nor
      can any of these passes be stopped by anything but an API fault. */
  lemma TenantConverges(objects: Objects, tenant: string, spec: TenantSpec, cuts: seq<nat>, again: nat)
    requires Completable(objects, tenant, spec) && again <= STEPS
    requires forall i | 0 <= i < |cuts| :: cuts[i] <= STEPS
    ensures var left := Interrupted(objects, TenantPlan(tenant, spec), cuts);
            var done := Provision(left, tenant, spec, STEPS);
            && Completable(left, tenant, spec) && done == Provision(objects, tenant, spec, STEPS)
            && Matches(done, tenant, spec) && Completable(done, tenant, spec)
            && Provision(done, tenant, spec, again) == done
  {
    hide Run, Feasible, Desired, Matches;
    PlanIsSound(tenant, spec);
    CrashesAbsorbed(objects, TenantPlan(tenant, spec), cuts, again);
    ProvisionMatches(objects, tenant, spec, Key(Secret, "", ""));
  }

  /** Suspension pins pods to zero, keeps every other declared limit, and moves no other
      object; resuming then gives the cluster that an active pass would have given at once. */
  lemma SuspendResume(objects: Objects, tenant: string, active: TenantSpec)
    requires !active.suspended && Completable(objects, tenant, active.(suspended := true))
    ensures var paused := Provision(objects, tenant, active.(suspended := true), STEPS);
            var resumed := Provision(paused, tenant, active, STEPS);
            var quota := ObjectKey(1, tenant, active);
            && quota in paused && paused[quota].body.QuotaBody?
            && Enforces(paused[quota].body.hard, active.quota, true)
            && Completable(paused, tenant, active) && Completable(objects, tenant, active)
            && resumed == Provision(objects, tenant, active, STEPS)
            && forall key | key != quota :: Slot(paused, key) == Slot(resumed, key)
  {
    var suspended := active.(suspended := true);
    var plan, planS := TenantPlan(tenant, active), TenantPlan(tenant, suspended);
    var paused := Provision(objects, tenant, suspended, STEPS);
    var resumed := Provision(paused, tenant, active, STEPS);
    var direct := Provision(objects, tenant, active, STEPS);
    PlanIsSound(tenant, active);
    PlanIsSound(tenant, suspended);
    StepReachesObject(1, tenant, active);
    assert plan.keys == planS.keys;
    FeasibleAfter(objects, planS, STEPS);
    ResumeIsPossible(objects, tenant, active);
    ResumeIsPossible(paused, tenant, active);
    RunSlot(objects, planS, STEPS, 1);
    SuspendedStep(objects, tenant, suspended, 1);
    DesiredMatches(1, Slot(objects, plan.keys[1]), tenant, suspended);
    forall key
      ensures Slot(resumed, key) == Slot(direct, key)
      ensures key != plan.keys[1] ==> Slot(paused, key) == Slot(resumed, key)
    {
      if key in plan.keys {
        var k: nat :| k < STEPS && key == plan.keys[k];
        RunSlot(objects, planS, STEPS, k);
        SuspendedStep(objects, tenant, suspended, k);
        RunSlot(paused, plan, STEPS, k);
        RunSlot(objects, plan, STEPS, k);
        ResumeSlot(k, Slot(objects, key), tenant, active);
      } else {
        RunElsewhere(objects, planS, STEPS, key);
        RunElsewhere(paused, plan, STEPS, key);
        RunElsewhere(objects, plan, STEPS, key);
      }
    }
    SameSlots(resumed, direct);
  }

  /** The step of a feasible pass meets no foreign controller. */
  lemma SuspendedStep(objects: Objects, tenant: string, spec: TenantSpec, k: nat)
    requires k < STEPS && Completable(objects, tenant, spec)
    ensures Desired(k, Slot(objects, StepKey(k, tenant, spec)), tenant, spec).Ok?
  {
    hide Run, Desired;
    PlanIsSound(tenant, spec);
    assert StepPossible(objects, TenantPlan(tenant, spec), k);
    TurnOfStep(objects, TenantPlan(tenant, spec), k);
  }

  /** Where a suspended pass is possible, an active one is as well: it writes no more objects. */
  lemma ResumeIsPossible(objects: Objects, tenant: string, active: TenantSpec)
    requires !active.suspended && Completable(objects, tenant, active.(suspended := true))
    ensures Completable(objects, tenant, active)
  {
    hide Run, Desired, Completable;
    CompletableMeans(objects, tenant, active.(suspended := true));
    CompletableMeans(objects, tenant, active);
    forall k: nat | k < STEPS ensures Clear(objects, tenant, active, k) {
      assert Clear(objects, tenant, active.(suspended := true), k);
    }
  }

  lemma ResumeSlot(k: nat, slot: Option<Child>, tenant: string, active: TenantSpec)
    requires k < STEPS && !active.suspended
    requires Desired(k, slot, tenant, active.(suspended := true)).Ok?
    ensures Desired(k, slot, tenant, active).Ok?
    ensures var paused := Desired(k, slot, tenant, active.(suspended := true)).value;
            && Desired(k, paused, tenant, active) == Desired(k, slot, tenant, active)
            && (k != 1 ==> Ok(paused) == Desired(k, slot, tenant, active))
  {
    if k == 1 {
      var labels := TenantLabels(tenant, Component(1), active.extraLabels);
      OverwriteFacts(slot, labels, QuotaBody(Hard(active)[PODS := 0]), QuotaBody(Hard(active)), Some(tenant));
    } else {
      DesiredAbsorbs(k, slot, tenant, active);
    }
  }
}
