/** internal/controller/tenant_controller.go: the Tenant reconciler. */
module TenantControllers {
  import opened Base
  import opened Labels
  import opened Conditions
  import opened Clusters
  import opened Convergence
  import opened Registries
  import opened Stages
  import opened Namespaces
  import opened Quotas
  import opened NetworkPolicies
  import opened Rbac
  import opened TenantResources
  import opened TenantWebhook
  import opened TenantStates

  const RESYNC_SECONDS := 300

  datatype ChildKind = EnvironmentChild | IntegrationChild

  /** One act outside the controller: on the Tenant, on an object that is not the tenant's, or
      on a child, which is created, updated or, with no reference left, deleted. */
  datatype Act =
    | TenantAct
    | ObjectAct(key: Key, slot: Option<Child>)
    | ChildAct(kind: ChildKind, name: string, tenantRef: Option<string>)

  /** The object a pass works on: what was read, with a status that is changed in memory. */
  class WorkingCopy {
    const spec: TenantSpec
    const generation: nat
    const deleting: bool
    const conditions: ConditionList
    ghost const wasHeld: bool
    var version: nat
    var held: bool
    var phase: TenantPhase
    var observedGeneration: nat
    var namespace: string
    var environmentCount: nat
    var integrationCount: nat
    var lastReconcileTime: Option<int>

    constructor (version: nat, t: Tenant)
      ensures this.version == version && spec == t.spec && generation == t.generation
      ensures deleting == t.deleting && held == t.held == wasHeld && Status() == t.status
      ensures fresh(conditions)
    {
      this.version := version;
      spec, generation, deleting, held, wasHeld := t.spec, t.generation, t.deleting, t.held, t.held;
      phase, observedGeneration := t.status.phase, t.status.observedGeneration;
      namespace := t.status.namespace;
      environmentCount, integrationCount := t.status.environmentCount, t.status.integrationCount;
      lastReconcileTime := t.status.lastReconcileTime;
      var list := new ConditionList(t.status.conditions);
      conditions := list;
    }

    function Status(): TenantStatus
      reads this, conditions
    {
      TenantStatus(phase, conditions.items, observedGeneration, namespace,
                   environmentCount, integrationCount, lastReconcileTime)
    }
  }

  class TenantController {
    const name: string
    const prefix: string
    const stage: Stage<TenantSpec, TenantStatus>
    const clock: Clock
    const acts: nat -> Act
    const bursts: nat -> nat
    var moved: nat
    var environments: map<string, string>
    var integrations: map<string, string>

    // ---- Invariants ----

    /** The persisted counts are the children as the informers know them. */
    ghost predicate Counts()
      reads this`environments, this`integrations, stage.registry
    {
      && stage.registry.log != []
      && var s := stage.registry.Last().status;
         s.environmentCount == CountOf(environments, name) && s.integrationCount == CountOf(integrations, name)
    }

    /** The counts are current, or something will bring the key back. */
    ghost predicate Settled()
      reads this`environments, this`integrations, stage.registry
    {
      || stage.registry.pending || !stage.registry.Held() || stage.registry.Last().deleting
      || stage.registry.seen < |stage.registry.log| - 1 || Counts()
    }

    ghost predicate Own()
      reads this`environments, this`integrations, stage, stage.registry
    {
      && stage.rules == TenantRules(name, prefix) && clock == stage.clock && name != ""
      && (forall s: TenantSpec :: stage.registry.identity(s) == s.namespacePrefix)
      && |NamespaceName(name, prefix)| <= MAX_NAMESPACE_LENGTH
      && (!stage.busy ==> Settled())
    }

    /** Between two atomic actions. No child update is lost: a live Tenant with its finalizer
        on, no pending request, no pass in flight and a cache that has caught up has the right
        counts. */
    ghost predicate Valid()
      reads this`environments, this`integrations, stage, stage.registry, stage.cluster, stage.clock
    {
      stage.Valid() && Own()
    }

    constructor (name: string, schedule: nat -> Turn<TenantSpec>, acts: nat -> Act, bursts: nat -> nat,
                 cluster: Cluster, clock: Clock, spec: TenantSpec)
      requires name != "" && cluster.Valid()
      requires spec == Defaulted(spec) && TenantWebhook.Valid(name, spec)
      ensures Valid() && !stage.busy && stage.cluster == cluster && this.clock == clock
    {
      hide Matches, PhaseAgrees, ReadyHonest, CountOf, TenantRules, Owns, NamespaceReclaimed;
      this.name, this.prefix, this.acts, this.bursts, this.clock := name, spec.namespacePrefix, acts, bursts, clock;
      var registry := new Registry<TenantSpec, TenantStatus>(
        schedule, (a, b) => AdmitsUpdate(name, a, b), (s: TenantSpec) => s.namespacePrefix, spec, EMPTY_STATUS);
      ghost var rules := TenantRules(name, spec.namespacePrefix);
      RulesAreLawful(name, spec.namespacePrefix, registry.identity);
      StartsWell(name, spec.namespacePrefix, registry.Last(), cluster.objects);
      var s := new Stage(rules, Managed(name, spec.namespacePrefix), registry, cluster, clock,
                         (n: nat) => ResourceMove, (n: nat) => 0);
      stage := s;
      moved, environments, integrations := 0, map[], map[];
    }

    // ---- The world outside ----

    /** A change of a child puts the tenants it named before and after it in the queue. */
    method MoveChild(kind: ChildKind, child: string, ref: Option<string>)
      requires Valid()
      modifies this`environments, this`integrations, stage.registry`pending
      ensures Valid() && (old(stage.registry.pending) ==> stage.registry.pending)
      ensures stage.registry.pending || (CountOf(environments, name) == old(CountOf(environments, name)) &&
                                         CountOf(integrations, name) == old(CountOf(integrations, name)))
      ensures var before := old(if kind == EnvironmentChild then environments else integrations);
              (ref == Some(name) || (child in before && before[child] == name) ==> stage.registry.pending) &&
              (if kind == EnvironmentChild then environments else integrations) ==
                if ref.Some? then before[child := ref.value] else before - {child}
      ensures if kind == EnvironmentChild then integrations == old(integrations) else environments == old(environments)
    {
      hide CountOf, stage.Valid, TenantRules, NamespaceName;
      var children := if kind == EnvironmentChild then environments else integrations;
      if Concerns(children, child, ref, name) {
        stage.Enqueue();
      } else {
        OthersKeepCount(children, child, ref, name);
      }
      if kind == EnvironmentChild {
        environments := Changed(children, child, ref);
      } else {
        integrations := Changed(children, child, ref);
      }
    }

    method Outside(act: Act)
      requires Valid()
      modifies this`environments, this`integrations, stage`history, stage.registry, stage.cluster`objects
      ensures Valid() && old(stage.history) <= stage.history && stage.Undisturbed()
      ensures stage.registry.pending || (CountOf(environments, name) == old(CountOf(environments, name)) &&
                                         CountOf(integrations, name) == old(CountOf(integrations, name)))
    {
      hide CountOf, stage.Valid, stage.registry.Valid, TenantRules, NamespaceName;
      stage.ValidParts();
      match act {
        case TenantAct =>
          stage.MoveResource();
        case ObjectAct(key, slot) =>
          if !stage.owned(key) && (slot.None? || stage.cluster.Known(key.kind)) {
            stage.MoveObject(key, slot);
          }
        case ChildAct(kind, child, ref) =>
          MoveChild(kind, child, ref);
      }
    }

    /** Any number of acts between two calls of the controller. */
    method Others()
      requires Valid()
      modifies this`environments, this`integrations, this`moved, stage`history, stage.registry, stage.cluster`objects
      ensures Valid() && old(stage.history) <= stage.history && stage.Undisturbed()
      ensures stage.registry.pending || (CountOf(environments, name) == old(CountOf(environments, name)) &&
                                         CountOf(integrations, name) == old(CountOf(integrations, name)))
    {
      hide CountOf, stage.Valid, stage.registry.Valid, Own;
      stage.ValidParts();
      var n := bursts(moved);
      while n > 0
        invariant Valid() && old(stage.history) <= stage.history && stage.Undisturbed()
        invariant stage.registry.pending || (CountOf(environments, name) == old(CountOf(environments, name)) &&
                                             CountOf(integrations, name) == old(CountOf(integrations, name)))
      {
        Outside(acts(moved));
        moved := moved + 1;
        n := n - 1;
      }
    }

    // ---- A pass over a live Tenant ----

    /** `t` is the version the pass has read, or its own later status write. */
    ghost predicate Reading(t: WorkingCopy)
      reads stage`busy, stage.registry, t`version
    {
      && stage.At(t.version)
      && var copy := stage.Copy();
         t.spec == copy.spec && t.generation == copy.generation && t.deleting == copy.deleting && t.wasHeld == copy.held
    }

    /** The persisted status that the copy started from. */
    ghost function Base(t: WorkingCopy): TenantStatus
      requires t.version < |stage.registry.log|
      reads stage.registry, t`version
    {
      stage.registry.log[t.version].status
    }

    /** A status may be persisted over the version that `t` holds. */
    ghost predicate Drafted(t: WorkingCopy, status: TenantStatus)
      requires t.version < |stage.registry.log|
      reads stage`started, stage.registry, stage.cluster, stage.clock, t`version
    {
      var draft := stage.registry.log[t.version].(status := status);
      && VersionFits(name, prefix, draft)
      && ReadyHonest(Base(t).conditions, status.conditions, stage.started, stage.clock.time)
      && (ClaimsReady(draft) ==> Matches(stage.cluster.objects, name, t.spec))
    }

    /** A pass over a live Tenant whose finalizer is on: the namespace name is in the status,
        and the Ready condition has not been touched yet. */
    ghost predicate Working(t: WorkingCopy)
      reads stage`busy, stage.registry, t, t.conditions
    {
      && Reading(t) && !t.deleting && t.wasHeld
      && t.namespace == NamespaceName(name, prefix)
      && Unique(t.conditions.items)
      && Find(t.conditions.items, READY) == Find(Base(t).conditions, READY)
    }

    lemma Fits(t: WorkingCopy)
      requires Valid() && Reading(t)
      ensures VersionFits(name, prefix, stage.registry.log[t.version]) && Unique(Base(t).conditions)
      ensures t.spec.namespacePrefix == prefix && stage.started <= stage.clock.time
    {
      hide Matches;
      FitsAt(stage.rules, stage.registry.log, stage.registry.gone, stage.registry.read, t.version);
    }

    /** Status().Update, as one atomic call. */
    method Commit(t: WorkingCopy) returns (ok: bool)
      requires Valid() && Reading(t) && Drafted(t, t.Status())
      modifies stage`history, stage.registry, t`version
      ensures Valid() && Reading(t) && old(stage.history) <= stage.history && stage.Failures() >= old(stage.Failures())
      ensures stage.cluster.failures == old(stage.cluster.failures)
      ensures !ok ==> stage.Failures() > old(stage.Failures()) && t.version == old(t.version) && Base(t) == old(Base(t))
      ensures ok ==> !stage.registry.gone && t.version == |stage.registry.log| - 1 && Base(t) == t.Status()
      ensures stage.registry.pending == old(stage.registry.pending)
      ensures ok ==> stage.Failures() == old(stage.Failures())
    {
      hide stage.Valid, ClaimsReady, CountOf, Matches, NamespaceName, PhaseAgrees, ReadyHonest, stage.registry.Valid;
      ghost var landed;
      ok, t.version, landed := stage.CommitStatus(t.version, t.Status());
    }

    method UpdateStatus(t: WorkingCopy, gen: nat) returns (ok: bool)
      requires Valid() && Reading(t) && gen == t.generation
      requires forall now: int :: Drafted(t, t.Status().(observedGeneration := gen, lastReconcileTime := Some(now)))
      modifies this`environments, this`integrations, this`moved, stage`history, stage.registry
      modifies stage.cluster`objects, clock
      modifies t`version, t`observedGeneration, t`lastReconcileTime
      ensures Valid() && Reading(t) && old(stage.history) <= stage.history && stage.Failures() >= old(stage.Failures())
      ensures !ok ==> stage.Failures() > old(stage.Failures())
      ensures ok ==> !stage.registry.gone && t.version == |stage.registry.log| - 1 && Base(t) == t.Status()
      ensures t.observedGeneration == gen
      ensures old(Counted(t)) ==> Counted(t)
      ensures SameOwned(NamespaceName(name, prefix), old(stage.cluster.objects), stage.cluster.objects)
      ensures ok ==> stage.Failures() == old(stage.Failures())
    {
      hide stage.Valid, ClaimsReady, CountOf, VersionFits, Matches, stage.registry.Valid, Find, NamespaceName;
      t.observedGeneration := gen;
      var now := clock.Now();
      stage.Ticked();
      t.lastReconcileTime := Some(now);
      assert Drafted(t, t.Status());
      Wait(t, t.Status());
      ok := Commit(t);
    }

    /** What others do leaves a draft persistable. */
    method Wait(t: WorkingCopy, ghost status: TenantStatus)
      requires Valid() && Reading(t) && Drafted(t, status)
      modifies this`environments, this`integrations, this`moved, stage`history, stage.registry, stage.cluster`objects
      ensures Valid() && Reading(t) && Drafted(t, status)
      ensures old(stage.history) <= stage.history && stage.Failures() >= old(stage.Failures())
      ensures old(Counted(t)) ==> Counted(t)
      ensures Base(t) == old(Base(t))
      ensures SameOwned(NamespaceName(name, prefix), old(stage.cluster.objects), stage.cluster.objects)
      ensures stage.Failures() == old(stage.Failures())
    {
      hide stage.Valid, ClaimsReady, CountOf, VersionFits, Matches, stage.registry.Valid, Find, NamespaceName;
      hide ReadyHonest;
      Fits(t);
      ghost var before := stage.cluster.objects;
      Others();
      assert forall key | stage.rules.managed(key) :: Slot(stage.cluster.objects, key) == Slot(before, key);
      if Matches(before, name, t.spec) {
        MatchesKept(before, stage.cluster.objects, name, t.spec);
      }
    }

    /** The children counted at the two List calls, or a request that will count them again. */
    ghost predicate Counted(t: WorkingCopy)
      reads this`environments, this`integrations, stage.registry`pending, t
    {
      stage.registry.pending || (t.environmentCount == CountOf(environments, name) &&
                                 t.integrationCount == CountOf(integrations, name))
    }

    // ---- The five steps ----

    /** The tenant's own objects are those that the first k steps make of `start`. */
    ghost predicate Provisioned(t: WorkingCopy, start: Objects, k: nat)
      reads stage.cluster
    {
      && k <= STEPS
      && SameOwned(NamespaceName(name, t.spec.namespacePrefix), stage.cluster.objects,
                   Provision(start, name, t.spec, k))
      && Feasible(start, TenantPlan(name, t.spec), k)
    }

    /** Some first steps have been done, and nothing else. */
    ghost predicate Partial(t: WorkingCopy, start: Objects)
      reads stage.cluster
    {
      exists n: nat | n <= STEPS ::
        SameOwned(NamespaceName(name, t.spec.namespacePrefix), stage.cluster.objects, Provision(start, name, t.spec, n))
    }

    /** Others may be at work before a step. */
    method Pause(t: WorkingCopy, ghost start: Objects, ghost k: nat)
      requires Valid() && Working(t) && Provisioned(t, start, k)
      modifies this`environments, this`integrations, this`moved, stage`history, stage.registry, stage.cluster`objects
      ensures Valid() && Working(t) && Provisioned(t, start, k)
      ensures old(stage.history) <= stage.history && stage.Failures() >= old(stage.Failures())
      ensures stage.Failures() == old(stage.Failures())
    {
      hide stage.Valid, stage.registry.Valid, Provision, CountOf, Feasible, Find, NamespaceName;
      Fits(t);
      ghost var before := stage.cluster.objects;
      Others();
      assert forall key | stage.rules.managed(key) :: Slot(stage.cluster.objects, key) == Slot(before, key);
    }

    /** Records what provisioning step k has done to the cluster. */
    ghost method Advance(t: WorkingCopy, start: Objects, before: Objects, k: nat, ok: bool, failed: bool)
      requires k < STEPS && Own() && stage.Unrecorded(before) && Working(t) && t.spec.namespacePrefix == prefix
      requires Feasible(start, TenantPlan(name, t.spec), k)
      requires SameOwned(NamespaceName(name, prefix), before, Provision(start, name, t.spec, k))
      requires var key := StepKey(k, name, t.spec);
               Stepped(before, stage.cluster.objects, key, Desired(k, Slot(before, key), name, t.spec), ok, failed)
      modifies stage`history
      ensures Valid() && Working(t) && old(stage.history) <= stage.history
      ensures Partial(t, start)
      ensures ok ==> Provisioned(t, start, k + 1)
      ensures if ok then !failed else failed || !Completable(start, name, t.spec)
    {
      hide stage.Valid, stage.Unrecorded, Stepped, Desired, StepKey, Provision, Completable, Feasible, SameOwned, Find;
      hide CountOf, NamespaceName, Owns;
      StepAdvances(start, before, stage.cluster.objects, name, t.spec, k, ok, failed);
      StepIsOwned(k, name, t.spec);
      stage.AboutWhatItRead(before);
      ClaimKept(name, prefix, stage.registry.Last(), t.spec, k, before, stage.cluster.objects, ok, failed);
      ApartFromOthers(before, stage.cluster.objects);
      stage.Built(before);
    }

    lemma ApartFromOthers(before: Objects, after: Objects)
      requires forall key | !Owns(NamespaceName(name, prefix), key) :: Slot(after, key) == Slot(before, key)
      ensures KeepsApart(TenantRules(name, prefix), before, after, false)
      ensures TenantRules(name, prefix).order(before, after)
    {
      hide Owns, Matches;
    }

    method StepNamespace(t: WorkingCopy, ghost start: Objects) returns (ok: bool)
      requires Valid() && Working(t) && Provisioned(t, start, 0)
      modifies stage`history, stage.cluster
      ensures Valid() && Working(t) && old(stage.history) <= stage.history && stage.Failures() >= old(stage.Failures())
      ensures ok ==> Provisioned(t, start, 1) && stage.Failures() == old(stage.Failures())
      ensures Partial(t, start)
      ensures !ok ==> stage.Failures() > old(stage.Failures()) || !Completable(start, name, t.spec)
    {
      hide stage.Valid, stage.Unrecorded, stage.registry.Valid, Stepped, TenantLabels, NamespaceName, Provision;
      hide Labelled, DesiredNamespace, Own, Completable, Feasible;
      Fits(t);
      stage.ValidParts();
      var labels := BuildTenantLabels(name, "namespace", t.spec.extraLabels);
      ghost var before, failures := stage.cluster.objects, stage.cluster.failures;
      ok := ReconcileNamespace(stage.cluster, name, true, t.namespace, labels);
      stage.Called();
      Advance(t, start, before, 0, ok, failures < stage.cluster.failures);
    }

    method StepQuota(t: WorkingCopy, ghost start: Objects) returns (ok: bool)
      requires Valid() && Working(t) && Provisioned(t, start, 1)
      modifies stage`history, stage.cluster
      ensures Valid() && Working(t) && old(stage.history) <= stage.history && stage.Failures() >= old(stage.Failures())
      ensures ok ==> Provisioned(t, start, 2) && stage.Failures() == old(stage.Failures())
      ensures Partial(t, start)
      ensures !ok ==> stage.Failures() > old(stage.Failures()) || !Completable(start, name, t.spec)
    {
      hide stage.Valid, stage.Unrecorded, stage.registry.Valid, Stepped, TenantLabels, NamespaceName, Provision;
      hide Labelled, DesiredQuota, Own, Completable, Feasible;
      Fits(t);
      stage.ValidParts();
      var labels := BuildTenantLabels(name, "quota", t.spec.extraLabels);
      ghost var before, failures := stage.cluster.objects, stage.cluster.failures;
      var hard: ResourceList := map[];
      if t.spec.quota.Some? {
        hard := t.spec.quota.value;
      }
      ok := ReconcileResourceQuota(stage.cluster, name, true, t.namespace, hard, t.spec.suspended, labels);
      stage.Called();
      Advance(t, start, before, 1, ok, failures < stage.cluster.failures);
    }

    method StepLimits(t: WorkingCopy, ghost start: Objects) returns (ok: bool)
      requires Valid() && Working(t) && Provisioned(t, start, 2)
      modifies stage`history, stage.cluster
      ensures Valid() && Working(t) && old(stage.history) <= stage.history && stage.Failures() >= old(stage.Failures())
      ensures ok ==> Provisioned(t, start, 3) && stage.Failures() == old(stage.Failures())
      ensures Partial(t, start)
      ensures !ok ==> stage.Failures() > old(stage.Failures()) || !Completable(start, name, t.spec)
    {
      hide stage.Valid, stage.Unrecorded, stage.registry.Valid, Stepped, TenantLabels, NamespaceName, Provision;
      hide Labelled, DesiredLimits, Own, Completable, Feasible;
      Fits(t);
      stage.ValidParts();
      var labels := BuildTenantLabels(name, "limits", t.spec.extraLabels);
      ghost var before, failures := stage.cluster.objects, stage.cluster.failures;
      var default: ResourceList, defaultRequest: ResourceList, max: ResourceList := map[], map[], map[];
      if t.spec.limits.Some? {
        default, defaultRequest, max := t.spec.limits.value.default, t.spec.limits.value.defaultRequest,
          t.spec.limits.value.max;
      }
      ok := ReconcileLimitRange(stage.cluster, name, true, t.namespace, default, defaultRequest, max, labels);
      stage.Called();
      Advance(t, start, before, 2, ok, failures < stage.cluster.failures);
    }

    method StepPolicy(t: WorkingCopy, ghost start: Objects) returns (ok: bool)
      requires Valid() && Working(t) && Provisioned(t, start, 3)
      modifies stage`history, stage.cluster
      ensures Valid() && Working(t) && old(stage.history) <= stage.history && stage.Failures() >= old(stage.Failures())
      ensures ok ==> Provisioned(t, start, 4) && stage.Failures() == old(stage.Failures())
      ensures Partial(t, start)
      ensures !ok ==> stage.Failures() > old(stage.Failures()) || !Completable(start, name, t.spec)
    {
      hide stage.Valid, stage.Unrecorded, stage.registry.Valid, Stepped, TenantLabels, NamespaceName, Provision;
      hide Labelled, DesiredPolicy, Own, Completable, Feasible;
      Fits(t);
      stage.ValidParts();
      var labels := BuildTenantLabels(name, "networkpolicy", t.spec.extraLabels);
      ghost var before, failures := stage.cluster.objects, stage.cluster.failures;
      ok := ReconcileNetworkPolicy(stage.cluster, name, t.namespace, t.spec.isolation, labels);
      stage.Called();
      Advance(t, start, before, 3, ok, failures < stage.cluster.failures);
    }

    method StepBinding(t: WorkingCopy, ghost start: Objects) returns (ok: bool)
      requires Valid() && Working(t) && Provisioned(t, start, 4)
      modifies stage`history, stage.cluster
      ensures Valid() && Working(t) && old(stage.history) <= stage.history && stage.Failures() >= old(stage.Failures())
      ensures ok ==> Provisioned(t, start, 5) && stage.Failures() == old(stage.Failures())
      ensures Partial(t, start)
      ensures !ok ==> stage.Failures() > old(stage.Failures()) || !Completable(start, name, t.spec)
    {
      hide stage.Valid, stage.Unrecorded, stage.registry.Valid, Stepped, TenantLabels, NamespaceName, Provision;
      hide Labelled, DesiredBinding, Own, Completable, Feasible;
      Fits(t);
      stage.ValidParts();
      var labels := BuildTenantLabels(name, "rbac", t.spec.extraLabels);
      ghost var before, failures := stage.cluster.objects, stage.cluster.failures;
      ok := ReconcileTenantAdminBinding(stage.cluster, name, t.namespace, t.spec.admins, labels);
      stage.Called();
      Advance(t, start, before, 4, ok, failures < stage.cluster.failures);
    }

    // ---- The end of a pass ----

    /** Records the failure; the status write may fail too, and the cause is returned anyway. */
    method Fail(t: WorkingCopy, reason: string, cause: string)
      requires Valid() && Working(t)
      modifies this`environments, this`integrations, this`moved, stage`history, stage.registry
      modifies stage.cluster`objects, clock, t, t.conditions
      ensures Valid() && Reading(t) && old(stage.history) <= stage.history && stage.Failures() >= old(stage.Failures())
      ensures SameOwned(NamespaceName(name, prefix), old(stage.cluster.objects), stage.cluster.objects)
      ensures t.phase.Failed? && Holds(t.conditions.items, DEGRADED, True) && Holds(t.conditions.items, READY, False)
      ensures Base(t) == t.Status() || stage.Failures() > old(stage.Failures())
    {
      hide stage.Valid, stage.registry.Valid, CountOf, Matches, Find, SetIn, NamespaceName, VersionFits, ReadyHonest;
      Fits(t);
      t.conditions.MarkTrue(clock, DEGRADED, reason, cause, t.generation);
      ghost var before := t.conditions.items;
      t.conditions.MarkFalse(clock, READY, reason, cause, t.generation);
      stage.Ticked();
      t.phase := TenantPhase.Failed;
      forall now: int
        ensures Drafted(t, t.Status().(observedGeneration := t.generation, lastReconcileTime := Some(now)))
      {
        DraftFits(name, prefix, stage.registry.log[t.version], before,
                  t.Status().(observedGeneration := t.generation, lastReconcileTime := Some(now)),
                  Entry(READY, False, reason, cause, t.generation), clock.time, stage.started, clock.time);
        ghost var status := t.Status().(observedGeneration := t.generation, lastReconcileTime := Some(now));
        NotReady(stage.registry.log[t.version].(status := status));
      }
      var _ := UpdateStatus(t, t.generation);
    }

    lemma NotReady(t: Tenant)
      requires VersionFits(name, prefix, t) && t.status.phase != Active
      ensures !ClaimsReady(t)
    {
    }

    /** One List call. */
    method List(kind: ChildKind) returns (ok: bool, count: nat)
      requires Valid()
      modifies this`environments, this`integrations, this`moved, stage`history, stage.registry, stage.cluster`objects
      ensures Valid() && old(stage.history) <= stage.history && stage.Failures() >= old(stage.Failures())
      ensures stage.registry.read < |stage.registry.log| && old(stage.registry.log) <= stage.registry.log
      ensures stage.registry.read == old(stage.registry.read) && stage.busy == old(stage.busy) && stage.ManagedKept()
      ensures !ok ==> stage.Failures() > old(stage.Failures())
      ensures old(stage.registry.pending) ==> stage.registry.pending
      ensures stage.registry.pending || (CountOf(environments, name) == old(CountOf(environments, name)) &&
                                         CountOf(integrations, name) == old(CountOf(integrations, name)))
      ensures ok ==> count == CountOf(if kind == EnvironmentChild then environments else integrations, name)
      ensures ok ==> stage.Failures() == old(stage.Failures())
    {
      hide stage.Valid, stage.registry.Valid, CountOf, NamespaceName, TenantRules;
      Others();
      ok := stage.Answered();
      count := CountOf(if kind == EnvironmentChild then environments else integrations, name);
    }

    /** Two List calls; a child that changes after its kind was listed has put the Tenant back
        in the queue. */
    method CountChildren() returns (ok: bool, envCount: nat, intgCount: nat)
      requires Valid()
      modifies this`environments, this`integrations, this`moved, stage`history, stage.registry, stage.cluster`objects
      ensures Valid() && old(stage.history) <= stage.history && stage.Failures() >= old(stage.Failures())
      ensures stage.registry.read < |stage.registry.log| && old(stage.registry.log) <= stage.registry.log
      ensures stage.registry.read == old(stage.registry.read) && stage.busy == old(stage.busy) && stage.ManagedKept()
      ensures !ok ==> stage.Failures() > old(stage.Failures())
      ensures ok ==> stage.registry.pending ||
                     (envCount == CountOf(environments, name) && intgCount == CountOf(integrations, name))
      ensures ok ==> stage.Failures() == old(stage.Failures())
    {
      hide Valid, CountOf;
      intgCount := 0;
      ok, envCount := List(EnvironmentChild);
      if !ok {
        return;
      }
      ok, intgCount := List(IntegrationChild);
    }

    /** Counts the children into the status. */
    method Inventory(t: WorkingCopy, ghost start: Objects) returns (ok: bool)
      requires Valid() && Working(t) && Provisioned(t, start, STEPS)
      modifies this`environments, this`integrations, this`moved, stage`history, stage.registry
      modifies stage.cluster`objects, t`environmentCount, t`integrationCount
      ensures Valid() && Working(t) && Provisioned(t, start, STEPS)
      ensures old(stage.history) <= stage.history && stage.Failures() >= old(stage.Failures())
      ensures ok ==> Counted(t)
      ensures !ok ==> stage.Failures() > old(stage.Failures())
      ensures ok ==> stage.Failures() == old(stage.Failures())
    {
      hide stage.Valid, stage.registry.Valid, CountOf, Find, Unique, NamespaceName, Provision, Feasible, Counts;
      Fits(t);
      ghost var before := stage.cluster.objects;
      var envCount, intgCount;
      ok, envCount, intgCount := CountChildren();
      assert forall key | stage.rules.managed(key) :: Slot(stage.cluster.objects, key) == Slot(before, key);
      if ok {
        t.environmentCount, t.integrationCount := envCount, intgCount;
      }
    }

    /** Clears Degraded and ends Progressing. */
    method ClearProgress(t: WorkingCopy, gen: nat)
      requires Valid() && Working(t)
      modifies clock, t.conditions
      ensures Valid() && Working(t)
      ensures Find(t.conditions.items, DEGRADED).None? && Holds(t.conditions.items, PROGRESSING, False)
    {
      hide stage.Valid, stage.registry.Valid, CountOf, Find, SetIn, NamespaceName, TenantRules;
      RemoveKeeps(t.conditions.items, DEGRADED);
      t.conditions.Remove(DEGRADED);
      t.conditions.MarkFalse(clock, PROGRESSING, "Provisioned", "All tenant resources are provisioned", gen);
      stage.Ticked();
    }

    /** The in-memory status of a pass that has done everything. */
    method MarkProvisioned(t: WorkingCopy, gen: nat)
      requires Valid() && Working(t) && gen == t.generation
      requires Matches(stage.cluster.objects, name, t.spec)
      requires Find(t.conditions.items, DEGRADED).None? && Holds(t.conditions.items, PROGRESSING, False)
      modifies clock, t`phase, t.conditions
      ensures Valid() && Reading(t)
      ensures forall now: int :: Drafted(t, t.Status().(observedGeneration := gen, lastReconcileTime := Some(now)))
      ensures t.phase == if t.spec.suspended then Suspended else Active
    {
      hide stage.Valid, stage.registry.Valid, CountOf, Matches, Find, SetIn, NamespaceName, VersionFits;
      hide ReadyHonest, TenantRules, ClaimsReady;
      Fits(t);
      ghost var before := t.conditions.items;
      ghost var ready;
      if t.spec.suspended {
        t.conditions.MarkFalse(clock, READY, "Suspended", "Tenant is suspended; workloads are cordoned", gen);
        ready := Entry(READY, False, "Suspended", "Tenant is suspended; workloads are cordoned", gen);
        t.phase := Suspended;
      } else {
        t.conditions.MarkTrue(clock, READY, "Provisioned", "Tenant namespace and policies are active", gen);
        ready := Entry(READY, True, "Provisioned", "Tenant namespace and policies are active", gen);
        t.phase := Active;
      }
      stage.Ticked();
      forall now: int ensures Drafted(t, t.Status().(observedGeneration := gen, lastReconcileTime := Some(now))) {
        DraftFits(name, prefix, stage.registry.log[t.version], before,
                  t.Status().(observedGeneration := gen, lastReconcileTime := Some(now)),
                  ready, clock.time, stage.started, clock.time);
      }
    }

    /** The end of a pass that has done everything: its status and the write of it. */
    method Conclude(t: WorkingCopy, gen: nat) returns (ok: bool)
      requires Valid() && Working(t) && gen == t.generation && Counted(t)
      requires Matches(stage.cluster.objects, name, t.spec)
      modifies this`environments, this`integrations, this`moved, stage`history, stage.registry
      modifies stage.cluster`objects, clock, t, t.conditions
      ensures Valid() && Reading(t) && old(stage.history) <= stage.history && stage.Failures() >= old(stage.Failures())
      ensures SameOwned(NamespaceName(name, prefix), old(stage.cluster.objects), stage.cluster.objects)
      ensures !ok ==> stage.Failures() > old(stage.Failures())
      ensures ok ==> Counted(t) && t.version == |stage.registry.log| - 1 && Base(t) == t.Status() &&
                     !stage.registry.gone
      ensures t.observedGeneration == gen
      ensures ok ==> t.phase == (if t.spec.suspended then Suspended else Active)
      ensures ok ==> stage.Failures() == old(stage.Failures())
    {
      hide Valid, stage.Valid, Working, Matches, Drafted, Find, CountOf;
      ClearProgress(t, gen);
      MarkProvisioned(t, gen);
      ok := UpdateStatus(t, gen);
    }

    /** The five steps in order; the first one that fails ends the pass. */
    method ProvisionAll(t: WorkingCopy, ghost start: Objects) returns (reason: string)
      requires Valid() && Working(t) && Provisioned(t, start, 0)
      modifies this`environments, this`integrations, this`moved, stage`history, stage.registry, stage.cluster
      ensures Valid() && Working(t) && Partial(t, start)
      ensures old(stage.history) <= stage.history && stage.Failures() >= old(stage.Failures())
      ensures reason == "" ==> Provisioned(t, start, STEPS)
      ensures reason != "" ==> stage.Failures() > old(stage.Failures()) || !Completable(start, name, t.spec)
      ensures reason == "" ==> stage.Failures() == old(stage.Failures())
    {
      hide Valid, stage.Valid, Working, Provisioned, Partial, Completable;
      Pause(t, start, 0);
      var ok := StepNamespace(t, start);
      if !ok { return "NamespaceError"; }
      Pause(t, start, 1);
      ok := StepQuota(t, start);
      if !ok { return "QuotaError"; }
      Pause(t, start, 2);
      ok := StepLimits(t, start);
      if !ok { return "LimitRangeError"; }
      Pause(t, start, 3);
      ok := StepPolicy(t, start);
      if !ok { return "NetworkPolicyError"; }
      Pause(t, start, 4);
      ok := StepBinding(t, start);
      if !ok { return "RBACError"; }
      return "";
    }

    /** Puts the namespace name into the status and reports progress. */
    method Begin(t: WorkingCopy, gen: nat, ghost start: Objects)
      requires Valid() && Reading(t) && !t.deleting && t.wasHeld && t.Status() == Base(t) &&
                start == stage.cluster.objects
      modifies clock, t`namespace, t.conditions
      ensures Valid() && Working(t) && Provisioned(t, start, 0)
      ensures Holds(t.conditions.items, PROGRESSING, True)
    {
      hide stage.Valid, stage.registry.Valid, CountOf, Find, SetIn, NamespaceName, TenantRules, Matches, Counts;
      Fits(t);
      t.namespace := NamespaceName(name, t.spec.namespacePrefix);
      t.conditions.MarkTrue(clock, PROGRESSING, "Reconciling", "Reconciling tenant resources", gen);
      stage.Ticked();
    }

    /** A pass over a live Tenant. It completes unless a call fails or, when it starts, a foreign
        controller, a foreign RoleRef or a draining namespace is in its way; and then the tenant's
        objects are those that a completed pass makes. An interrupted pass leaves those of some
        first steps. */
    method ReconcileTenant(t: WorkingCopy) returns (err: bool, requeueAfter: int)
      requires Valid() && Reading(t) && !t.deleting && t.held && t.wasHeld && t.Status() == Base(t)
      modifies this`environments, this`integrations, this`moved, stage`history, stage.registry, stage.cluster
      modifies clock, t, t.conditions
      ensures Valid() && Reading(t) && old(stage.history) <= stage.history && stage.Failures() >= old(stage.Failures())
      ensures Partial(t, old(stage.cluster.objects))
      ensures err <==> stage.Failures() > old(stage.Failures()) ||
                       !Completable(old(stage.cluster.objects), name, t.spec)
      ensures !err ==> requeueAfter == 300 && Matches(stage.cluster.objects, name, t.spec)
      ensures !err ==> Provisioned(t, old(stage.cluster.objects), STEPS)
      ensures !err ==> Counted(t) && t.version == |stage.registry.log| - 1 && Base(t) == t.Status() &&
                       !stage.registry.gone
      ensures !err ==> (ClaimsReady(stage.registry.Last()) <==> !t.spec.suspended)
      ensures !err ==> t.phase == (if t.spec.suspended then Suspended else Active)
    {
      hide Valid, stage.Valid, Working, Partial, Completable, Matches, Drafted, Provision, Feasible, NamespaceName;
      hide SameOwned;
      ghost var start := stage.cluster.objects;
      var gen := t.generation;
      Fits(t);
      Begin(t, gen, start);
      var reason := ProvisionAll(t, start);
      if reason != "" {
        FailPartway(t, start, reason);
        return true, 0;
      }
      AllDone(t, start);
      err, requeueAfter := CountAndConclude(t, gen, start);
      Reported(t);
    }

    lemma AllDone(t: WorkingCopy, start: Objects)
      requires Provisioned(t, start, STEPS)
      ensures Completable(start, name, t.spec)
    {
    }

    /** What a persisted status of phase Active says. */
    lemma Reported(t: WorkingCopy)
      requires Valid() && Reading(t)
      ensures t.version == |stage.registry.log| - 1 && Base(t) == t.Status() && t.observedGeneration == t.generation &&
                !t.deleting ==>
                (ClaimsReady(stage.registry.Last()) <==> t.phase == Active)
    {
      hide Matches, Find;
      Fits(t);
    }

    /** The rest of a pass that has provisioned everything. */
    method CountAndConclude(t: WorkingCopy, gen: nat, ghost start: Objects) returns (err: bool, requeueAfter: int)
      requires Valid() && Working(t) && gen == t.generation && Provisioned(t, start, STEPS)
      modifies this`environments, this`integrations, this`moved, stage`history, stage.registry
      modifies stage.cluster`objects, clock, t, t.conditions
      ensures Valid() && Reading(t) && Provisioned(t, start, STEPS) && Partial(t, start)
      ensures old(stage.history) <= stage.history && stage.Failures() >= old(stage.Failures())
      ensures err ==> stage.Failures() > old(stage.Failures())
      ensures !err ==> requeueAfter == 300 && Matches(stage.cluster.objects, name, t.spec)
      ensures !err ==> Counted(t) && t.version == |stage.registry.log| - 1 && Base(t) == t.Status() &&
                       !stage.registry.gone
      ensures !err ==> t.observedGeneration == gen
      ensures !err ==> t.phase == (if t.spec.suspended then Suspended else Active)
      ensures !err ==> stage.Failures() == old(stage.Failures())
    {
      hide Own, stage.Valid, Completable, Matches, Drafted, Provision, Feasible, NamespaceName, Find;
      Fits(t);
      var ok := Inventory(t, start);
      if !ok {
        Fail(t, "InventoryError", "cause");
        return true, 0;
      }
      IsConverged(t, start);
      ok := Conclude(t, gen);
      if !ok {
        return true, 0;
      }
      IsConverged(t, start);
      return false, RESYNC_SECONDS;
    }

    lemma IsConverged(t: WorkingCopy, start: Objects)
      requires Provisioned(t, start, STEPS)
      ensures Matches(stage.cluster.objects, name, t.spec)
    {
      hide Matches, Provision;
      ProvisionMatches(start, name, t.spec, Key(Secret, "", ""));
      MatchesKept(Provision(start, name, t.spec, STEPS), stage.cluster.objects, name, t.spec);
    }

    method FailPartway(t: WorkingCopy, ghost start: Objects, reason: string)
      requires Valid() && Working(t) && Partial(t, start)
      modifies this`environments, this`integrations, this`moved, stage`history, stage.registry
      modifies stage.cluster`objects, clock, t, t.conditions
      ensures Valid() && Reading(t) && Partial(t, start)
      ensures old(stage.history) <= stage.history && stage.Failures() >= old(stage.Failures())
    {
      hide stage.Valid, Provision, NamespaceName, Owns, SameOwned, Own, Find;
      Fits(t);
      ghost var before := stage.cluster.objects;
      Fail(t, reason, "cause");
      StillPartial(t, start, before);
    }

    lemma StillPartial(t: WorkingCopy, start: Objects, before: Objects)
      requires exists n: nat | n <= STEPS ::
                 SameOwned(NamespaceName(name, t.spec.namespacePrefix), before, Provision(start, name, t.spec, n))
      requires SameOwned(NamespaceName(name, t.spec.namespacePrefix), before, stage.cluster.objects)
      ensures Partial(t, start)
    {
      hide Provision, NamespaceName, Owns;
      var n: nat :| n <= STEPS && SameOwned(NamespaceName(name, t.spec.namespacePrefix), before,
                                            Provision(start, name, t.spec, n));
      assert SameOwned(NamespaceName(name, t.spec.namespacePrefix), stage.cluster.objects,
                       Provision(start, name, t.spec, n));
    }

    // ---- A pass over a deleted Tenant ----

    /** A pass that has read the deletion timestamp. */
    ghost predicate Closing(t: WorkingCopy)
      reads stage`busy, stage.registry, t`version, t`namespace
    {
      && Reading(t) && t.deleting && t.namespace == Base(t).namespace
      && t.namespace in {"", NamespaceName(name, prefix)}
    }

    method DraftTerminating(t: WorkingCopy)
      requires Valid() && Closing(t) && t.Status() == Base(t) && t.held && t.wasHeld
      modifies clock, t`phase, t.conditions
      ensures Valid() && Closing(t) && Drafted(t, t.Status())
      ensures t.phase == Terminating && Holds(t.conditions.items, READY, False)
    {
      hide stage.Valid, stage.registry.Valid, CountOf, Matches, Find, SetIn, NamespaceName, ReadyHonest;
      Fits(t);
      t.phase := Terminating;
      ghost var before := t.conditions.items;
      t.conditions.MarkFalse(clock, READY, "Terminating", "Tenant is terminating", t.generation);
      stage.Ticked();
      DraftFits(name, prefix, stage.registry.log[t.version], before, t.Status(),
                Entry(READY, False, "Terminating", "Tenant is terminating", t.generation), clock.time, stage.started,
                  clock.time);
    }

    /** The best-effort status write: whatever becomes of it, the pass goes on. */
    method ReportTerminating(t: WorkingCopy)
      requires Valid() && Closing(t) && Drafted(t, t.Status())
      modifies this`environments, this`integrations, this`moved, stage`history, stage.registry
      modifies stage.cluster`objects, t`version
      ensures Valid() && Closing(t) && old(stage.history) <= stage.history && stage.Failures() >= old(stage.Failures())
      ensures Up() <==> old(Up())
    {
      hide stage.Valid, Own, Matches, VersionFits, ReadyHonest, ClaimsReady, NamespaceName, CountOf;
      Wait(t, t.Status());
      NamespaceKept(old(stage.cluster.objects));
      var _ := Commit(t);
    }

    /** What others do leaves the teardown where it is. */
    method Yield(t: WorkingCopy)
      requires Valid() && Closing(t)
      modifies this`environments, this`integrations, this`moved, stage`history, stage.registry, stage.cluster`objects
      ensures Valid() && Closing(t) && old(stage.history) <= stage.history && stage.Failures() >= old(stage.Failures())
      ensures SameOwned(NamespaceName(name, prefix), old(stage.cluster.objects), stage.cluster.objects)
    {
      hide stage.Valid, stage.registry.Valid, CountOf, NamespaceName, Matches, VersionFits;
      ghost var before := stage.cluster.objects;
      Others();
      assert forall key | stage.rules.managed(key) :: Slot(stage.cluster.objects, key) == Slot(before, key);
    }

    method DeleteNamespace(t: WorkingCopy) returns (done: bool, ok: bool)
      requires Valid() && Closing(t) && t.namespace != ""
      modifies stage`history, stage.cluster
      ensures Valid() && Closing(t) && old(stage.history) <= stage.history && stage.Failures() >= old(stage.Failures())
      ensures done == ok && (!ok ==> stage.Failures() > old(stage.Failures()))
      ensures ok ==> Reclaimed(stage.cluster.objects, NamespaceKey(NamespaceName(name, prefix)))
    {
      hide stage.Valid, stage.Unrecorded, stage.registry.Valid, CountOf, NamespaceName, Matches, VersionFits;
      hide Receding, ClaimsReady;
      ghost var before := stage.cluster.objects;
      stage.ValidParts();
      done, ok := EnsureNamespaceDeleted(stage.cluster, t.namespace);
      SlotsRecede(before, stage.cluster.objects, NamespaceKey(t.namespace));
      ApartFromOthers(before, stage.cluster.objects);
      stage.Called();
      stage.Cleared(before);
    }

    /** Deletes the namespace, unless it is to be orphaned or was never named. */
    method Dismantle(t: WorkingCopy) returns (done: bool, ok: bool)
      requires Valid() && Closing(t)
      modifies this`environments, this`integrations, this`moved, stage`history, stage.registry, stage.cluster
      ensures Valid() && Closing(t) && old(stage.history) <= stage.history && stage.Failures() >= old(stage.Failures())
      ensures done == ok && (!ok ==> stage.Failures() > old(stage.Failures()))
      ensures ok ==> (Up() <==> (t.spec.deletionPolicy == Orphan || t.namespace == "") && old(Up()))
    {
      hide stage.Valid, Own, NamespaceName, CountOf, Reading;
      Yield(t);
      NamespaceKept(old(stage.cluster.objects));
      if t.spec.deletionPolicy != Orphan && t.namespace != "" {
        done, ok := DeleteNamespace(t);
        if !ok {
          return false, false;
        }
      }
      ghost var before := stage.cluster.objects;
      Yield(t);
      NamespaceKept(before);
      return true, true;
    }

    /** The tenant namespace is there to stay. */
    ghost predicate Up()
      reads stage.cluster
    {
      Live(stage.cluster.objects, NamespaceKey(NamespaceName(name, prefix)))
    }

    lemma NamespaceKept(before: Objects)
      requires SameOwned(NamespaceName(name, prefix), before, stage.cluster.objects)
      ensures Up() <==> Live(before, NamespaceKey(NamespaceName(name, prefix)))
    {
      assert Owns(NamespaceName(name, prefix), NamespaceKey(NamespaceName(name, prefix)));
    }

    /** Removes the finalizer; the Tenant goes with it. */
    method Release(t: WorkingCopy) returns (ok: bool)
      requires Valid() && Closing(t)
      requires t.spec.deletionPolicy != Orphan && t.namespace != "" ==> !Up()
      modifies this`environments, this`integrations, this`moved, stage`history, stage`released, stage.registry
      modifies stage.cluster`objects, t`held
      ensures Valid() && stage.busy && stage.Stopping()
      ensures old(stage.history) <= stage.history && stage.Failures() >= old(stage.Failures())
      ensures if ok then stage.registry.gone else stage.Failures() > old(stage.Failures())
      ensures Up() <==> old(Up())
    {
      hide stage.Valid, CountOf, NamespaceName, Matches, VersionFits, ClaimsReady, stage.cluster.Valid;
      t.held := false;
      Yield(t);
      NamespaceKept(old(stage.cluster.objects));
      ok := stage.Release(t.version);
    }

    /** A finalize pass sees the Tenant gone or has met a failing call. When it releases the
        Tenant, its namespace is left alive exactly if it was alive before and the Tenant
        orphans it or the status does not name it. */
    method Finalize(t: WorkingCopy) returns (err: bool, requeueAfter: int)
      requires Valid() && Closing(t) && t.Status() == Base(t) && t.held == t.wasHeld
      modifies this`environments, this`integrations, this`moved, stage`history, stage`released, stage.registry
      modifies stage.cluster, clock
      modifies t`version, t`phase, t`held, t.conditions
      ensures Valid() && stage.busy && stage.Stopping()
      ensures old(stage.history) <= stage.history && stage.Failures() >= old(stage.Failures())
      ensures stage.registry.gone || stage.Failures() > old(stage.Failures())
      ensures !old(stage.released) && stage.released ==>
                (Up() <==> (t.spec.deletionPolicy == Orphan || t.namespace == "") && old(Up()))
      ensures err ==> stage.Failures() > old(stage.Failures())
      ensures !err ==> requeueAfter == 0
    {
      hide stage.Valid, NamespaceName, Drafted, Own, stage.cluster.Valid, SameOwned, Up;
      stage.ValidParts();
      if !t.held {
        return false, 0;
      }
      DraftTerminating(t);
      ReportTerminating(t);
      var done, ok := Dismantle(t);
      if !ok {
        return true, 0;
      }
      if !done {
        return false, 5;
      }
      var released := Release(t);
      return !released, 0;
    }

    // ---- Runs ----

    /** What a pass without error has done about the version it saw: a live Tenant has got its
        finalizer, or with it everything that its spec asks for. */
    ghost predicate HandledPass(seen: Option<Tenant>)
      reads stage.registry, stage.cluster
    {
      if seen.None? then stage.registry.gone
      else !seen.value.deleting ==>
             if seen.value.held then Matches(stage.cluster.objects, name, seen.value.spec) else stage.registry.Held()
    }

    /** Something other than a failing call stops a pass over this version. */
    predicate Stopped(seen: Option<Tenant>, objects: Objects) {
      seen.Some? && !seen.value.deleting && seen.value.held && !Completable(objects, name, seen.value.spec)
    }

    /** A live Tenant with its finalizer is looked at again after the resync period. */
    function DelayFor(seen: Option<Tenant>): int {
      if seen.Some? && !seen.value.deleting && seen.value.held then 300 else 0
    }

    method PassLive(t: WorkingCopy) returns (err: bool, requeueAfter: int)
      requires Valid() && Reading(t) && !t.deleting && t.Status() == Base(t) && t.held == t.wasHeld
      requires t.version == stage.registry.read
      modifies this`environments, this`integrations, this`moved, stage`history, stage.registry, stage.cluster
      modifies clock, t, t.conditions
      ensures Valid() && stage.busy && old(stage.history) <= stage.history && stage.Failures() >= old(stage.Failures())
      ensures err || Settled()
      ensures !err && !old(t.held) ==> stage.registry.Held()
      ensures !err && old(t.held) ==> Matches(stage.cluster.objects, name, t.spec)
      ensures old(t.held) ==>
                (err <==> stage.Failures() > old(stage.Failures()) ||
                          !Completable(old(stage.cluster.objects), name, t.spec))
      ensures !old(t.held) ==> (err <==> stage.Failures() > old(stage.Failures()))
      ensures !err ==> requeueAfter == if old(t.held) then 300 else 0
    {
      hide stage.Valid, CountOf, NamespaceName, Matches, Completable, Partial, Provisioned, TenantRules;
      if !t.held {
        t.held := true;
        Others();
        stage.ValidParts();
        var ok := stage.AddFinalizer(t.version);
        return !ok, 0;
      }
      err, requeueAfter := ReconcileTenant(t);
    }

    method PassOver(version: nat, tenant: Tenant) returns (err: bool, requeueAfter: int)
      requires Valid() && stage.busy && version == stage.registry.read < |stage.registry.log| && tenant == stage.Copy()
      modifies this`environments, this`integrations, this`moved, stage`history, stage`released, stage.registry
      modifies stage.cluster, clock
      ensures Valid() && stage.busy && old(stage.history) <= stage.history && stage.Failures() >= old(stage.Failures())
      ensures err || Settled()
      ensures tenant.deleting ==> stage.registry.gone || stage.Failures() > old(stage.Failures())
      ensures !err ==> HandledPass(Some(tenant))
      ensures tenant.held && !tenant.deleting ==>
                (err <==> stage.Failures() > old(stage.Failures()) ||
                          !Completable(old(stage.cluster.objects), name, tenant.spec))
      ensures !tenant.held && !tenant.deleting ==> (err <==> stage.Failures() > old(stage.Failures()))
      ensures err && tenant.deleting ==> stage.Failures() > old(stage.Failures())
      ensures !err ==> requeueAfter == DelayFor(Some(tenant))
    {
      hide stage.Valid, CountOf, NamespaceName, Matches, Own;
      var t := new WorkingCopy(version, tenant);
      assert Reading(t);
      if t.deleting {
        Fits(t);
        err, requeueAfter := Finalize(t);
        FinalizedIsSettled();
      } else {
        err, requeueAfter := PassLive(t);
      }
    }

    lemma FinalizedIsSettled()
      requires Valid() && stage.Stopping()
      ensures Settled()
    {
      FitsAt(stage.rules, stage.registry.log, stage.registry.gone, stage.registry.read, stage.registry.read);
    }

    lemma StoppedKept(tenant: Tenant, before: Objects)
      requires Valid() && stage.registry.read < |stage.registry.log| && tenant == stage.Copy()
      requires forall key | stage.rules.managed(key) :: Slot(stage.cluster.objects, key) == Slot(before, key)
      ensures Stopped(Some(tenant), before) == Stopped(Some(tenant), stage.cluster.objects)
    {
      hide Completable, Matches;
      FitsAt(stage.rules, stage.registry.log, stage.registry.gone, stage.registry.read, stage.registry.read);
      assert forall key | Owns(NamespaceName(name, prefix), key) :: stage.rules.managed(key);
      CompletableKept(before, stage.cluster.objects, name, tenant.spec);
    }

    method Pass() returns (err: bool, requeueAfter: int, ghost seen: Option<Tenant>)
      requires Valid() && stage.busy
      modifies this`environments, this`integrations, this`moved, stage`history, stage`released, stage.registry
      modifies stage.cluster, clock
      ensures Valid() && stage.busy && old(stage.history) <= stage.history && stage.Failures() >= old(stage.Failures())
      ensures err || Settled()
      ensures old(stage.Stopping()) ==> stage.registry.gone || stage.Failures() > old(stage.Failures())
      ensures !err ==> HandledPass(seen)
      ensures err ==> stage.Failures() > old(stage.Failures()) || Stopped(seen, old(stage.cluster.objects))
      ensures !err && (seen.Some? ==> !seen.value.deleting) ==>
                stage.Failures() == old(stage.Failures()) && !Stopped(seen, old(stage.cluster.objects))
      ensures !err ==> requeueAfter == DelayFor(seen)
    {
      hide stage.Valid, CountOf, NamespaceName, TenantRules, stage.registry.Valid, stage.cluster.Valid;
      stage.ValidParts();
      Others();
      var r := stage.Fetch();
      stage.ValidParts();
      match r {
        case Failed =>
          err, requeueAfter, seen := true, 0, None;
        case NotFound =>
          err, requeueAfter, seen := false, 0, None;
        case Found(version, tenant) =>
          seen := Some(tenant);
          StoppedKept(tenant, old(stage.cluster.objects));
          err, requeueAfter := PassOver(version, tenant);
      }
    }

    /** One pass for the key, from the work queue's hand-over to its return. Once the deletion
        has been read, every pass sees the Tenant gone or meets a failing call. */
    method Reconcile() returns (err: bool, requeueAfter: int, ghost seen: Option<Tenant>)
      requires Valid() && !stage.busy
      modifies this, stage, stage.registry, stage.cluster, clock
      ensures Valid() && !stage.busy && old(stage.history) <= stage.history && stage.Failures() >= old(stage.Failures())
      ensures err ==> stage.registry.pending
      ensures old(stage.Stopping()) ==> stage.registry.gone || stage.Failures() > old(stage.Failures())
      ensures !err ==> HandledPass(seen)
      ensures err ==> stage.Failures() > old(stage.Failures()) || Stopped(seen, old(stage.cluster.objects))
      ensures !err && (seen.Some? ==> !seen.value.deleting) ==>
                stage.Failures() == old(stage.Failures()) && !Stopped(seen, old(stage.cluster.objects))
      ensures !err ==> requeueAfter == DelayFor(seen)
    {
      hide stage.Valid, CountOf, NamespaceName, TenantRules, stage.registry.Valid, stage.cluster.Valid;
      stage.ValidParts();
      stage.Take();
      err, requeueAfter, seen := Pass();
      stage.Finish(err);
    }

    /** Any run: acts of the world and passes for the key, in any order and with any faults.
        Every moment of it is good and so is every step; and no child update is lost. */
    method Operate(rounds: nat)
      requires Valid() && !stage.busy
      modifies this, stage, stage.registry, stage.cluster, clock
      ensures Valid() && !stage.busy && old(stage.history) <= stage.history
      ensures Faithful(TenantRules(name, prefix), stage.history)
      ensures stage.registry.Held() && !stage.registry.Last().deleting && !stage.registry.pending &&
              stage.registry.seen == |stage.registry.log| - 1 ==>
                && stage.registry.Last().status.environmentCount == |set k | k in environments &&
                     environments[k] == name|
                && stage.registry.Last().status.integrationCount == |set k | k in integrations &&
                     integrations[k] == name|
    {
      hide stage.Valid, Faithful, CountOf, NamespaceName, TenantRules;
      for i := 0 to rounds
        invariant Valid() && !stage.busy && old(stage.history) <= stage.history
      {
        Others();
        if stage.registry.pending {
          var _, _, _ := Reconcile();
        }
      }
      stage.IsFaithful();
      CountMeans(environments, name);
      CountMeans(integrations, name);
    }

    /** One more pass after the deletion has been read. */
    method TeardownPass()
      requires Valid() && !stage.busy && stage.Stopping()
      modifies this, stage, stage.registry, stage.cluster, clock
      ensures Valid() && !stage.busy && stage.Stopping() && (old(stage.registry.gone) ==> stage.registry.gone)
      ensures stage.Failures() >= old(stage.Failures())
      ensures stage.registry.gone || stage.Failures() > old(stage.Failures())
    {
      hide stage.Valid, Faithful, CountOf, NamespaceName, TenantRules;
      ghost var n := |stage.history| - 1;
      stage.IsFaithful();
      Others();
      var _, _, _ := Reconcile();
      stage.IsFaithful();
      Sticky(stage.rules, stage.history, n, |stage.history| - 1);
    }

    /** Teardown terminates: once the deletion has been read, each pass that does not see the
        Tenant gone has met a failing call, so k failing calls delay the release by at most k
        passes, whatever users and caches do in between. */
    method Teardown(passes: nat)
      requires Valid() && !stage.busy && stage.Stopping()
      modifies this, stage, stage.registry, stage.cluster, clock
      ensures Valid() && !stage.busy
      ensures stage.registry.gone || stage.Failures() >= old(stage.Failures()) + passes
    {
      hide stage.Valid, Own;
      for i := 0 to passes
        invariant Valid() && !stage.busy && stage.Stopping()
        invariant stage.registry.gone || stage.Failures() >= old(stage.Failures()) + i
      {
        TeardownPass();
      }
    }
  }
}
