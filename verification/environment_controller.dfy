/** internal/controller/environment_controller.go: the Environment reconciler. */
module EnvironmentControllers {
  import opened Base
  import opened Labels
  import opened Conditions
  import opened Clusters
  import opened Namespaces
  import opened Quotas
  import opened Configs
  import opened Convergence
  import opened GitOps
  import opened Registries
  import opened Stages
  import opened EnvironmentResources
  import opened EnvironmentWebhook
  import opened EnvironmentStates

  /** What a lookup of the owning tenant finds: nothing, or the namespace in its status. */
  datatype TenantView = Absent | Present(namespace: string)

  /** The object a pass works on: what was read, with a status that is changed in memory. */
  class WorkingCopy {
    const version: nat
    const spec: EnvironmentSpec
    const generation: nat
    const held: bool
    const conditions: ConditionList
    var phase: EnvironmentPhase
    var observedGeneration: nat
    var targetNamespace: string
    var sync: Option<SyncStatus>
    var url: string
    var expiresAt: Option<int>
    var lastReconcileTime: Option<int>

    constructor (version: nat, e: Environment)
      ensures this.version == version && spec == e.spec && generation == e.generation && held == e.held
      ensures Status() == e.status && fresh(conditions)
    {
      this.version := version;
      spec, generation, held := e.spec, e.generation, e.held;
      phase, observedGeneration, targetNamespace := e.status.phase, e.status.observedGeneration,
        e.status.targetNamespace;
      sync, url, expiresAt := e.status.sync, e.status.url, e.status.expiresAt;
      lastReconcileTime := e.status.lastReconcileTime;
      var list := new ConditionList(e.status.conditions);
      conditions := list;
    }

    function Status(): EnvironmentStatus
      reads this, conditions
    {
      EnvironmentStatus(phase, conditions.items, observedGeneration, targetNamespace, sync, url, expiresAt,
                        lastReconcileTime)
    }
  }

  /** `tenants` are the outcomes of the n-th tenant lookup, `reports` what the engine has
      written on its object by the n-th pass, `profileQuota` the quota of a profile. The
      namespace of the tenant has one name throughout. */
  class EnvironmentController {
    const site: Site
    const tenantNamespace: string
    const created: int
    const stage: Stage<EnvironmentSpec, EnvironmentStatus>
    const clock: Clock
    const tenants: nat -> TenantView
    const reports: nat -> Report
    const profileQuota: string -> ResourceList
    var lookups: nat
    ghost var visits: seq<Visit>

    ghost predicate Valid()
      reads stage, stage.registry, stage.cluster, stage.clock
    {
      stage.Valid() && Own()
    }

    ghost predicate Own()
      reads stage, stage.registry
    {
      && stage.rules == EnvironmentRules(site, created, profileQuota)
      && clock == stage.clock && site.engines == stage.cluster.engines
      && site.target == tenantNamespace + "-" + site.environment
      && (forall n: nat :: tenants(n).Present? ==> tenants(n).namespace in {"", tenantNamespace})
      && (forall s: EnvironmentSpec :: stage.registry.identity(s) == s.tenantRef)
      && stage.registry.log != [] && stage.registry.log[0].spec.tenantRef == site.tenant
    }

    constructor (name: string, namespace: string, tenantNamespace: string, created: int, spec: EnvironmentSpec,
                 schedule: nat -> Turn<EnvironmentSpec>, cluster: Cluster, clock: Clock, moves: nat -> Move,
                 bursts: nat -> nat, tenants: nat -> TenantView, reports: nat -> Report,
                 profileQuota: string -> ResourceList)
      requires cluster.Valid() && spec == Defaulted(spec) && EnvironmentWebhook.Valid(spec)
      requires forall n: nat :: tenants(n).Present? ==> tenants(n).namespace in {"", tenantNamespace}
      ensures Valid() && !stage.busy && !stage.released
      ensures site == Site(name, namespace, spec.tenantRef, tenantNamespace + "-" + name, cluster.engines)
      ensures this.tenantNamespace == tenantNamespace && this.tenants == tenants
      ensures stage.bursts == bursts && stage.cluster == cluster && stage.registry.schedule == schedule
      ensures fresh(stage) && fresh(stage.registry) && this.clock == clock
      ensures stage.registry.log == [Resource(spec, 1, false, false, EMPTY_STATUS)] && !stage.registry.gone
      ensures stage.registry.turn == 0 && stage.registry.seen == 0 && visits == [] && this.created == created
    {
      hide EnvironmentRules;
      site := Site(name, namespace, spec.tenantRef, TargetNamespace(tenantNamespace, name), cluster.engines);
      this.tenantNamespace, this.created, this.clock := tenantNamespace, created, clock;
      this.tenants, this.reports, this.profileQuota := tenants, reports, profileQuota;
      var registry := new Registry<EnvironmentSpec, EnvironmentStatus>(
        schedule, (a, b) => AdmitsUpdate(a, b), (s: EnvironmentSpec) => s.tenantRef, spec, EMPTY_STATUS);
      var rules := EnvironmentRules(
        Site(name, namespace, spec.tenantRef, TargetNamespace(tenantNamespace, name), cluster.engines), created,
        profileQuota);
      RulesAreLawful(Site(name, namespace, spec.tenantRef, TargetNamespace(tenantNamespace, name), cluster.engines),
                     created, profileQuota, registry.identity);
      StartsWell(Site(name, namespace, spec.tenantRef, TargetNamespace(tenantNamespace, name), cluster.engines),
                 created, profileQuota, registry.Last(), cluster.objects);
      var s := new Stage(rules, rules.managed, registry, cluster, clock, moves, bursts);
      stage := s;
      lookups, visits := 0, [];
    }

    // ---- A pass over a live Environment ----

    /** `t` is the version that was read, and nothing of it has been persisted yet. A target
        once persisted is never replaced. */
    ghost predicate Working(t: WorkingCopy)
      reads stage, stage.registry, t, t.conditions
    {
      && stage.busy && t.version == stage.registry.read < |stage.registry.log|
      && var copy := stage.Copy();
         && t.spec == copy.spec && t.generation == copy.generation && copy.held && !copy.deleting
         && t.targetNamespace in {"", site.target}
         && (copy.status.targetNamespace != "" ==> t.targetNamespace == copy.status.targetNamespace)
         && Unique(t.conditions.items)
    }

    /** The draft may be persisted. */
    ghost predicate Ready(t: WorkingCopy)
      reads t, t.conditions
    {
      PhaseAgrees(t.Status()) && NamesTarget(t.Status(), site.target)
    }

    /** No call to the cluster ever fails. */
    ghost predicate Faultless() {
      forall n :: stage.cluster.faults(n) == Served
    }

    /** The workload namespace is there to stay. */
    ghost predicate Up()
      reads stage.cluster
    {
      Live(stage.cluster.objects, NamespaceKey(site.target))
    }

    /** There is no workload namespace yet, and nothing that could keep a pass from making it. */
    ghost predicate Fresh()
      reads stage.cluster
    {
      Faultless() && stage.Alone() && NamespaceKey(site.target) !in stage.cluster.objects
    }

    method UpdateStatus(t: WorkingCopy, gen: nat) returns (ok: bool)
      requires Valid() && Working(t) && Ready(t) && gen == t.generation
      requires t.phase in {Healthy, Syncing, Degraded} ==> Provides(t.spec)
      modifies stage`history, stage`moved, stage.registry, stage.cluster`objects, clock, t`observedGeneration
      modifies t`lastReconcileTime
      ensures Valid() && stage.busy && old(stage.history) <= stage.history && stage.Failures() >= old(stage.Failures())
      ensures if ok then stage.Failures() == old(stage.Failures()) else stage.Failures() > old(stage.Failures())
      ensures ok ==> stage.registry.Last().status == t.Status()
      ensures t.observedGeneration == gen
      ensures stage.ManagedKept() && old(clock.time) <= clock.time
      ensures old(Up()) ==> Up()
      ensures old(stage.WillRefuse()) ==> stage.Calls(1)
    {
      hide stage.Valid, PhaseAgrees, NamesTarget, EnvironmentRules, stage.registry.Valid, stage.cluster.Valid, Unique;
      ghost var draft := t.Status();
      t.observedGeneration := gen;
      var now := clock.Now();
      stage.Ticked();
      t.lastReconcileTime := Some(now);
      stage.Others();
      StillProvides(t.spec, old(stage.cluster.objects));
      DraftFits(site, created, profileQuota, stage.Copy(), draft, now, stage.cluster.objects);
      var written;
      ghost var landed;
      ok, written, landed := stage.CommitStatus(t.version, t.Status());
      NamespaceKept(old(stage.cluster.objects));
    }

    /** Namespace, quota, configuration and delivery are what the spec asks for. */
    ghost predicate Provides(spec: EnvironmentSpec)
      reads stage.cluster
    {
      Settled(stage.cluster.objects, BlueprintOf(site, profileQuota, spec))
    }

    lemma StillProvides(spec: EnvironmentSpec, before: Objects)
      requires Valid()
      requires forall key | stage.rules.managed(key) :: Slot(stage.cluster.objects, key) == Slot(before, key)
      ensures Settled(before, BlueprintOf(site, profileQuota, spec)) ==> Provides(spec)
    {
      hide stage.Valid, Settled, PhaseAgrees, NamesTarget;
      StillOwned(before);
      if Settled(before, BlueprintOf(site, profileQuota, spec)) {
        SettledKept(before, stage.cluster.objects, BlueprintOf(site, profileQuota, spec));
      }
    }

    /** What is managed here is what the environment owns. */
    lemma StillOwned(before: Objects)
      requires Own()
      requires forall key | stage.rules.managed(key) :: Slot(stage.cluster.objects, key) == Slot(before, key)
      ensures SameOwned(site, before, stage.cluster.objects)
    {
      hide PhaseAgrees, NamesTarget, Settled;
      assert forall key | Owns(site, key) :: stage.rules.managed(key);
    }

    lemma NamespaceKept(before: Objects)
      requires Valid()
      requires forall key | stage.rules.managed(key) :: Slot(stage.cluster.objects, key) == Slot(before, key)
      ensures Live(before, NamespaceKey(site.target)) ==> Up()
    {
      assert Slot(stage.cluster.objects, NamespaceKey(site.target)) == Slot(before, NamespaceKey(site.target));
    }

    /** Leaves everything as it is while the Environment is suspended. */
    method Suspend(t: WorkingCopy, gen: nat) returns (err: bool)
      requires Valid() && Working(t) && gen == t.generation
      modifies stage`history, stage`moved, stage.registry, stage.cluster`objects, clock, t, t.conditions
      ensures Valid() && stage.busy && old(stage.history) <= stage.history && stage.Failures() >= old(stage.Failures())
      ensures if err then stage.Failures() > old(stage.Failures()) else stage.Failures() == old(stage.Failures())
      ensures old(clock.time) <= clock.time
      ensures stage.ManagedKept()
      ensures !err ==> stage.registry.Last().status.phase == Suspended
      ensures !err ==> stage.registry.Last().status.observedGeneration == t.generation
      ensures !err ==> Holds(stage.registry.Last().status.conditions, READY, False)
    {
      hide stage.Valid, EnvironmentRules, Find, SetIn, stage.registry.Valid;
      t.conditions.MarkFalse(clock, READY, "Suspended", "Environment is suspended", gen);
      stage.Ticked();
      t.phase := Suspended;
      var ok := UpdateStatus(t, gen);
      return !ok;
    }

    /** Records a missing prerequisite and asks for a retry. */
    method BlockOnDependency(t: WorkingCopy, msg: string) returns (err: bool, requeueAfter: int)
      requires Valid() && Working(t)
      modifies stage`history, stage`moved, stage.registry, stage.cluster`objects, clock, t, t.conditions
      ensures Valid() && stage.busy && old(stage.history) <= stage.history && stage.Failures() >= old(stage.Failures())
      ensures if err then stage.Failures() > old(stage.Failures()) else stage.Failures() == old(stage.Failures())
      ensures old(clock.time) <= clock.time
      ensures stage.ManagedKept()
      ensures !err ==> requeueAfter == 15 && stage.registry.Last().status.phase == Pending
      ensures !err ==> stage.registry.Last().status.observedGeneration == t.generation
      ensures !err ==> Holds(stage.registry.Last().status.conditions, READY, False)
    {
      hide stage.Valid, EnvironmentRules, Find, SetIn, stage.registry.Valid;
      t.conditions.MarkFalse(clock, READY, "DependencyNotMet", msg, t.generation);
      stage.Ticked();
      t.phase := Pending;
      var ok := UpdateStatus(t, t.generation);
      return !ok, if ok then DEPENDENCY_RETRY_SECONDS else 0;
    }

    /** Records the failure; the status write may fail too, and the cause is returned anyway. */
    method Fail(t: WorkingCopy, reason: string, cause: string)
      requires Valid() && Working(t) && t.targetNamespace == site.target
      modifies stage`history, stage`moved, stage.registry, stage.cluster`objects, clock
      modifies t`phase, t`observedGeneration, t`lastReconcileTime, t.conditions
      ensures Valid() && stage.busy && old(stage.history) <= stage.history && stage.Failures() >= old(stage.Failures())
      ensures old(clock.time) <= clock.time
      ensures old(stage.WillRefuse()) ==> stage.Calls(1)
      ensures old(Up()) ==> Up()
      ensures t.phase.Failed? && Holds(t.conditions.items, DEGRADED, True) && Holds(t.conditions.items, READY, False)
      ensures stage.registry.Last().status == t.Status() || stage.Failures() > old(stage.Failures())
      ensures stage.ManagedKept()
    {
      hide stage.Valid, EnvironmentRules, Find, SetIn, stage.registry.Valid, Up;
      t.conditions.MarkTrue(clock, DEGRADED, reason, cause, t.generation);
      t.conditions.MarkFalse(clock, READY, reason, cause, t.generation);
      stage.Ticked();
      t.phase := EnvironmentPhase.Failed;
      var _ := UpdateStatus(t, t.generation);
    }

    /** Looks the owning tenant up. */
    method FindTenant(t: WorkingCopy) returns (ok: bool, tenant: TenantView)
      requires Valid() && Working(t)
      modifies this`lookups, stage`history, stage`moved, stage.registry, stage.cluster`objects
      ensures Valid() && Working(t) && old(stage.history) <= stage.history && stage.Failures() >= old(stage.Failures())
      ensures if ok then stage.Failures() == old(stage.Failures()) else stage.Failures() > old(stage.Failures())
      ensures tenant.Present? ==> tenant.namespace in {"", tenantNamespace}
      ensures stage.Calls(1)
      ensures stage.ManagedKept()
      ensures stage.Alone() ==> (ok <==> stage.registry.schedule(old(stage.registry.turn)).outcome == Served)
      ensures stage.Copy() == old(stage.Copy())
      ensures tenant == tenants(old(lookups)) && lookups == old(lookups) + 1 && (old(Fresh()) ==> Fresh())
    {
      hide stage.Valid, EnvironmentRules, stage.registry.Valid, Unique;
      stage.Others();
      ok := stage.Answered();
      tenant := tenants(lookups);
      lookups := lookups + 1;
    }

    // ---- The steps ----

    /** `b` is what this pass provisions; the selectors are resolved later. */
    ghost predicate Plans(spec: EnvironmentSpec, b: Blueprint) {
      b == Blueprint(site, profileQuota(spec.profile), spec.variables, spec.secretRefs, b.collected, spec.delivery)
    }

    /** The first k steps of the blueprint are done, in a pass that found `start`. */
    ghost predicate Done(t: WorkingCopy, b: Blueprint, start: Objects, k: nat)
      reads stage, stage.cluster, t`targetNamespace
    {
      Plans(t.spec, b) && t.targetNamespace == site.target && Reached(stage.cluster.objects, start, b, k)
    }

    /** The selectors were resolved against the Secrets of one moment, not before the from-th. */
    ghost predicate FromSources(b: Blueprint, from: int)
      reads stage`history
    {
      exists n: nat | n < |stage.history| && from <= n ::
        b.collected == Collect(stage.history[n].objects, site.namespace, b.selectors)
    }

    /** What a pass over a live Environment that found `start` has made of it: some first steps
        of the blueprint of its spec and nothing else; all of them, with the Secret from its
        sources, if it says that it has provisioned; and none if it says that it did not try. */
    ghost predicate Made(spec: EnvironmentSpec, b: Blueprint, start: Objects, from: int, ending: Ending)
      reads stage`history, stage.cluster
    {
      && Plans(spec, b) && Partial(stage.cluster.objects, start, b)
      && (ending.Provisioned? ==> Reached(stage.cluster.objects, start, b, |b.Keys()|) && FromSources(b, from))
      && (ending in {Enrolled, Suspending, Blocked, Expired} ==> SameOwned(site, stage.cluster.objects, start))
    }

    /** Everything that the spec asks for is there, and the projected Secret has what its sources
        held at a moment that is not before the from-th. */
    ghost predicate Complete(spec: EnvironmentSpec, from: int)
      reads stage`history, stage.cluster
    {
      && Provided(stage.cluster.objects, site, profileQuota, spec)
      && exists n: nat | n < |stage.history| && from <= n ::
           Projected(stage.cluster.objects, site, spec, stage.history[n].objects)
    }

    /** The persisted sync status is what the engine has reported, on the objects of a moment that
        is not before the from-th. */
    ghost predicate Echoed(spec: EnvironmentSpec, lookup: nat, from: int)
      reads stage`history, stage.registry
    {
      && stage.registry.log != []
      && exists n: nat | n < |stage.history| && from <= n ::
           Echoes(stage.registry.Last().status.sync, spec.delivery, site, reports(lookup), stage.history[n].objects)
    }

    lemma EchoedEarlier(spec: EnvironmentSpec, lookup: nat, from: int, before: int)
      requires Echoed(spec, lookup, from) && before <= from
      ensures Echoed(spec, lookup, before)
    {
      hide Echoes;
    }

    lemma MadeMeans(spec: EnvironmentSpec, b: Blueprint, start: Objects, from: int)
      requires Made(spec, b, start, from, Provisioned)
      ensures Complete(spec, from)
    {
      hide Provided, Projected, DoneIn, Collect, b.Keys, Partial, SameOwned;
      var n: nat :| n < |stage.history| && from <= n &&
        b.collected == Collect(stage.history[n].objects, site.namespace, b.selectors);
      DoneMeans(stage.cluster.objects, site, profileQuota, spec, b, stage.history[n].objects);
      assert Projected(stage.cluster.objects, site, spec, stage.history[n].objects);
    }

    /** What was there before the pass began is as good a start. */
    lemma MadeEarlier(spec: EnvironmentSpec, b: Blueprint, start: Objects, earlier: Objects, from: int, before: int,
                      ending: Ending)
      requires Made(spec, b, start, from, ending) && before <= from
      requires start == earlier || SameOwned(site, start, earlier)
      ensures Made(spec, b, earlier, before, ending)
    {
      hide Reached, Partial, Owns, Collect, b.Keys;
      PassesAlike(stage.cluster.objects, start, earlier, b, |b.Keys()|);
    }

    /** Others may be at work between two steps. */
    method Pause(t: WorkingCopy, ghost b: Blueprint, ghost start: Objects, ghost k: nat)
      requires Valid() && Working(t) && Done(t, b, start, k)
      modifies stage`history, stage`moved, stage.registry, stage.cluster`objects
      ensures Valid() && Working(t) && Done(t, b, start, k)
      ensures Partial(stage.cluster.objects, start, b)
      ensures old(stage.history) <= stage.history && stage.Failures() >= old(stage.Failures())
      ensures stage.Calls(0) && (stage.Alone() ==> stage.cluster.objects == old(stage.cluster.objects))
      ensures stage.Failures() == old(stage.Failures()) && (old(Up()) ==> Up())
    {
      hide stage.Valid, stage.registry.Valid, Reached, Unique, PhaseAgrees, NamesTarget;
      ghost var before := stage.cluster.objects;
      stage.Others();
      assert forall key | stage.rules.managed(key) :: Slot(stage.cluster.objects, key) == Slot(before, key);
      assert Slot(stage.cluster.objects, NamespaceKey(site.target)) == Slot(before, NamespaceKey(site.target));
      StillOwned(before);
      ReachedKept(before, stage.cluster.objects, start, b, k);
    }

    /** At moment n, which is not before the from-th, something other than a failing call has
        stopped the pass. */
    ghost predicate Stopped(b: Blueprint, from: int, n: int)
      reads stage`history
    {
      0 <= n < |stage.history| && from <= n && Obstructed(b, stage.history[n].objects)
    }

    /** Records what step k has done to the cluster. */
    ghost method Record(t: WorkingCopy, b: Blueprint, start: Objects, k: nat, before: Objects, ok: bool, failed: bool)
      requires Own() && stage.Unrecorded(before) && Working(t) && Plans(t.spec, b) && t.targetNamespace == site.target
      requires k < 4 && k < |b.Keys()| && Reached(before, start, b, k)
      requires k == 3 ==> b.collected == Collect(before, site.namespace, b.selectors)
      requires Stepped(before, stage.cluster.objects, b.Keys()[k], b.Desired(k, Slot(before, b.Keys()[k])), ok, failed)
      modifies stage`history
      ensures Valid() && Working(t) && old(stage.history) <= stage.history
      ensures Partial(stage.cluster.objects, start, b) && (ok ==> Done(t, b, start, k + 1) && !failed)
      ensures Live(before, NamespaceKey(site.target)) ==> Up()
      ensures !ok ==> failed || Stopped(b, |old(stage.history)| - 1, |old(stage.history)| - 1)
    {
      hide stage.Valid, stage.Unrecorded, stage.registry.Valid, DoneIn, Run, Unique, PhaseAgrees, NamesTarget;
      hide Stepped, b.Desired, b.Keys, Clear;
      StepServes(before, stage.cluster.objects, b, k, ok, failed);
      StepReaches(start, before, stage.cluster.objects, b, k, ok, failed);
      KeepsClaim(t, b, k, before, ok, failed);
      PlanOwns(b, k);
      PlacedApart(stage.rules, before, stage.cluster.objects, b.Keys()[k]);
      LastMoment(before);
      stage.Built(before);
    }

    /** Step k breaks no claim of the latest version. */
    lemma KeepsClaim(t: WorkingCopy, b: Blueprint, k: nat, before: Objects, ok: bool, failed: bool)
      requires Own() && stage.Unrecorded(before) && Working(t) && Plans(t.spec, b) && k < |b.Keys()|
      requires Stepped(before, stage.cluster.objects, b.Keys()[k], b.Desired(k, Slot(before, b.Keys()[k])), ok, failed)
      ensures stage.registry.log != []
      ensures stage.rules.claim(stage.registry.Last(), before) ==>
                stage.rules.claim(stage.registry.Last(), stage.cluster.objects)
    {
      hide stage.Unrecorded, Settled, Unique, PhaseAgrees, NamesTarget, Stepped, b.Desired, b.Keys;
      if Settled(before, b) {
        StepSettles(before, stage.cluster.objects, b, k, ok, failed);
      }
      BreaksNoClaim(t, b, before);
    }

    lemma BreaksNoClaim(t: WorkingCopy, b: Blueprint, before: Objects)
      requires Own() && stage.Unrecorded(before) && Working(t) && Plans(t.spec, b)
      requires Settled(before, b) ==> Settled(stage.cluster.objects, b)
      ensures stage.registry.log != []
      ensures stage.rules.claim(stage.registry.Last(), before) ==>
                stage.rules.claim(stage.registry.Last(), stage.cluster.objects)
    {
      hide stage.Unrecorded, Settled, Unique, PhaseAgrees, NamesTarget;
      stage.AboutWhatItRead(before);
      ClaimKept(site, created, profileQuota, stage.registry.Last(), b, before, stage.cluster.objects);
    }

    lemma LastMoment(before: Objects)
      requires stage.Unrecorded(before)
      ensures stage.history != [] && stage.history[|stage.history| - 1].objects == before
    {
    }

    method StepNamespace(t: WorkingCopy, labels: Labels, ghost b: Blueprint, ghost start: Objects) returns (ok: bool)
      requires Valid() && Working(t) && Done(t, b, start, 0) && labels == b.Labels()
      modifies stage`history, stage.cluster
      ensures Valid() && Working(t) && old(stage.history) <= stage.history && stage.Failures() >= old(stage.Failures())
      ensures Partial(stage.cluster.objects, start, b)
      ensures ok ==> Done(t, b, start, 1) && stage.Failures() == old(stage.Failures())
      ensures Faultless() && NamespaceKey(site.target) !in old(stage.cluster.objects) ==> ok && Up()
      ensures !ok ==> stage.Failures() > old(stage.Failures()) ||
                      Stopped(b, |old(stage.history)| - 1, |old(stage.history)| - 1)
    {
      hide stage.Valid, stage.Unrecorded, Reached, Partial, Unique, PhaseAgrees, NamesTarget, Stepped, EnvironmentRules;
      hide b.Labels, DesiredNamespace, Obstructed, stage.cluster.Valid;
      ghost var before, failures := stage.cluster.objects, stage.cluster.failures;
      stage.ValidParts();
      NoFault();
      ok := ReconcileNamespace(stage.cluster, site.environment, false, t.targetNamespace, labels);
      NoFault();
      stage.Called();
      if Faultless() && NamespaceKey(site.target) !in before {
        NamespaceComesUp(before, stage.cluster.objects, b, ok);
      }
      Record(t, b, start, 0, before, ok, failures < stage.cluster.failures);
    }

    lemma NoFault()
      requires stage.cluster.Valid()
      ensures Faultless() ==> stage.cluster.failures == 0
    {
      if Faultless() {
        stage.cluster.NoFaults(stage.cluster.calls);
      }
    }

    method StepQuota(t: WorkingCopy, labels: Labels, ghost b: Blueprint, ghost start: Objects) returns (ok: bool)
      requires Valid() && Working(t) && Done(t, b, start, 1) && labels == b.Labels()
      modifies stage`history, stage.cluster
      ensures Valid() && Working(t) && old(stage.history) <= stage.history && stage.Failures() >= old(stage.Failures())
      ensures Partial(stage.cluster.objects, start, b)
      ensures ok ==> Done(t, b, start, 2) && stage.Failures() == old(stage.Failures())
      ensures old(Up()) ==> Up()
      ensures !ok ==> stage.Failures() > old(stage.Failures()) ||
                      Stopped(b, |old(stage.history)| - 1, |old(stage.history)| - 1)
    {
      hide stage.Valid, stage.Unrecorded, Reached, Partial, Unique, PhaseAgrees, NamesTarget, Stepped, EnvironmentRules;
      hide b.Labels, DesiredQuota, Obstructed;
      ghost var before, failures := stage.cluster.objects, stage.cluster.failures;
      stage.ValidParts();
      ok := ReconcileResourceQuota(stage.cluster, site.environment, false, t.targetNamespace,
                                   profileQuota(t.spec.profile), false, labels);
      stage.Called();
      Record(t, b, start, 1, before, ok, failures < stage.cluster.failures);
    }

    method StepConfig(t: WorkingCopy, labels: Labels, ghost b: Blueprint, ghost start: Objects) returns (ok: bool)
      requires Valid() && Working(t) && Done(t, b, start, 2) && labels == b.Labels()
      modifies stage`history, stage.cluster
      ensures Valid() && Working(t) && old(stage.history) <= stage.history && stage.Failures() >= old(stage.Failures())
      ensures Partial(stage.cluster.objects, start, b)
      ensures ok ==> Done(t, b, start, 3) && stage.Failures() == old(stage.Failures())
      ensures old(Up()) ==> Up()
      ensures !ok ==> stage.Failures() > old(stage.Failures()) ||
                      Stopped(b, |old(stage.history)| - 1, |old(stage.history)| - 1)
    {
      hide stage.Valid, stage.Unrecorded, Reached, Partial, Unique, PhaseAgrees, NamesTarget, Stepped, EnvironmentRules;
      hide b.Labels, DesiredConfig, Obstructed;
      ghost var before, failures := stage.cluster.objects, stage.cluster.failures;
      stage.ValidParts();
      ok := ReconcileConfigMap(stage.cluster, t.targetNamespace, CONFIG_NAME, t.spec.variables, labels);
      stage.Called();
      Record(t, b, start, 2, before, ok, failures < stage.cluster.failures);
    }

    /** The selectors are resolved against the Secrets that are there at this moment. */
    method StepSecrets(t: WorkingCopy, labels: Labels, ghost b: Blueprint, ghost start: Objects)
      returns (ok: bool, ghost c: Blueprint)
      requires Valid() && Working(t) && Done(t, b, start, 3) && labels == b.Labels()
      modifies stage`history, stage.cluster
      ensures Valid() && Working(t) && old(stage.history) <= stage.history && stage.Failures() >= old(stage.Failures())
      ensures c == b.(collected := Collect(old(stage.cluster.objects), site.namespace, t.spec.secretRefs))
      ensures Partial(stage.cluster.objects, start, c)
      ensures FromSources(c, |old(stage.history)| - 1)
      ensures ok ==> Done(t, c, start, 4) && stage.Failures() == old(stage.Failures())
      ensures ok ==> Projected(stage.cluster.objects, site, t.spec, old(stage.cluster.objects))
      ensures old(Up()) ==> Up()
      ensures !ok ==> stage.Failures() > old(stage.Failures()) ||
                      Stopped(c, |old(stage.history)| - 1, |old(stage.history)| - 1)
    {
      hide stage.Valid, stage.Unrecorded, Reached, Partial, Unique, PhaseAgrees, NamesTarget, Stepped, EnvironmentRules;
      hide b.Labels, DesiredSecret, Collect, Obstructed, Projected, Projects, Satisfied;
      ghost var before, failures := stage.cluster.objects, stage.cluster.failures;
      c := b.(collected := Collect(before, site.namespace, t.spec.secretRefs));
      CollectedLater(before, start, b, c.collected);
      SameLabels(b, c.collected);
      stage.ValidParts();
      ok := ProjectSecrets(stage.cluster, site.namespace, t.targetNamespace, SECRET_NAME, t.spec.secretRefs, labels);
      stage.Called();
      LastMoment(before);
      ghost var n: nat := |stage.history| - 1;
      Record(t, c, start, 3, before, ok, failures < stage.cluster.failures);
      assert stage.history[n].objects == before && FromSources(c, n);
      if ok {
        ItProjects(t, c, start, before);
      }
    }

    lemma ItProjects(t: WorkingCopy, b: Blueprint, start: Objects, before: Objects)
      requires Done(t, b, start, 4) && b.collected == Collect(before, site.namespace, t.spec.secretRefs)
      ensures Projected(stage.cluster.objects, site, t.spec, before)
    {
      hide DoneIn, Projected, Collect, Run, Owns;
      SecretMeans(stage.cluster.objects, site, t.spec, b, 4, before);
    }

    /** The delivery objects of the selected provider, if there is one. */
    method StepGitOps(t: WorkingCopy, ghost b: Blueprint, ghost start: Objects, report: Report)
      returns (ok: bool, sync: Option<SyncStatus>)
      requires Valid() && Working(t) && Done(t, b, start, 4)
      modifies stage`history, stage.cluster
      ensures Valid() && Working(t) && old(stage.history) <= stage.history && stage.Failures() >= old(stage.Failures())
      ensures Partial(stage.cluster.objects, start, b)
      ensures ok ==> Done(t, b, start, |b.Keys()|) && stage.Failures() == old(stage.Failures())
      ensures old(Up()) ==> Up()
      ensures ok ==> sync == ReportedSync(t.spec.delivery, site, report, old(stage.cluster.objects))
      ensures ok ==> Echoes(sync, t.spec.delivery, site, report, old(stage.cluster.objects)) &&
                     Delivers(stage.cluster.objects, t.spec.delivery, site)
      ensures old(stage.history) != []
      ensures stage.history[|old(stage.history)| - 1].objects == old(stage.cluster.objects)
      ensures !ok ==> stage.Failures() > old(stage.Failures()) ||
                      Stopped(b, |old(stage.history)| - 1, |old(stage.history)| - 1)
    {
      hide stage.Valid, stage.Unrecorded, Reached, Partial, Unique, PhaseAgrees, NamesTarget, Stepped, EnvironmentRules;
      hide b.Labels, Run, b.Keys, Obstructed, Feasible, Echoes, Delivers;
      ghost var before := stage.cluster.objects;
      stage.ValidParts();
      ok, sync := ReconcileGitOps(stage.cluster, t.spec.delivery, site, report);
      ghost var after := stage.cluster.objects;
      Delivered(start, before, after, b, ok);
      DeliveryKeepsApart(before, after, b);
      stage.Called();
      BreaksNoClaim(t, b, before);
      LastMoment(before);
      stage.Built(before);
    }

    lemma DeliveryKeepsApart(before: Objects, after: Objects, b: Blueprint)
      requires b.site == site
      requires forall key | key !in DeliveryKeys(b.delivery, site) :: Slot(after, key) == Slot(before, key)
      ensures KeepsApart(EnvironmentRules(site, created, profileQuota), before, after, false) &&
                EnvironmentRules(site, created, profileQuota).order(before, after)
      ensures Slot(after, NamespaceKey(site.target)) == Slot(before, NamespaceKey(site.target))
    {
      hide PhaseAgrees, NamesTarget, TornDown;
      assert Slot(after, NamespaceKey(site.target)) == Slot(before, NamespaceKey(site.target));
    }

    // ---- The lifetime ----

    /** Requests the deletion of an Environment whose time is up. */
    method Expire(t: WorkingCopy) returns (ok: bool)
      requires Valid() && Working(t) && Due(created, t.spec, clock.time)
      modifies stage`history, stage`moved, stage.registry, stage.cluster`objects
      ensures Valid() && stage.busy && old(stage.history) <= stage.history && stage.Failures() >= old(stage.Failures())
      ensures if ok then stage.Failures() == old(stage.Failures()) else stage.Failures() > old(stage.Failures())
      ensures ok ==> stage.registry.gone || stage.registry.Last().deleting
      ensures stage.ManagedKept()
    {
      hide stage.Valid, Unique, PhaseAgrees, NamesTarget, stage.registry.Valid;
      stage.Others();
      ok := stage.Delete();
    }

    /** Computes the expiry of an ephemeral Environment and enforces it: the pass ends here
        exactly if the clock, read once, has reached the expiry. */
    method EnforceLifetime(t: WorkingCopy) returns (expired: bool, err: bool, ghost first: int)
      requires Valid() && Working(t) && !t.spec.suspend
      modifies stage`history, stage`moved, stage.registry, stage.cluster`objects, clock, t`expiresAt
      ensures Valid() && stage.busy && old(stage.history) <= stage.history && stage.Failures() >= old(stage.Failures())
      ensures expired <==> Due(created, t.spec, first)
      ensures expired <==> t.spec.kind == Ephemeral && t.spec.ttl.Some? && first >= created + t.spec.ttl.value
      ensures if err then expired && stage.Failures() > old(stage.Failures())
                else stage.Failures() == old(stage.Failures())
      ensures expired && !err ==> stage.registry.gone || stage.registry.Last().deleting
      ensures !expired ==> Working(t)
      ensures t.expiresAt == if t.spec.kind == Ephemeral && t.spec.ttl.Some? then Some(created + t.spec.ttl.value)
                             else old(t.expiresAt)
      ensures old(clock.time) <= first <= clock.time
      ensures stage.ManagedKept()
      ensures t.spec.kind != Ephemeral ==>
                !expired && stage.Calls(0) && stage.cluster.objects == old(stage.cluster.objects)
    {
      hide stage.Valid, Unique, PhaseAgrees, NamesTarget, EnvironmentRules, stage.registry.Valid;
      first := clock.time;
      if t.spec.kind == Ephemeral && t.spec.ttl.Some? {
        var expiry := created + t.spec.ttl.value;
        t.expiresAt := Some(expiry);
        var now := clock.Now();
        stage.Ticked();
        first := now;
        if now >= expiry {
          var ok := Expire(t);
          return true, !ok, now;
        }
      }
      return false, false, first;
    }

    // ---- The end of a pass ----

    method ClearDegraded(t: WorkingCopy)
      requires Valid() && Working(t) && Holds(t.conditions.items, READY, True)
      modifies t.conditions
      ensures Valid() && Working(t) && Holds(t.conditions.items, READY, True)
      ensures Find(t.conditions.items, DEGRADED).None?
    {
      hide stage.Valid, EnvironmentRules, stage.registry.Valid, stage.cluster.Valid, Find, RemoveIn;
      RemoveKeeps(t.conditions.items, DEGRADED);
      t.conditions.Remove(DEGRADED);
    }

    /** Maps what the engine reports onto the phase. */
    method DerivePhase(t: WorkingCopy, sync: Option<SyncStatus>, gen: nat)
      requires Valid() && Working(t) && Holds(t.conditions.items, READY, True)
      modifies clock, t`phase, t`sync, t.conditions
      ensures Valid() && Working(t) && Derived(t.Status()) && old(clock.time) <= clock.time
      ensures SyncAgrees(sync, t.sync)
    {
      hide stage.Valid, PhaseAgrees, NamesTarget, EnvironmentRules, stage.registry.Valid, Find, SetIn;
      hide stage.cluster.Valid, Unique, RemoveIn, IndexOf, DeliveryKeys;
      ClearDegraded(t);
      if sync.None? {
        t.sync := None;
        t.phase := Healthy;
        stage.Ticked();
        return;
      }
      var now := clock.Now();
      t.sync := Some(sync.value.(lastSyncTime := Some(now)));
      match sync.value.phase {
        case Synced =>
          t.phase := Healthy;
        case SyncError =>
          t.conditions.MarkTrue(clock, DEGRADED, "SyncError", sync.value.message, gen);
          t.phase := Degraded;
        case _ =>
          t.phase := Syncing;
      }
      stage.Ticked();
    }

    /** The status of a pass that has done everything. */
    method DraftProvisioned(t: WorkingCopy, sync: Option<SyncStatus>, gen: nat)
      requires Valid() && Working(t) && Holds(t.conditions.items, READY, True) && t.targetNamespace == site.target
      modifies clock, t`url, t`phase, t`sync, t.conditions
      ensures Valid() && Working(t) && Ready(t) && t.phase in {Healthy, Syncing, Degraded}
      ensures old(clock.time) <= clock.time && SyncAgrees(sync, t.sync)
      ensures t.url == if t.spec.domain != "" then "https://" + t.spec.domain else old(t.url)
    {
      hide stage.Valid, EnvironmentRules, stage.registry.Valid, Find, SetIn, SyncAgrees;
      hide stage.cluster.Valid, Unique;
      if t.spec.domain != "" {
        t.url := "https://" + t.spec.domain;
      }
      DerivePhase(t, sync, gen);
      t.conditions.MarkFalse(clock, PROGRESSING, "Provisioned", "Environment reconciled", gen);
      stage.Ticked();
    }

    /** That status, and the write of it. */
    method Conclude(t: WorkingCopy, sync: Option<SyncStatus>, gen: nat) returns (ok: bool)
      requires Valid() && Working(t) && gen == t.generation
      requires Holds(t.conditions.items, READY, True) && t.targetNamespace == site.target && Provides(t.spec)
      modifies stage`history, stage`moved, stage.registry, stage.cluster`objects, clock, t, t.conditions
      ensures Valid() && stage.busy && old(stage.history) <= stage.history && stage.Failures() >= old(stage.Failures())
      ensures if ok then stage.Failures() == old(stage.Failures()) else stage.Failures() > old(stage.Failures())
      ensures ok ==> stage.registry.Last().status.phase in {Healthy, Syncing, Degraded}
      ensures stage.ManagedKept() && old(clock.time) <= clock.time && t.expiresAt == old(t.expiresAt)
      ensures t.targetNamespace == old(t.targetNamespace)
      ensures old(Up()) ==> Up()
      ensures old(stage.WillRefuse()) ==> stage.Calls(1)
      ensures ok ==> stage.registry.Last().status.observedGeneration == t.generation
      ensures ok ==> stage.registry.Last().status.url ==
                     if t.spec.domain != "" then "https://" + t.spec.domain else old(t.url)
      ensures ok ==> SyncAgrees(sync, stage.registry.Last().status.sync)
    {
      hide stage.Valid, Own, Working, Ready, Holds, SyncAgrees, Up, Settled;
      DraftProvisioned(t, sync, gen);
      ok := UpdateStatus(t, gen);
    }

    // ---- A whole pass ----

    method BuildLabels(t: WorkingCopy, ghost b: Blueprint) returns (labels: Labels)
      requires Valid() && Working(t) && Plans(t.spec, b)
      ensures labels == b.Labels()
    {
      hide stage.Valid;
      labels := BuildTenantLabels(t.spec.tenantRef, "environment", map[]);
      labels := MergeLabels(labels, map[ENVIRONMENT_LABEL := site.environment]);
      OneTenant(t);
    }

    method Settle(t: WorkingCopy, labels: Labels, ghost b: Blueprint, ghost start: Objects)
      returns (ok: bool, ghost at: int)
      requires Valid() && Working(t) && Done(t, b, start, 0) && labels == b.Labels()
      modifies stage`history, stage`moved, stage.registry, stage.cluster
      ensures Valid() && Working(t) && old(stage.history) <= stage.history && stage.Failures() >= old(stage.Failures())
      ensures Partial(stage.cluster.objects, start, b)
      ensures ok ==> Done(t, b, start, 1) && stage.Failures() == old(stage.Failures())
      ensures stage.Calls(0) && (old(Fresh()) ==> ok && Up())
      ensures !ok ==> stage.Failures() > old(stage.Failures()) || Stopped(b, |old(stage.history)| - 1, at)
    {
      hide Valid, Own, Working, Reached, Partial, stage.Valid, Up, Obstructed;
      Pause(t, b, start, 0);
      at := |stage.history| - 1;
      ok := StepNamespace(t, labels, b, start);
    }

    /** The first four steps in order; the first one that fails ends the pass. */
    method Provision(t: WorkingCopy, ghost b: Blueprint, ghost start: Objects)
      returns (reason: string, ghost c: Blueprint, ghost at: int)
      requires Valid() && Working(t) && Done(t, b, start, 0)
      modifies stage`history, stage`moved, stage.registry, stage.cluster
      ensures Valid() && Working(t) && old(stage.history) <= stage.history && stage.Failures() >= old(stage.Failures())
      ensures Partial(stage.cluster.objects, start, c)
      ensures c == b.(collected := c.collected)
      ensures reason == "" ==> Done(t, c, start, 4) && FromSources(c, |old(stage.history)| - 1) &&
                               stage.Failures() == old(stage.Failures())
      ensures stage.Calls(0)
      ensures old(Fresh()) ==> Up()
      ensures reason != "" ==> stage.Failures() > old(stage.Failures()) || Stopped(c, |old(stage.history)| - 1, at)
    {
      hide Valid, Own, Working, Reached, Partial, stage.Valid, Up, Fresh, stage.Alone, b.Labels, Collect, Obstructed;
      c := b;
      var labels := BuildLabels(t, b);
      var ok;
      ok, at := Settle(t, labels, b, start);
      if !ok { return "NamespaceError", c, at; }
      reason, c, at := Configure(t, labels, b, start);
    }

    /** Quota, configuration and secrets, in the namespace that is there by now. */
    method Configure(t: WorkingCopy, labels: Labels, ghost b: Blueprint, ghost start: Objects)
      returns (reason: string, ghost c: Blueprint, ghost at: int)
      requires Valid() && Working(t) && Done(t, b, start, 1) && labels == b.Labels()
      modifies stage`history, stage`moved, stage.registry, stage.cluster
      ensures Valid() && Working(t) && old(stage.history) <= stage.history && stage.Failures() >= old(stage.Failures())
      ensures Partial(stage.cluster.objects, start, c)
      ensures c == b.(collected := c.collected)
      ensures reason == "" ==> Done(t, c, start, 4) && FromSources(c, |old(stage.history)| - 1) &&
                               stage.Failures() == old(stage.Failures())
      ensures stage.Calls(0) && (old(Up()) ==> Up())
      ensures reason != "" ==> stage.Failures() > old(stage.Failures()) || Stopped(c, |old(stage.history)| - 1, at)
    {
      hide Valid, Own, Working, Reached, Partial, stage.Valid, Up, stage.Alone, b.Labels, Collect, Obstructed;
      hide Projected;
      c := b;
      reason, at := Furnish(t, labels, b, start);
      if reason != "" { return; }
      Pause(t, b, start, 3);
      at := |stage.history| - 1;
      var ok;
      ok, c := StepSecrets(t, labels, b, start);
      if !ok { return "SecretError", c, at; }
    }

    /** Quota and configuration. */
    method Furnish(t: WorkingCopy, labels: Labels, ghost b: Blueprint, ghost start: Objects)
      returns (reason: string, ghost at: int)
      requires Valid() && Working(t) && Done(t, b, start, 1) && labels == b.Labels()
      modifies stage`history, stage`moved, stage.registry, stage.cluster
      ensures Valid() && Working(t) && old(stage.history) <= stage.history && stage.Failures() >= old(stage.Failures())
      ensures Partial(stage.cluster.objects, start, b)
      ensures reason == "" ==> Done(t, b, start, 3) && stage.Failures() == old(stage.Failures())
      ensures stage.Calls(0) && (old(Up()) ==> Up())
      ensures reason != "" ==> stage.Failures() > old(stage.Failures()) || Stopped(b, |old(stage.history)| - 1, at)
    {
      hide Valid, Own, Working, Reached, Partial, stage.Valid, Up, stage.Alone, b.Labels, Collect, Obstructed;
      Pause(t, b, start, 1);
      at := |stage.history| - 1;
      var ok := StepQuota(t, labels, b, start);
      if !ok { return "QuotaError", at; }
      Pause(t, b, start, 2);
      at := |stage.history| - 1;
      ok := StepConfig(t, labels, b, start);
      return if ok then "" else "ConfigError", at;
    }

    /** Admission keeps an Environment with its tenant. */
    lemma OneTenant(t: WorkingCopy)
      requires Valid() && Working(t)
      ensures t.spec.tenantRef == site.tenant
    {
      assert stage.registry.identity(stage.Copy().spec) == stage.registry.identity(stage.registry.log[0].spec);
    }

    /** Everything from the steps to the status write. */
    method Deploy(t: WorkingCopy, gen: nat, ghost b: Blueprint, ghost start: Objects)
      returns (ok: bool, ghost c: Blueprint, ghost at: int)
      requires Valid() && Working(t) && gen == t.generation && Done(t, b, start, 0)
      modifies stage`history, stage`moved, stage.registry, stage.cluster, clock, t, t.conditions
      ensures Valid() && stage.busy && old(stage.history) <= stage.history && stage.Failures() >= old(stage.Failures())
      ensures Partial(stage.cluster.objects, start, c)
      ensures c == b.(collected := c.collected) && old(clock.time) <= clock.time && t.expiresAt == old(t.expiresAt)
      ensures ok ==> FromSources(c, |old(stage.history)| - 1)
      ensures ok ==> Done(t, c, start, |c.Keys()|) && stage.registry.Last().status.phase in {Healthy, Syncing, Degraded}
      ensures old(stage.WillRefuse()) ==> stage.Calls(1)
      ensures old(Fresh()) ==> Up()
      ensures ok ==> stage.registry.Last().status.observedGeneration == t.generation
      ensures ok ==> stage.Failures() == old(stage.Failures()) && Echoed(t.spec, lookups, |old(stage.history)| - 1)
      ensures !ok ==> stage.Failures() > old(stage.Failures()) || Stopped(c, |old(stage.history)| - 1, at)
    {
      hide Valid, Own, Working, Reached, Partial, stage.Valid, Find, SetIn, b.Keys, stage.Alone, Up, Fresh, Requeue;
      hide c.Keys, SyncAgrees, ReportedSync, Obstructed, Echoed;
      var reason;
      reason, c, at := Provision(t, b, start);
      if reason != "" {
        ghost var before := stage.cluster.objects;
        Fail(t, reason, "cause");
        StillReached(c, start, before);
        return false, c, at;
      }
      ghost var from := |stage.history| - 1;
      ok, at := DeliverAndConclude(t, gen, c, start);
      if ok {
        EchoedEarlier(t.spec, lookups, from, |old(stage.history)| - 1);
      }
    }

    /** The rest of a pass, once namespace and configuration are there. */
    method DeliverAndConclude(t: WorkingCopy, gen: nat, ghost c: Blueprint, ghost start: Objects)
      returns (ok: bool, ghost at: int)
      requires Valid() && Working(t) && gen == t.generation && Done(t, c, start, 4)
      modifies stage`history, stage`moved, stage.registry, stage.cluster, clock, t, t.conditions
      ensures Valid() && stage.busy && old(stage.history) <= stage.history && stage.Failures() >= old(stage.Failures())
      ensures Partial(stage.cluster.objects, start, c)
      ensures old(clock.time) <= clock.time && t.expiresAt == old(t.expiresAt)
      ensures ok ==> Done(t, c, start, |c.Keys()|) && stage.registry.Last().status.phase in {Healthy, Syncing, Degraded}
      ensures old(stage.WillRefuse()) ==> stage.Calls(1)
      ensures old(Up()) ==> Up()
      ensures ok ==> stage.registry.Last().status.observedGeneration == t.generation
      ensures ok ==> stage.Failures() == old(stage.Failures()) && Echoed(t.spec, lookups, |old(stage.history)| - 1)
      ensures !ok ==> stage.Failures() > old(stage.Failures()) || Stopped(c, |old(stage.history)| - 1, at)
    {
      hide Valid, Own, Working, Reached, Partial, stage.Valid, Find, SetIn, stage.Alone, Up, Requeue, c.Keys;
      hide SyncAgrees;
      hide Provides;
      hide ReportedSync, Obstructed, Echoes, Echoed;
      MarkReady(t, gen);
      Pause(t, c, start, 4);
      at := |stage.history| - 1;
      var sync;
      ok, sync := StepGitOps(t, c, start, reports(lookups));
      ghost var before := stage.cluster.objects;
      if !ok {
        Fail(t, "GitOpsError", "cause");
        StillReached(c, start, before);
        return false, at;
      }
      ItProvides(t, c, start);
      ok := Conclude(t, sync, gen);
      if ok {
        ItEchoes(t.spec, sync, at, |old(stage.history)| - 1);
      }
      StillReached(c, start, before);
    }

    /** What was reported at moment n is what has been persisted. */
    lemma ItEchoes(spec: EnvironmentSpec, sync: Option<SyncStatus>, n: int, from: int)
      requires Valid() && 0 <= n < |stage.history| && from <= n
      requires Echoes(sync, spec.delivery, site, reports(lookups), stage.history[n].objects)
      requires SyncAgrees(sync, stage.registry.Last().status.sync)
      ensures Echoed(spec, lookups, from)
    {
      hide stage.Valid, EnvironmentRules, Echoes, SyncAgrees;
      EchoPersists(sync, stage.registry.Last().status.sync, spec.delivery, site, reports(lookups),
                   stage.history[n].objects);
    }

    lemma PlanOf(spec: EnvironmentSpec)
      ensures Plans(spec, BlueprintOf(site, profileQuota, spec))
    {
    }

    /** As long as only others have acted, a pass has made nothing. */
    lemma NothingMade(spec: EnvironmentSpec, b: Blueprint, start: Objects, from: int, ending: Ending)
      requires Own() && Plans(spec, b) && !ending.Provisioned?
      requires forall key | stage.rules.managed(key) :: Slot(stage.cluster.objects, key) == Slot(start, key)
      ensures SameOwned(site, stage.cluster.objects, start) && Made(spec, b, start, from, ending)
    {
      hide PhaseAgrees, NamesTarget, Owns, Reached, Partial, FromSources;
      StillOwned(start);
      ReachedAtFirst(stage.cluster.objects, start, b);
    }

    /** A pass that has tried has made some first steps, or all of them. */
    lemma SomeMade(spec: EnvironmentSpec, b: Blueprint, start: Objects, from: int, ending: Ending)
      requires Plans(spec, b) && Partial(stage.cluster.objects, start, b) && ending in {Erring, Provisioned}
      requires ending.Provisioned? ==> Reached(stage.cluster.objects, start, b, |b.Keys()|) && FromSources(b, from)
      ensures Made(spec, b, start, from, ending)
    {
      hide Reached, Partial, FromSources, b.Keys;
    }

    /** The status write leaves the objects alone. */
    lemma StillReached(b: Blueprint, start: Objects, before: Objects)
      requires Valid() && b.site == site
      requires forall key | stage.rules.managed(key) :: Slot(stage.cluster.objects, key) == Slot(before, key)
      ensures Reached(before, start, b, |b.Keys()|) ==> Reached(stage.cluster.objects, start, b, |b.Keys()|)
      ensures Partial(before, start, b) ==> Partial(stage.cluster.objects, start, b)
    {
      hide stage.Valid, Reached, Partial, PhaseAgrees, NamesTarget, b.Keys;
      StillOwned(before);
      ReachedKept(before, stage.cluster.objects, start, b, |b.Keys()|);
    }

    lemma ItProvides(t: WorkingCopy, b: Blueprint, start: Objects)
      requires Done(t, b, start, |b.Keys()|)
      ensures Provides(t.spec)
    {
      hide DoneIn, Settled, b.Keys;
      SettledAnyhow(stage.cluster.objects, b, Err(""));
    }

    method MarkReady(t: WorkingCopy, gen: nat)
      requires Valid() && Working(t)
      modifies clock, t.conditions
      ensures Valid() && Working(t) && Holds(t.conditions.items, READY, True) && old(clock.time) <= clock.time
    {
      hide stage.Valid, Find, SetIn, PhaseAgrees, NamesTarget, EnvironmentRules, stage.registry.Valid;
      t.conditions.MarkTrue(clock, READY, "Provisioned", "Workload namespace and configuration are provisioned", gen);
      stage.Ticked();
    }

    /** A pass that will create the workload namespace, meet nobody else and no fault but one:
        its status write is refused. */
    ghost predicate Stranding(t: WorkingCopy)
      reads this`lookups, stage.registry, stage.cluster
    {
      && Fresh()
      && !t.spec.suspend && t.spec.kind != Ephemeral
      && tenants(lookups) == Present(tenantNamespace) && tenantNamespace != ""
      && stage.registry.schedule(stage.registry.turn).outcome == Served
      && stage.registry.schedule(stage.registry.turn + 1).outcome == Refused
    }

    /** At the n-th lookup the tenant was there and had a namespace. */
    predicate TenantReady(n: nat) {
      tenants(n).Present? && tenants(n).namespace != ""
    }

    /** What a pass tells of itself. */
    ghost predicate Tells(seen: Option<Environment>, lookup: nat, start: int, v: Visit)
      reads clock
    {
      && VisitFits(created, v) && v.seen == seen && start <= v.first && v.second <= clock.time
      && (v.ending in {Blocked, Expired, Provisioned} ==> v.ready == TenantReady(lookup))
    }

    /** A pass over a live Environment. It provisions, and then leaves every object as the spec
        asks for; or it requests the deletion, because the lifetime is over; or the Environment
        is suspended or its tenant not ready; or it errs, and then an API call has failed or
        something at a moment of the pass was in its way. */
    method ReconcileEnvironment(t: WorkingCopy)
      returns (err: bool, requeueAfter: int, ghost v: Visit, ghost c: Blueprint, ghost at: int)
      requires Valid() && Working(t) && t.expiresAt == stage.Copy().status.expiresAt
      modifies this`lookups
      modifies stage`history, stage`moved, stage.registry, stage.cluster, clock, t, t.conditions
      ensures Valid() && stage.busy && old(stage.history) <= stage.history && stage.Failures() >= old(stage.Failures())
      ensures Tells(old(Some(stage.Copy())), old(lookups), old(clock.time), v)
      ensures err <==> v.ending.Erring?
      ensures !err ==> requeueAfter == v.requeue && stage.Failures() == old(stage.Failures())
      ensures err ==> stage.Failures() > old(stage.Failures()) || Stopped(c, |old(stage.history)| - 1, at)
      ensures Plans(t.spec, c) && Made(t.spec, c, old(stage.cluster.objects), |old(stage.history)| - 1, v.ending)
      ensures v.ending.Provisioned? ==> Complete(t.spec, |old(stage.history)| - 1) &&
                                        Echoed(t.spec, old(lookups) + 1, |old(stage.history)| - 1)
      ensures v.ending.Provisioned? ==> stage.registry.Last().status.phase in {Healthy, Syncing, Degraded}
      ensures v.ending.Suspending? ==> stage.registry.Last().status.phase == Suspended
      ensures v.ending.Blocked? ==> stage.registry.Last().status.phase == Pending
      ensures v.ending.Expired? ==> stage.registry.gone || stage.registry.Last().deleting
      ensures !err && !v.ending.Expired? ==> stage.registry.Last().status.observedGeneration == t.generation
      ensures old(Stranding(t)) ==> stage.Calls(2) && Up()
    {
      hide stage.Valid, Unique, PhaseAgrees, NamesTarget, EnvironmentRules, stage.registry.Valid, Reached, Partial;
      hide Made, Echoed;
      hide Requeue, Obstructed, c.Keys, Due, Find, Holds, stage.cluster.Valid, VisitFits, Up, Faultless;
      hide stage.Undisturbed, Slot, Done, Owns, SameOwned, BlueprintOf, Settled, Plans, SetIn, Later, Ordered, Complete;
      c := BlueprintOf(site, profileQuota, t.spec);
      PlanOf(t.spec);
      at := 0;
      ghost var start := stage.cluster.objects;
      v := Visit(Some(stage.Copy()), false, clock.time, clock.time, Erring, 0, 0);
      requeueAfter := 0;
      var gen := t.generation;
      if t.spec.suspend {
        err := Suspend(t, gen);
        v := v.(ending := if err then Erring else Suspending);
        EarlyVisitFits(created, v);
        NothingMade(t.spec, c, start, |old(stage.history)| - 1, v.ending);
        return;
      }
      err, requeueAfter, v, c, at := Admit(t, gen, c, start);
      if v.ending.Provisioned? {
        MadeMeans(t.spec, c, start, |old(stage.history)| - 1);
      }
    }

    /** A pass that ends for want of a tenant. */
    method Defer(t: WorkingCopy, msg: string, ghost b: Blueprint, ghost start: Objects, ghost from: int)
      returns (err: bool, requeueAfter: int, ghost v: Visit)
      requires Valid() && Working(t) && !t.spec.suspend && Plans(t.spec, b)
      requires forall key | stage.rules.managed(key) :: Slot(stage.cluster.objects, key) == Slot(start, key)
      modifies stage`history, stage`moved, stage.registry, stage.cluster`objects, clock, t, t.conditions
      ensures Valid() && stage.busy && old(stage.history) <= stage.history && stage.Failures() >= old(stage.Failures())
      ensures VisitFits(created, v) && v.seen == Some(old(stage.Copy())) && !v.ready && v.requeue == requeueAfter
      ensures old(clock.time) <= v.first && v.second <= clock.time && v.ending == if err then Erring else Blocked
      ensures if err then stage.Failures() > old(stage.Failures()) else stage.Failures() == old(stage.Failures())
      ensures Made(t.spec, b, start, from, v.ending)
      ensures !err ==> stage.registry.Last().status.phase == Pending
      ensures !err ==> stage.registry.Last().status.observedGeneration == t.generation
    {
      hide stage.Valid, PhaseAgrees, NamesTarget, EnvironmentRules, stage.registry.Valid, Made, Find, Holds;
      v := Visit(Some(stage.Copy()), false, clock.time, clock.time, Erring, 0, 0);
      err, requeueAfter := BlockOnDependency(t, msg);
      v := v.(ending := if err then Erring else Blocked, requeue := requeueAfter);
      EarlyVisitFits(created, v);
      NothingMade(t.spec, b, start, from, v.ending);
    }

    /** The rest of a pass over an Environment that is not suspended. */
    method Admit(t: WorkingCopy, gen: nat, ghost b: Blueprint, ghost start: Objects)
      returns (err: bool, requeueAfter: int, ghost v: Visit, ghost c: Blueprint, ghost at: int)
      requires Valid() && Working(t) && t.expiresAt == stage.Copy().status.expiresAt && gen == t.generation
      requires !t.spec.suspend && Plans(t.spec, b) && start == stage.cluster.objects
      modifies this`lookups
      modifies stage`history, stage`moved, stage.registry, stage.cluster, clock, t, t.conditions
      ensures Valid() && stage.busy && old(stage.history) <= stage.history && stage.Failures() >= old(stage.Failures())
      ensures VisitFits(created, v) && v.seen == Some(old(stage.Copy())) && !v.ending.Suspending?
      ensures old(clock.time) <= v.first && v.second <= clock.time
      ensures v.ending in {Blocked, Expired, Provisioned} ==> v.ready == TenantReady(old(lookups))
      ensures err <==> v.ending.Erring?
      ensures !err ==> requeueAfter == v.requeue && stage.Failures() == old(stage.Failures())
      ensures err ==> stage.Failures() > old(stage.Failures()) || Stopped(c, |old(stage.history)| - 1, at)
      ensures Plans(t.spec, c) && Made(t.spec, c, start, |old(stage.history)| - 1, v.ending)
      ensures v.ending.Provisioned? ==> stage.registry.Last().status.phase in {Healthy, Syncing, Degraded}
      ensures v.ending.Blocked? ==> stage.registry.Last().status.phase == Pending
      ensures v.ending.Provisioned? ==> Echoed(t.spec, old(lookups) + 1, |old(stage.history)| - 1)
      ensures v.ending.Expired? ==> stage.registry.gone || stage.registry.Last().deleting
      ensures !err && !v.ending.Expired? ==> stage.registry.Last().status.observedGeneration == t.generation
      ensures old(Stranding(t)) ==> stage.Calls(2) && Up()
    {
      hide stage.Valid, Unique, PhaseAgrees, NamesTarget, EnvironmentRules, stage.registry.Valid, Reached, Partial;
      hide Made, Echoed;
      hide Requeue, Obstructed, c.Keys, Due, Find, Holds, stage.cluster.Valid, VisitFits, Up, Faultless;
      hide stage.Undisturbed, Slot, Done, Owns, SameOwned, Settled, Plans, SetIn, Later, Ordered;
      c, at, requeueAfter := b, 0, 0;
      v := Visit(Some(stage.Copy()), false, clock.time, clock.time, Erring, 0, 0);
      var ok, tenant := FindTenant(t);
      if !ok {
        EarlyVisitFits(created, v);
        NothingMade(t.spec, c, start, |old(stage.history)| - 1, v.ending);
        return true, 0, v, c, at;
      }
      if tenant.Absent? {
        err, requeueAfter, v := Defer(t, "tenant not found", c, start, |old(stage.history)| - 1);
        return;
      }
      if tenant.namespace == "" {
        err, requeueAfter, v := Defer(t, "tenant namespace not yet provisioned", c, start, |old(stage.history)| - 1);
        return;
      }
      ghost var from := |stage.history| - 1;
      err, requeueAfter, v, c, at := Proceed(t, gen, tenant.namespace, c, start);
      MadeEarlier(t.spec, c, start, start, from, |old(stage.history)| - 1, v.ending);
      if v.ending.Provisioned? {
        EchoedEarlier(t.spec, lookups, from, |old(stage.history)| - 1);
      }
    }

    /** The rest of a pass, once the tenant is known to be ready. */
    method Proceed(t: WorkingCopy, gen: nat, tenant: string, ghost b: Blueprint, ghost start: Objects)
      returns (err: bool, requeueAfter: int, ghost v: Visit, ghost c: Blueprint, ghost at: int)
      requires Valid() && Working(t) && t.expiresAt == stage.Copy().status.expiresAt && gen == t.generation
      requires !t.spec.suspend && tenant == tenantNamespace && Plans(t.spec, b)
      requires forall key | stage.rules.managed(key) :: Slot(stage.cluster.objects, key) == Slot(start, key)
      modifies stage`history, stage`moved, stage.registry, stage.cluster, clock, t, t.conditions
      ensures Valid() && stage.busy && old(stage.history) <= stage.history && stage.Failures() >= old(stage.Failures())
      ensures VisitFits(created, v) && v.seen == Some(old(stage.Copy())) && v.ready
      ensures old(clock.time) <= v.first && v.second <= clock.time && v.ending in {Expired, Provisioned, Erring}
      ensures err <==> v.ending.Erring?
      ensures !err ==> requeueAfter == v.requeue && stage.Failures() == old(stage.Failures())
      ensures err ==> stage.Failures() > old(stage.Failures()) || Stopped(c, |old(stage.history)| - 1, at)
      ensures Plans(t.spec, c) && Made(t.spec, c, start, |old(stage.history)| - 1, v.ending)
      ensures v.ending.Provisioned? ==> stage.registry.Last().status.phase in {Healthy, Syncing, Degraded}
      ensures v.ending.Provisioned? ==> Echoed(t.spec, lookups, |old(stage.history)| - 1)
      ensures v.ending.Expired? ==> stage.registry.gone || stage.registry.Last().deleting
      ensures v.ending.Provisioned? ==> stage.registry.Last().status.observedGeneration == t.generation
      ensures t.spec.kind != Ephemeral && old(stage.WillRefuse()) ==> stage.Calls(1)
      ensures t.spec.kind != Ephemeral && old(Fresh()) ==> Up()
    {
      hide stage.Valid, Unique, PhaseAgrees, NamesTarget, EnvironmentRules, stage.registry.Valid, Reached, Partial;
      hide Made, VisitFits, Due, Up, Fresh, Plans, Echoed;
      hide FromSources, Owns, SameOwned, Settled, SetIn;
      hide Requeue, Obstructed, c.Keys, stage.cluster.Valid;
      c, at, requeueAfter := b, 0, 0;
      v := Visit(Some(stage.Copy()), true, clock.time, clock.time, Erring, 0, 0);
      var expired;
      ghost var first, second;
      expired, err, first := EnforceLifetime(t);
      if expired {
        v := v.(first := first, second := first, ending := if err then Erring else Expired);
        LateVisitFits(created, v);
        NothingMade(t.spec, c, start, |old(stage.history)| - 1, v.ending);
        return;
      }
      ghost var from := |stage.history| - 1;
      err, requeueAfter, second, c, at := Occupy(t, gen, tenant, c, start);
      v := v.(first := first, second := second, ending := if err then Erring else Provisioned, requeue := requeueAfter);
      LateVisitFits(created, v);
      if !err {
        EchoedEarlier(t.spec, lookups, from, |old(stage.history)| - 1);
      }
      MadeEarlier(t.spec, c, start, start, from, |old(stage.history)| - 1, v.ending);
    }

    /** The rest of a pass, once the lifetime is known to last. */
    method Occupy(t: WorkingCopy, gen: nat, tenant: string, ghost b: Blueprint, ghost start: Objects)
      returns (err: bool, requeueAfter: int, ghost second: int, ghost c: Blueprint, ghost at: int)
      requires Valid() && Working(t) && gen == t.generation && tenant == tenantNamespace && Plans(t.spec, b)
      requires forall key | stage.rules.managed(key) :: Slot(stage.cluster.objects, key) == Slot(start, key)
      modifies stage`history, stage`moved, stage.registry, stage.cluster, clock, t, t.conditions
      ensures Valid() && stage.busy && old(stage.history) <= stage.history && stage.Failures() >= old(stage.Failures())
      ensures Plans(t.spec, c) &&
                Made(t.spec, c, start, |old(stage.history)| - 1, if err then Erring else Provisioned)
      ensures old(clock.time) <= second <= clock.time
      ensures err ==> stage.Failures() > old(stage.Failures()) || Stopped(c, |old(stage.history)| - 1, at)
      ensures !err ==> requeueAfter == Requeue(old(t.expiresAt), second) && stage.Failures() == old(stage.Failures())
      ensures !err ==> stage.registry.Last().status.phase in {Healthy, Syncing, Degraded}
      ensures !err ==> stage.registry.Last().status.observedGeneration == t.generation
      ensures !err ==> Echoed(t.spec, lookups, |old(stage.history)| - 1)
      ensures old(stage.WillRefuse()) ==> stage.Calls(1)
      ensures old(Fresh()) ==> Up()
    {
      hide stage.Valid, Unique, PhaseAgrees, NamesTarget, EnvironmentRules, stage.registry.Valid, Reached, Partial;
      hide Made, Plans, Echoed, FromSources, Owns, SameOwned, Settled, SetIn, Requeue, Obstructed, c.Keys;
      hide stage.cluster.Valid, Up, Fresh;
      NothingMade(t.spec, b, start, 0, Erring);
      t.targetNamespace := TargetNamespace(tenant, site.environment);
      err, requeueAfter, second, c, at := Serve(t, gen, b, start);
      SomeMade(t.spec, c, start, |old(stage.history)| - 1, if err then Erring else Provisioned);
    }

    /** The rest of a pass, once the target is known. */
    method Serve(t: WorkingCopy, gen: nat, ghost b: Blueprint, ghost start: Objects)
      returns (err: bool, requeueAfter: int, ghost second: int, ghost c: Blueprint, ghost at: int)
      requires Valid() && Working(t) && gen == t.generation && Plans(t.spec, b)
      requires t.targetNamespace == site.target && SameOwned(site, stage.cluster.objects, start)
      modifies stage`history, stage`moved, stage.registry, stage.cluster, clock, t, t.conditions
      ensures Valid() && stage.busy && old(stage.history) <= stage.history && stage.Failures() >= old(stage.Failures())
      ensures Partial(stage.cluster.objects, start, c)
      ensures !err ==> FromSources(c, |old(stage.history)| - 1)
      ensures !err ==> Done(t, c, start, |c.Keys()|) &&
                       stage.registry.Last().status.phase in {Healthy, Syncing, Degraded}
      ensures Plans(t.spec, c) && old(clock.time) <= second <= clock.time
      ensures !err ==> requeueAfter == Requeue(old(t.expiresAt), second)
      ensures old(stage.WillRefuse()) ==> stage.Calls(1)
      ensures old(Fresh()) ==> Up()
      ensures !err ==> stage.registry.Last().status.observedGeneration == t.generation
      ensures !err ==> stage.Failures() == old(stage.Failures()) && Echoed(t.spec, lookups, |old(stage.history)| - 1)
      ensures err ==> stage.Failures() > old(stage.Failures()) || Stopped(c, |old(stage.history)| - 1, at)
    {
      hide stage.Valid, Working, Reached, Partial, Own, b.Keys, Requeue, Obstructed, Echoed;
      BeginProgress(t, gen);
      ReachedAtFirst(stage.cluster.objects, start, b);
      var ok;
      ok, c, at := Deploy(t, gen, b, start);
      second := clock.time;
      if !ok {
        return true, 0, second, c, at;
      }
      requeueAfter, second := Reschedule(t);
      err := false;
    }

    method BeginProgress(t: WorkingCopy, gen: nat)
      requires Valid() && Working(t)
      modifies clock, t.conditions
      ensures Valid() && Working(t) && old(clock.time) <= clock.time
      ensures Holds(t.conditions.items, PROGRESSING, True)
    {
      hide stage.Valid, Find, SetIn, PhaseAgrees, NamesTarget, EnvironmentRules, stage.registry.Valid;
      t.conditions.MarkTrue(clock, PROGRESSING, "Reconciling", "Reconciling environment resources", gen);
      stage.Ticked();
    }

    /** The delay to the next pass: the resync period, or less if the lifetime ends before. The
        clock is read only where there is an expiry to look at. */
    method Reschedule(t: WorkingCopy) returns (requeueAfter: int, ghost second: int)
      requires Valid()
      modifies clock
      ensures Valid() && old(clock.time) <= second <= clock.time
      ensures requeueAfter == Requeue(t.expiresAt, second) && 0 < requeueAfter <= 180
      ensures t.expiresAt.None? ==> requeueAfter == 180
      ensures t.expiresAt.Some? ==> var left := t.expiresAt.value - second;
                                    requeueAfter == if 0 < left < 180 then left else 180
    {
      hide stage.Valid, PhaseAgrees, NamesTarget, EnvironmentRules, stage.registry.Valid;
      requeueAfter := RESYNC_SECONDS;
      second := clock.time;
      if t.expiresAt.Some? {
        var now := clock.Now();
        second := now;
        var remaining := t.expiresAt.value - now;
        if remaining > 0 && remaining < requeueAfter {
          requeueAfter := remaining;
        }
      }
      stage.Ticked();
    }

    // ---- A pass over a deleted Environment ----

    ghost predicate Closing(t: WorkingCopy)
      reads stage, stage.registry, t`targetNamespace
    {
      && stage.busy && t.version == stage.registry.read < |stage.registry.log|
      && stage.Copy().deleting && t.held == stage.Copy().held
      && t.targetNamespace == stage.Copy().status.targetNamespace
      && t.targetNamespace in {"", site.target}
    }

    lemma ClearingIsLawful(before: Objects, after: Objects)
      requires Receding(before, after)
      requires KeepsApart(EnvironmentRules(site, created, profileQuota), before, after, false)
      requires DeliveryStopped(before, site) ||
               Slot(after, NamespaceKey(site.target)) == Slot(before, NamespaceKey(site.target))
      ensures EnvironmentRules(site, created, profileQuota).order(before, after)
      ensures forall e | EnvironmentRules(site, created, profileQuota).closed(e, before) ::
                EnvironmentRules(site, created, profileQuota).closed(e, after)
    {
      hide PhaseAgrees, NamesTarget;
    }

    /** Stops the delivery. */
    method StopDelivery(t: WorkingCopy) returns (ok: bool)
      requires Valid() && Closing(t)
      modifies stage`history, stage.cluster
      ensures Valid() && Closing(t) && old(stage.history) <= stage.history && stage.Failures() >= old(stage.Failures())
      ensures ok ==> DeliveryStopped(stage.cluster.objects, site)
      ensures if ok then stage.Failures() == old(stage.Failures()) else stage.Failures() > old(stage.Failures())
      ensures Slot(stage.cluster.objects, NamespaceKey(site.target)) ==
                Slot(old(stage.cluster.objects), NamespaceKey(site.target))
      ensures Faultless() ==> ok
    {
      hide stage.Valid, stage.Unrecorded, DeliveryStopped, Receding, PhaseAgrees, NamesTarget;
      ghost var before := stage.cluster.objects;
      stage.ValidParts();
      NoFault();
      ok := DeleteGitOps(stage.cluster, site);
      NoFault();
      stage.Called();
      assert KeepsApart(stage.rules, before, stage.cluster.objects, false);
      ClearingIsLawful(before, stage.cluster.objects);
      stage.Cleared(before);
    }

    /** Requests the deletion of the workload namespace; the rest cascades. */
    method DeleteNamespace(t: WorkingCopy) returns (done: bool, ok: bool)
      requires Valid() && Closing(t) && t.targetNamespace != "" && DeliveryStopped(stage.cluster.objects, site)
      modifies stage`history, stage.cluster
      ensures Valid() && Closing(t) && old(stage.history) <= stage.history && stage.Failures() >= old(stage.Failures())
      ensures done == ok && DeliveryStopped(stage.cluster.objects, site)
      ensures ok ==> Reclaimed(stage.cluster.objects, NamespaceKey(site.target))
      ensures !ok ==> stage.Failures() > old(stage.Failures())
    {
      hide stage.Valid, stage.Unrecorded, Receding, PhaseAgrees, NamesTarget;
      ghost var before := stage.cluster.objects;
      stage.ValidParts();
      done, ok := EnsureNamespaceDeleted(stage.cluster, t.targetNamespace);
      stage.Called();
      SlotsRecede(before, stage.cluster.objects, NamespaceKey(site.target));
      assert KeepsApart(stage.rules, before, stage.cluster.objects, false);
      StoppedStays(before, stage.cluster.objects);
      ClearingIsLawful(before, stage.cluster.objects);
      stage.Cleared(before);
    }

    lemma StoppedStays(before: Objects, after: Objects)
      requires Receding(before, after) && DeliveryStopped(before, site)
      ensures DeliveryStopped(after, site)
    {
    }

    /** What others do leaves the teardown where it is. */
    method Wait(t: WorkingCopy)
      requires Valid() && Closing(t)
      modifies stage`history, stage`moved, stage.registry, stage.cluster`objects
      ensures Valid() && Closing(t) && old(stage.history) <= stage.history && stage.Failures() >= old(stage.Failures())
      ensures old(DeliveryStopped(stage.cluster.objects, site)) ==> DeliveryStopped(stage.cluster.objects, site)
      ensures Slot(stage.cluster.objects, NamespaceKey(site.target)) ==
                Slot(old(stage.cluster.objects), NamespaceKey(site.target))
      ensures stage.Calls(0)
    {
      hide stage.Valid, PhaseAgrees, NamesTarget, stage.registry.Valid;
      ghost var before := stage.cluster.objects;
      stage.Others();
      assert forall key | stage.rules.managed(key) :: Slot(stage.cluster.objects, key) == Slot(before, key);
      assert Slot(stage.cluster.objects, GitOpsKey(Application, site)) == Slot(before, GitOpsKey(Application, site));
      assert Slot(stage.cluster.objects, GitOpsKey(Kustomization, site)) ==
             Slot(before, GitOpsKey(Kustomization, site));
      assert Slot(stage.cluster.objects, GitOpsKey(GitRepository, site)) ==
             Slot(before, GitOpsKey(GitRepository, site));
    }

    /** Delivery first, then the workload namespace, if the status names one. */
    method Dismantle(t: WorkingCopy) returns (done: bool, ok: bool)
      requires Valid() && Closing(t)
      modifies stage`history, stage`moved, stage.registry, stage.cluster
      ensures Valid() && Closing(t) && old(stage.history) <= stage.history && stage.Failures() >= old(stage.Failures())
      ensures done == ok && (!ok ==> stage.Failures() > old(stage.Failures()))
      ensures ok ==> DeliveryStopped(stage.cluster.objects, site)
      ensures ok ==> (Live(stage.cluster.objects, NamespaceKey(site.target)) <==>
                      t.targetNamespace == "" && Live(old(stage.cluster.objects), NamespaceKey(site.target)))
      ensures stage.Calls(0) && (Faultless() && t.targetNamespace == "" ==> ok)
    {
      hide stage.Valid, Valid, PhaseAgrees, NamesTarget, DeliveryStopped;
      Wait(t);
      ok := StopDelivery(t);
      if !ok {
        return false, false;
      }
      Wait(t);
      if t.targetNamespace != "" {
        done, ok := DeleteNamespace(t);
        if !ok {
          return false, false;
        }
      }
      Wait(t);
      return true, true;
    }

    /** A finalize pass sees the Environment gone or has met a failing call. When it releases
        the Environment, delivery has been stopped for every provider, and a workload namespace
        is left alive exactly if it was alive before and the status does not name it. */
    method Finalize(t: WorkingCopy) returns (err: bool, requeueAfter: int)
      requires Valid() && Closing(t)
      modifies stage`history, stage`moved, stage`released, stage.registry, stage.cluster, t`phase
      ensures Valid() && stage.busy && old(stage.history) <= stage.history && stage.Failures() >= old(stage.Failures())
      ensures stage.Stopping() && (stage.registry.gone || stage.Failures() > old(stage.Failures()))
      ensures (err ==> stage.Failures() > old(stage.Failures())) && (!err ==> requeueAfter == 0)
      ensures !old(stage.released) && stage.released ==>
                && DeliveryStopped(stage.cluster.objects, site)
                && (Live(stage.cluster.objects, NamespaceKey(site.target)) <==>
                    t.targetNamespace == "" && Live(old(stage.cluster.objects), NamespaceKey(site.target)))
      ensures stage.Alone() && Faultless() && t.held && t.targetNamespace == "" && !old(stage.registry.gone) &&
              stage.registry.schedule(old(stage.registry.turn)).outcome == Served &&
                t.version == |old(stage.registry.log)| - 1 ==>
                stage.released
    {
      hide stage.Valid, PhaseAgrees, NamesTarget, DeliveryStopped;
      stage.ValidParts();
      if !t.held {
        return false, 0;
      }
      t.phase := Terminating;
      var done, ok := Dismantle(t);
      if !ok {
        return true, 0;
      }
      if !done {
        return false, 5;
      }
      var released := stage.Release(t.version);
      return !released, 0;
    }

    // ---- Runs ----

    /** A live Environment with its finalizer has been handled: its status is about this
        generation and says what has become of it, or it is on its way out. */
    ghost predicate Handled(spec: EnvironmentSpec, generation: nat)
      reads stage.registry
    {
      || stage.registry.gone || stage.registry.log == []
      || stage.registry.Last().deleting
      || (&& stage.registry.Last().status.observedGeneration == generation
          && if spec.suspend then stage.registry.Last().status.phase == Suspended
             else stage.registry.Last().status.phase in {Pending, Healthy, Syncing, Degraded})
    }

    /** What a pass without error has done about the version it saw. */
    ghost predicate HandledPass(seen: Option<Environment>)
      reads stage.registry
    {
      if seen.None? then stage.registry.gone
      else !seen.value.deleting ==>
             if seen.value.held then Handled(seen.value.spec, seen.value.generation) else stage.registry.Held()
    }

    method PassLive(t: WorkingCopy)
      returns (err: bool, requeueAfter: int, ghost v: Visit, ghost c: Blueprint, ghost at: int)
      requires Valid() && stage.busy && t.version == stage.registry.read < |stage.registry.log|
      requires t.spec == stage.Copy().spec && t.generation == stage.Copy().generation && t.held == stage.Copy().held
      requires t.Status() == stage.Copy().status && !stage.Copy().deleting
      modifies this`lookups
      modifies stage`history, stage`moved, stage.registry, stage.cluster, clock, t, t.conditions
      ensures Valid() && old(stage.history) <= stage.history && stage.Failures() >= old(stage.Failures())
      ensures stage.busy
      ensures Tells(old(Some(stage.Copy())), old(lookups), old(clock.time), v) && (err <==> v.ending.Erring?)
      ensures !err ==> requeueAfter == v.requeue && stage.Failures() == old(stage.Failures())
      ensures err ==> stage.Failures() > old(stage.Failures()) ||
                      (Plans(t.spec, c) && Stopped(c, |old(stage.history)| - 1, at))
      ensures v.ending.Expired? ==> stage.registry.gone || stage.registry.Last().deleting
      ensures Made(t.spec, c, old(stage.cluster.objects), |old(stage.history)| - 1, v.ending)
      ensures v.ending.Provisioned? ==> Echoed(t.spec, old(lookups) + 1, |old(stage.history)| - 1)
      ensures !err && !t.held ==> stage.registry.Held()
      ensures !err && t.held ==> Handled(t.spec, t.generation)
    {
      hide stage.Valid, stage.registry.Valid, stage.cluster.Valid, Due, Requeue, Obstructed, Made, Echoed;
      v := Visit(Some(stage.Copy()), false, clock.time, clock.time, Erring, 0, 0);
      if !t.held {
        c := BlueprintOf(site, profileQuota, t.spec);
        stage.Others();
        var ok := stage.AddFinalizer(t.version);
        if ok {
          v := v.(ending := Enrolled);
        }
        NothingMade(t.spec, c, old(stage.cluster.objects), |old(stage.history)| - 1, v.ending);
        return !ok, 0, v, c, 0;
      }
      Fits();
      err, requeueAfter, v, c, at := ReconcileEnvironment(t);
    }

    ghost function NoBlueprint(): Blueprint {
      Blueprint(site, map[], map[], [], Err(""), Delivery(NoProvider, None, false, false))
    }

    /** Every persisted status fits. */
    lemma Fits()
      requires Valid()
      ensures stage.registry.read < |stage.registry.log|
      ensures stage.rules.fits(stage.Copy())
    {
      FitsAt(stage.rules, stage.registry.log, stage.registry.gone, stage.registry.read, stage.registry.read);
    }

    method PassOver(version: nat, environment: Environment)
      returns (err: bool, requeueAfter: int, ghost v: Visit, ghost c: Blueprint, ghost at: int)
      requires Valid() && stage.busy && version == stage.registry.read < |stage.registry.log| &&
                environment == stage.Copy()
      modifies this`lookups
      modifies stage`history, stage`moved, stage`released, stage.registry, stage.cluster, clock
      ensures Valid() && old(stage.history) <= stage.history && stage.Failures() >= old(stage.Failures())
      ensures stage.busy
      ensures environment.deleting ==> stage.registry.gone || stage.Failures() > old(stage.Failures())
      ensures Tells(Some(environment), old(lookups), old(clock.time), v) && (err <==> v.ending.Erring?)
      ensures !err ==> requeueAfter == v.requeue && HandledPass(Some(environment))
      ensures !err && !v.ending.Finalized? ==> stage.Failures() == old(stage.Failures())
      ensures err ==> stage.Failures() > old(stage.Failures()) ||
                      (Plans(environment.spec, c) && Stopped(c, |old(stage.history)| - 1, at))
      ensures v.ending.Expired? ==> stage.registry.gone || stage.registry.Last().deleting
      ensures v.ending.Provisioned? ==> Echoed(environment.spec, old(lookups) + 1, |old(stage.history)| - 1)
      ensures v.seen.Some? && !v.seen.value.deleting ==>
                Made(v.seen.value.spec, c, old(stage.cluster.objects), |old(stage.history)| - 1, v.ending)
    {
      hide stage.Valid, stage.registry.Valid, stage.cluster.Valid, Due, Requeue, PhaseAgrees, Obstructed, Made, Echoed;
      Fits();
      var t := new WorkingCopy(version, environment);
      if environment.deleting {
        v := Visit(Some(environment), false, clock.time, clock.time, Erring, 0, 0);
        err, requeueAfter := Finalize(t);
        if !err {
          v := v.(ending := Finalized);
        }
        return err, requeueAfter, v, NoBlueprint(), 0;
      }
      err, requeueAfter, v, c, at := PassLive(t);
    }

    /** The key is handed over, and the resource read. */
    method Begin() returns (r: Registries.Reply<EnvironmentSpec, EnvironmentStatus>)
      requires Valid() && !stage.busy
      modifies stage`history, stage`busy, stage`started, stage`moved, stage.registry, stage.cluster`objects, clock
      ensures Valid() && stage.busy && old(stage.history) <= stage.history && old(clock.time) <= clock.time
      ensures if r.Failed? then stage.Failures() > old(stage.Failures()) else stage.Failures() == old(stage.Failures())
      ensures r.Found? ==> r.version == stage.registry.read < |stage.registry.log| && r.resource == stage.Copy()
      ensures r.NotFound? ==> stage.registry.gone
      ensures old(stage.Stopping()) ==> stage.Stopping()
      ensures SameOwned(site, old(stage.cluster.objects), stage.cluster.objects)
    {
      hide stage.Valid, stage.registry.Valid, stage.cluster.Valid, EnvironmentRules, Owns, SameOwned;
      stage.ValidParts();
      stage.Take();
      stage.Others();
      StillOwned(old(stage.cluster.objects));
      r := stage.Fetch();
      stage.ValidParts();
    }

    method Pass() returns (err: bool, requeueAfter: int, ghost v: Visit, ghost c: Blueprint, ghost at: int)
      requires Valid() && !stage.busy
      modifies this`lookups
      modifies stage`history, stage`busy, stage`started, stage`moved, stage`released, stage.registry, stage.cluster
      modifies clock
      ensures Valid() && old(stage.history) <= stage.history && stage.Failures() >= old(stage.Failures())
      ensures stage.busy
      ensures old(stage.Stopping()) ==> stage.registry.gone || stage.Failures() > old(stage.Failures())
      ensures Tells(v.seen, old(lookups), old(clock.time), v) && (err <==> v.ending.Erring?)
      ensures !err ==> requeueAfter == v.requeue && HandledPass(v.seen)
      ensures !err && !v.ending.Finalized? ==> stage.Failures() == old(stage.Failures())
      ensures err ==> stage.Failures() > old(stage.Failures()) ||
                      (v.seen.Some? && Plans(v.seen.value.spec, c) && Stopped(c, |old(stage.history)| - 1, at))
      ensures v.ending.Expired? ==> stage.registry.gone || stage.registry.Last().deleting
      ensures v.ending.Provisioned? ==>
                v.seen.Some? && Echoed(v.seen.value.spec, old(lookups) + 1, |old(stage.history)| - 1)
      ensures v.seen.Some? && !v.seen.value.deleting ==>
                Made(v.seen.value.spec, c, old(stage.cluster.objects), |old(stage.history)| - 1, v.ending)
    {
      hide stage.Valid, stage.registry.Valid, stage.cluster.Valid, Due, Requeue, EnvironmentRules, Obstructed, Made;
      hide Plans, Owns, Echoed;
      stage.ValidParts();
      v, c, at := Visit(None, false, clock.time, clock.time, Erring, 0, 0), NoBlueprint(), 0;
      var r := Begin();
      ghost var start := stage.cluster.objects;
      match r {
        case Failed =>
          return true, 0, v, c, at;
        case NotFound =>
          return false, 0, v.(ending := Unfound), c, at;
        case Found(version, environment) =>
          ghost var from := |stage.history| - 1;
          err, requeueAfter, v, c, at := PassOver(version, environment);
          if v.ending.Provisioned? {
            EchoedEarlier(environment.spec, old(lookups) + 1, from, |old(stage.history)| - 1);
          }
          if !environment.deleting {
            MadeEarlier(environment.spec, c, start, old(stage.cluster.objects), from, |old(stage.history)| - 1,
              v.ending);
          }
      }
    }

    /** One pass for the key, put into the log. It ends as its visit tells, and the delay that it
        returns is the one in the log. Once the deletion has been read, every pass sees the
        Environment gone or meets a failing call. */
    method Reconcile() returns (err: bool, requeueAfter: int, ghost v: Visit, ghost c: Blueprint, ghost at: int)
      requires Valid() && !stage.busy
      modifies this`lookups, this`visits, stage, stage.registry, stage.cluster, clock
      ensures Valid() && old(stage.history) <= stage.history && stage.Failures() >= old(stage.Failures())
      ensures !stage.busy && (err ==> stage.registry.pending)
      ensures old(stage.Stopping()) ==> stage.registry.gone || stage.Failures() > old(stage.Failures())
      ensures visits == old(visits) + [v] && Chronicled(created, [v], stage.history)
      ensures Tells(v.seen, old(lookups), old(clock.time), v) && (err <==> v.ending.Erring?)
      ensures !err ==> requeueAfter == v.requeue && HandledPass(v.seen)
      ensures !err && !v.ending.Finalized? ==> stage.Failures() == old(stage.Failures())
      ensures err ==> stage.Failures() > old(stage.Failures()) ||
                      (v.seen.Some? && Plans(v.seen.value.spec, c) && Stopped(c, |old(stage.history)| - 1, at))
      ensures v.seen.Some? && !v.seen.value.deleting ==>
                Made(v.seen.value.spec, c, old(stage.cluster.objects), |old(stage.history)| - 1, v.ending)
      ensures v.ending.Provisioned? ==> v.seen.Some? && Complete(v.seen.value.spec, |old(stage.history)| - 1) &&
                                        Echoed(v.seen.value.spec, old(lookups) + 1, |old(stage.history)| - 1)
    {
      hide stage.Valid, stage.registry.Valid, stage.cluster.Valid, VisitFits, EnvironmentRules, Obstructed, Made;
      hide Plans, Complete, Echoes;
      err, requeueAfter, v, c, at := Pass();
      stage.Finish(err);
      stage.IsFaithful();
      EndIsFree(created, v, |stage.history| - 1);
      v := v.(end := |stage.history| - 1);
      if v.ending.Provisioned? {
        ProvisionedLive(created, v);
        MadeMeans(v.seen.value.spec, c, old(stage.cluster.objects), |old(stage.history)| - 1);
      }
      visits := visits + [v];
    }

    /** Any run: acts of others and passes for the key, in any order and with any faults. Every
        moment of it is good and so is every step; and the log tells of all passes. */
    method Operate(rounds: nat)
      requires Valid() && !stage.busy && Logged()
      modifies this`lookups, this`visits, stage, stage.registry, stage.cluster, clock
      ensures Valid() && !stage.busy && old(stage.history) <= stage.history && old(visits) <= visits
      ensures Faithful(EnvironmentRules(site, created, profileQuota), stage.history)
      ensures Chronicled(created, visits, stage.history)
    {
      hide stage.Valid, Faithful, VisitFits, EnvironmentRules, Chronicled, Stopped;
      for i := 0 to rounds
        invariant Valid() && !stage.busy && old(stage.history) <= stage.history && old(visits) <= visits && Logged()
      {
        ghost var earlier := stage.history;
        stage.Others();
        ChronicleLasts(created, visits, earlier, stage.history);
        if stage.registry.pending {
          ghost var before, history := visits, stage.history;
          var _, _, v, _, _ := Reconcile();
          ChronicleGrows(created, before, v, history, stage.history);
        }
      }
      stage.IsFaithful();
    }

    /** The log is true, and no reading in it lies in the future. */
    ghost predicate Logged()
      reads this`visits, stage`history, clock
    {
      Chronicled(created, visits, stage.history) && (visits != [] ==> visits[|visits| - 1].second <= clock.time)
    }

    method TeardownPass()
      requires Valid() && !stage.busy && stage.Stopping()
      modifies this`lookups, this`visits, stage, stage.registry, stage.cluster, clock
      ensures Valid() && !stage.busy && stage.Stopping()
      ensures old(stage.registry.gone) ==> stage.registry.gone
      ensures stage.Failures() >= old(stage.Failures())
      ensures stage.registry.gone || stage.Failures() > old(stage.Failures())
    {
      hide stage.Valid, Faithful, VisitFits, EnvironmentRules, Stopped;
      ghost var n := |stage.history| - 1;
      stage.IsFaithful();
      stage.Others();
      var _, _, _, _, _ := Reconcile();
      stage.IsFaithful();
      Sticky(stage.rules, stage.history, n, |stage.history| - 1);
    }

    /** Teardown terminates, whatever has become of the tenant: once the deletion has been read,
        k failing calls delay the release by at most k passes. */
    method Teardown(passes: nat)
      requires Valid() && !stage.busy && stage.Stopping()
      modifies this`lookups, this`visits, stage, stage.registry, stage.cluster, clock
      ensures Valid() && !stage.busy
      ensures stage.registry.gone || stage.Failures() >= old(stage.Failures()) + passes
    {
      hide stage.Valid, EnvironmentRules;
      for i := 0 to passes
        invariant Valid() && !stage.busy && stage.Stopping()
        invariant stage.registry.gone || stage.Failures() >= old(stage.Failures()) + i
      {
        TeardownPass();
      }
    }
  }
}
