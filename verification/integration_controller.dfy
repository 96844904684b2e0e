/** internal/controller/integration_controller.go: the Integration reconciler. */
module IntegrationControllers {
  import opened Base
  import opened Labels
  import opened Conditions
  import opened Clusters
  import opened Configs
  import opened Quotas
  import opened Connectors
  import opened Backoffs
  import opened Registries
  import opened Stages
  import opened IntegrationStates

  /** The object a pass works on: what was read, with a status that is changed in memory. */
  class WorkingCopy {
    const version: nat
    const spec: IntegrationSpec
    const generation: nat
    const held: bool
    const conditions: ConditionList
    var phase: IntegrationPhase
    var observedGeneration: nat
    var connectionSecretName: string
    var observedEndpoint: string
    var retries: nat
    var lastError: string
    var lastProbeTime: Option<int>
    var lastReconcileTime: Option<int>

    constructor (version: nat, i: Integration)
      ensures this.version == version && spec == i.spec && generation == i.generation && held == i.held
      ensures Status() == i.status && fresh(conditions)
    {
      this.version := version;
      spec, generation, held := i.spec, i.generation, i.held;
      phase, observedGeneration := i.status.phase, i.status.observedGeneration;
      connectionSecretName, observedEndpoint := i.status.connectionSecretName, i.status.observedEndpoint;
      retries, lastError := i.status.retries, i.status.lastError;
      lastProbeTime, lastReconcileTime := i.status.lastProbeTime, i.status.lastReconcileTime;
      var list := new ConditionList(i.status.conditions);
      conditions := list;
    }

    function Status(): IntegrationStatus
      reads this, conditions
    {
      IntegrationStatus(phase, conditions.items, observedGeneration, connectionSecretName, observedEndpoint,
                        retries, lastError, lastProbeTime, lastReconcileTime)
    }
  }

  /** `tenants` and `prober` are the outcomes of the n-th tenant lookup and the n-th probe; a
      probe answers with an error text or with nothing. */
  class IntegrationController {
    const name: string
    const namespace: string
    const stage: Stage<IntegrationSpec, IntegrationStatus>
    const clock: Clock
    const tenants: nat -> bool
    const prober: nat -> Option<string>
    var lookups: nat
    var probes: nat
    ghost var reports: seq<Report>
    ghost var landed: Option<Write>

    /** The persisted status is the one that the committed writes amount to: those in the
        reports, and then that of the present pass. */
    ghost predicate Valid()
      reads this`reports, this`landed, stage, stage.registry, stage.cluster, stage.clock
    {
      && stage.Valid() && stage.rules == IntegrationRules(name, namespace) && clock == stage.clock
      && Recorded(reports) && Grounded() && (!stage.busy ==> landed.None?)
    }

    ghost predicate Grounded()
      requires stage.registry.log != []
      reads this`reports, this`landed, stage.registry
    {
      && stage.registry.Last().status == (if landed.Some? then landed.value.status else StatusAfter(reports))
      && (landed.Some? ==>
            && WriteFits(landed.value)
            && landed.value.status.retries == NextRetries(landed.value.course, StatusAfter(reports).retries))
    }

    constructor (name: string, namespace: string, registry: Registry<IntegrationSpec, IntegrationStatus>,
                 cluster: Cluster, clock: Clock, moves: nat -> Move, bursts: nat -> nat,
                 tenants: nat -> bool, prober: nat -> Option<string>)
      requires registry.Valid() && cluster.Valid() && !registry.gone
      requires |registry.log| == 1 && !registry.Last().held && registry.Last().status == EMPTY_STATUS
      ensures Valid() && !stage.busy && reports == []
    {
      this.name, this.namespace, this.clock, this.tenants, this.prober := name, namespace, clock, tenants, prober;
      RulesAreLawful(name, namespace, registry.identity);
      var s := new Stage(IntegrationRules(name, namespace), Managed(name, namespace), registry, cluster, clock, moves,
        bursts);
      stage := s;
      lookups, probes, reports, landed := 0, 0, [], None;
    }

    // ---- A pass over a live Integration ----

    /** `t` is the version that was read; nothing of it has been persisted yet, the Ready
        condition has not been touched, and `more` failures have been counted. */
    ghost predicate Open(t: WorkingCopy, more: nat)
      reads stage, stage.registry, t, t.conditions
    {
      && stage.busy && t.version == stage.registry.read < |stage.registry.log|
      && var copy := stage.Copy();
         && t.spec == copy.spec && t.generation == copy.generation && copy.held && !copy.deleting
         && t.retries == copy.status.retries + more
         && t.connectionSecretName in {"", ConnectionSecretName(name)}
         && Unique(t.conditions.items)
         && Find(t.conditions.items, READY) == Find(copy.status.conditions, READY)
    }

    ghost predicate Working(t: WorkingCopy)
      reads stage, stage.registry, t, t.conditions
    {
      Open(t, 0)
    }

    /** The status is about this generation and endpoint. */
    ghost predicate Reported(t: WorkingCopy, status: IntegrationStatus)
      reads t`observedEndpoint, t`connectionSecretName
    {
      && status.observedGeneration == t.generation && status.observedEndpoint == t.observedEndpoint
      && status.connectionSecretName == t.connectionSecretName
    }

    /** `status` may be persisted in a pass of this course. */
    ghost predicate Drafted(t: WorkingCopy, status: IntegrationStatus, course: Course)
      requires stage.registry.read < |stage.registry.log|
      reads stage, stage.registry, stage.clock
    {
      && stage.rules.fits(stage.Copy().(status := status)) && status.observedGeneration == stage.Copy().generation
      && stage.rules.link(stage.Copy().status, status, stage.started, stage.clock.time)
      && status.retries == NextRetries(course, stage.Copy().status.retries)
      && WriteFits(Write(course, t.spec.retryPolicy, status))
    }

    /** If a write has landed in this pass, it is of this course. */
    ghost predicate Lands(spec: IntegrationSpec, course: Course)
      reads this`landed
    {
      landed.Some? ==> landed.value.course == course && landed.value.policy == spec.retryPolicy
    }

    /** How a pass of this course ends: without error its write has landed, and the delay that
        it returns is the one that goes with the write. */
    ghost predicate Ends(spec: IntegrationSpec, course: Course, err: bool, requeueAfter: int)
      reads this`landed
    {
      Lands(spec, course) && (!err ==> landed.Some? && requeueAfter == DelayOf(landed.value))
    }

    /** Status().Update as one atomic call, recorded if it was committed. */
    method Commit(t: WorkingCopy, ghost course: Course) returns (ok: bool)
      requires Valid() && stage.busy && landed.None? && t.version == stage.registry.read && t.spec == stage.Copy().spec
      requires Drafted(t, t.Status(), course)
      requires t.phase == Connected ==> Conveys(Secret(), t.spec)
      modifies this`landed, stage`history, stage.registry
      ensures Valid() && old(stage.history) <= stage.history && stage.Failures() >= old(stage.Failures())
      ensures if ok then stage.Failures() == old(stage.Failures()) else stage.Failures() > old(stage.Failures())
      ensures stage.registry.read == old(stage.registry.read) && stage.Copy() == old(stage.Copy())
      ensures landed.None? || landed == Some(Write(course, t.spec.retryPolicy, t.Status()))
      ensures ok ==> landed.Some? && stage.registry.Last().status == t.Status()
    {
      hide stage.Valid, Recorded, WriteFits, NextRetries, PhaseAgrees, IntegrationRules, StatusAfter, Conveys;
      stage.ValidParts();
      DraftAgrees(t, t.Status(), course);
      ClaimOf(name, namespace, stage.Copy().(status := t.Status()), stage.cluster.objects);
      var written;
      ghost var committed;
      ok, written, committed := stage.CommitStatus(t.version, t.Status());
      if committed {
        landed := Some(Write(course, t.spec.retryPolicy, t.Status()));
      }
    }

    lemma DraftAgrees(t: WorkingCopy, status: IntegrationStatus, course: Course)
      requires stage.registry.read < |stage.registry.log| && Drafted(t, status, course)
      ensures PhaseAgrees(status)
    {
    }

    method UpdateStatus(t: WorkingCopy, gen: nat, ghost course: Course) returns (ok: bool)
      requires Valid() && stage.busy && landed.None? && t.version == stage.registry.read && t.spec == stage.Copy().spec
      requires forall now: int ::
                 Drafted(t, t.Status().(observedGeneration := gen, lastReconcileTime := Some(now)), course)
      requires t.phase == Connected ==> Conveys(Secret(), t.spec)
      modifies this`landed, stage`history, stage`moved, stage.registry, stage.cluster`objects, clock
      modifies t`observedGeneration, t`lastReconcileTime
      ensures Valid() && stage.busy && old(stage.history) <= stage.history && stage.Failures() >= old(stage.Failures())
      ensures if ok then stage.Failures() == old(stage.Failures()) else stage.Failures() > old(stage.Failures())
      ensures ok ==> stage.registry.Last().status == t.Status()
      ensures t.observedGeneration == gen
      ensures landed.None? || landed == Some(Write(course, t.spec.retryPolicy, t.Status()))
      ensures ok ==> landed.Some?
      ensures stage.ManagedKept()
    {
      hide stage.Valid, Recorded, WriteFits, NextRetries, PhaseAgrees, IntegrationRules, StatusAfter, Conveys;
      t.observedGeneration := gen;
      var now := clock.Now();
      stage.Ticked();
      t.lastReconcileTime := Some(now);
      LinkLasts(name, namespace, stage.Copy().status, t.Status(), stage.started, old(clock.time), clock.time);
      stage.Others();
      SecretIsManaged();
      ok := Commit(t, course);
    }

    lemma SecretIsManaged()
      requires Valid()
      ensures stage.rules.managed(ConnectionKey(namespace, name))
    {
    }

    /** Records a missing dependency and asks for a retry. */
    method BlockOnDependency(t: WorkingCopy, msg: string, ghost course: Course) returns (err: bool, requeueAfter: int)
      requires Valid() && Working(t) && landed.None? && (course.NoTenant? || course.NoCredentials?)
      modifies this`landed, stage`history, stage`moved, stage.registry, stage.cluster`objects, clock
      modifies t`phase, t`retries, t`lastError, t`lastProbeTime, t`observedGeneration, t`lastReconcileTime, t.conditions
      ensures Valid() && stage.busy && old(stage.history) <= stage.history && stage.Failures() >= old(stage.Failures())
      ensures if err then stage.Failures() > old(stage.Failures()) else stage.Failures() == old(stage.Failures())
      ensures Ends(t.spec, course, err, requeueAfter)
      ensures Secret() == old(Secret())
      ensures !err ==> requeueAfter == 15_000_000_000 && stage.registry.Last().status.phase == Pending
      ensures !err ==> Reported(t, stage.registry.Last().status)
      ensures !err ==> Holds(stage.registry.Last().status.conditions, READY, False)
    {
      hide stage.Valid, Recorded, StatusAfter, PhaseAgrees, IntegrationRules, Find, SetIn;
      ghost var before := t.conditions.items;
      t.conditions.MarkFalse(clock, READY, "DependencyNotMet", msg, t.generation);
      stage.Ticked();
      t.phase := Pending;
      forall now: int
        ensures Drafted(t, t.Status().(observedGeneration := t.generation, lastReconcileTime := Some(now)), course)
      {
        DraftFits(name, namespace, stage.Copy().status.conditions, before,
                  t.Status().(observedGeneration := t.generation, lastReconcileTime := Some(now)),
                  Entry(READY, False, "DependencyNotMet", msg, t.generation), clock.time, stage.started, clock.time);
      }
      var ok := UpdateStatus(t, t.generation, course);
      SecretIsManaged();
      return !ok, if ok then DEPENDENCY_RETRY else 0;
    }

    /** Disables a suspended Integration; its Secret stays. */
    method Suspend(t: WorkingCopy, gen: nat) returns (err: bool, requeueAfter: int)
      requires Valid() && Working(t) && landed.None? && gen == t.generation
      modifies this`landed, stage`history, stage`moved, stage.registry, stage.cluster`objects, clock
      modifies t`phase, t`retries, t`lastError, t`lastProbeTime, t`observedGeneration, t`lastReconcileTime, t.conditions
      ensures Valid() && stage.busy && old(stage.history) <= stage.history && stage.Failures() >= old(stage.Failures())
      ensures if err then stage.Failures() > old(stage.Failures()) else stage.Failures() == old(stage.Failures())
      ensures Ends(t.spec, Suspension, err, requeueAfter)
      ensures Secret() == old(Secret())
      ensures !err ==> stage.registry.Last().status.phase == Disabled
      ensures !err ==> Reported(t, stage.registry.Last().status)
      ensures !err ==> Holds(stage.registry.Last().status.conditions, READY, False)
    {
      hide stage.Valid, Recorded, StatusAfter, PhaseAgrees, IntegrationRules, Find, SetIn;
      ghost var before := t.conditions.items;
      t.conditions.MarkFalse(clock, READY, "Suspended", "Integration is suspended", gen);
      stage.Ticked();
      t.phase := Disabled;
      forall now: int
        ensures Drafted(t, t.Status().(observedGeneration := gen, lastReconcileTime := Some(now)), Suspension)
      {
        DraftFits(name, namespace, stage.Copy().status.conditions, before,
                  t.Status().(observedGeneration := gen, lastReconcileTime := Some(now)),
                  Entry(READY, False, "Suspended", "Integration is suspended", gen), clock.time, stage.started,
                    clock.time);
      }
      var ok := UpdateStatus(t, gen, Suspension);
      SecretIsManaged();
      return !ok, 0;
    }

    /** Records the failure; the status write may fail too, and the cause is returned anyway. */
    method Fail(t: WorkingCopy, reason: string, cause: string)
      requires Valid() && Working(t) && landed.None?
      modifies this`landed, stage`history, stage`moved, stage.registry, stage.cluster`objects, clock
      modifies t`phase, t`retries, t`lastError, t`lastProbeTime, t`observedGeneration, t`lastReconcileTime, t.conditions
      ensures Valid() && stage.busy && old(stage.history) <= stage.history && stage.Failures() >= old(stage.Failures())
      ensures Secret() == old(Secret())
      ensures Lands(t.spec, Broken) && t.phase.Failed? && t.lastError == cause
      ensures Holds(t.conditions.items, DEGRADED, True) && Holds(t.conditions.items, READY, False)
      ensures stage.registry.Last().status == t.Status() || stage.Failures() > old(stage.Failures())
    {
      hide stage.Valid, Recorded, StatusAfter, PhaseAgrees, IntegrationRules, Find, SetIn;
      t.conditions.MarkTrue(clock, DEGRADED, reason, cause, t.generation);
      ghost var before := t.conditions.items;
      t.conditions.MarkFalse(clock, READY, reason, cause, t.generation);
      stage.Ticked();
      t.lastError := cause;
      t.phase := IntegrationPhase.Failed;
      forall now: int
        ensures Drafted(t, t.Status().(observedGeneration := t.generation, lastReconcileTime := Some(now)), Broken)
      {
        DraftFits(name, namespace, stage.Copy().status.conditions, before,
                  t.Status().(observedGeneration := t.generation, lastReconcileTime := Some(now)),
                  Entry(READY, False, reason, cause, t.generation), clock.time, stage.started, clock.time);
      }
      var _ := UpdateStatus(t, t.generation, Broken);
      SecretIsManaged();
    }

    /** The in-memory status of a connected Integration. */
    method MarkReady(t: WorkingCopy, gen: nat, msg: string, ghost course: Course)
      requires Valid() && Working(t) && course.Connects() && gen == t.generation
      modifies clock, t`retries, t`lastError, t`phase, t.conditions
      ensures Valid() && t.phase == Connected
      ensures forall now: int ::
                Drafted(t, t.Status().(observedGeneration := gen, lastReconcileTime := Some(now)), course)
    {
      hide stage.Valid, Recorded, StatusAfter, IntegrationRules, Find, SetIn, RemoveIn, PhaseAgrees, Unique;
      hide Holds, stage.registry.Valid, Merged, StatusAfter, IndexOf, stage.cluster.Valid, Grounded;
      ghost var start := t.conditions.items;
      t.retries := 0;
      t.lastError := "";
      t.conditions.Remove(DEGRADED);
      t.conditions.MarkTrue(clock, CONNECTED, "Provisioned", msg, gen);
      ghost var t1 := clock.time;
      t.conditions.MarkTrue(clock, READY, "Provisioned", msg, gen);
      ghost var t2 := clock.time;
      t.conditions.MarkFalse(clock, PROGRESSING, "Provisioned", "Integration connected", gen);
      ghost var t3 := clock.time;
      stage.Ticked();
      t.phase := Connected;
      forall now: int
        ensures Drafted(t, t.Status().(observedGeneration := gen, lastReconcileTime := Some(now)), course)
      {
        ghost var status := t.Status().(observedGeneration := gen, lastReconcileTime := Some(now));
        ConnectedFits(name, namespace, stage.Copy().status.conditions, start, status,
                      Entry(CONNECTED, True, "Provisioned", msg, gen), t1,
                      Entry(READY, True, "Provisioned", msg, gen), t2,
                      Entry(PROGRESSING, False, "Provisioned", "Integration connected", gen), t3,
                      stage.started, clock.time);
      }
    }

    /** A probe has passed, or there is nothing to probe. */
    method MarkConnected(t: WorkingCopy, gen: nat, msg: string, ghost course: Course)
      returns (err: bool, requeueAfter: int)
      requires Valid() && Working(t) && landed.None? && course.Connects() && gen == t.generation &&
                Conveys(Secret(), t.spec)
      modifies this`landed, stage`history, stage`moved, stage.registry, stage.cluster`objects, clock
      modifies t`phase, t`retries, t`lastError, t`lastProbeTime, t`observedGeneration, t`lastReconcileTime, t.conditions
      ensures Valid() && stage.busy && old(stage.history) <= stage.history && stage.Failures() >= old(stage.Failures())
      ensures stage.ManagedKept()
      ensures if err then stage.Failures() > old(stage.Failures()) else stage.Failures() == old(stage.Failures())
      ensures Ends(t.spec, course, err, requeueAfter)
      ensures !err ==> requeueAfter == 120_000_000_000 && stage.registry.Last().status.phase == Connected
      ensures !err ==> Reported(t, stage.registry.Last().status)
    {
      hide Valid, Drafted, Find, Unique, WriteFits, Conveys;
      MarkReady(t, gen, msg, course);
      var ok := UpdateStatus(t, gen, course);
      return !ok, RESYNC;
    }

    /** A probe has failed once too often: no more backoff, but the resync period. */
    method GiveUp(t: WorkingCopy, gen: nat, error: string) returns (err: bool, requeueAfter: int)
      requires Valid() && Open(t, 1) && landed.None? && gen == t.generation
      requires t.lastError == error && t.retries > MaxRetries(t.spec.retryPolicy)
      modifies this`landed, stage`history, stage`moved, stage.registry, stage.cluster`objects, clock
      modifies t`phase, t`retries, t`lastError, t`lastProbeTime, t`observedGeneration, t`lastReconcileTime, t.conditions
      ensures Valid() && stage.busy && old(stage.history) <= stage.history && stage.Failures() >= old(stage.Failures())
      ensures stage.ManagedKept()
      ensures if err then stage.Failures() > old(stage.Failures()) else stage.Failures() == old(stage.Failures())
      ensures !err ==> stage.registry.Last().status.retries == old(stage.Copy().status.retries) + 1
      ensures Ends(t.spec, Probed(Some(error)), err, requeueAfter)
      ensures !err ==> Reported(t, stage.registry.Last().status)
      ensures !err ==> stage.registry.Last().status.lastError == old(t.lastError)
    {
      hide stage.Valid, Recorded, StatusAfter, PhaseAgrees, IntegrationRules, Find, SetIn, ComputeBackoff;
      ghost var before := t.conditions.items;
      t.conditions.MarkFalse(clock, READY, "ProvisionFailed", error, gen);
      ghost var at := clock.time;
      t.conditions.MarkTrue(clock, DEGRADED, "ProbeFailed", error, gen);
      stage.Ticked();
      t.phase := IntegrationPhase.Failed;
      forall now: int
        ensures Drafted(t, t.Status().(observedGeneration := gen, lastReconcileTime := Some(now)), Probed(Some(error)))
      {
        DraftFits(name, namespace, stage.Copy().status.conditions, before,
                  t.Status().(observedGeneration := gen, lastReconcileTime := Some(now)),
                  Entry(READY, False, "ProvisionFailed", error, gen), at, stage.started, clock.time);
      }
      var ok := UpdateStatus(t, gen, Probed(Some(error)));
      return !ok, RESYNC;
    }

    /** A probe has failed within the budget. */
    method BackOff(t: WorkingCopy, gen: nat, error: string) returns (err: bool, requeueAfter: int)
      requires Valid() && Open(t, 1) && landed.None? && gen == t.generation
      requires t.lastError == error && t.retries <= MaxRetries(t.spec.retryPolicy)
      modifies this`landed, stage`history, stage`moved, stage.registry, stage.cluster`objects, clock
      modifies t`phase, t`retries, t`lastError, t`lastProbeTime, t`observedGeneration, t`lastReconcileTime, t.conditions
      ensures Valid() && stage.busy && old(stage.history) <= stage.history && stage.Failures() >= old(stage.Failures())
      ensures stage.ManagedKept()
      ensures if err then stage.Failures() > old(stage.Failures()) else stage.Failures() == old(stage.Failures())
      ensures !err ==> stage.registry.Last().status.retries == old(stage.Copy().status.retries) + 1
      ensures Ends(t.spec, Probed(Some(error)), err, requeueAfter)
      ensures !err ==> Reported(t, stage.registry.Last().status)
      ensures !err ==> stage.registry.Last().status.lastError == old(t.lastError)
    {
      hide stage.Valid, Recorded, StatusAfter, PhaseAgrees, IntegrationRules, Find, SetIn, ComputeBackoff;
      var backoff := ComputeBackoff(t.spec.retryPolicy, t.retries);
      ghost var before := t.conditions.items;
      t.conditions.MarkFalse(clock, READY, "Retrying", error, gen);
      stage.Ticked();
      t.phase := Degraded;
      forall now: int
        ensures Drafted(t, t.Status().(observedGeneration := gen, lastReconcileTime := Some(now)), Probed(Some(error)))
      {
        DraftFits(name, namespace, stage.Copy().status.conditions, before,
                  t.Status().(observedGeneration := gen, lastReconcileTime := Some(now)),
                  Entry(READY, False, "Retrying", error, gen), clock.time, stage.started, clock.time);
      }
      var ok := UpdateStatus(t, gen, Probed(Some(error)));
      return !ok, backoff;
    }

    /** A probe has failed: the counter goes up, and with it the phase and the delay. */
    method ProbeFailure(t: WorkingCopy, gen: nat, error: string) returns (err: bool, requeueAfter: int)
      requires Valid() && Working(t) && landed.None? && gen == t.generation
      modifies this`landed, stage`history, stage`moved, stage.registry, stage.cluster`objects, clock
      modifies t`phase, t`retries, t`lastError, t`lastProbeTime, t`observedGeneration, t`lastReconcileTime, t.conditions
      ensures Valid() && stage.busy && old(stage.history) <= stage.history && stage.Failures() >= old(stage.Failures())
      ensures stage.ManagedKept()
      ensures if err then stage.Failures() > old(stage.Failures()) else stage.Failures() == old(stage.Failures())
      ensures !err ==> stage.registry.Last().status.retries == old(stage.Copy().status.retries) + 1
      ensures Ends(t.spec, Probed(Some(error)), err, requeueAfter)
      ensures !err ==> Reported(t, stage.registry.Last().status)
      ensures !err ==> stage.registry.Last().status.lastError == error
    {
      hide stage.Valid, Recorded, StatusAfter, PhaseAgrees, IntegrationRules, Find, SetIn, ComputeBackoff;
      hide WriteFits, Unique;
      t.retries := t.retries + 1;
      t.lastError := error;
      var maxRetries := DEFAULT_MAX_RETRIES;
      if t.spec.retryPolicy.Some? {
        maxRetries := t.spec.retryPolicy.value.maxRetries;
      }
      if t.retries > maxRetries {
        err, requeueAfter := GiveUp(t, gen, error);
      } else {
        err, requeueAfter := BackOff(t, gen, error);
      }
    }

    /** Everything but databases and brokers is reached over HTTP. */
    predicate HasHealth(kind: ConnectorType) { kind !in {Database, Messaging} }

    /** The course of a pass that reaches its n-th probe. */
    function Answer(spec: IntegrationSpec, n: nat): Course {
      if HasHealth(spec.kind) then Probed(prober(n)) else Assumed
    }

    /** The health probe, where the connector can be probed. */
    method ProbeAndFinish(t: WorkingCopy, gen: nat) returns (err: bool, requeueAfter: int)
      requires Valid() && Working(t) && landed.None? && gen == t.generation && Conveys(Secret(), t.spec)
      modifies this`landed, this`probes, stage`history, stage`moved, stage.registry, stage.cluster`objects, clock
      modifies t`phase, t`retries, t`lastError, t`lastProbeTime, t`observedGeneration, t`lastReconcileTime, t.conditions
      ensures Valid() && stage.busy && old(stage.history) <= stage.history && stage.Failures() >= old(stage.Failures())
      ensures Ends(t.spec, Answer(t.spec, old(probes)), err, requeueAfter)
      ensures stage.ManagedKept()
      ensures if err then stage.Failures() > old(stage.Failures()) else stage.Failures() == old(stage.Failures())
      ensures !err ==> stage.registry.Last().status.phase in {Connected, Degraded, IntegrationPhase.Failed}
      ensures !err ==> Reported(t, stage.registry.Last().status)
    {
      hide stage.Valid, Recorded, StatusAfter, PhaseAgrees, IntegrationRules, Find, SetIn, ComputeBackoff, Unique;
      hide Conveys;
      var now := clock.Now();
      stage.Ticked();
      t.lastProbeTime := Some(now);
      if !IsHTTPType(t.spec.kind) {
        err, requeueAfter := MarkConnected(t, gen, "connectivity assumed", Assumed);
        return;
      }
      stage.Others();
      SecretIsManaged();
      var answer := prober(probes);
      probes := probes + 1;
      if answer.None? {
        err, requeueAfter := MarkConnected(t, gen, "endpoint reachable", Probed(None));
        return;
      }
      err, requeueAfter := ProbeFailure(t, gen, answer.value);
    }

    /** The connection Secret, if there is one. */
    ghost function Secret(): Option<Child>
      reads stage.cluster
    {
      Slot(stage.cluster.objects, ConnectionKey(namespace, name))
    }

    function SecretLabels(spec: IntegrationSpec): Labels {
      TenantLabels(spec.tenantRef, "integration", map[])[INTEGRATION_LABEL := name]
    }

    /** The connection Secret is `was`, overwritten with the payload of this endpoint, type and
        credentials. */
    ghost predicate Serves(spec: IntegrationSpec, creds: Data, was: Option<Child>)
      reads stage.cluster
    {
      && Secret().Some? && Secret().value.body.DataBody?
      && Encodes(Secret().value.body.data, spec.endpoint, TypeName(spec.kind), creds)
      && Named(spec.kind, TypeName(spec.kind))
      && Secret().value.controller == Some(name)
      && Branded(Secret().value.labels, spec.tenantRef, "integration", "platform.upo.io/integration", name)
      && Overwrite(was, SecretLabels(spec), Secret().value.body, Some(name)) == Ok(Secret())
    }

    lemma ServesConveys(spec: IntegrationSpec, creds: Data, was: Option<Child>)
      requires Serves(spec, creds, was)
      ensures Conveys(Secret(), spec)
    {
      hide Encodes;
      PayloadDecodes(Secret().value.body.data, spec.endpoint, TypeName(spec.kind), creds);
    }

    /** The connection Secret belongs to this Integration or to nobody; and where there is none,
        there is a live namespace to create it in. */
    predicate Clear(objects: Objects) {
      var key := ConnectionKey(namespace, name);
      if key in objects
      then objects[key].controller.Some? ==> objects[key].controller.value == name
      else Live(objects, NamespaceKey(namespace))
    }

    /** At moment n, which is not before the from-th, the connection Secret could not be
        written. */
    ghost predicate Stopped(from: int, n: int)
      reads stage`history
    {
      0 <= n < |stage.history| && from <= n && !Clear(stage.history[n].objects)
    }

    lemma ClearMeans(objects: Objects, data: Data, labels: Labels)
      ensures var key := ConnectionKey(namespace, name);
              Possible(objects, key, Overwrite(Slot(objects, key), labels, DataBody(data), Some(name))) <==>
                Clear(objects)
    {
    }

    /** The CreateOrUpdate of the connection Secret, as one atomic step. It goes through exactly
        if no call fails and the Secret can be written; if it does not, the Secret is as it was
        or as it should be. */
    method WriteSecret(t: WorkingCopy, data: Data, ghost creds: Data, labels: Labels) returns (ok: bool)
      requires Valid() && Working(t) && labels == SecretLabels(t.spec)
      requires Encodes(data, t.spec.endpoint, TypeName(t.spec.kind), creds)
      modifies stage`history, stage.cluster
      ensures Valid() && Working(t) && old(stage.history) <= stage.history && stage.Failures() >= old(stage.Failures())
      ensures Secret() == old(Secret()) || Serves(t.spec, creds, old(Secret()))
      ensures ok ==> Serves(t.spec, creds, old(Secret()))
      ensures ok <==> stage.Failures() == old(stage.Failures()) && Clear(old(stage.cluster.objects))
    {
      hide stage.Valid, stage.Unrecorded, Recorded, StatusAfter, Find, PhaseAgrees, Unique, WriteFits, Possible;
      hide Encodes;
      hide IntegrationRules, SecretLabels, Branded;
      ghost var before := stage.cluster.objects;
      stage.ValidParts();
      ok := ReconcileConnectionSecret(stage.cluster, name, namespace, ConnectionSecretName(name), data, labels);
      ClearMeans(before, data, labels);
      WantedSecret(t.spec, before, data);
      stage.Called();
      BreaksNoClaim(t, creds, before, ok);
      PlacedApart(stage.rules, before, stage.cluster.objects, ConnectionKey(namespace, name));
      stage.Built(before);
    }

    lemma BreaksNoClaim(t: WorkingCopy, creds: Data, before: Objects, ok: bool)
      requires stage.Unrecorded(before) && Working(t) && stage.rules == IntegrationRules(name, namespace)
      requires var was := Slot(before, ConnectionKey(namespace, name)); Secret() == was || Serves(t.spec, creds, was)
      ensures stage.registry.log != [] && stage.rules.managed(ConnectionKey(namespace, name))
      ensures stage.rules.claim(stage.registry.Last(), before) ==>
                stage.rules.claim(stage.registry.Last(), stage.cluster.objects)
      ensures stage.rules.order(before, stage.cluster.objects)
    {
      hide stage.Unrecorded, PhaseAgrees, Unique, Serves, Conveys, Find;
      var was := Slot(before, ConnectionKey(namespace, name));
      if Serves(t.spec, creds, was) {
        ServesConveys(t.spec, creds, was);
      }
      stage.AboutWhatItRead(before);
      ClaimKept(name, namespace, stage.registry.Last(), t.spec, before, stage.cluster.objects);
    }

    lemma WantedSecret(spec: IntegrationSpec, before: Objects, data: Data)
      ensures var key := ConnectionKey(namespace, name);
              var want := Overwrite(Slot(before, key), SecretLabels(spec), DataBody(data), Some(name));
              Possible(before, key, want) ==>
                && want.Ok? && want.value.Some? && want.value.value.body == DataBody(data)
                && want.value.value.controller == Some(name)
                && Branded(want.value.value.labels, spec.tenantRef, "integration", "platform.upo.io/integration", name)
    {
      hide TenantLabels, Branded, Carries, Overwrite;
      var slot, body := Slot(before, ConnectionKey(namespace, name)), DataBody(data);
      if Overwrite(slot, SecretLabels(spec), body, Some(name)).Ok? {
        OverwriteFacts(slot, SecretLabels(spec), body, body, Some(name));
        var child := Overwrite(slot, SecretLabels(spec), body, Some(name)).value.value;
        CarriesBrand(child.labels, spec.tenantRef, "integration", INTEGRATION_LABEL, name);
      }
    }

    /** Where a pass without error leaves an Integration. */
    function PhasesOf(spec: IntegrationSpec): set<IntegrationPhase> {
      if spec.suspend then {Disabled} else {Pending, Connected, Degraded, IntegrationPhase.Failed}
    }

    /** Materializes the payload. */
    method Materialize(t: WorkingCopy, creds: Data) returns (ok: bool, ghost at: int)
      requires Valid() && Working(t)
      modifies stage`history, stage`moved, stage.registry, stage.cluster
      ensures Valid() && Working(t) && old(stage.history) <= stage.history && stage.Failures() >= old(stage.Failures())
      ensures Secret() == old(Secret()) || Serves(t.spec, creds, old(Secret()))
      ensures ok ==> Serves(t.spec, creds, old(Secret())) && stage.Failures() == old(stage.Failures())
      ensures !ok ==> stage.Failures() > old(stage.Failures()) || Stopped(|old(stage.history)| - 1, at)
    {
      hide stage.Valid, Recorded, StatusAfter, Find, Encodes, PhaseAgrees, Unique, WriteFits, Clear, IntegrationRules;
      hide Serves, TenantLabels;
      stage.Others();
      SecretIsManaged();
      at := |stage.history| - 1;
      LastMoment();
      var data := BuildConnectionData(t.spec.endpoint, TypeName(t.spec.kind), creds);
      var labels := BuildTenantLabels(t.spec.tenantRef, "integration", map[]);
      labels := labels[INTEGRATION_LABEL := name];
      ok := WriteSecret(t, data, creds, labels);
    }

    lemma LastMoment()
      requires Valid()
      ensures stage.history != [] && stage.history[|stage.history| - 1].objects == stage.cluster.objects
    {
    }

    /** Looks the owning tenant up. */
    method FindTenant(t: WorkingCopy) returns (ok: bool, found: bool)
      requires Valid() && Working(t)
      modifies this`lookups, stage`history, stage`moved, stage.registry, stage.cluster`objects
      ensures Valid() && Working(t) && old(stage.history) <= stage.history && stage.Failures() >= old(stage.Failures())
      ensures if ok then stage.Failures() == old(stage.Failures()) else stage.Failures() > old(stage.Failures())
      ensures found == tenants(old(lookups)) && lookups == old(lookups) + 1
      ensures Secret() == old(Secret())
    {
      hide stage.Valid, Recorded, StatusAfter, Find, PhaseAgrees, Unique, WriteFits, IntegrationRules;
      stage.Others();
      SecretIsManaged();
      ok := stage.Answered();
      found := tenants(lookups);
      lookups := lookups + 1;
    }

    /** Resolves the credentials from the referenced Secret, in one call. */
    method LookUp(t: WorkingCopy) returns (r: Resolution)
      requires Valid() && Working(t)
      modifies stage.cluster`calls, stage.cluster`failures
      ensures Valid() && Working(t) && stage.Failures() >= old(stage.Failures())
      ensures r.LookupFailed? <==> stage.Failures() > old(stage.Failures())
      ensures r.NoSecret? <==> t.spec.authSecretRef.None?
      ensures r.SecretMissing? ==>
                t.spec.authSecretRef.Some? && SecretKey(namespace, t.spec.authSecretRef.value) !in stage.cluster.objects
      ensures r.Resolved? ==> var key := SecretKey(namespace, t.spec.authSecretRef.value);
                              key in stage.cluster.objects && r.data == DataOf(stage.cluster.objects[key])
    {
      hide stage.Valid, Recorded, StatusAfter, Find, PhaseAgrees, Unique, WriteFits, IntegrationRules;
      hide stage.registry.Valid;
      stage.ValidParts();
      r := ResolveAuthSecret(stage.cluster, namespace, t.spec.authSecretRef);
      stage.Asked();
    }

    /** The credentials as they are at moment `at`. */
    method Resolve(t: WorkingCopy) returns (r: Resolution, ghost at: int)
      requires Valid() && Working(t)
      modifies stage`history, stage`moved, stage.registry, stage.cluster
      ensures Valid() && Working(t) && old(stage.history) <= stage.history && stage.Failures() >= old(stage.Failures())
      ensures r.LookupFailed? <==> stage.Failures() > old(stage.Failures())
      ensures r.NoSecret? <==> t.spec.authSecretRef.None?
      ensures Secret() == old(Secret())
      ensures |old(stage.history)| - 1 <= at < |stage.history| && 0 <= at
      ensures var objects := stage.history[at].objects;
              && (r.SecretMissing? ==> t.spec.authSecretRef.Some? &&
                                       SecretKey(namespace, t.spec.authSecretRef.value) !in objects)
              && (r.Resolved? ==> var key := SecretKey(namespace, t.spec.authSecretRef.value);
                                  key in objects && r.data == DataOf(objects[key]))
    {
      hide stage.Valid, Recorded, StatusAfter, Find, PhaseAgrees, Unique, WriteFits, IntegrationRules;
      hide stage.registry.Valid;
      stage.Others();
      SecretIsManaged();
      at := |stage.history| - 1;
      LastMoment();
      r := LookUp(t);
    }

    /** The course that a pass over a live Integration has taken is the one that its spec, the
        tenant lookup, the Secrets at a moment of the pass and the probe have given it. */
    ghost predicate Took(spec: IntegrationSpec, course: Course, lookup: nat, probe: nat, from: int)
      reads stage`history
    {
      match course
      case Idle => false
      case Suspension => spec.suspend
      case NoTenant => !spec.suspend && !tenants(lookup)
      case NoCredentials(at) =>
        && !spec.suspend && tenants(lookup) && spec.authSecretRef.Some?
        && 0 <= at < |stage.history| && from <= at
        && Key(Kind.Secret, namespace, spec.authSecretRef.value) !in stage.history[at].objects
      case Broken => !spec.suspend
      case Assumed => !spec.suspend && tenants(lookup) && !HasHealth(spec.kind)
      case Probed(error) =>
        !spec.suspend && tenants(lookup) && HasHealth(spec.kind) && error == prober(probe)
    }

    /** The credentials are those of the referenced Secret at moment n, or there are none. */
    ghost predicate CredentialsAt(spec: IntegrationSpec, creds: Data, n: int)
      reads stage`history
    {
      && 0 <= n < |stage.history|
      && if spec.authSecretRef.None? then creds == map[]
         else var key, objects := Key(Kind.Secret, namespace, spec.authSecretRef.value), stage.history[n].objects;
              key in objects && creds == if objects[key].body.DataBody? then objects[key].body.data else map[]
    }

    /** What a pass has made of the connection Secret that `was` there: nothing, or the payload of
        its spec and of the credentials that were in the referenced Secret at a moment of the
        pass; the latter if it has got as far as the probe, and nothing if it did not try. */
    ghost predicate Made(spec: IntegrationSpec, course: Course, creds: Data, was: Option<Child>, from: int)
      reads stage`history, stage.cluster
    {
      && (Secret() == was || (Serves(spec, creds, was) && Credited(spec, creds, from)))
      && (course.Assumed? || course.Probed? ==> Serves(spec, creds, was) && Credited(spec, creds, from))
      && (course.Idle? || course.Suspension? || course.NoTenant? || course.NoCredentials? ==> Secret() == was)
    }

    ghost predicate Credited(spec: IntegrationSpec, creds: Data, from: int)
      reads stage`history
    {
      exists n: int :: from <= n && CredentialsAt(spec, creds, n)
    }

    lemma NothingMade(spec: IntegrationSpec, course: Course, creds: Data, was: Option<Child>, from: int)
      requires Secret() == was && !course.Assumed? && !course.Probed?
      ensures Made(spec, course, creds, was, from)
    {
    }

    lemma MadeEarlier(spec: IntegrationSpec, course: Course, creds: Data, was: Option<Child>, from: int, before: int)
      requires Made(spec, course, creds, was, from) && before <= from
      ensures Made(spec, course, creds, was, before)
    {
      hide Serves;
    }

    /** A pass over a live Integration. */
    method ReconcileIntegration(t: WorkingCopy)
      returns (err: bool, requeueAfter: int, ghost course: Course, ghost creds: Data, ghost at: int)
      requires Valid() && Working(t) && landed.None?
      modifies this`landed, this`lookups, this`probes, stage`history, stage`moved, stage.registry, stage.cluster
      modifies clock, t, t.conditions
      ensures Valid() && stage.busy && old(stage.history) <= stage.history && stage.Failures() >= old(stage.Failures())
      ensures Took(t.spec, course, old(lookups), old(probes), |old(stage.history)| - 1)
      ensures Ends(t.spec, course, err, requeueAfter)
      ensures !err ==> !course.Broken? && stage.Failures() == old(stage.Failures())
      ensures err ==> stage.Failures() > old(stage.Failures()) || Stopped(|old(stage.history)| - 1, at)
      ensures course.Assumed? || course.Probed? ==>
                t.connectionSecretName == name + "-connection"
      ensures Made(t.spec, course, creds, old(Secret()), |old(stage.history)| - 1)
      ensures !err ==> Reported(t, stage.registry.Last().status) && t.observedEndpoint == t.spec.endpoint
      ensures !err ==> stage.registry.Last().status.phase in PhasesOf(t.spec)
    {
      hide stage.Valid, Recorded, StatusAfter, Find, PhaseAgrees, Unique, Serves, SetIn, Conveys, Holds, WriteFits;
      hide stage.registry.Valid, IntegrationRules, Clear, DelayOf, Grounded, stage.cluster.Valid, Made, Slot, HasHealth;
      course, creds, at := Broken, map[], 0;
      var gen := t.generation;
      t.observedEndpoint := t.spec.endpoint;
      if t.spec.suspend {
        course := Suspension;
        err, requeueAfter := Suspend(t, gen);
        NothingMade(t.spec, course, creds, old(Secret()), |old(stage.history)| - 1);
        return;
      }
      err, requeueAfter, course, creds, at := Admit(t, gen);
    }

    /** The rest of a pass over an Integration that is not suspended. */
    method Admit(t: WorkingCopy, gen: nat)
      returns (err: bool, requeueAfter: int, ghost course: Course, ghost creds: Data, ghost at: int)
      requires Valid() && Working(t) && landed.None? && gen == t.generation && !t.spec.suspend
      modifies this`landed, this`lookups, this`probes, stage`history, stage`moved, stage.registry, stage.cluster
      modifies clock, t, t.conditions
      ensures Valid() && stage.busy && old(stage.history) <= stage.history && stage.Failures() >= old(stage.Failures())
      ensures Took(t.spec, course, old(lookups), old(probes), |old(stage.history)| - 1)
      ensures Ends(t.spec, course, err, requeueAfter)
      ensures !err ==> !course.Broken? && stage.Failures() == old(stage.Failures())
      ensures err ==> stage.Failures() > old(stage.Failures()) || Stopped(|old(stage.history)| - 1, at)
      ensures course.Assumed? || course.Probed? ==> t.connectionSecretName == name + "-connection"
      ensures Made(t.spec, course, creds, old(Secret()), |old(stage.history)| - 1)
      ensures !err ==> Reported(t, stage.registry.Last().status) && t.observedEndpoint == old(t.observedEndpoint)
      ensures !err ==> stage.registry.Last().status.phase in {Pending, Connected, Degraded, IntegrationPhase.Failed}
    {
      hide stage.Valid, Recorded, StatusAfter, Find, PhaseAgrees, Unique, Serves, SetIn, Conveys, Holds, WriteFits;
      hide stage.registry.Valid, IntegrationRules, Clear, DelayOf, Grounded, stage.cluster.Valid, Made, Slot, HasHealth;
      course, creds, at := Broken, map[], 0;
      var ok, found := FindTenant(t);
      if !ok {
        NothingMade(t.spec, Broken, map[], old(Secret()), |old(stage.history)| - 1);
        return true, 0, Broken, map[], 0;
      }
      if !found {
        course := NoTenant;
        err, requeueAfter := BlockOnDependency(t, "tenant not found", course);
        NothingMade(t.spec, course, creds, old(Secret()), |old(stage.history)| - 1);
        return;
      }
      BeginProgress(t, gen);
      ghost var from := |stage.history| - 1;
      err, requeueAfter, course, creds, at := Supply(t, gen);
      MadeEarlier(t.spec, course, creds, old(Secret()), from, |old(stage.history)| - 1);
    }

    /** The rest of the pass, once the tenant is there. */
    method Supply(t: WorkingCopy, gen: nat)
      returns (err: bool, requeueAfter: int, ghost course: Course, ghost creds: Data, ghost at: int)
      requires Valid() && Working(t) && landed.None? && gen == t.generation
      modifies this`landed, this`probes, stage`history, stage`moved, stage.registry, stage.cluster, clock
      modifies t`connectionSecretName, t`phase, t`retries, t`lastError, t`lastProbeTime, t`observedGeneration
      modifies t`lastReconcileTime, t.conditions
      ensures Valid() && stage.busy && old(stage.history) <= stage.history && stage.Failures() >= old(stage.Failures())
      ensures course == Broken || course == Answer(t.spec, old(probes)) ||
              (&& course == NoCredentials(at) && t.spec.authSecretRef.Some?
               && |old(stage.history)| - 1 <= at < |stage.history| && 0 <= at
               && SecretKey(namespace, t.spec.authSecretRef.value) !in stage.history[at].objects)
      ensures Ends(t.spec, course, err, requeueAfter)
      ensures !err ==> !course.Broken? && stage.Failures() == old(stage.Failures())
      ensures err ==> stage.Failures() > old(stage.Failures()) || Stopped(|old(stage.history)| - 1, at)
      ensures course.Assumed? || course.Probed? ==>
                t.connectionSecretName == name + "-connection"
      ensures Made(t.spec, course, creds, old(Secret()), |old(stage.history)| - 1)
      ensures !err ==> Reported(t, stage.registry.Last().status)
      ensures !err ==> stage.registry.Last().status.phase in {Pending, Connected, Degraded, IntegrationPhase.Failed}
    {
      hide stage.Valid, Recorded, StatusAfter, Find, PhaseAgrees, Unique, Serves, SetIn, Conveys, Holds, WriteFits;
      hide stage.registry.Valid, IntegrationRules, Clear, DelayOf;
      course, creds := Broken, map[];
      var r;
      r, at := Resolve(t);
      if r.SecretMissing? {
        course := NoCredentials(at);
        err, requeueAfter := BlockOnDependency(t, "auth secret not found", course);
        return;
      }
      if r.LookupFailed? {
        Fail(t, "SecretError", "cause");
        return true, 0, Broken, creds, at;
      }
      MarkResolved(t, gen);
      creds := if r.Resolved? then r.data else map[];
      ghost var n := at;
      assert CredentialsAt(t.spec, creds, n);
      err, requeueAfter, course, at := Connect(t, gen, if r.Resolved? then r.data else map[]);
      assert CredentialsAt(t.spec, creds, n);
    }

    /** The rest of the pass, once the credentials are there. */
    method Connect(t: WorkingCopy, gen: nat, creds: Data)
      returns (err: bool, requeueAfter: int, ghost course: Course, ghost at: int)
      requires Valid() && Working(t) && landed.None? && gen == t.generation
      modifies this`landed, this`probes, stage`history, stage`moved, stage.registry, stage.cluster, clock
      modifies t`connectionSecretName, t`phase, t`retries, t`lastError, t`lastProbeTime, t`observedGeneration
      modifies t`lastReconcileTime, t.conditions
      ensures Valid() && stage.busy && old(stage.history) <= stage.history && stage.Failures() >= old(stage.Failures())
      ensures course == Broken || course == Answer(t.spec, old(probes))
      ensures Ends(t.spec, course, err, requeueAfter)
      ensures !err ==> !course.Broken? && stage.Failures() == old(stage.Failures())
      ensures err ==> stage.Failures() > old(stage.Failures()) || Stopped(|old(stage.history)| - 1, at)
      ensures Secret() == old(Secret()) || Serves(t.spec, creds, old(Secret()))
      ensures course != Broken ==> Serves(t.spec, creds, old(Secret())) &&
                                   t.connectionSecretName == name + "-connection"
      ensures !err ==> Reported(t, stage.registry.Last().status)
      ensures !err ==> stage.registry.Last().status.phase in {Connected, Degraded, IntegrationPhase.Failed}
    {
      hide stage.Valid, Recorded, StatusAfter, Find, PhaseAgrees, Unique, SecretLabels, Encodes, WriteFits, Clear;
      hide DelayOf;
      var ok;
      ok, at := Materialize(t, creds);
      if !ok {
        Fail(t, "ConnectionSecretError", "cause");
        return true, 0, Broken, at;
      }
      t.connectionSecretName := ConnectionSecretName(name);
      course := Answer(t.spec, probes);
      err, requeueAfter := ProbeServing(t, gen, creds, old(Secret()));
    }

    /** The probe leaves the connection Secret alone. */
    method ProbeServing(t: WorkingCopy, gen: nat, ghost creds: Data, ghost was: Option<Child>)
      returns (err: bool, requeueAfter: int)
      requires Valid() && Working(t) && landed.None? && gen == t.generation && Serves(t.spec, creds, was)
      modifies this`landed, this`probes, stage`history, stage`moved, stage.registry, stage.cluster`objects, clock
      modifies t`phase, t`retries, t`lastError, t`lastProbeTime, t`observedGeneration, t`lastReconcileTime, t.conditions
      ensures Valid() && stage.busy && old(stage.history) <= stage.history && stage.Failures() >= old(stage.Failures())
      ensures Ends(t.spec, Answer(t.spec, old(probes)), err, requeueAfter)
      ensures if err then stage.Failures() > old(stage.Failures()) else stage.Failures() == old(stage.Failures())
      ensures Serves(t.spec, creds, was)
      ensures !err ==> Reported(t, stage.registry.Last().status)
      ensures !err ==> stage.registry.Last().status.phase in {Connected, Degraded, IntegrationPhase.Failed}
    {
      hide stage.Valid, Recorded, StatusAfter, Find, PhaseAgrees, Unique, Encodes, Conveys, WriteFits, DelayOf;
      hide SecretLabels;
      ServesConveys(t.spec, creds, was);
      err, requeueAfter := ProbeAndFinish(t, gen);
      SecretIsManaged();
    }

    method BeginProgress(t: WorkingCopy, gen: nat)
      requires Valid() && Working(t)
      modifies clock, t.conditions
      ensures Valid() && Working(t)
      ensures Holds(t.conditions.items, PROGRESSING, Unknown)
    {
      hide stage.Valid, Recorded, StatusAfter, Find, PhaseAgrees, Unique, SetIn;
      t.conditions.MarkUnknown(clock, PROGRESSING, "Reconciling", "Resolving credentials and validating connectivity",
        gen);
      stage.Ticked();
    }

    method MarkResolved(t: WorkingCopy, gen: nat)
      requires Valid() && Working(t)
      modifies clock, t.conditions
      ensures Valid() && Working(t)
      ensures Holds(t.conditions.items, SECRET_RESOLVED, True)
    {
      hide stage.Valid, Recorded, StatusAfter, Find, PhaseAgrees, Unique, SetIn;
      t.conditions.MarkTrue(clock, SECRET_RESOLVED, "Provisioned", "Credentials resolved", gen);
      stage.Ticked();
    }

    // ---- A pass over a deleted Integration ----

    ghost predicate Closing(t: WorkingCopy)
      reads stage, stage.registry, t`connectionSecretName
    {
      && stage.busy && t.version == stage.registry.read < |stage.registry.log|
      && stage.Copy().deleting && t.held == stage.Copy().held
      && t.connectionSecretName == stage.Copy().status.connectionSecretName
      && t.connectionSecretName in {"", ConnectionSecretName(name)}
    }

    /** The deletion of the connection Secret, as one atomic call. */
    method DeleteSecret(t: WorkingCopy) returns (ok: bool)
      requires Valid() && Closing(t) && t.connectionSecretName != ""
      modifies stage`history, stage.cluster
      ensures Valid() && Closing(t) && old(stage.history) <= stage.history && stage.Failures() >= old(stage.Failures())
      ensures ok ==> ConnectionKey(namespace, name) !in stage.cluster.objects
      ensures !ok ==> stage.Failures() > old(stage.Failures())
    {
      hide stage.Valid, stage.Unrecorded, Recorded, StatusAfter, Find, PhaseAgrees, Unique;
      ghost var before := stage.cluster.objects;
      stage.ValidParts();
      ok := DeleteConnectionSecret(stage.cluster, namespace, t.connectionSecretName);
      PlacedApart(stage.rules, before, stage.cluster.objects, ConnectionKey(namespace, name));
      SlotsRecede(before, stage.cluster.objects, ConnectionKey(namespace, name));
      stage.Called();
      stage.Cleared(before);
    }

    /** A finalize pass sees the Integration gone or has met a failing call. When it releases
        the Integration, the connection Secret is left behind exactly if its name was never
        persisted. */
    method Finalize(t: WorkingCopy) returns (err: bool)
      requires Valid() && Closing(t)
      modifies stage`history, stage`moved, stage`released, stage.registry, stage.cluster
      ensures Valid() && stage.busy && old(stage.history) <= stage.history && stage.Failures() >= old(stage.Failures())
      ensures stage.Copy().deleting && (err ==> stage.Failures() > old(stage.Failures()))
      ensures stage.registry.gone || stage.Failures() > old(stage.Failures())
      ensures var key := ConnectionKey(namespace, name);
              !old(stage.released) && stage.released ==>
                (key in stage.cluster.objects <==>
                 t.connectionSecretName == "" && key in old(stage.cluster.objects))
    {
      hide stage.Valid, Recorded, StatusAfter, Find, PhaseAgrees, Unique, WriteFits, NextRetries, stage.registry.Valid;
      if !t.held {
        stage.ValidParts();
        return false;
      }
      Wait(t);
      if t.connectionSecretName != "" {
        var ok := DeleteSecret(t);
        if !ok {
          return true;
        }
      }
      Wait(t);
      var released := stage.Release(t.version);
      return !released;
    }

    /** What others do leaves the teardown where it is. */
    method Wait(t: WorkingCopy)
      requires Valid() && Closing(t)
      modifies stage`history, stage`moved, stage.registry, stage.cluster`objects
      ensures Valid() && Closing(t) && old(stage.history) <= stage.history && stage.Failures() == old(stage.Failures())
      ensures Secret() == old(Secret()) && stage.released == old(stage.released)
    {
      hide stage.Valid, Recorded, StatusAfter, Find, PhaseAgrees, Unique, WriteFits, NextRetries, stage.registry.Valid;
      stage.Others();
      SecretIsManaged();
    }

    // ---- Runs ----

    /** A live Integration with its finalizer has been handled: its status is about this
        generation and endpoint and says what has become of it. */
    ghost predicate Handled(spec: IntegrationSpec, generation: nat)
      reads stage.registry
    {
      && stage.registry.log != []
      && var s := stage.registry.Last().status;
         && s.observedGeneration == generation && s.observedEndpoint == spec.endpoint
         && s.phase in PhasesOf(spec)
    }

    /** What a pass without error has done about the version it saw. */
    ghost predicate HandledPass(seen: Option<Integration>)
      reads stage.registry
    {
      if seen.None? then stage.registry.gone
      else !seen.value.deleting ==>
             if seen.value.held then Handled(seen.value.spec, seen.value.generation) else stage.registry.Held()
    }

    /** What a pass has reported so far, its course, and what it is about to return. */
    ghost function Ended(seen: Option<Integration>, course: Course, err: bool, requeueAfter: int): Report
      reads this`landed
    {
      Report(seen, course, landed, err, requeueAfter)
    }

    method PassLive(t: WorkingCopy)
      returns (err: bool, requeueAfter: int, ghost course: Course, ghost creds: Data, ghost at: int)
      requires Valid() && stage.busy && landed.None? && t.version == stage.registry.read < |stage.registry.log|
      requires t.spec == stage.Copy().spec && t.generation == stage.Copy().generation && t.held == stage.Copy().held
      requires t.Status() == stage.Copy().status && !stage.Copy().deleting
      modifies this`landed, this`lookups, this`probes, stage`history, stage`moved, stage.registry, stage.cluster
      modifies clock, t, t.conditions
      ensures Valid() && stage.busy && old(stage.history) <= stage.history && stage.Failures() >= old(stage.Failures())
      ensures ReportFits(Ended(old(Some(stage.Copy())), course, err, requeueAfter))
      ensures Made(t.spec, course, creds, old(Secret()), |old(stage.history)| - 1)
      ensures t.held ==> Took(t.spec, course, old(lookups), old(probes), |old(stage.history)| - 1)
      ensures !err ==> stage.Failures() == old(stage.Failures())
      ensures err ==> stage.Failures() > old(stage.Failures()) || Stopped(|old(stage.history)| - 1, at)
      ensures !err && !t.held ==> stage.registry.Held()
      ensures !err && t.held ==> Handled(t.spec, t.generation)
    {
      hide stage.Valid, Recorded, StatusAfter, Find, WriteFits, DelayOf, Clear, Serves;
      stage.ValidParts();
      if !t.held {
        stage.Others();
        var ok := stage.AddFinalizer(t.version);
        SecretIsManaged();
        return !ok, 0, Idle, map[], 0;
      }
      Fits();
      err, requeueAfter, course, creds, at := ReconcileIntegration(t);
      stage.ValidParts();
    }

    /** Every persisted status fits. */
    lemma Fits()
      requires Valid()
      ensures stage.registry.read < |stage.registry.log|
      ensures stage.rules.fits(stage.Copy())
    {
      FitsAt(stage.rules, stage.registry.log, stage.registry.gone, stage.registry.read, stage.registry.read);
    }

    method PassOver(version: nat, integration: Integration)
      returns (err: bool, requeueAfter: int, ghost course: Course, ghost creds: Data, ghost at: int)
      requires Valid() && stage.busy && landed.None?
      requires version == stage.registry.read < |stage.registry.log| && integration == stage.Copy()
      modifies this`landed, this`lookups, this`probes, stage`history, stage`moved, stage`released
      modifies stage.registry, stage.cluster, clock
      ensures Valid() && stage.busy && old(stage.history) <= stage.history && stage.Failures() >= old(stage.Failures())
      ensures ReportFits(Ended(Some(integration), course, err, requeueAfter))
      ensures !integration.deleting ==>
                Made(integration.spec, course, creds, old(Secret()), |old(stage.history)| - 1)
      ensures !course.Idle? ==> Took(integration.spec, course, old(lookups), old(probes), |old(stage.history)| - 1)
      ensures integration.deleting ==> stage.registry.gone || stage.Failures() > old(stage.Failures())
      ensures !err && !integration.deleting ==> stage.Failures() == old(stage.Failures())
      ensures err ==> stage.Failures() > old(stage.Failures()) || Stopped(|old(stage.history)| - 1, at)
      ensures !err ==> HandledPass(Some(integration))
    {
      hide stage.Valid, Recorded, StatusAfter, Find, WriteFits, DelayOf, Clear, Made;
      Fits();
      var t := new WorkingCopy(version, integration);
      if integration.deleting {
        err := Finalize(t);
        return err, 0, Idle, map[], 0;
      }
      err, requeueAfter, course, creds, at := PassLive(t);
    }

    /** The key is handed over, and the resource read. */
    method Begin() returns (r: Registries.Reply<IntegrationSpec, IntegrationStatus>)
      requires Valid() && !stage.busy
      modifies stage`history, stage`busy, stage`started, stage`moved, stage.registry, stage.cluster`objects, clock
      ensures Valid() && stage.busy && landed.None? && old(stage.history) <= stage.history
      ensures if r.Failed? then stage.Failures() > old(stage.Failures()) else stage.Failures() == old(stage.Failures())
      ensures r.Found? ==> r.version == stage.registry.read < |stage.registry.log| && r.resource == stage.Copy()
      ensures r.NotFound? ==> stage.registry.gone
      ensures old(stage.Stopping()) ==> stage.Stopping()
      ensures Secret() == old(Secret())
    {
      hide stage.Valid, stage.registry.Valid, stage.cluster.Valid, Recorded, StatusAfter, IntegrationRules, WriteFits;
      stage.ValidParts();
      stage.Take();
      stage.ValidParts();
      stage.Others();
      SecretIsManaged();
      r := stage.Fetch();
      stage.ValidParts();
    }

    method Pass() returns (err: bool, requeueAfter: int, ghost seen: Option<Integration>,
                           ghost course: Course, ghost creds: Data, ghost at: int)
      requires Valid() && !stage.busy
      modifies this`landed, this`lookups, this`probes, stage`history, stage`moved, stage`released, stage`busy
      modifies stage`started
      modifies stage.registry, stage.cluster, clock
      ensures Valid() && stage.busy && old(stage.history) <= stage.history && stage.Failures() >= old(stage.Failures())
      ensures ReportFits(Ended(seen, course, err, requeueAfter))
      ensures seen.Some? && !seen.value.deleting ==>
                Made(seen.value.spec, course, creds, old(Secret()), |old(stage.history)| - 1)
      ensures !course.Idle? ==> Took(seen.value.spec, course, old(lookups), old(probes), |old(stage.history)| - 1)
      ensures old(stage.Stopping()) ==>
                stage.registry.gone || stage.Failures() > old(stage.Failures())
      ensures !err && (seen.Some? ==> !seen.value.deleting) ==> stage.Failures() == old(stage.Failures())
      ensures err ==> stage.Failures() > old(stage.Failures()) || Stopped(|old(stage.history)| - 1, at)
      ensures !err ==> HandledPass(seen)
    {
      hide stage.Valid, stage.registry.Valid, stage.cluster.Valid, Recorded, StatusAfter, IntegrationRules, WriteFits;
      hide DelayOf, Clear, Made;
      var r := Begin();
      match r {
        case Failed =>
          return true, 0, None, Idle, map[], 0;
        case NotFound =>
          return false, 0, None, Idle, map[], 0;
        case Found(version, integration) =>
          seen := Some(integration);
          ghost var from := |stage.history| - 1;
          err, requeueAfter, course, creds, at := PassOver(version, integration);
          if !integration.deleting {
            MadeEarlier(integration.spec, course, creds, old(Secret()), from, |old(stage.history)| - 1);
          }
      }
    }

    /** One pass for the key, put into the reports: at most one status write, of the course that
        the pass has taken, and the delay that goes with it. Once the deletion has been read,
        every pass sees the Integration gone or meets a failing call. */
    method Reconcile() returns (err: bool, requeueAfter: int, ghost r: Report, ghost creds: Data, ghost at: int)
      requires Valid() && !stage.busy
      modifies this`reports, this`landed, this`lookups, this`probes, stage, stage.registry, stage.cluster, clock
      ensures Valid() && old(stage.history) <= stage.history && stage.Failures() >= old(stage.Failures())
      ensures !stage.busy && (err ==> stage.registry.pending)
      ensures reports == old(reports) + [r] && r.err == err && r.requeueAfter == requeueAfter && ReportFits(r)
      ensures r.seen.Some? && !r.seen.value.deleting ==>
                Made(r.seen.value.spec, r.course, creds, old(Secret()), |old(stage.history)| - 1)
      ensures !r.course.Idle? ==>
                Took(r.seen.value.spec, r.course, old(lookups), old(probes), |old(stage.history)| - 1)
      ensures old(stage.Stopping()) ==>
                stage.registry.gone || stage.Failures() > old(stage.Failures())
      ensures !err && (r.seen.Some? ==> !r.seen.value.deleting) ==> stage.Failures() == old(stage.Failures())
      ensures err ==> stage.Failures() > old(stage.Failures()) || Stopped(|old(stage.history)| - 1, at)
      ensures !err ==> HandledPass(r.seen)
    {
      hide stage.Valid, Recorded, StatusAfter, Find, PhaseAgrees, Unique, WriteFits, DelayOf, Clear, IntegrationRules;
      hide Made;
      ghost var seen, course;
      err, requeueAfter, seen, course, creds, at := Pass();
      r := Ended(seen, course, err, requeueAfter);
      RecordedGrows(reports, r);
      stage.ValidParts();
      reports, landed := reports + [r], None;
      stage.Finish(err);
    }

    /** Any run: acts of others and passes for the key, in any order and with any faults. Every
        moment of it is good, so is every step, and the persisted status is the one that the
        reported writes amount to. */
    method Operate(rounds: nat)
      requires Valid() && !stage.busy
      modifies this`reports, this`landed, this`lookups, this`probes, stage, stage.registry, stage.cluster, clock
      ensures Valid() && !stage.busy && old(stage.history) <= stage.history && old(reports) <= reports
      ensures Faithful(IntegrationRules(name, namespace), stage.history)
      ensures Recorded(reports) && stage.registry.Last().status == StatusAfter(reports)
    {
      hide stage.Valid, Faithful, Recorded, StatusAfter, IntegrationRules, WriteFits, ReportFits;
      for i := 0 to rounds
        invariant Valid() && !stage.busy && old(stage.history) <= stage.history && old(reports) <= reports
      {
        stage.Others();
        if stage.registry.pending {
          var _, _, _, _, _ := Reconcile();
        }
      }
      stage.IsFaithful();
    }

    method TeardownPass()
      requires Valid() && !stage.busy && stage.Stopping()
      modifies this`reports, this`landed, this`lookups, this`probes, stage, stage.registry, stage.cluster, clock
      ensures Valid() && !stage.busy
      ensures stage.Stopping()
      ensures old(stage.registry.gone) ==> stage.registry.gone
      ensures stage.Failures() >= old(stage.Failures())
      ensures stage.registry.gone || stage.Failures() > old(stage.Failures())
    {
      hide stage.Valid, Faithful, Recorded, StatusAfter, IntegrationRules, WriteFits, ReportFits;
      ghost var n := |stage.history| - 1;
      stage.IsFaithful();
      stage.Others();
      var _, _, _, _, _ := Reconcile();
      stage.IsFaithful();
      Sticky(stage.rules, stage.history, n, |stage.history| - 1);
    }

    /** Teardown terminates: once the deletion has been read, k failing calls delay the release
        by at most k passes. */
    method Teardown(passes: nat)
      requires Valid() && !stage.busy && stage.Stopping()
      modifies this`reports, this`landed, this`lookups, this`probes, stage, stage.registry, stage.cluster, clock
      ensures Valid() && !stage.busy
      ensures stage.registry.gone || stage.Failures() >= old(stage.Failures()) + passes
    {
      hide stage.Valid, Recorded, StatusAfter, Find, PhaseAgrees, Unique;
      for i := 0 to passes
        invariant Valid() && !stage.busy && stage.Stopping()
        invariant stage.registry.gone || stage.Failures() >= old(stage.Failures()) + i
      {
        TeardownPass();
      }
    }
  }
}
