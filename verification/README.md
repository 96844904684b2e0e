# Verified model of the Unified Platform Operator

The operator runs three reconcilers. Each drives one kind of custom resource (Tenant, Environment,
Integration) and the child objects that belong to it through passes of many API calls. Any call may
fail, be applied and still report an error, or be the last one before a crash; users edit the
resource and other writers change other objects between any two calls. This project models the
reconcilers, the platform package they call, the condition helpers and two admission webhooks as
imperative programs over a model of the API server, and proves what holds in every reachable state
and over every run.

`dafny verify dfyconfig.toml` checks everything.

## How it is built

- `registry.dfy` is one custom resource in the API server: the log of its persisted versions, the
  informer cache that trails the log but never goes back, and the users who edit it. `cluster.dfy`
  holds the child objects and the calls on them. Both are classes whose methods are single API calls.
  What each call does, and what others do in between, is decided by arbitrary functions
  (`schedule`, `faults`, `acts`, `bursts`), so a theorem about a method is a theorem about every
  schedule. A crash is a pass whose remaining calls are all refused.
- `stage.dfy` is what the three controllers share: finalizer, optimistic status writes, one pass at a
  time, a work queue. It keeps a ghost history with one entry for every atomic act. A record of
  `Rules` says what is particular to a kind of resource: which versions fit, how successive statuses
  are linked, what a live version claims about the cluster, what is owed at the release, when the
  controller may request a deletion. `Faithful` says that every moment of the history and every step
  from one to the next obeys the rules; every method of every controller keeps it.
- `convergence.dfy` treats provisioning as an ordered list of steps, each with an object of its own,
  and says when the API server accepts them (`Feasible`).
- `tenant_*.dfy`, `environment_*.dfy` and `integration_*.dfy` are the controllers: the class with the
  passes, a module of facts about the persisted status, and what a pass provisions. Each `Operate`
  method is an arbitrary run; its postcondition is the safety theorem for the kind. The Environment
  and Integration controllers log each pass with what it returned (`Visit`, `Report`); the theorems
  about lifetimes and retries speak of these logs.
- What a resource asks for is told by predicates over the fields of its spec, with the names, labels
  and numbers of the API written out (`SlotMatches`, `Provided`, `Conducts`, `Projects`, `Echoes`).
  The functions that build the objects do not occur in them; lemmas connect the two.
- `environment_lost_write.dfy` drives the Environment controller through one concrete run.
- The other files follow the source file by file.

## What is assumed about the libraries

- `CreateOrUpdate` is a read, an in-memory change and a create, an update or, for an object that is
  already equal, nothing. `SetControllerReference` fails on a foreign controller. The API server
  rejects a create without a live namespace, a changed RoleRef, and every call on a kind that is not
  installed.
- A failing call is one that is refused, one whose answer is lost, or an update of a stale version.
  A rejection of an object is none: it is an obstacle, of which the contracts say when it exists.
- `meta.SetStatusCondition` keeps one entry per type and moves the transition time only on a flip.
- `Update` writes metadata and never the status, `Status().Update` the status and nothing else; both
  are rejected on a stale version. A write that changes nothing makes no version.
- The generation goes up on a spec edit and on a deletion request, never on a finalizer or status
  write. Only the controller touches its finalizer and its status.
- One pass at a time per key; a key that is enqueued during a pass runs again; a child event reaches
  the queue with the informer update that carries it.
- Others write any object that is not managed by the resource, at any time between two steps of a
  pass, but not the managed ones; one platform function sees the sources it reads as of one moment.
- The name of a tenant's namespace is fixed (which `TenantWebhook.OneNamespacePerTenant` proves of
  admitted Tenants), and Environments and Integrations see their tenant as an arbitrary answer:
  absent, without namespace, or with that namespace.
- Times are whole units on a clock that never goes back; a lifetime is a whole number of them.

## Where the code and its comments disagree

The model follows the code.

- Extra labels may override `managed-by` and `part-of`; only the tenant and component labels are
  protected (internal/platform/labels.go:57-67). `Labels.ReservedLabels` gives the exact condition.
- The comment in internal/platform/rbac.go:61-62 says that an update leaves the RoleRef alone. The
  code always writes it, so the API server rejects the update of a binding to another role:
  `Rbac.ReconcileTenantAdminBinding` leaves such a binding as it is and fails, and
  `TenantResources.ForeignRoleIsNeverCompletable` shows that no pass over it can complete.
- Suspension pins the quota and leaves the NetworkPolicy as it is, whatever
  api/v1alpha1/tenant_types.go:97-99 says.
- `EnsureNamespaceDeleted` never reports a namespace as still terminating, so the five-second
  requeue of both finalizers is dead code: the release waits for the request, not for the drain.
- The backoff guard does not catch every overflow: `Backoffs.BoundIsSharp` gives the first delay for
  which it does not.

## Model

The first 48 rows are the main results, for Tenants, Environments, Integrations, what all three have
in common, and the data transformations. The other rows are what they rest on.

| member | source | states |
|---|---|---|
| `TenantControllers.TenantController.Operate` | internal/controller/tenant_controller.go:71-109 | every run, with any interleaving of edits, child changes, faults, lost writes and passes: every moment satisfies the rules of a Tenant, and no child update is lost: once queue and cache are quiet the status holds the number of children that name the Tenant |
| `TenantStates.ReadyMeansConverged` | internal/controller/tenant_controller.go:114-201 | in every moment of every run: a live Tenant that reports Ready for its current generation has the five objects that this spec asks for, told field by field from the spec: the declared quota with pods at zero when suspended, the declared limits, the posture, the admins under the admin role, and on each of them every extra label that does not name a protected key |
| `TenantControllers.TenantController.ReconcileTenant` | internal/controller/tenant_controller.go:114-201 | a pass errs iff a call has failed or, at its start, a foreign controller, a foreign RoleRef or a draining namespace is in its way; otherwise the tenant's objects are those of one completed pass and match the spec, the counts are current or will be recounted, Ready is claimed iff not suspended, and the five-minute resync is returned; an interrupted pass leaves some first steps |
| `TenantResources.CompletableMeans` | internal/controller/tenant_controller.go:131-166 | a pass is feasible iff no object it has to write belongs to another controller, the binding does not refer to another role, and a draining namespace lacks none of them |
| `TenantResources.TenantConverges` | internal/controller/tenant_controller.go:131-166 | crash-absorbing convergence: where a pass of a spec is feasible, so is every pass after any series of same-spec passes cut off anywhere; one completed pass then leaves the cluster of a single completed pass, which matches the spec, and no later pass moves it |
| `TenantResources.SuspendResume` | internal/platform/quota.go:57-80 | where a suspended pass is feasible: it pins pods to zero, keeps every other declared limit and moves no other object; a following active pass is feasible and gives what an active pass would have given at once |
| `Convergence.CrashesAbsorbed` | internal/controller/tenant_controller.go:111-113 | for every ordered list of idempotent steps on separate objects: where one pass is accepted by the API server, interrupted passes are absorbed by one completed pass, and all later passes are accepted and change nothing |
| `EnvironmentControllers.EnvironmentController.Operate` | internal/controller/environment_controller.go:64-99 | every run, with any interleaving: every moment satisfies the rules of an Environment, every step too, never requesting a deletion early; and the log of passes is true, in the order of the clock, with a deletion requested wherever it says so |
| `EnvironmentStates.ReadyMeansProvisioned` | internal/controller/environment_controller.go:101-201 | in every moment of every run: a live Environment that reports Ready for its current generation has the labelled namespace, the quota of its profile, its variables, and the delivery objects with the repository, revision, path, target, pruning and automation of its spec |
| `EnvironmentStates.TeardownIsComplete` | internal/controller/environment_controller.go:239-266 | from the release on, delivery is stopped for all three kinds whatever providers were ever selected, and the workload namespace, if the status names it, is gone or going |
| `EnvironmentStates.DeliveryStopsFirst` | internal/controller/environment_controller.go:245-258 | wherever in a run the workload namespace goes, delivery had been stopped before |
| `EnvironmentLostWrite.LeftBehind` | internal/controller/environment_controller.go:189-191 | the teardown guard is exact: a run in which the status write is refused before the deletion ends with the Environment released and a live workload namespace |
| `EnvironmentControllers.EnvironmentController.Reconcile` | internal/controller/environment_controller.go:64-99 | one pass for the key, put into the log: how it ends is decided by what it has seen, the delay it returns is the one in the log, and so is a deletion it has requested; over a live version it makes some first steps of the plan of its spec and nothing else; if it says Provisioned, every object is as the fields of the spec ask, the Secret has what its selectors find in the Secrets of a moment of the pass, and the persisted sync status is what the engine has reported; an error is a failing call or an obstacle at a moment of the pass; once the deletion has been read, a pass without failing call ends with the Environment gone |
| `EnvironmentStates.NeverEarly` | internal/controller/environment_controller.go:126-138 | in every step of every run that is the controller's and makes the Environment a deleted one, the version read is ephemeral and not suspended and the clock is at creation + TTL or later |
| `EnvironmentStates.BoundedlyLate` | internal/controller/environment_controller.go:126-138 | over the log of a run: where successful passes run no later than their predecessors asked for, the first one to read the clock at the expiry or later requests the deletion, less than one pass duration and one resync period after the expiry; exactly at the expiry unless its predecessor straddles it |
| `EnvironmentStates.PunctuallyExpired` | internal/controller/environment_controller.go:193-200 | punctual passes request the deletion within as many passes as there are seconds left, the remaining lifetime being the measure, and exactly at the expiry if none straddles it |
| `EnvironmentStates.DelaysAsked` | internal/controller/environment_controller.go:193-200 | over the log of a run: every pass that provisioned asks for more than nothing and at most three minutes, for exactly three minutes where no lifetime is running out within them, and for what is left of the lifetime otherwise; a missing tenant is looked up again after 15 seconds; every other ending asks for no delay |
| `EnvironmentResources.EnvironmentConverges` | internal/controller/environment_controller.go:149-178 | crash-absorbing convergence of an Environment: where a pass of a spec is feasible, so is every pass after any series of passes of it, cut off anywhere and whatever their selectors resolved to; one completed pass then leaves the cluster of a single completed pass, every object as asked, and no other object is touched |
| `IntegrationControllers.IntegrationController.Operate` | internal/controller/integration_controller.go:65-100 | every run, with any interleaving: every moment satisfies the rules of an Integration, and the persisted status is the one that the reported writes amount to |
| `IntegrationControllers.IntegrationController.Reconcile` | internal/controller/integration_controller.go:65-100 | one pass, reported as it ended: its course, its one status write and what it returned, which fit each other; the connection Secret is left as it was or as the spec and the credentials of a moment of the pass ask, the latter if it has probed; without error, the version it saw has got its finalizer, or a status about its generation and endpoint; once the deletion has been read, a pass without failing call ends with the Integration gone |
| `IntegrationStates.ReadyMeansServed` | internal/controller/integration_controller.go:102-149 | in every moment of every run: a live Integration that reports Ready for its current generation has the Secret named after it with the endpoint and the type name of this spec |
| `IntegrationStates.RetriesCountFailures` | internal/controller/integration_controller.go:188-190 | the persisted counter equals the number of committed failed probes since the last committed connection, across suspended, blocked and failed passes |
| `IntegrationStates.RetryBudget` | internal/controller/integration_controller.go:188-221 | over the reports of a run: the k-th committed failure of a streak leaves Degraded iff k is within the retries of the policy, five without one, and its pass then returns the initial delay of a fixed policy, or the delay doubled from failure to failure and capped, with five seconds and five minutes for what is not given; every later one leaves Failed and its pass returns two minutes |
| `IntegrationStates.SuccessResets` | internal/controller/integration_controller.go:224-237 | a committed success is Connected with no retries, no error and no Degraded condition, and starts a new streak |
| `IntegrationStates.StreakDelay` | internal/controller/integration_controller.go:212-221 | over the run of passes of a streak within budget, the delays returned by the failing passes sum to the backoffs of attempts 1 to k |
| `IntegrationStates.StreakDelayInClosedForm` | internal/controller/integration_controller.go:301-329 | that sum in closed form: a geometric prefix, then the bounding delay for each attempt left |
| `Stages.FinalizeRunsLast` | internal/controller/tenant_controller.go:95-108 | finalizer before effects, over every run: from the moment the controller has read the deletion timestamp, no managed object comes into being again, so every finalize pass runs after all creations |
| `Stages.CreatedUnderFinalizer` | internal/controller/tenant_controller.go:95-108 | every managed object that has come into being between two moments of a run was created by the controller, under a persisted and unreleased finalizer and before a deletion was read |
| `TenantControllers.TenantController.Teardown` | internal/controller/tenant_controller.go:205-235 | k failing calls delay the release by at most k passes |
| `EnvironmentControllers.EnvironmentController.Teardown` | internal/controller/environment_controller.go:239-266 | k failing calls delay the release by at most k passes, whatever has become of the tenant |
| `IntegrationControllers.IntegrationController.Teardown` | internal/controller/integration_controller.go:249-266 | k failing calls delay the release by at most k passes |
| `TenantStates.OneNamespace` | internal/controller/tenant_controller.go:119-124 | all versions name one namespace or none; after the release exactly that namespace is gone or going, unless it was orphaned or never named |
| `TenantWebhook.OneNamespacePerTenant` | internal/webhook/v1alpha1/tenant_webhook.go:105-127 | over every history of admitted updates the derived namespace has one name of at most 63 characters |
| `TenantStates.PhasesAgree` | internal/controller/tenant_controller.go:177-194 | in every persisted status of every run: Ready=True iff Active, then no Degraded and Progressing=False; one entry per condition type |
| `EnvironmentStates.PhasesAgree` | internal/controller/environment_controller.go:172-187 | in every persisted status of every run: Ready=True iff Healthy, Syncing or Degraded; which of the three follows from the persisted sync phase; Degraded=True in Degraded and Failed and absent in Healthy and Syncing; one entry per condition type |
| `IntegrationStates.PhasesAgree` | internal/controller/integration_controller.go:106-110 | in every persisted status of every run: Ready=True iff Connected, then no retries and no Degraded; Degraded=True in Failed; one entry per condition type |
| `TenantStates.ReadySince` | internal/controller/tenant_controller.go:177-194 | while Ready keeps its status over any stretch of a run, its transition time stays the same, lost status writes included |
| `TenantStates.ReadyFlipsInPass` | pkg/conditions/conditions.go:34-45 | from one moment of a run to the next the transition time of Ready changes exactly with its status, and the new time lies within the pass that wrote it |
| `IntegrationStates.ReadySince` | internal/controller/integration_controller.go:106-110 | while Ready keeps its status over any stretch of a run, its transition time stays the same, lost status writes included |
| `IntegrationStates.ReadyFlipsInPass` | pkg/conditions/conditions.go:34-45 | from one moment of a run to the next the transition time of Ready changes exactly with its status, and the new time lies within the pass that wrote it |
| `Backoffs.BackoffIsExact` | internal/controller/integration_controller.go:301-329 | despite int64 wrap-around the delay is min(initial * 2^min(attempt-1,16), max) for every initial delay up to 2^48 ns |
| `Backoffs.ExactUnderEveryCap` | internal/controller/integration_controller.go:325-327 | the exact condition: an attempt is right under every cap iff its product fits, or wraps to something the guard rejects |
| `Backoffs.BoundIsSharp` | internal/controller/integration_controller.go:321-327 | 2^48 + 1 ns asks for 65536 ns from the seventeenth attempt on, under any larger cap |
| `Configs.ProjectionSucceeds` | internal/platform/config.go:93-109 | the projection succeeds iff every required selector finds its key in the Secret it names |
| `Configs.LastSelectorWins` | internal/platform/config.go:93-109 | each key holds the value that the last selector for it finds in the Secret it names |
| `Configs.CollectMeans` | internal/platform/config.go:93-109 | the fold over the selectors is the one map in which each key holds what the last selector for it finds in the Secret it names, with no other keys, every required selector finding its key |
| `GitOps.ReconcileGitOps` | internal/platform/gitops.go:51-66 | some first steps of the delivery are done, all of them on success; then the Application, or the repository and the Kustomization, have the source, target and options of the spec; it succeeds iff no call fails and the API server accepts each step; the sync phase, revision and message are those that the report of the engine amounts to, on an object that was there before |
| `Connectors.PayloadDecodes` | internal/platform/connector.go:137-147 | endpoint, type and credentials are recovered exactly from the payload |
| `Stages.HandsOff` | internal/controller/tenant_controller.go:131-166 | over any stretch in which only the controller acts, no object outside its own is touched |
| `Stages.Sticky` | internal/controller/tenant_controller.go:89-97 | neither the knowledge of the deletion, nor the end of the resource, nor its release is ever undone |
| `Stages.ReadyTimeStays` | pkg/conditions/conditions.go:34-45 | for any controller whose passes write Ready once: while readiness stays the same over a stretch of a run, its transition time does too, lost status writes included |
| `Stages.ReadyFlips` | pkg/conditions/conditions.go:34-45 | and when readiness flips or appears from one moment to the next, the new time lies within the pass that wrote it; without a flip the time stays |
| `Stages.DeletionWasDue` | internal/controller/environment_controller.go:126-138 | whenever the controller, and nobody else, makes a resource a deleted one, the rules call that due for the version it had read at that time |
| `Stages.Stage.Others` | internal/controller/tenant_controller.go:282-306 | what users, caches and other writers do between two calls leaves the version read, the persisted status, a held finalizer and the managed objects alone |
| `Stages.Stage.CommitStatus` | internal/controller/tenant_controller.go:273-278 | a status write lands only over the version that the pass holds, changes nothing but the status, and every landed version fits the rules; an error may hide a write that landed |
| `Stages.Stage.AddFinalizer` | internal/controller/tenant_controller.go:100-106 | the finalizer is added to the version read, or the call has failed |
| `Stages.Stage.Release` | internal/controller/tenant_controller.go:229-234 | the finalizer is removed only from a version with deletion timestamp, when nothing is owed to the cluster any more |
| `Stages.Stage.Fetch` | internal/controller/tenant_controller.go:85-93 | a pass reads a version that never goes back; once it carries a deletion timestamp, so does every later one |
| `Registries.Registry.UpdateStatus` | internal/controller/tenant_controller.go:277-277 | the API contract of Status().Update: stale versions are rejected, only the status changes |
| `Registries.Registry.Update` | internal/controller/tenant_controller.go:105-105 | the API contract of Update: stale versions are rejected, only metadata changes, the last finalizer of a deleted object takes the object with it |
| `Registries.Registry.Delete` | internal/controller/environment_controller.go:134-136 | the API contract of Delete: a timestamp and a new generation, or the end of an object without finalizer |
| `TenantStates.RulesAreLawful` | internal/controller/tenant_controller.go:177-194 | no edit, deletion request or foreign write makes a standing Ready claim false or breaks the agreement of phase and conditions |
| `TenantStates.ClaimKept` | internal/controller/tenant_controller.go:131-166 | no provisioning step of a later pass makes a standing Ready claim false |
| `TenantStates.NeverDeletes` | internal/controller/tenant_controller.go:205-235 | over every run the controller never requests the deletion of a Tenant |
| `TenantStates.OthersKeepCount` | internal/controller/tenant_controller.go:286-297 | a change of a child that names a tenant neither before nor after it leaves the number of its children alone |
| `TenantControllers.TenantController.List` | internal/controller/tenant_controller.go:241-247 | a count is current at its List call |
| `TenantControllers.TenantController.CountChildren` | internal/controller/tenant_controller.go:239-249 | the two counts are current, or a change since has put the key back in the queue |
| `TenantControllers.TenantController.MoveChild` | internal/controller/tenant_controller.go:286-305 | a child change puts exactly the new reference in the place of the old one, and enqueues the tenants it named before and after |
| `TenantControllers.TenantController.Fail` | internal/controller/tenant_controller.go:253-263 | a failure is persisted as Failed with Ready=False and Degraded=True, or the write failed as well |
| `TenantControllers.TenantController.MarkProvisioned` | internal/controller/tenant_controller.go:181-194 | the in-memory status at the end of a pass may be persisted whatever the time stamp: Active or Suspended with the conditions that go with it |
| `TenantControllers.TenantController.Finalize` | internal/controller/tenant_controller.go:205-235 | a finalize pass sees the Tenant gone or has met a failing call; at the release the namespace is alive iff it was alive before and is orphaned or not named by the status |
| `TenantControllers.TenantController.Reconcile` | internal/controller/tenant_controller.go:71-109 | one pass for the key: without error, the version it saw has got its finalizer, or with it everything its spec asks for, and the delay returned is the resync period for a live provisioned Tenant and none otherwise; an error is a failing call or an obstacle at the start of the pass, and re-queues the key; once the deletion has been read, a pass without failing call ends with the Tenant gone |
| `TenantResources.ProvisionMatches` | internal/controller/tenant_controller.go:131-166 | a feasible pass reaches what the spec asks for, and touches no other object |
| `TenantResources.ForeignRoleIsNeverCompletable` | internal/platform/rbac.go:59-63 | a binding to another role makes every pass with admins infeasible |
| `TenantResources.StepKeepsMatches` | internal/controller/tenant_controller.go:131-166 | one more step over a converged cluster keeps it converged |
| `TenantResources.DesiredMatches` | internal/controller/tenant_controller.go:131-166 | whatever a step finds, what it leaves is what the fields of the spec ask for: quota, limits, posture, admins and labels, none of them told by the functions that build them |
| `TenantResources.StepReachesObject` | internal/controller/tenant_controller.go:131-166 | each step works on the object of the kind, namespace and name that are meant |
| `TenantResources.StepKeepsTheRest` | internal/platform/labels.go:71-80 | a step keeps labels under foreign keys, a deletion under way, and everything of the namespace but labels and owner |
| `TenantResources.DesiredAbsorbs` | internal/controller/tenant_controller.go:111-113 | each step is idempotent |
| `TenantResources.StepAdvances` | internal/controller/tenant_controller.go:131-166 | each step takes the tenant's objects from k done steps to k + 1; if it does not, a call has failed or the pass is not feasible |
| `Convergence.PassAbsorbs` | internal/controller/tenant_controller.go:111-113 | a pass over a cut-off pass reaches what the longer of the two reaches |
| `Convergence.FeasibleAfter` | internal/controller/tenant_controller.go:111-113 | what a pass was able to do, a pass after a cut-off pass is able to do as well |
| `Convergence.StepRuns` | internal/controller/tenant_controller.go:131-166 | one converging call takes one step of the plan, exactly if the API server accepts the step and no call fails |
| `TenantWebhook.PrefixDecidesNamespace` | internal/webhook/v1alpha1/tenant_webhook.go:113-119 | two defaulted specs derive the same namespace iff they have the same prefix |
| `TenantWebhook.Draft.Default` | internal/webhook/v1alpha1/tenant_webhook.go:64-84 | tier standard, prefix tenant, isolation Baseline and deletion policy Delete where these are empty, and nothing else changes |
| `TenantWebhook.ViolationsMeaning` | internal/webhook/v1alpha1/tenant_webhook.go:146-166 | the error list is empty iff the spec is valid, with one error per nameless service account |
| `TenantWebhook.ValidateInto` | internal/webhook/v1alpha1/tenant_webhook.go:146-166 | appends exactly the errors of the spec, in order |
| `TenantWebhook.ValidateCreate` | internal/webhook/v1alpha1/tenant_webhook.go:95-102 | admits exactly the valid specs |
| `TenantWebhook.ValidateUpdate` | internal/webhook/v1alpha1/tenant_webhook.go:105-128 | admits exactly the valid specs that keep the prefix |
| `EnvironmentStates.RulesAreLawful` | internal/controller/environment_controller.go:205-226 | no edit, deletion request or foreign write makes a standing Ready claim false or breaks the agreement of phase, conditions and target, the teardown or its order |
| `EnvironmentStates.ClaimKept` | internal/controller/environment_controller.go:149-178 | what unsettles nothing that the read spec asks for breaks no standing Ready claim |
| `EnvironmentResources.StepSettles` | internal/controller/environment_controller.go:149-178 | no provisioning step of a later pass of the spec unsettles what is provisioned, whatever becomes of the step |
| `EnvironmentStates.LifetimeShrinks` | internal/controller/environment_controller.go:193-200 | after at most as many punctual passes as there are seconds left, one reads the clock at the expiry or later |
| `EnvironmentLostWrite.LoseStatus` | internal/controller/environment_controller.go:144-191 | a pass that creates the namespace and loses its status write leaves a live namespace and an empty target |
| `EnvironmentControllers.EnvironmentController.ReconcileEnvironment` | internal/controller/environment_controller.go:101-201 | a pass provisions, or requests the deletion, or is suspended or blocked, each exactly when spec, tenant and clock say so and with the delay that goes with it; it makes some first steps of the plan of its spec of the objects it found and nothing else; if it provisions, every object is as the fields of the spec ask, the Secret has what its selectors find in the Secrets of a moment of the pass, and the persisted sync status is what the engine has reported; where it did not try it makes nothing; an error is a failing call or, at a moment of the pass, an unresolved selector, a missing source or engine, a foreign controller or a namespace that takes no objects |
| `EnvironmentControllers.EnvironmentController.Proceed` | internal/controller/environment_controller.go:125-201 | once the tenant is ready, the pass ends in a deletion request iff its first clock reading has reached the expiry, and otherwise provisions and returns the delay for its second reading |
| `EnvironmentControllers.EnvironmentController.EnforceLifetime` | internal/controller/environment_controller.go:125-138 | the pass ends here iff the Environment is ephemeral with a lifetime and the one clock reading has reached its end; then, without error, the deletion has been requested; the expiry is put into the status |
| `EnvironmentControllers.EnvironmentController.Expire` | internal/controller/environment_controller.go:130-137 | requests the deletion, which the stage admits only when it is due, or a call has failed |
| `EnvironmentControllers.EnvironmentController.Reschedule` | internal/controller/environment_controller.go:193-200 | the delay is three minutes, or what is left of the lifetime as of one clock reading if that is less and not over |
| `EnvironmentControllers.EnvironmentController.DerivePhase` | internal/controller/environment_controller.go:205-226 | phase and Degraded follow from the reported sync status, which is kept with the time of the report |
| `EnvironmentControllers.EnvironmentController.Conclude` | internal/controller/environment_controller.go:181-191 | the status of a completed pass, its URL and generation, and the write of it |
| `EnvironmentControllers.EnvironmentController.Fail` | internal/controller/environment_controller.go:268-277 | a failure is persisted as Failed with the target named, or the write failed as well |
| `EnvironmentControllers.EnvironmentController.BlockOnDependency` | internal/controller/environment_controller.go:229-237 | a missing prerequisite is persisted as Pending and retried in 15 seconds |
| `EnvironmentControllers.EnvironmentController.StepSecrets` | internal/controller/environment_controller.go:166-170 | the projected Secret has what the selectors find in the Secrets of that moment; if not, a call has failed or something was in the way at that moment |
| `EnvironmentControllers.EnvironmentController.StepGitOps` | internal/controller/environment_controller.go:175-178 | all delivery objects of the selected provider have the source, target and options of the spec, and the sync status is what the engine has reported; if not, a call has failed or the delivery was obstructed at that moment |
| `EnvironmentControllers.EnvironmentController.MadeMeans` | internal/controller/environment_controller.go:149-178 | what a completed pass has made, in the fields of the spec and the sources of a moment |
| `EnvironmentControllers.EnvironmentController.Dismantle` | internal/controller/environment_controller.go:245-258 | delivery first, then the namespace; after it the namespace is alive iff it was and the status does not name it |
| `EnvironmentControllers.EnvironmentController.Finalize` | internal/controller/environment_controller.go:239-266 | a finalize pass sees the Environment gone or has met a failing call; at the release delivery is stopped and the namespace is alive iff it was alive and the status does not name it |
| `EnvironmentControllers.EnvironmentController.OneTenant` | internal/webhook/v1alpha1/environment_webhook.go:113-118 | admission keeps an Environment with its tenant over every run |
| `EnvironmentResources.AttemptAbsorbed` | internal/controller/environment_controller.go:149-178 | one cut-off pass vanishes under a completed pass of the same spec, and leaves it feasible |
| `EnvironmentResources.StepAbsorbed` | internal/platform/config.go:111-116 | what a step has left, whatever the selectors resolved to, is as good a start for the step as what was there before |
| `EnvironmentResources.StepReaches` | internal/controller/environment_controller.go:149-170 | one step of a pass that has come k steps ahead of what it found: k + 1 on success, and on any outcome some first steps and nothing else |
| `EnvironmentResources.Delivered` | internal/platform/gitops.go:51-66 | one run of the delivery on a cluster four steps ahead: all steps on success, some first steps on any outcome, an obstacle where it was not feasible, and nothing unsettled |
| `EnvironmentResources.RunsAlike` | internal/controller/environment_controller.go:149-178 | a pass does the same on clusters that differ in the objects of others alone |
| `EnvironmentResources.DesiredServes` | internal/controller/environment_controller.go:149-178 | each step leaves what the spec asks for, told by the contents of the object and its labels, whatever it found, and is idempotent |
| `EnvironmentResources.StepsReachObjects` | internal/controller/environment_controller.go:149-178 | each step works on the object of the kind, namespace and name that are meant |
| `EnvironmentResources.SettledMeans` | internal/controller/environment_controller.go:149-178 | what a claim is about, said in the fields of the spec: iff |
| `EnvironmentResources.DoneMeans` | internal/controller/environment_controller.go:149-178 | a completed pass has provided everything that the fields of the spec ask for, and projected what its sources held |
| `EnvironmentResources.StepServes` | internal/controller/environment_controller.go:149-170 | a step goes through iff it is clear and no call fails, and then completes one more object; no step ends the workload namespace |
| `EnvironmentResources.ClearMeans` | internal/controller/environment_controller.go:149-178 | what stands in the way of each step, told of the objects before it: a required selector, the source, the engine, a foreign controller, a namespace that takes no objects |
| `EnvironmentResources.DeliveryIsClear` | internal/platform/gitops.go:51-66 | the delivery is feasible iff each of its steps is clear at its start |
| `EnvironmentResources.DeliveryServes` | internal/controller/environment_controller.go:175-178 | the delivery, run as a whole, completes the rest |
| `EnvironmentWebhook.AdmittedHistory` | internal/webhook/v1alpha1/environment_webhook.go:103-145 | over every history of admitted updates an Environment keeps tenant and type, an ephemeral one has a lifetime, and a delivery never lacks its source |
| `EnvironmentWebhook.Draft.Default` | internal/webhook/v1alpha1/environment_webhook.go:56-79 | profile medium, provider none, revision HEAD and path . where these are empty, and nothing else changes |
| `EnvironmentWebhook.DefaultsFilled` | internal/webhook/v1alpha1/environment_webhook.go:56-79 | the four defaults, and eleven fields that stay |
| `EnvironmentWebhook.ValidateInto` | internal/webhook/v1alpha1/environment_webhook.go:131-145 | appends exactly one error per violated rule; none iff the spec is valid |
| `EnvironmentWebhook.ValidateCreate` | internal/webhook/v1alpha1/environment_webhook.go:88-99 | admits exactly the valid specs |
| `EnvironmentWebhook.ValidateUpdate` | internal/webhook/v1alpha1/environment_webhook.go:103-124 | admits exactly the valid specs that keep tenant and type |
| `GitOps.Deliver` | internal/platform/gitops.go:100-127 | one delivery object gets the source, target and options of the spec iff no call fails and source, engine, owner and namespace allow it; no other object moves |
| `GitOps.DesiredConducts` | internal/platform/gitops.go:102-187 | a delivery step writes repository, revision, path, target, pruning and automation of the spec, and the owner and labels of the environment, each where it belongs |
| `GitOps.ReportEchoes` | internal/platform/gitops.go:132-203 | the sync status in the words of the engines |
| `GitOps.EngineAnswers` | internal/platform/gitops.go:216-232 | where in the list the answer is found |
| `GitOps.DeleteGitOps` | internal/platform/gitops.go:72-85 | on success all three kinds are gone or going, absent engines included; nothing else is touched; without faults it succeeds |
| `GitOps.ReadyConditionStatus` | internal/platform/gitops.go:216-232 | the status of the first Ready condition, or nothing if there is none |
| `IntegrationStates.FixedStreakDelay` | internal/controller/integration_controller.go:315-317 | over the run of passes of a streak within a fixed policy: k failures ask for k times its delay |
| `IntegrationStates.RecordedGrows` | internal/controller/integration_controller.go:188-221 | a pass that fits extends the record: the persisted counter is always what the committed writes amount to |
| `IntegrationStates.RulesAreLawful` | internal/controller/integration_controller.go:102-149 | no edit, deletion request or foreign write makes a standing Ready claim false or breaks the agreement of phase and conditions |
| `IntegrationStates.ClaimKept` | internal/controller/integration_controller.go:137-145 | an untouched connection Secret, or one with the payload of the read spec, breaks no standing Ready claim |
| `IntegrationControllers.IntegrationController.WriteSecret` | internal/controller/integration_controller.go:137-145 | the connection Secret is overwritten, labelled and owned iff no call fails and it can be written; if not, it is as it was or as it should be |
| `IntegrationStates.NeverDeletes` | internal/controller/integration_controller.go:249-266 | over every run the controller never requests the deletion of an Integration |
| `IntegrationControllers.IntegrationController.ReconcileIntegration` | internal/controller/integration_controller.go:102-149 | the course of a pass is decided by suspension, the tenant lookup, the Secret at a moment of the pass and the answer of the probe; its one status write is of that course, and the delay returned goes with it; the connection Secret is left as it was or overwritten with the payload of this spec and those credentials, the latter if the pass gets as far as the probe and the former if it is suspended or blocked; an error is a failing call or a connection Secret that cannot be written |
| `IntegrationControllers.IntegrationController.ProbeFailure` | internal/controller/integration_controller.go:188-221 | the persisted counter goes up by one, with the phase of the new count, the error of the probe and, returned, the delay of the new count |
| `IntegrationControllers.IntegrationController.MarkConnected` | internal/controller/integration_controller.go:224-237 | Connected, back in two minutes |
| `IntegrationControllers.IntegrationController.ProbeAndFinish` | internal/controller/integration_controller.go:153-222 | a write that lands is a failed probe iff the connector can be probed and the probe answers with an error, and a connection otherwise; without error the delay returned is the one that goes with the persisted status; the connection Secret stays |
| `IntegrationControllers.IntegrationController.BlockOnDependency` | internal/controller/integration_controller.go:239-247 | a missing tenant or Secret is persisted as Pending and retried in 15 seconds |
| `IntegrationControllers.IntegrationController.Suspend` | internal/controller/integration_controller.go:106-111 | a suspended Integration is persisted as Disabled |
| `IntegrationControllers.IntegrationController.Fail` | internal/controller/integration_controller.go:268-278 | a failure is persisted as Failed with Ready=False, Degraded=True and its cause, or the write failed as well; the counter stays |
| `IntegrationControllers.IntegrationController.Finalize` | internal/controller/integration_controller.go:249-266 | a finalize pass sees the Integration gone or has met a failing call; at the release the Secret is there iff it was and the status does not name it |
| `Backoffs.BackoffIsMonotone` | internal/controller/integration_controller.go:301-329 | hence it never shrinks as attempts go on |
| `Backoffs.BackoffInRange` | internal/controller/integration_controller.go:325-328 | wrap or no wrap the delay stays in (0, max] |
| `Backoffs.FixedBackoff` | internal/controller/integration_controller.go:315-317 | a fixed policy asks for its initial delay, or five seconds, whatever the attempt and the cap |
| `Backoffs.DefaultBackoff` | internal/controller/integration_controller.go:302-314 | what a policy leaves open is as if exponential, five seconds and five minutes were written out |
| `Backoffs.GeometricPrefix` | internal/controller/integration_controller.go:301-329 | while no bound is reached the first m delays sum to initial * (2^m - 1) |
| `Backoffs.TotalDelay` | internal/controller/integration_controller.go:301-329 | the sum of any number of attempts: geometric prefix plus bounding delays |
| `Connectors.PayloadIsUnique` | internal/platform/connector.go:143-146 | the payload does not depend on the order of the loop |
| `Connectors.BuildConnectionData` | internal/platform/connector.go:137-148 | the loop builds the payload and never overwrites endpoint or type |
| `Connectors.ResolveAuthSecret` | internal/platform/connector.go:123-133 | no reference, a missing Secret and a failed call are told apart |
| `Connectors.ReconcileConnectionSecret` | internal/platform/connector.go:152-168 | the Secret becomes what is asked, or the call has failed or met a foreign controller |
| `Connectors.DeleteConnectionSecret` | internal/platform/connector.go:171-177 | the Secret is gone, missing ones included, or the call has failed |
| `Configs.NoOtherKeys` | internal/platform/config.go:93-109 | every key comes from a selector that finds it |
| `Configs.ProjectSecrets` | internal/platform/config.go:73-117 | all or nothing: it succeeds iff no call fails, every required selector finds its key in the Secret it names, and the destination can be written; then the Secret has what the last selector for each key has found; otherwise it is as it was, unless only the answer of the write is lost |
| `Configs.ReconcileConfigMap` | internal/platform/config.go:41-63 | the ConfigMap holds the variables, or is absent when there are none |
| `Quotas.ReconcileResourceQuota` | internal/platform/quota.go:44-82 | the quota pins pods when suspended, is absent when there is nothing to enforce, and is otherwise as declared |
| `Quotas.ReconcileLimitRange` | internal/platform/quota.go:86-115 | the limit range is as declared, or absent when all lists are empty |
| `Quotas.OverwriteFacts` | internal/platform/quota.go:66-79 | a converged object absorbs earlier writes of the same shape |
| `NetworkPolicies.PostureMeaning` | internal/platform/networkpolicy.go:71-99 | over any existing policy: Strict admits nothing, Baseline exactly same-namespace traffic and DNS egress, and both select every pod |
| `NetworkPolicies.ReconcileNetworkPolicy` | internal/platform/networkpolicy.go:50-102 | the policy has the posture, or is absent for None |
| `Namespaces.ReconcileNamespace` | internal/platform/namespace.go:36-64 | the namespace carries the labels and, where asked, the owner; or the call failed or met a foreign controller |
| `Namespaces.EnsureNamespaceDeleted` | internal/platform/namespace.go:71-86 | never (false, nil): either the namespace is gone or going, or a call has failed and an error is returned |
| `Rbac.ReconcileTenantAdminBinding` | internal/platform/rbac.go:40-71 | the binding grants the admins, or is absent without admins; a binding to another role is never converged |
| `Rbac.BuildSubjects` | internal/platform/rbac.go:74-88 | the loop maps each admin to its subject, in order: a service account with its namespace, a user or group with the API group |
| `Labels.ReservedLabels` | internal/platform/labels.go:57-67 | the tenant and component labels always win; the two base labels survive iff the extra labels do not give them another value; every other extra label is there |
| `Labels.MergeLabels` | internal/platform/labels.go:71-80 | the overlay does not depend on the order of the loop |
| `Labels.BuildTenantLabels` | internal/platform/labels.go:57-67 | exactly the base, extra, tenant and component labels, key by key |
| `Labels.CarriesMeans` | internal/platform/labels.go:57-67 | an object carries the labels of a component iff it has each of them, told key by key |
| `Labels.CarriesBrand` | internal/platform/gitops.go:206-212 | the same for the objects of one environment or integration |
| `Conditions.ConditionList.Set` | pkg/conditions/conditions.go:34-45 | one entry per type is set; its transition time moves only on a status flip; all others stay |
| `Conditions.ConditionList.Remove` | pkg/conditions/conditions.go:78-80 | exactly the entries of the type go |
| `Conditions.SetIn` | pkg/conditions/conditions.go:34-45 | uniqueness is kept and every other type keeps its entry |
| `Conditions.RemoveKeeps` | pkg/conditions/conditions.go:78-80 | uniqueness is kept and every other type keeps its entry |
| `Conditions.HoldsMeans` | pkg/conditions/conditions.go:34-45 | where each type has one entry, a list says of a type what its entry says |

## Left out

- HTTP probing, TLS, headers, timeouts: the probe is an arbitrary answer, an error text or nothing.
- Events, metrics, tracing, logging, manager set-up, field indexes: no effect on the modelled state.
- The values of the profile quotas: an arbitrary function from profiles to resource lists.
- Error and condition texts other than those of the probe and of the engines: constants that no
  theorem reads.
- Fields of delivery objects that are the same for all specs (project, server, interval, self-heal),
  and the type of the projected Secret.
- The Integration webhook: URL parsing is a library call, the rest repeats the Environment webhook.
- Garbage collection through owner references, and the drain of a terminating namespace: an object
  that is terminating stays so. Orphan therefore only means that the controller requests no deletion.
- A Tenant, Environment or Integration re-created under the same name, and finalizers of others.
- Edits of managed objects by others, and a tenant whose namespace name changes.
- Sub-second times, and the int32 overflow of the retry counter.
- Informer restarts and requests other than the one for the key at hand.
- `RequeueAfter` is a requested delay. No event filter is installed, so a status write can bring the
  key back earlier; no theorem says that two probes are a delay apart.
- Stages.Stage.Others: one act at a time, between the platform calls of a pass; the two writes of a
  Flux delivery and the reads of one Secret projection are not interleaved with others.
- IntegrationControllers.IntegrationController.Finalize: a Secret whose name was never persisted is
  left to garbage collection, as in the code.
- EnvironmentStates.BoundedlyLate: speaks of passes without error that are neither suspended nor
  blocked; a suspended Environment, or one whose tenant is missing, is not deleted at its expiry, as
  in the code. The duration of a pass is the time between its two readings of the clock.
- EnvironmentStates.ReadyMeansProvisioned: the projected Secret is not part of the claim, since the
  Secrets it is made from change without a new generation; a completed pass makes it as of a moment.
