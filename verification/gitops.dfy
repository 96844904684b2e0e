/** internal/platform/gitops.go: the delivery objects of an environment and what the external
    engine reports on them. */
module GitOps {
  import opened Base
  import opened Labels
  import opened Clusters
  import opened Quotas
  import opened Convergence

  datatype Provider = NoProvider | ArgoCD | Flux | UnsetProvider

  datatype GitSource = GitSource(repoURL: string, revision: string, path: string)

  datatype Delivery = Delivery(provider: Provider, source: Option<GitSource>, autoSync: bool, prune: bool)

  /** Whose delivery objects: the environment, its own namespace, its tenant, the workload
      namespace that is delivered to, and the delivery kinds that are installed in the cluster. */
  datatype Site = Site(environment: string, namespace: string, tenant: string, target: string, engines: set<Kind>)

  /** The status an engine has written on its object: free text, and for Flux a list of
      conditions. A new object has none. */
  datatype Report = Report(sync: string, health: string, revision: string, conditions: seq<(string, string)>)

  const NO_REPORT := Report("", "", "", [])

  datatype SyncPhase = Synced | OutOfSync | UnknownSync | SyncError
  datatype SyncStatus = SyncStatus(phase: SyncPhase, revision: string, message: string, lastSyncTime: Option<int>)

  const ENGINE_READY := "Ready"

  function ResourceName(environment: string): string { "upo-" + environment }

  function GitOpsKey(kind: Kind, site: Site): Key { Key(kind, site.namespace, ResourceName(site.environment)) }

  function GitOpsLabels(site: Site): Labels {
    BASE_LABELS[TENANT_LABEL := site.tenant][ENVIRONMENT_LABEL := site.environment][COMPONENT_LABEL := "gitops"]
  }

  // ---- What a delivery asks for, told without reference to how it is reached ----

  /** The objects that a provider works from, by kind. */
  function DeliveryKinds(provider: Provider): seq<Kind> {
    match provider
    case ArgoCD => [Application]
    case Flux => [GitRepository, Kustomization]
    case _ => []
  }

  /** The delivery object of this kind takes the spec's source to the target namespace; it belongs
      to the environment and says so. */
  predicate Conducts(slot: Option<Child>, kind: Kind, d: Delivery, site: Site) {
    && d.source.Some? && slot.Some? && slot.value.controller == Some(site.environment)
    && Branded(slot.value.labels, site.tenant, "gitops", "platform.upo.io/environment", site.environment)
    && slot.value.body.GitOpsBody?
    && var spec, source := slot.value.body.spec, d.source.value;
       match kind
       case Application =>
         && spec.ArgoApplication? && spec.repoURL == source.repoURL && spec.revision == source.revision
         && spec.path == source.path && spec.destination == site.target
         && (if d.autoSync then spec.automated == Some(d.prune) else spec.automated == None)
       case GitRepository =>
         spec.FluxRepository? && spec.url == source.repoURL && spec.ref == source.revision
       case Kustomization =>
         && spec.FluxKustomization? && spec.path == source.path && spec.prune == d.prune
         && spec.destination == site.target && spec.source == "upo-" + site.environment
       case _ => false
  }

  /** All objects that the provider works from are there, each under the one name. */
  predicate Delivers(objects: Objects, d: Delivery, site: Site) {
    forall kind | kind in DeliveryKinds(d.provider) ::
      Conducts(Slot(objects, Key(kind, site.namespace, "upo-" + site.environment)), kind, d, site)
  }

  lemma KeysAreMeant(d: Delivery, site: Site)
    ensures |DeliveryKeys(d, site)| == |DeliveryKinds(d.provider)|
    ensures forall k | 0 <= k < |DeliveryKeys(d, site)| ::
              DeliveryKeys(d, site)[k] == Key(DeliveryKinds(d.provider)[k], site.namespace, "upo-" + site.environment)
  {
  }

  /** What a delivery step makes of its object is what is asked for. */
  lemma DesiredConducts(d: Delivery, site: Site, k: nat, slot: Option<Child>)
    requires k < |DeliveryKinds(d.provider)| && DesiredDelivery(d, site, k, slot).Ok?
    ensures Conducts(DesiredDelivery(d, site, k, slot).value, DeliveryKinds(d.provider)[k], d, site)
  {
    hide Overwrite, Branded, Carries, Installed;
    var body := DeliveryBody(d.source.value, d, site, k);
    OverwriteFacts(slot, GitOpsLabels(site), body, body, Some(site.environment));
    var child := DesiredDelivery(d, site, k, slot).value.value;
    var labels := TenantLabels(site.tenant, "gitops", map[])[ENVIRONMENT_LABEL := site.environment];
    KeysDiffer();
    assert labels == GitOpsLabels(site);
    CarriesBrand(child.labels, site.tenant, "gitops", ENVIRONMENT_LABEL, site.environment);
  }

  // ---- Delivery as a plan ----

  function DeliveryKeys(d: Delivery, site: Site): seq<Key> {
    match d.provider
    case ArgoCD => [GitOpsKey(Application, site)]
    case Flux => [GitOpsKey(GitRepository, site), GitOpsKey(Kustomization, site)]
    case _ => []
  }

  function ApplicationBody(source: GitSource, d: Delivery, site: Site): Body {
    GitOpsBody(ArgoApplication(source.repoURL, source.revision, source.path, site.target,
                               if d.autoSync then Some(d.prune) else None))
  }

  function RepositoryBody(source: GitSource): Body {
    GitOpsBody(FluxRepository(source.repoURL, source.revision))
  }

  function KustomizationBody(source: GitSource, d: Delivery, site: Site): Body {
    GitOpsBody(FluxKustomization(source.path, d.prune, site.target, ResourceName(site.environment)))
  }

  function DeliveryBody(source: GitSource, d: Delivery, site: Site, k: nat): Body {
    if d.provider.ArgoCD? then ApplicationBody(source, d, site)
    else if k == 0 then RepositoryBody(source)
    else KustomizationBody(source, d, site)
  }

  predicate Installed(d: Delivery, site: Site, k: nat) {
    k < |DeliveryKeys(d, site)| ==> DeliveryKeys(d, site)[k].kind in site.engines
  }

  /** What delivery step k makes of its object: nothing without a source, and nothing where the
      engine is not installed. */
  function DesiredDelivery(d: Delivery, site: Site, k: nat, slot: Option<Child>): Result<Option<Child>> {
    if d.source.None? then Err("spec.source is required")
    else if !Installed(d, site, k) then Err("no matches for kind")
    else Overwrite(slot, GitOpsLabels(site), DeliveryBody(d.source.value, d, site, k), Some(site.environment))
  }

  function DeliveryPlan(d: Delivery, site: Site): Plan {
    Plan(DeliveryKeys(d, site), (k: nat, slot) => DesiredDelivery(d, site, k, slot))
  }

  /** One delivery step, as one CreateOrUpdate. */
  method Deliver(c: Cluster, d: Delivery, site: Site, k: nat) returns (ok: bool, created: bool)
    requires c.Valid() && k < |DeliveryKeys(d, site)| && d.source.Some? && site.engines == c.engines
    modifies c
    ensures c.Valid() && old(c.calls) <= c.calls && old(c.failures) <= c.failures
    ensures var key := DeliveryKeys(d, site)[k];
            && Stepped(old(c.objects), c.objects, key, DesiredDelivery(d, site, k, Slot(old(c.objects), key)),
                       ok, old(c.failures) < c.failures)
            && (ok ==> (created <==> key !in old(c.objects)))
    ensures forall key | key != DeliveryKeys(d, site)[k] :: Slot(c.objects, key) == Slot(old(c.objects), key)
    ensures ok ==>
              && k < |DeliveryKinds(d.provider)| && var kind := DeliveryKinds(d.provider)[k];
              Conducts(Slot(c.objects, Key(kind, site.namespace, "upo-" + site.environment)), kind, d, site)
  {
    hide Conducts;
    var key := DeliveryKeys(d, site)[k];
    KeysAreMeant(d, site);
    ghost var want := DesiredDelivery(d, site, k, Slot(c.objects, key));
    if want.Ok? {
      DesiredConducts(d, site, k, Slot(c.objects, key));
    }
    var fetched := c.Get(key);
    if fetched.Failed? {
      return false, false;
    }
    created := fetched.NotFound?;
    ok := Apply(c, key, fetched, GitOpsLabels(site), DeliveryBody(d.source.value, d, site, k), Some(site.environment));
  }

  function EmptyToUnknown(s: string): string { if s == "" then "Unknown" else s }

  function NormalizeArgoSync(s: string): SyncPhase {
    if s == "Synced" then Synced else if s == "OutOfSync" then OutOfSync else if s == "" then UnknownSync else SyncError
  }

  function NormalizeFluxReady(s: string): SyncPhase {
    if s == "True" then Synced else if s == "False" then SyncError else UnknownSync
  }

  /** What an engine says of its readiness: the first condition of type Ready counts. */
  function EngineReady(conditions: seq<(string, string)>): string {
    if conditions == [] then ""
    else if conditions[0].0 == ENGINE_READY then conditions[0].1 else EngineReady(conditions[1..])
  }

  /** The first condition of type Ready has this status; without one the status is empty. */
  predicate SaysReady(conditions: seq<(string, string)>, status: string) {
    || (status == "" && forall c | c in conditions :: c.0 != "Ready")
    || exists i | 0 <= i < |conditions| && conditions[i] == ("Ready", status) ::
         forall j | 0 <= j < i :: conditions[j].0 != "Ready"
  }

  /** Where the engine's answer is found. */
  lemma {:induction false} EngineAnswers(conditions: seq<(string, string)>) returns (i: nat)
    ensures i <= |conditions| && forall j | 0 <= j < i :: conditions[j].0 != "Ready"
    ensures if i < |conditions| then conditions[i] == ("Ready", EngineReady(conditions))
            else EngineReady(conditions) == ""
  {
    if conditions == [] || conditions[0].0 == "Ready" {
      i := 0;
    } else {
      i := EngineAnswers(conditions[1..]);
      i := i + 1;
    }
  }

  lemma EngineSaysReady(conditions: seq<(string, string)>)
    ensures forall status :: SaysReady(conditions, status) <==> status == EngineReady(conditions)
  {
    hide EngineReady;
    var i := EngineAnswers(conditions);
    assert i < |conditions| ==> conditions[i] in conditions;
  }

  method ReadyConditionStatus(conditions: seq<(string, string)>) returns (status: string)
    ensures status == EngineReady(conditions) && SaysReady(conditions, status)
  {
    EngineSaysReady(conditions);
    for i := 0 to |conditions|
      invariant EngineReady(conditions) == EngineReady(conditions[i..])
    {
      if conditions[i].0 == ENGINE_READY {
        return conditions[i].1;
      }
      assert conditions[i..][1..] == conditions[i + 1..];
    }
    return "";
  }

  function ArgoMessage(r: Report): string {
    "argocd health=" + EmptyToUnknown(r.health) + " sync=" + EmptyToUnknown(r.sync)
  }

  function FluxMessage(ready: string): string { "flux kustomization ready=" + EmptyToUnknown(ready) }

  /** The sync status that goes with a report; an object that was not there yet has none. */
  function ReportedSync(d: Delivery, site: Site, report: Report, before: Objects): Option<SyncStatus> {
    match d.provider
    case ArgoCD =>
      var r := if GitOpsKey(Application, site) in before then report else NO_REPORT;
      Some(SyncStatus(NormalizeArgoSync(r.sync), r.revision, ArgoMessage(r), None))
    case Flux =>
      var r := if GitOpsKey(Kustomization, site) in before then report else NO_REPORT;
      var ready := EngineReady(r.conditions);
      Some(SyncStatus(NormalizeFluxReady(ready), r.revision, FluxMessage(ready), None))
    case _ => None
  }

  /** The sync status is what the engine has reported, in the words of the engine: as Argo CD
      reports it on the Application, or Flux on the Kustomization that was there before; an object
      that was not there has no report. */
  ghost predicate Echoes(sync: Option<SyncStatus>, d: Delivery, site: Site, report: Report, before: Objects) {
    match d.provider
    case ArgoCD =>
      var known := Key(Application, site.namespace, "upo-" + site.environment) in before;
      var text, health := if known then report.sync else "", if known then report.health else "";
      && sync.Some? && sync.value.revision == (if known then report.revision else "")
      && sync.value.phase == (if text == "Synced" then Synced else if text == "OutOfSync" then OutOfSync
                              else if text == "" then UnknownSync else SyncError)
      && sync.value.message == "argocd health=" + (if health == "" then "Unknown" else health) +
                               " sync=" + (if text == "" then "Unknown" else text)
    case Flux =>
      var known := Key(Kustomization, site.namespace, "upo-" + site.environment) in before;
      && sync.Some? && sync.value.revision == (if known then report.revision else "")
      && var conditions := if known then report.conditions else [];
         exists ready | SaysReady(conditions, ready) ::
           && sync.value.phase == (if ready == "True" then Synced else if ready == "False" then SyncError
                                   else UnknownSync)
           && sync.value.message == "flux kustomization ready=" + (if ready == "" then "Unknown" else ready)
    case _ => sync.None?
  }

  lemma ReportEchoes(d: Delivery, site: Site, report: Report, before: Objects)
    ensures Echoes(ReportedSync(d, site, report, before), d, site, report, before)
  {
    hide EngineReady, SaysReady;
    EngineSaysReady(report.conditions);
    EngineSaysReady([]);
    assert EngineReady([]) == "" by { NothingReady(); }
    if d.provider.Flux? {
      var r := if GitOpsKey(Kustomization, site) in before then report else NO_REPORT;
      assert SaysReady(r.conditions, EngineReady(r.conditions));
    }
  }

  lemma NothingReady()
    ensures EngineReady([]) == ""
  {
  }

  /** Runs the delivery plan: some first steps of it are done. It succeeds exactly if no API
      call has failed and the API server accepts each step, and then all of them are done.
      Without a provider there is no plan and no status. */
  method ReconcileGitOps(c: Cluster, d: Delivery, site: Site, report: Report)
    returns (ok: bool, sync: Option<SyncStatus>)
    requires c.Valid() && site.engines == c.engines
    modifies c
    ensures c.Valid() && old(c.calls) <= c.calls && old(c.failures) <= c.failures
    ensures var plan := DeliveryPlan(d, site);
            && (exists n: nat | n <= |plan.keys| :: c.objects == Run(old(c.objects), plan, n))
            && (ok ==> c.objects == Run(old(c.objects), plan, |plan.keys|))
            && (ok <==> old(c.failures) == c.failures && Feasible(old(c.objects), plan, |plan.keys|))
    ensures ok ==> sync == ReportedSync(d, site, report, old(c.objects))
    ensures ok ==> Echoes(sync, d, site, report, old(c.objects)) && Delivers(c.objects, d, site)
  {
    hide DesiredDelivery, Stepped, Run, StepPossible, Conducts, Echoes, SaysReady;
    ReportEchoes(d, site, report, c.objects);
    ghost var before, plan := c.objects, DeliveryPlan(d, site);
    sync := None;
    RunStarts(before, plan);
    if d.provider.NoProvider? || d.provider.UnsetProvider? {
      return true, None;
    }
    if d.source.None? {
      NothingToDeliver(before, d, site);
      return false, None;
    }
    var created;
    ok, created := Deliver(c, d, site, 0);
    StepRuns(before, plan, 0, c.objects, ok, old(c.failures) < c.failures);
    if !ok {
      return false, None;
    }
    if d.provider.ArgoCD? {
      var r := if created then NO_REPORT else report;
      return true, Some(SyncStatus(NormalizeArgoSync(r.sync), r.revision, ArgoMessage(r), None));
    }
    RunElsewhere(before, plan, 1, plan.keys[1]);
    ok, created := Deliver(c, d, site, 1);
    StepRuns(before, plan, 1, c.objects, ok, old(c.failures) < c.failures);
    if !ok {
      return false, None;
    }
    var r := if created then NO_REPORT else report;
    var ready := ReadyConditionStatus(r.conditions);
    return true, Some(SyncStatus(NormalizeFluxReady(ready), r.revision, FluxMessage(ready), None));
  }

  lemma NothingToDeliver(objects: Objects, d: Delivery, site: Site)
    requires d.source.None? && DeliveryKeys(d, site) != []
    ensures !StepPossible(objects, DeliveryPlan(d, site), 0)
  {
  }

  lemma DeliverySeparate(d: Delivery, site: Site)
    ensures DeliveryPlan(d, site).Separate()
  {
  }

  // ---- Teardown ----

  /** All three kinds are gone or going, whatever provider was ever selected. */
  predicate DeliveryStopped(objects: Objects, site: Site) {
    && Reclaimed(objects, Key(Application, site.namespace, "upo-" + site.environment))
    && Reclaimed(objects, Key(Kustomization, site.namespace, "upo-" + site.environment))
    && Reclaimed(objects, Key(GitRepository, site.namespace, "upo-" + site.environment))
  }

  /** A missing object and a missing engine count as deleted. */
  method DeleteGitOps(c: Cluster, site: Site) returns (ok: bool)
    requires c.Valid()
    modifies c
    ensures c.Valid() && old(c.calls) <= c.calls && old(c.failures) <= c.failures
    ensures ok ==> DeliveryStopped(c.objects, site)
    ensures ok <==> old(c.failures) == c.failures
    ensures Receding(old(c.objects), c.objects)
    ensures forall key: Key | key.kind !in {Application, Kustomization, GitRepository} ||
                              key != Key(key.kind, site.namespace, "upo-" + site.environment) ::
              Slot(c.objects, key) == Slot(old(c.objects), key)
  {
    var kinds := [Application, Kustomization, GitRepository];
    for i := 0 to |kinds|
      invariant c.Valid() && old(c.calls) <= c.calls && old(c.failures) == c.failures
      invariant Receding(old(c.objects), c.objects)
      invariant forall j | 0 <= j < i :: Reclaimed(c.objects, GitOpsKey(kinds[j], site))
      invariant forall key: Key | key.kind !in GITOPS_KINDS || key != GitOpsKey(key.kind, site) ::
                  Slot(c.objects, key) == Slot(old(c.objects), key)
    {
      ghost var before := c.objects;
      var r := c.Delete(GitOpsKey(kinds[i], site));
      SlotsRecede(before, c.objects, GitOpsKey(kinds[i], site));
      if r == Error {
        return false;
      }
    }
    assert Reclaimed(c.objects, GitOpsKey(kinds[0], site)) && Reclaimed(c.objects, GitOpsKey(kinds[1], site))
           && Reclaimed(c.objects, GitOpsKey(kinds[2], site));
    return true;
  }
}
