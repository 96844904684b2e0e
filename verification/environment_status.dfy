/** The persisted state of an Environment, the rules every reachable state satisfies, and the
    lifetime of ephemeral environments. */
module EnvironmentStates {
  import opened Base
  import opened Conditions
  import opened Clusters
  import opened Namespaces
  import opened GitOps
  import opened Registries
  import opened Stages
  import opened EnvironmentResources

  datatype EnvironmentPhase = NoPhase | Pending | Provisioning | Syncing | Healthy | Degraded | Suspended
    | Terminating | Failed

  datatype EnvironmentStatus = EnvironmentStatus(
    phase: EnvironmentPhase, conditions: seq<Condition>, observedGeneration: nat, targetNamespace: string,
    sync: Option<SyncStatus>, url: string, expiresAt: Option<int>, lastReconcileTime: Option<int>)

  const EMPTY_STATUS := EnvironmentStatus(NoPhase, [], 0, "", None, "", None, None)

  type Environment = Resource<EnvironmentSpec, EnvironmentStatus>
  type History = seq<Moment<EnvironmentSpec, EnvironmentStatus>>

  const RESYNC_SECONDS := 180
  const DEPENDENCY_RETRY_SECONDS := 15

  /** The quota that goes with each profile. */
  type Profiles = string -> ResourceList

  /** Ready=True exactly in the phases of a provisioned Environment; Degraded=True in Degraded
      and Failed, and absent while Healthy or Syncing; one entry per condition type. */
  predicate PhaseAgrees(s: EnvironmentStatus) {
    && Unique(s.conditions)
    && (Holds(s.conditions, READY, True) <==> s.phase in {Healthy, Syncing, Degraded})
    && (s.phase.Degraded? || s.phase.Failed? ==> Holds(s.conditions, DEGRADED, True))
    && (s.phase in {Healthy, Syncing} ==> Find(s.conditions, DEGRADED).None?)
    && (s.phase in {Healthy, Syncing, Degraded} ==> Holds(s.conditions, PROGRESSING, False))
    && (s.phase == Healthy ==> s.sync.None? || s.sync.value.phase == Synced)
    && (s.phase == Syncing ==> s.sync.Some? && s.sync.value.phase in {OutOfSync, UnknownSync})
    && (s.phase == Degraded ==> s.sync.Some? && s.sync.value.phase == SyncError)
  }

  /** The workload namespace is named as soon as anything was provisioned and reported. */
  predicate NamesTarget(s: EnvironmentStatus, target: string) {
    && s.targetNamespace in {"", target}
    && (s.phase in {Healthy, Syncing, Degraded} || s.phase.Failed? ==> s.targetNamespace == target)
  }

  /** What is owed when the Environment is released: delivery has been stopped, and the
      workload namespace, if the status names one, is gone or going. */
  predicate TornDown(s: EnvironmentStatus, objects: Objects, site: Site) {
    && DeliveryStopped(objects, site)
    && (s.targetNamespace != "" ==> Reclaimed(objects, NamespaceKey(site.target)))
  }

  /** The workload namespace goes only after delivery has been stopped. */
  predicate DeliveryFirst(before: Objects, after: Objects, site: Site) {
    Live(before, NamespaceKey(site.target)) && Reclaimed(after, NamespaceKey(site.target)) ==>
      DeliveryStopped(before, site)
  }

  /** The lifetime of an ephemeral Environment created at `created` is over. */
  predicate Due(created: int, spec: EnvironmentSpec, time: int) {
    spec.kind == Ephemeral && !spec.suspend && spec.ttl.Some? && time >= created + spec.ttl.value
  }

  /** A live Environment reports Ready for its current generation. */
  predicate ClaimsReady(e: Environment) {
    !e.deleting && Holds(e.status.conditions, READY, True) && e.status.observedGeneration == e.generation
  }

  /** A version agrees with itself, names its one target or none, and is not ahead of its own
      generation. */
  predicate VersionFits(site: Site, e: Environment) {
    PhaseAgrees(e.status) && NamesTarget(e.status, site.target) && e.status.observedGeneration <= e.generation
  }

  /** Ready means provisioned: a live Environment that reports Ready for its current generation
      has the namespace, quota, configuration and delivery that its spec asks for. */
  function EnvironmentRules(site: Site, created: int, quotas: Profiles): Rules<EnvironmentSpec, EnvironmentStatus> {
    Rules(
      Managed(site),
      (e: Environment) => VersionFits(site, e),
      (s: EnvironmentStatus) => s.observedGeneration,
      (a: EnvironmentStatus, b: EnvironmentStatus, start: int, finish: int) =>
        a.targetNamespace != "" ==> b.targetNamespace == a.targetNamespace,
      (e: Environment, o: Objects) => ClaimsReady(e) ==> Settled(o, BlueprintOf(site, quotas, e.spec)),
      (e: Environment, o: Objects) => TornDown(e.status, o, site),
      (before: Objects, after: Objects) => DeliveryFirst(before, after, site),
      (e: Environment, time: int) => Due(created, e.spec, time))
  }

  function Managed(site: Site): Key -> bool {
    (key: Key) => Owns(site, key)
  }

  /** What others write concerns neither the teardown nor its order. */
  lemma OthersDoNotMatter(site: Site, o: Objects, key: Key, slot: Option<Child>)
    requires !Owns(site, key)
    ensures forall k | Owns(site, k) :: Reclaimed(Place(o, key, slot), k) == Reclaimed(o, k)
    ensures SameOwned(site, o, Place(o, key, slot))
  {
  }

  lemma RulesAreLawful(site: Site, created: int, quotas: Profiles, identity: EnvironmentSpec -> string)
    ensures EnvironmentRules(site, created, quotas).Lawful(identity)
  {
    hide Reclaimed, Place, PhaseAgrees, NamesTarget, Settled, Holds, SameOwned;
    var rules := EnvironmentRules(site, created, quotas);
    forall e: Environment, o | e.deleting ensures rules.claim(e, o) {
      assert !ClaimsReady(e);
    }
    forall a: Environment, b: Environment, o | rules.fits(a) && rules.claim(a, o) && Edited(identity, a, b)
      ensures rules.claim(b, o)
    {
      if ClaimsReady(b) {
        assert a.generation == b.generation && ClaimsReady(a);
      }
    }
    forall e: Environment, o, key, slot | !rules.managed(key) && rules.fits(e) && rules.claim(e, o)
      ensures rules.claim(e, Place(o, key, slot))
    {
      OthersDoNotMatter(site, o, key, slot);
      if ClaimsReady(e) {
        SettledKept(o, Place(o, key, slot), BlueprintOf(site, quotas, e.spec));
      }
    }
    forall e, o, key, slot | !rules.managed(key) && rules.closed(e, o) ensures rules.closed(e, Place(o, key, slot)) {
      OthersDoNotMatter(site, o, key, slot);
    }
    forall o, key, slot | !rules.managed(key) ensures rules.order(o, Place(o, key, slot)) {
      OthersDoNotMatter(site, o, key, slot);
    }
  }

  /** A new Environment. */
  lemma StartsWell(site: Site, created: int, quotas: Profiles, e: Environment, o: Objects)
    requires e.status == EMPTY_STATUS
    ensures var rules := EnvironmentRules(site, created, quotas);
            rules.fits(e) && rules.claim(e, o) && rules.observed(e.status) == 0
  {
    hide Settled;
    assert !ClaimsReady(e);
  }

  // ---- Ready means provisioned ----

  /** What a claim says: in every moment of every run a live Environment that reports Ready for
      its current generation has a labelled workload namespace, the quota of its profile, its
      variables, and its delivery objects from its source, each of them or rightly none. */
  lemma ReadyMeansProvisioned(site: Site, created: int, quotas: Profiles, history: History, i: nat)
    requires Faithful(EnvironmentRules(site, created, quotas), history) && i < |history|
    requires !history[i].gone && !history[i].resource.deleting
    requires Holds(history[i].resource.status.conditions, "Ready", True)
    requires history[i].resource.status.observedGeneration == history[i].resource.generation
    ensures Provided(history[i].objects, site, quotas, history[i].resource.spec)
  {
    hide PhaseAgrees, NamesTarget, Holds, Settled, Provided;
    assert Good(EnvironmentRules(site, created, quotas), history[i]);
    assert EnvironmentRules(site, created, quotas).claim(history[i].resource, history[i].objects);
    assert Settled(history[i].objects, BlueprintOf(site, quotas, history[i].resource.spec));
    SettledMeans(history[i].objects, site, quotas, history[i].resource.spec);
  }

  // ---- Teardown over whole runs ----

  /** From its release on, the delivery of an Environment is stopped, whatever providers it ever
      had; and its workload namespace, if the status names one, is gone or going. */
  lemma TeardownIsComplete(site: Site, created: int, quotas: Profiles, history: History, i: nat, j: nat)
    requires Faithful(EnvironmentRules(site, created, quotas), history) && i <= j < |history| && history[i].released
    ensures DeliveryStopped(history[j].objects, site)
    ensures history[j].resource.status.targetNamespace in {"", site.target}
    ensures history[j].resource.status.targetNamespace != "" ==>
              Reclaimed(history[j].objects, Key(Namespace, "", site.target))
  {
    hide PhaseAgrees, DeliveryStopped, DeliveryFirst;
    Sticky(EnvironmentRules(site, created, quotas), history, i, j);
    assert Good(EnvironmentRules(site, created, quotas), history[j]);
  }

  /** Wherever in a run the workload namespace goes, delivery had been stopped before. */
  lemma {:induction false} DeliveryStopsFirst(
    site: Site, created: int, quotas: Profiles, history: History, i: nat, j: nat)
    requires Faithful(EnvironmentRules(site, created, quotas), history) && i <= j < |history|
    requires Live(history[i].objects, Key(Namespace, "", site.target)) &&
              Reclaimed(history[j].objects, Key(Namespace, "", site.target))
    ensures exists k :: i <= k < j && DeliveryStopped(history[k].objects, site)
  {
    hide PhaseAgrees, DeliveryStopped, NamesTarget, TornDown;
    assert StepOk(EnvironmentRules(site, created, quotas), history[j - 1], history[j]);
    if Reclaimed(history[j - 1].objects, Key(Namespace, "", site.target)) {
      DeliveryStopsFirst(site, created, quotas, history, i, j - 1);
    } else {
      assert DeliveryStopped(history[j - 1].objects, site);
    }
  }

  // ---- Phase and conditions over whole runs ----

  /** Phase and conditions agree in every persisted status of a run: Ready=True iff the phase
      is Healthy, Syncing or Degraded; Degraded=True in the phases Degraded and Failed, and
      absent in Healthy and Syncing; one entry per condition type. */
  lemma PhasesAgree(site: Site, created: int, quotas: Profiles, history: History, i: nat)
    requires Faithful(EnvironmentRules(site, created, quotas), history) && i < |history|
    ensures var s := history[i].resource.status;
            && (Holds(s.conditions, "Ready", True) <==> s.phase in {Healthy, Syncing, Degraded})
            && (s.phase in {Degraded, EnvironmentPhase.Failed} ==> Holds(s.conditions, "Degraded", True))
            && (s.phase in {Healthy, Syncing} ==> Find(s.conditions, "Degraded").None?)
            && (s.phase == Healthy ==> s.sync.None? || s.sync.value.phase == Synced)
            && (s.phase == Syncing ==> s.sync.Some? && s.sync.value.phase in {OutOfSync, UnknownSync})
            && (s.phase == Degraded ==> s.sync.Some? && s.sync.value.phase == SyncError)
            && forall j, k | 0 <= j < k < |s.conditions| :: s.conditions[j].kind != s.conditions[k].kind
  {
    hide Find, NamesTarget;
    assert Good(EnvironmentRules(site, created, quotas), history[i]);
  }

  // ---- The lifetime of an ephemeral environment ----

  /** Never early: whenever the controller, and nobody else, turns an Environment into a deleted
      one, the version that it had read is ephemeral and not suspended, and the clock has
      reached the end of its lifetime. */
  lemma NeverEarly(site: Site, created: int, quotas: Profiles, history: History, i: nat)
    requires Faithful(EnvironmentRules(site, created, quotas), history) && 0 < i < |history| && !history[i].outside
    requires history[i].resource.deleting && !history[i - 1].resource.deleting
    ensures var spec := history[i - 1].seen.spec;
            && spec.kind == Ephemeral && !spec.suspend && spec.ttl.Some?
            && history[i].time >= created + spec.ttl.value
  {
    DeletionWasDue(EnvironmentRules(site, created, quotas), history, i);
  }

  /** The delay that a completed pass requests. */
  function Requeue(expiresAt: Option<int>, now: int): int {
    if expiresAt.Some? && 0 < expiresAt.value - now < RESYNC_SECONDS then expiresAt.value - now else RESYNC_SECONDS
  }

  /** The end of the lifetime that a pass over this version puts into the status. */
  function Expiry(created: int, e: Environment): Option<int> {
    if e.spec.kind == Ephemeral && e.spec.ttl.Some? then Some(created + e.spec.ttl.value) else e.status.expiresAt
  }

  /** How a pass has ended. */
  datatype Ending = Unfound | Finalized | Enrolled | Suspending | Blocked | Expired | Provisioned | Erring

  /** One pass: the version it saw, whether the tenant had a namespace when it was looked up,
      its two readings of the clock, how it ended, the delay it returned, and the index of its
      last moment in the history. */
  datatype Visit = Visit(seen: Option<Environment>, ready: bool, first: int, second: int, ending: Ending,
                         requeue: int, end: nat)
  {
    /** It saw a live Environment with its finalizer on. */
    predicate Live() { seen.Some? && !seen.value.deleting && seen.value.held }

    /** It went on to the lifetime. */
    predicate Active() { Live() && !seen.value.spec.suspend && ready }
  }

  /** The ending and the delay are decided by what the pass has seen, unless it erred. */
  predicate VisitFits(created: int, v: Visit) {
    && v.first <= v.second
    && match v.ending
       case Erring => true
       case Unfound => v.seen.None? && v.requeue == 0
       case Finalized => v.seen.Some? && v.seen.value.deleting && v.requeue == 0
       case Enrolled => v.seen.Some? && !v.seen.value.deleting && !v.seen.value.held && v.requeue == 0
       case Suspending => v.Live() && v.seen.value.spec.suspend && v.requeue == 0
       case Blocked => v.Live() && !v.seen.value.spec.suspend && !v.ready && v.requeue == 15
       case Expired => v.Active() && Due(created, v.seen.value.spec, v.first) && v.requeue == 0
       case Provisioned => v.Active() && !Due(created, v.seen.value.spec, v.first)
                           && v.requeue == Requeue(Expiry(created, v.seen.value), v.second)
  }

  /** The log of the passes, in the order of their clock readings: each of them fits, and one
      that says Expired has requested the deletion. */
  ghost predicate Chronicled(created: int, visits: seq<Visit>, history: History) {
    forall i | 0 <= i < |visits| ::
      && VisitFits(created, visits[i]) && visits[i].end < |history|
      && (i > 0 ==> visits[i - 1].second <= visits[i].first)
      && (visits[i].ending.Expired? ==> history[visits[i].end].gone || history[visits[i].end].resource.deleting)
  }

  /** The delays in the log, in seconds. A pass that provisioned asks for the resync period, or for
      what is left of the lifetime at its second reading of the clock if that is less and not yet
      over; a lifetime is that of an ephemeral version, or one that the status still names. A
      missing tenant is looked up again after a quarter of a minute, and every other ending without
      error asks for no delay. */
  lemma DelaysAsked(created: int, visits: seq<Visit>, history: History, i: nat)
    requires Chronicled(created, visits, history) && i < |visits|
    ensures var v := visits[i];
            && (v.ending.Provisioned? ==>
                  && v.seen.Some? && 0 < v.requeue <= 180
                  && var e := v.seen.value;
                  && (!(e.spec.kind == Ephemeral && e.spec.ttl.Some?) && e.status.expiresAt.None? ==> v.requeue == 180)
                  && (e.spec.kind == Ephemeral && e.spec.ttl.Some? ==>
                        var left := created + e.spec.ttl.value - v.second;
                        v.requeue == if 0 < left < 180 then left else 180)
                  && (!(e.spec.kind == Ephemeral && e.spec.ttl.Some?) && e.status.expiresAt.Some? ==>
                        var left := e.status.expiresAt.value - v.second;
                        v.requeue == if 0 < left < 180 then left else 180))
            && (v.ending.Blocked? ==> v.requeue == 15)
            && (v.ending in {Unfound, Finalized, Enrolled, Suspending, Expired} ==> v.requeue == 0)
  {
    assert VisitFits(created, visits[i]);
  }

  lemma ChronicleLasts(created: int, visits: seq<Visit>, history: History, longer: History)
    requires Chronicled(created, visits, history) && history <= longer
    ensures Chronicled(created, visits, longer)
  {
    hide VisitFits;
  }

  lemma ChronicleGrows(created: int, visits: seq<Visit>, v: Visit, history: History, longer: History)
    requires Chronicled(created, visits, history) && history <= longer && Chronicled(created, [v], longer)
    requires visits != [] ==> visits[|visits| - 1].second <= v.first
    ensures Chronicled(created, visits + [v], longer)
  {
    hide VisitFits;
    var more := visits + [v];
    forall i | 0 <= i < |more|
      ensures && VisitFits(created, more[i]) && more[i].end < |longer|
              && (i > 0 ==> more[i - 1].second <= more[i].first)
              && (more[i].ending.Expired? ==> longer[more[i].end].gone || longer[more[i].end].resource.deleting)
    {
      assert more[i] == if i < |visits| then visits[i] else [v][0];
    }
  }

  /** A stretch of passes without error over one ephemeral Environment, neither suspended nor
      blocked, whose lifetime ends at `expiry`. */
  predicate Watched(visits: seq<Visit>, created: int, expiry: int) {
    forall i | 0 <= i < |visits| ::
      && visits[i].Active() && visits[i].ending != Erring && visits[i].seen.value.spec.kind == Ephemeral
      && visits[i].seen.value.spec.ttl == Some(expiry - created)
  }

  /** The pass after one that provisioned runs no later than that one has asked for. */
  predicate Timely(visits: seq<Visit>) {
    forall i | 0 < i < |visits| ::
      visits[i - 1].ending.Provisioned? ==> visits[i].first <= visits[i - 1].second + visits[i - 1].requeue
  }

  /** It runs exactly when that one has asked for it. */
  predicate Punctual(visits: seq<Visit>) {
    forall i | 0 < i < |visits| ::
      visits[i - 1].ending.Provisioned? ==> visits[i].first == visits[i - 1].second + visits[i - 1].requeue
  }

  /** In such a stretch a pass that reads the clock before the expiry provisions, and any other
      requests the deletion. */
  lemma ExpiresOrNot(created: int, visits: seq<Visit>, expiry: int, i: nat)
    requires Watched(visits, created, expiry) && i < |visits| && VisitFits(created, visits[i])
    ensures var v := visits[i];
            && (v.ending == if v.first < expiry then Provisioned else Expired)
            && (v.first < expiry ==> 1 <= v.requeue <= 180)
            && (v.first < expiry && v.second < expiry ==> v.requeue <= expiry - v.second)
  {
  }

  lemma EarlyVisitFits(created: int, v: Visit)
    requires v.Live() && v.first == v.second && v.ending in {Erring, Suspending, Blocked}
    requires v.ending.Suspending? ==> v.seen.value.spec.suspend && v.requeue == 0
    requires v.ending.Blocked? ==> !v.seen.value.spec.suspend && !v.ready && v.requeue == 15
    ensures VisitFits(created, v)
  {
  }

  lemma LateVisitFits(created: int, v: Visit)
    requires v.Active() && v.first <= v.second && v.ending in {Erring, Expired, Provisioned}
    requires v.ending.Expired? ==> Due(created, v.seen.value.spec, v.first) && v.requeue == 0
    requires v.ending.Provisioned? ==> !Due(created, v.seen.value.spec, v.first) &&
                                       v.requeue == Requeue(Expiry(created, v.seen.value), v.second)
    ensures VisitFits(created, v)
  {
  }

  lemma ProvisionedLive(created: int, v: Visit)
    requires VisitFits(created, v) && v.ending.Provisioned?
    ensures v.seen.Some? && !v.seen.value.deleting
  {
  }

  lemma EndIsFree(created: int, v: Visit, end: nat)
    ensures VisitFits(created, v.(end := end)) == VisitFits(created, v)
  {
  }

  lemma FirstBeforeSecond(created: int, v: Visit)
    requires VisitFits(created, v)
    ensures v.first <= v.second
  {
  }

  /** Boundedly late: where each pass runs no later than its predecessor has asked for, and the
      j-th of them reads the clock at the expiry or later, the first one to do so requests the
      deletion, less than one pass duration and one resync period after the expiry; and exactly
      at the expiry, unless the pass before it straddles the expiry. */
  lemma {:induction false} BoundedlyLate(
    created: int, visits: seq<Visit>, history: History, expiry: int, duration: int, j: nat) returns (i: nat)
    requires Chronicled(created, visits, history) && Watched(visits, created, expiry) && Timely(visits)
    requires forall k | 0 <= k < |visits| :: visits[k].second - visits[k].first <= duration
    requires j < |visits| && visits[0].first < expiry <= visits[j].first
    ensures 0 < i <= j && visits[i].ending.Expired?
    ensures history[visits[i].end].gone || history[visits[i].end].resource.deleting
    ensures forall k | 0 <= k < i :: visits[k].ending.Provisioned?
    ensures expiry <= visits[i].first < expiry + duration + 180
    ensures visits[i - 1].second < expiry ==> visits[i].first == expiry
  {
    hide VisitFits, Requeue, Expiry;
    assert VisitFits(created, visits[0]) && VisitFits(created, visits[1]);
    ExpiresOrNot(created, visits, expiry, 0);
    ExpiresOrNot(created, visits, expiry, 1);
    if visits[1].first >= expiry {
      i := 1;
    } else {
      var n := BoundedlyLate(created, visits[1..], history, expiry, duration, j - 1);
      i := n + 1;
      assert forall k | 0 < k <= i :: visits[k] == visits[1..][k - 1];
    }
  }

  /** The remaining lifetime shrinks from each punctual pass to the next, so that after at most
      as many passes as there are seconds left one reads the clock at the expiry or later. */
  lemma {:induction false} LifetimeShrinks(created: int, visits: seq<Visit>, expiry: int) returns (j: nat)
    requires (forall i | 0 <= i < |visits| :: VisitFits(created, visits[i])) && Watched(visits, created, expiry)
    requires Punctual(visits) && visits != [] && |visits| > expiry - visits[0].first
    ensures j < |visits| && visits[j].first >= expiry
    ensures j <= if visits[0].first < expiry then expiry - visits[0].first else 0
    decreases |visits|
  {
    hide VisitFits, Requeue, Expiry;
    if visits[0].first >= expiry {
      j := 0;
    } else {
      ExpiresOrNot(created, visits, expiry, 0);
      assert visits[0].second >= visits[0].first by { FirstBeforeSecond(created, visits[0]); }
      j := LifetimeShrinks(created, visits[1..], expiry);
      j := j + 1;
    }
  }

  /** Exactly at the expiry: punctual passes request the deletion within as many passes as there
      are seconds left, and at the expiry itself if no pass straddles it. */
  lemma PunctuallyExpired(
    created: int, visits: seq<Visit>, history: History, expiry: int, duration: int) returns (i: nat)
    requires Chronicled(created, visits, history) && Watched(visits, created, expiry) && Punctual(visits)
    requires forall k | 0 <= k < |visits| :: visits[k].second - visits[k].first <= duration
    requires visits != [] && visits[0].first < expiry && |visits| > expiry - visits[0].first
    ensures 0 < i < |visits| && i <= expiry - visits[0].first && visits[i].ending.Expired?
    ensures history[visits[i].end].gone || history[visits[i].end].resource.deleting
    ensures expiry <= visits[i].first < expiry + duration + 180
    ensures (forall k | 0 <= k < i :: visits[k].second < expiry) ==> visits[i].first == expiry
  {
    hide VisitFits, Watched;
    var j := LifetimeShrinks(created, visits, expiry);
    i := BoundedlyLate(created, visits, history, expiry, duration, j);
  }

  // ---- One pass ----

  /** What the phase says once everything is provisioned. */
  predicate Derived(s: EnvironmentStatus) {
    && s.phase in {Healthy, Syncing, Degraded} && Holds(s.conditions, READY, True)
    && (if s.phase == Degraded then Holds(s.conditions, DEGRADED, True) else Find(s.conditions, DEGRADED).None?)
    && (s.phase == Healthy ==> s.sync.None? || s.sync.value.phase == Synced)
    && (s.phase == Syncing ==> s.sync.Some? && s.sync.value.phase in {OutOfSync, UnknownSync})
    && (s.phase == Degraded ==> s.sync.Some? && s.sync.value.phase == SyncError)
  }

  /** The persisted sync block is what was reported, with the time of the report. */
  predicate SyncAgrees(reported: Option<SyncStatus>, persisted: Option<SyncStatus>) {
    if reported.None? then persisted.None?
    else persisted.Some? && persisted.value == reported.value.(lastSyncTime := persisted.value.lastSyncTime)
         && persisted.value.lastSyncTime.Some?
  }

  /** What the engine has reported is what is persisted. */
  lemma EchoPersists(reported: Option<SyncStatus>, persisted: Option<SyncStatus>, d: Delivery, site: Site,
                     report: Report, before: Objects)
    requires Echoes(reported, d, site, report, before) && SyncAgrees(reported, persisted)
    ensures Echoes(persisted, d, site, report, before)
  {
  }

  /** What a pass may persist over the version it has read, at whatever time. */
  lemma DraftFits(site: Site, created: int, quotas: Profiles, e: Environment, draft: EnvironmentStatus, now: int,
                  objects: Objects)
    requires PhaseAgrees(draft) && NamesTarget(draft, site.target)
    requires e.status.targetNamespace != "" ==> draft.targetNamespace == e.status.targetNamespace
    requires draft.phase in {Healthy, Syncing, Degraded} ==> Settled(objects, BlueprintOf(site, quotas, e.spec))
    ensures var rules := EnvironmentRules(site, created, quotas);
            var status := draft.(observedGeneration := e.generation, lastReconcileTime := Some(now));
            && rules.fits(e.(status := status)) && rules.claim(e.(status := status), objects)
            && rules.observed(status) == e.generation
            && forall start, finish :: rules.link(e.status, status, start, finish)
  {
    hide Settled;
    var rules := EnvironmentRules(site, created, quotas);
    var status := draft.(observedGeneration := e.generation, lastReconcileTime := Some(now));
    var next: Environment := e.(status := status);
    assert rules.fits(next);
    assert ClaimsReady(next) ==> Settled(objects, BlueprintOf(site, quotas, next.spec));
    assert rules.claim(next, objects);
    assert rules.observed(status) == e.generation;
  }

  /** A step of a pass for the spec that has been read breaks no claim. */
  lemma ClaimKept(site: Site, created: int, quotas: Profiles, e: Environment, b: Blueprint, before: Objects,
                  after: Objects)
    requires e.status.observedGeneration == e.generation ==>
               BlueprintOf(site, quotas, e.spec) == b.(collected := Err(""))
    requires Settled(before, b) ==> Settled(after, b)
    ensures var rules := EnvironmentRules(site, created, quotas); rules.claim(e, before) ==> rules.claim(e, after)
    ensures EnvironmentRules(site, created, quotas).observed(e.status) == e.status.observedGeneration
  {
    hide Settled, Find;
    SettledAnyhow(before, b, Err(""));
    SettledAnyhow(after, b, Err(""));
    var rules := EnvironmentRules(site, created, quotas);
    assert rules.claim(e, before) == (ClaimsReady(e) ==> Settled(before, BlueprintOf(site, quotas, e.spec)));
    assert rules.claim(e, after) == (ClaimsReady(e) ==> Settled(after, BlueprintOf(site, quotas, e.spec)));
  }
}
