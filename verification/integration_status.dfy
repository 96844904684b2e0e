/** The persisted state of an Integration: what every status satisfies, and how the retry
    counter follows from the status writes that were committed. */
module IntegrationStates {
  import opened Base
  import opened Conditions
  import opened Clusters
  import opened Configs
  import opened Connectors
  import opened Backoffs
  import opened Registries
  import opened Stages

  datatype IntegrationPhase = NoPhase | Pending | Connecting | Connected | Degraded | Failed | Disabled

  datatype IntegrationSpec = IntegrationSpec(
    tenantRef: string, kind: ConnectorType, endpoint: string, authSecretRef: Option<string>,
    retryPolicy: Option<RetryPolicy>, suspend: bool)

  datatype IntegrationStatus = IntegrationStatus(
    phase: IntegrationPhase, conditions: seq<Condition>, observedGeneration: nat,
    connectionSecretName: string, observedEndpoint: string, retries: nat, lastError: string,
    lastProbeTime: Option<int>, lastReconcileTime: Option<int>)

  const EMPTY_STATUS := IntegrationStatus(NoPhase, [], 0, "", "", 0, "", None, None)

  type Integration = Resource<IntegrationSpec, IntegrationStatus>
  type History = seq<Moment<IntegrationSpec, IntegrationStatus>>

  const RESYNC := 120 * SECOND
  const DEPENDENCY_RETRY := 15 * SECOND
  const DEFAULT_MAX_RETRIES := 5

  /** The retries that a policy grants: five, if there is none. */
  function MaxRetries(policy: Option<RetryPolicy>): int {
    if policy.Some? then policy.value.maxRetries else 5
  }

  function ConnectionKey(namespace: string, name: string): Key {
    Key(Secret, namespace, name + "-connection")
  }

  /** Ready=True exactly in phase Connected, which comes with no retries, no error and no
      Degraded; Failed comes with Degraded=True; one entry per condition type. */
  predicate PhaseAgrees(s: IntegrationStatus) {
    && Unique(s.conditions)
    && (Holds(s.conditions, READY, True) <==> s.phase == Connected)
    && (s.phase == Connected ==>
          && s.retries == 0 && s.lastError == ""
          && Find(s.conditions, DEGRADED).None?
          && Holds(s.conditions, CONNECTED, True) && Holds(s.conditions, PROGRESSING, False))
    && (s.phase.Failed? ==> Holds(s.conditions, DEGRADED, True))
  }

  /** A live Integration reports Ready for its current generation. */
  predicate ClaimsReady(i: Integration) {
    !i.deleting && Holds(i.status.conditions, READY, True) && i.status.observedGeneration == i.generation
  }

  /** A version agrees with itself, names its one Secret or none, and is not ahead of its own
      generation. */
  predicate VersionFits(name: string, i: Integration) {
    && PhaseAgrees(i.status) && i.status.connectionSecretName in {"", ConnectionSecretName(name)}
    && i.status.observedGeneration <= i.generation
  }

  /** The object holds the payload of the endpoint and the type that the spec gives, and of the
      credentials that it decodes to. */
  predicate Conveys(slot: Option<Child>, spec: IntegrationSpec) {
    && slot.Some? && slot.value.body.DataBody?
    && var data := slot.value.body.data;
       Encodes(data, spec.endpoint, TypeName(spec.kind), Credentials(data))
  }

  /** The connection Secret is the one managed object. Ready means that it carries the spec; a
      status may name no other; Ready changes its transition time exactly on a status flip; and
      the Integration is released only without its Secret, if the status names it. */
  function IntegrationRules(name: string, namespace: string): Rules<IntegrationSpec, IntegrationStatus> {
    Rules(
      Managed(name, namespace),
      (i: Integration) => VersionFits(name, i),
      (s: IntegrationStatus) => s.observedGeneration,
      (a: IntegrationStatus, b: IntegrationStatus, start: int, finish: int) =>
        ReadyHonest(a.conditions, b.conditions, start, finish),
      (i: Integration, o: Objects) => ClaimsReady(i) ==> Conveys(Slot(o, ConnectionKey(namespace, name)), i.spec),
      (i: Integration, o: Objects) => i.status.connectionSecretName != "" ==> ConnectionKey(namespace, name) !in o,
      (before: Objects, after: Objects) => true,
      (i: Integration, time: int) => false)
  }

  function Managed(name: string, namespace: string): Key -> bool {
    (key: Key) => key == ConnectionKey(namespace, name)
  }

  lemma RulesAreLawful(name: string, namespace: string, identity: IntegrationSpec -> string)
    ensures IntegrationRules(name, namespace).Lawful(identity)
  {
    hide PhaseAgrees, Holds, Conveys, ReadyHonest;
    var rules := IntegrationRules(name, namespace);
    assert forall s: IntegrationStatus, start, finish :: rules.link(s, s, start, finish) by {
      forall s: IntegrationStatus, start, finish ensures ReadyHonest(s.conditions, s.conditions, start, finish) {
        HonestToItself(s.conditions, start, finish);
      }
    }
    forall i: Integration, o | i.deleting ensures rules.claim(i, o) {
      assert !ClaimsReady(i);
    }
    forall a: Integration, b: Integration, o | rules.fits(a) && rules.claim(a, o) && Edited(identity, a, b)
      ensures rules.claim(b, o)
    {
      if ClaimsReady(b) {
        assert a.generation == b.generation && ClaimsReady(a);
      }
    }
    forall i: Integration, o, key, slot | !rules.managed(key) && rules.fits(i) && rules.claim(i, o)
      ensures rules.claim(i, Place(o, key, slot))
    {
      assert Slot(Place(o, key, slot), ConnectionKey(namespace, name)) == Slot(o, ConnectionKey(namespace, name));
    }
  }

  lemma HonestToItself(list: seq<Condition>, start: int, finish: int)
    ensures ReadyHonest(list, list, start, finish)
  {
  }

  /** What a claim needs, and what breaks none. */
  lemma ClaimOf(name: string, namespace: string, i: Integration, o: Objects)
    requires PhaseAgrees(i.status)
    requires i.status.phase == Connected ==> Conveys(Slot(o, ConnectionKey(namespace, name)), i.spec)
    ensures IntegrationRules(name, namespace).claim(i, o)
    ensures IntegrationRules(name, namespace).observed(i.status) == i.status.observedGeneration
  {
    hide Conveys;
    var rules := IntegrationRules(name, namespace);
    assert rules.claim(i, o) == (ClaimsReady(i) ==> Conveys(Slot(o, ConnectionKey(namespace, name)), i.spec));
  }

  lemma ClaimKept(name: string, namespace: string, i: Integration, spec: IntegrationSpec, before: Objects,
                  after: Objects)
    requires i.status.observedGeneration == i.generation ==> i.spec == spec
    requires var key := ConnectionKey(namespace, name);
             Slot(after, key) == Slot(before, key) || Conveys(Slot(after, key), spec)
    ensures var rules := IntegrationRules(name, namespace); rules.claim(i, before) ==> rules.claim(i, after)
    ensures IntegrationRules(name, namespace).observed(i.status) == i.status.observedGeneration
  {
    hide Conveys, Holds;
    var rules, key := IntegrationRules(name, namespace), ConnectionKey(namespace, name);
    assert rules.claim(i, before) == (ClaimsReady(i) ==> Conveys(Slot(before, key), i.spec));
    assert rules.claim(i, after) == (ClaimsReady(i) ==> Conveys(Slot(after, key), i.spec));
  }

  /** Connected means served: in every moment of every run a live Integration that reports Ready
      for its current generation has a connection Secret from which a workload recovers the
      endpoint and the type of its spec. */
  lemma ReadyMeansServed(name: string, namespace: string, history: History, i: nat)
    requires Faithful(IntegrationRules(name, namespace), history) && i < |history|
    requires !history[i].gone && !history[i].resource.deleting
    requires Holds(history[i].resource.status.conditions, "Ready", True)
    requires history[i].resource.status.observedGeneration == history[i].resource.generation
    ensures var o, spec := history[i].objects, history[i].resource.spec;
            var key := Key(Secret, namespace, name + "-connection");
            && key in o && o[key].body.DataBody?
            && "endpoint" in o[key].body.data && o[key].body.data["endpoint"] == spec.endpoint
            && "type" in o[key].body.data && Named(spec.kind, o[key].body.data["type"])
  {
    hide PhaseAgrees, Holds;
    assert Good(IntegrationRules(name, namespace), history[i]);
    assert IntegrationRules(name, namespace).claim(history[i].resource, history[i].objects);
    assert Conveys(Slot(history[i].objects, ConnectionKey(namespace, name)), history[i].resource.spec);
  }

  lemma LinkLasts(name: string, namespace: string, a: IntegrationStatus, b: IntegrationStatus, start: int, finish: int,
                  later: int)
    requires finish <= later
    requires IntegrationRules(name, namespace).link(a, b, start, finish)
    ensures IntegrationRules(name, namespace).link(a, b, start, later)
  {
  }

  // ---- What the passes report ----

  /** The course that a pass has taken: it had nothing to provision, it found the Integration
      suspended, no tenant, or no credentials at moment `at`, it broke off with an error, or it
      reached the probe, which is assumed to pass or answers with an error text or nothing. */
  datatype Course =
    | Idle
    | Suspension
    | NoTenant
    | NoCredentials(at: int)
    | Broken
    | Assumed
    | Probed(error: Option<string>)
  {
    predicate Fails() { Probed? && error.Some? }
    predicate Connects() { Assumed? || (Probed? && error.None?) }
  }

  /** A status write that the API server has committed. */
  datatype Write = Write(course: Course, policy: Option<RetryPolicy>, status: IntegrationStatus)

  /** The phase of a status follows from the course of the pass that wrote it. */
  predicate WriteFits(w: Write) {
    && PhaseAgrees(w.status)
    && match w.course
       case Idle => false
       case Suspension => w.status.phase == Disabled
       case NoTenant => w.status.phase == Pending
       case NoCredentials(_) => w.status.phase == Pending
       case Broken => w.status.phase.Failed?
       case Assumed => w.status.phase == Connected
       case Probed(error) =>
         if error.None? then w.status.phase == Connected
         else && w.status.lastError == error.value
              && if w.status.retries > MaxRetries(w.policy) then w.status.phase.Failed? else w.status.phase == Degraded
  }

  /** The delay that a pass requests along with a status. */
  function DelayOf(w: Write): int {
    match w.course
    case NoTenant => 15_000_000_000
    case NoCredentials(_) => 15_000_000_000
    case Assumed => 120_000_000_000
    case Probed(error) =>
      if error.None? || w.status.retries > MaxRetries(w.policy) then 120_000_000_000
      else ComputeBackoff(w.policy, w.status.retries)
    case _ => 0
  }

  /** One pass: what it saw, its course, the status write that was committed in it, if any, and
      what it returned. */
  datatype Report = Report(seen: Option<Integration>, course: Course, write: Option<Write>, err: bool,
                           requeueAfter: int)
  {
    /** A failed probe, or a connection, has been committed. */
    predicate Fails() { write.Some? && write.value.course.Fails() }
    predicate Connects() { write.Some? && write.value.course.Connects() }
  }

  /** The write is the pass's own, and the delay that the pass returned is the one that goes
      with it. Without error every pass over a live Integration with its finalizer has written. */
  predicate ReportFits(r: Report) {
    && (r.write.Some? ==> r.seen.Some? && WriteFits(r.write.value) && r.write.value.course == r.course
                          && r.write.value.policy == r.seen.value.spec.retryPolicy)
    && (r.course.Idle? <==> r.seen.None? || r.seen.value.deleting || !r.seen.value.held)
    && (!r.err ==> !r.course.Broken? && (r.write.None? <==> r.course.Idle?)
                   && r.requeueAfter == if r.write.Some? then DelayOf(r.write.value) else 0)
  }

  function NextRetries(course: Course, retries: nat): nat {
    if course.Fails() then retries + 1 else if course.Connects() then 0 else retries
  }

  function RetriesAfter(reports: seq<Report>): nat {
    if reports == [] then 0
    else
      var n := |reports| - 1;
      var before := RetriesAfter(reports[..n]);
      if reports[n].write.Some? then NextRetries(reports[n].write.value.course, before) else before
  }

  /** The persisted counter is always the number that the committed writes amount to, and each
      report fits. */
  predicate Recorded(reports: seq<Report>) {
    forall i | 0 <= i < |reports| ::
      && ReportFits(reports[i])
      && (reports[i].write.Some? ==> reports[i].write.value.status.retries == RetriesAfter(reports[..i + 1]))
  }

  function StatusAfter(reports: seq<Report>): IntegrationStatus {
    if reports == [] then EMPTY_STATUS
    else if reports[|reports| - 1].write.Some? then reports[|reports| - 1].write.value.status
    else StatusAfter(reports[..|reports| - 1])
  }

  lemma {:induction false} RetriesPersisted(reports: seq<Report>)
    requires Recorded(reports)
    ensures StatusAfter(reports).retries == RetriesAfter(reports)
  {
    hide ReportFits, NextRetries;
    if reports != [] {
      var n := |reports| - 1;
      assert reports[..n + 1] == reports;
      RecordedBefore(reports, n);
      RetriesPersisted(reports[..n]);
    }
  }

  lemma RecordedGrows(reports: seq<Report>, r: Report)
    requires Recorded(reports) && ReportFits(r)
    requires r.write.Some? ==>
               r.write.value.status.retries == NextRetries(r.write.value.course, StatusAfter(reports).retries)
    ensures Recorded(reports + [r])
    ensures StatusAfter(reports + [r]) == if r.write.Some? then r.write.value.status else StatusAfter(reports)
  {
    hide ReportFits, NextRetries;
    var longer := reports + [r];
    assert longer[..|longer| - 1] == reports;
    RetriesPersisted(reports);
    forall i | 0 <= i < |longer|
      ensures && ReportFits(longer[i])
              && (longer[i].write.Some? ==> longer[i].write.value.status.retries == RetriesAfter(longer[..i + 1]))
    {
      if i < |reports| {
        assert longer[..i + 1] == reports[..i + 1];
      } else {
        assert longer[..i + 1] == longer;
      }
    }
  }

  // ---- The retry budget over whole runs ----

  /** The failed probes that were committed from pass `from` on. */
  function FailuresSince(reports: seq<Report>, from: nat): set<nat> {
    set i: nat | from <= i < |reports| && reports[i].Fails()
  }

  /** No connection has been committed from pass `from` on, which is the first one or follows a
      committed connection. */
  predicate StreakFrom(reports: seq<Report>, from: nat) {
    && from <= |reports|
    && (from > 0 ==> reports[from - 1].Connects())
    && forall i | from <= i < |reports| :: !reports[i].Connects()
  }

  /** The persisted counter is the number of failed probes of the streak, across all suspended,
      blocked and failed passes in between. */
  lemma RetriesCountFailures(reports: seq<Report>, from: nat)
    requires Recorded(reports) && StreakFrom(reports, from)
    ensures StatusAfter(reports).retries == RetriesAfter(reports) == |FailuresSince(reports, from)|
  {
    hide StatusAfter, RetriesAfter, FailuresSince, Recorded, StreakFrom;
    RetriesPersisted(reports);
    FailuresAmountTo(reports, from);
  }

  lemma {:induction false} FailuresAmountTo(reports: seq<Report>, from: nat)
    requires StreakFrom(reports, from)
    ensures RetriesAfter(reports) == |FailuresSince(reports, from)|
  {
    hide FailuresSince;
    if from == |reports| {
      NoFailuresYet(reports, from);
    } else {
      FailuresAmountTo(reports[..|reports| - 1], from);
      OneMoreFailure(reports, from);
    }
  }

  /** Under a policy of N retries, five without one, the first N committed failures of a streak
      leave the Integration Degraded, and their passes return the backoff of their number; every
      later one leaves it Failed and its pass returns two minutes. The backoff is the initial delay
      under a fixed policy; otherwise it is doubled from each failure to the next, sixteen times at
      most, and capped. Five seconds and five minutes stand in for delays that are not given. */
  lemma RetryBudget(reports: seq<Report>, from: nat, i: nat)
    requires Recorded(reports) && i < |reports| && StreakFrom(reports[..i + 1], from) && reports[i].Fails()
    ensures var k, r, p := |FailuresSince(reports[..i + 1], from)|, reports[i], reports[i].write.value.policy;
            var budget := if p.Some? then p.value.maxRetries else 5;
            var initial := if p.Some? && p.value.initialDelay.Some? then p.value.initialDelay.value else 5_000_000_000;
            var max := if p.Some? && p.value.maxDelay.Some? then p.value.maxDelay.value else 300_000_000_000;
            && r.write.value.status.retries == k > 0
            && (k <= budget <==> r.write.value.status.phase == Degraded)
            && (k > budget <==> r.write.value.status.phase.Failed?)
            && (!r.err && k > budget ==> r.requeueAfter == 120_000_000_000)
            && (!r.err && k <= budget ==>
                  && r.requeueAfter == ComputeBackoff(p, k)
                  && if p.Some? && p.value.backoff == Fixed then r.requeueAfter == initial
                     else && (0 < initial <= TWO_48 && Int64(max) ==>
                                r.requeueAfter == Min(initial * Pow2(if k <= 17 then k - 1 else 16), max))
                          && (0 < max ==> 0 < r.requeueAfter <= max))
  {
    hide PhaseAgrees, ComputeBackoff, Pow2, Min;
    FailuresAmountTo(reports[..i + 1], from);
    assert ReportFits(reports[i]);
    BudgetedDelay(reports[i].write.value.policy, |FailuresSince(reports[..i + 1], from)|);
  }

  lemma BudgetedDelay(p: Option<RetryPolicy>, k: nat)
    ensures var initial := if p.Some? && p.value.initialDelay.Some? then p.value.initialDelay.value else 5_000_000_000;
            var max := if p.Some? && p.value.maxDelay.Some? then p.value.maxDelay.value else 300_000_000_000;
            if p.Some? && p.value.backoff == Fixed then ComputeBackoff(p, k) == initial
            else && (k > 0 && 0 < initial <= TWO_48 && Int64(max) ==>
                       ComputeBackoff(p, k) == Min(initial * Pow2(if k <= 17 then k - 1 else 16), max))
                 && (0 < max ==> 0 < ComputeBackoff(p, k) <= max)
  {
    hide ComputeBackoff, Pow2, Min;
    if p.Some? && p.value.backoff == Fixed {
      FixedBackoff(p, k);
    } else {
      if k > 0 && 0 < Initial(p) <= TWO_48 && Int64(Max(p)) { BackoffIsExact(p, k); }
      if 0 < Max(p) { BackoffInRange(p, k); }
    }
  }

  /** A success ends the streak: Connected, no retries, and no Degraded condition. */
  lemma SuccessResets(reports: seq<Report>, i: nat)
    requires Recorded(reports) && i < |reports| && reports[i].Connects()
    ensures var s := reports[i].write.value.status;
            s.phase == Connected && s.retries == 0 && s.lastError == "" && Find(s.conditions, DEGRADED).None?
    ensures StreakFrom(reports[..i + 1], i + 1)
  {
    hide Find;
    assert ReportFits(reports[i]);
  }

  /** The sum of the delays that the failing passes from pass `from` on have returned. */
  function RequestedSince(reports: seq<Report>, from: nat): int
    decreases |reports|
  {
    if from >= |reports| then 0
    else
      var r := reports[|reports| - 1];
      RequestedSince(reports[..|reports| - 1], from) + (if r.Fails() && !r.err then r.requeueAfter else 0)
  }

  /** The failed probes of the streak were made under one policy, and their passes returned
      without error. */
  predicate UnderPolicy(reports: seq<Report>, from: nat, policy: Option<RetryPolicy>) {
    forall i | from <= i < |reports| && reports[i].Fails() :: reports[i].write.value.policy == policy && !reports[i].err
  }

  /** Over the run of passes: while the budget lasts, the delays that the passes have returned
      sum to the backoffs of the attempts 1 to k. */
  lemma {:induction false} StreakDelay(reports: seq<Report>, from: nat, policy: Option<RetryPolicy>)
    requires Recorded(reports) && StreakFrom(reports, from) && UnderPolicy(reports, from, policy)
    requires |FailuresSince(reports, from)| <= MaxRetries(policy)
    ensures RequestedSince(reports, from) == TotalBackoff(policy, |FailuresSince(reports, from)|)
  {
    hide ComputeBackoff, FailuresSince, Recorded, RetriesAfter;
    if from < |reports| {
      var n := |reports| - 1;
      assert reports[..n + 1] == reports;
      RecordedBefore(reports, n);
      OneMoreFailure(reports, from);
      StreakDelay(reports[..n], from, policy);
      if reports[n].Fails() {
        RetryBudget(reports, from, n);
      }
    } else {
      NoFailuresYet(reports, from);
    }
  }

  /** Under a fixed policy k failures within the budget are answered with k times its delay. */
  lemma {:induction false} FixedStreakDelay(reports: seq<Report>, from: nat, policy: RetryPolicy)
    requires Recorded(reports) && StreakFrom(reports, from) && UnderPolicy(reports, from, Some(policy))
    requires |FailuresSince(reports, from)| <= policy.maxRetries && policy.backoff == Fixed
    ensures RequestedSince(reports, from) == |FailuresSince(reports, from)| *
              if policy.initialDelay.Some? then policy.initialDelay.value else 5_000_000_000
  {
    hide FailuresSince, Recorded, StreakFrom, UnderPolicy, RequestedSince;
    StreakDelay(reports, from, Some(policy));
    FixedTotal(policy, |FailuresSince(reports, from)|);
  }

  lemma {:induction false} FixedTotal(policy: RetryPolicy, n: nat)
    requires policy.backoff == Fixed
    ensures TotalBackoff(Some(policy), n) == n *
              if policy.initialDelay.Some? then policy.initialDelay.value else 5_000_000_000
  {
    hide ComputeBackoff;
    if n > 0 {
      FixedTotal(policy, n - 1);
      FixedBackoff(Some(policy), n);
      OneMore(n, if policy.initialDelay.Some? then policy.initialDelay.value else 5_000_000_000);
    }
  }

  lemma RecordedBefore(reports: seq<Report>, n: nat)
    requires Recorded(reports) && n <= |reports|
    ensures Recorded(reports[..n])
  {
    hide RetriesAfter, ReportFits;
    forall i | 0 <= i < n ensures reports[..n][i] == reports[i] && reports[..n][..i + 1] == reports[..i + 1] {
    }
  }

  lemma OneMoreFailure(reports: seq<Report>, from: nat)
    requires from < |reports|
    ensures var n := |reports| - 1;
            |FailuresSince(reports, from)| == |FailuresSince(reports[..n], from)| + if reports[n].Fails() then 1 else 0
  {
    var n := |reports| - 1;
    var before, after := FailuresSince(reports[..n], from), FailuresSince(reports, from);
    forall i: nat ensures i in after <==> i in before || (i == n && reports[n].Fails()) {
      assert i < n ==> reports[..n][i] == reports[i];
    }
    assert n !in before;
    assert after == if reports[n].Fails() then before + {n} else before;
  }

  lemma NoFailuresYet(reports: seq<Report>, from: nat)
    requires from == |reports|
    ensures FailuresSince(reports, from) == {}
  {
  }

  /** In closed form: a geometric prefix up to the last uncapped attempt m, then the bounding
      delay for each attempt left. */
  lemma StreakDelayInClosedForm(reports: seq<Report>, from: nat, policy: Option<RetryPolicy>, m: nat)
    requires Recorded(reports) && StreakFrom(reports, from) && UnderPolicy(reports, from, policy)
    requires |FailuresSince(reports, from)| <= MaxRetries(policy)
    requires !Constant(policy) && 0 < Initial(policy) <= TWO_48 && Int64(Max(policy))
    requires Uncapped(policy, m)
    ensures var k := |FailuresSince(reports, from)|;
            && (k == m ==> RequestedSince(reports, from) == Initial(policy) * (Pow2(k) - 1))
            && (k >= m && !Uncapped(policy, m + 1) ==>
                  RequestedSince(reports, from) ==
                  Initial(policy) * (Pow2(m) - 1) + (k - m) * Min(Initial(policy) * Pow2(16), Max(policy)))
  {
    hide Recorded, FailuresSince, RequestedSince, StreakFrom, TotalBackoff, Pow2, Uncapped, Min, UnderPolicy;
    var k := |FailuresSince(reports, from)|;
    StreakDelay(reports, from, policy);
    if k == m {
      GeometricPrefix(policy, m);
    }
    if k >= m && !Uncapped(policy, m + 1) {
      TotalDelay(policy, m, k);
    }
  }

  // ---- One pass ----

  /** What a pass may persist: Ready was written once, at a time of the pass. */
  lemma DraftFits(name: string, namespace: string, base: seq<Condition>, before: seq<Condition>,
                  status: IntegrationStatus, ready: Condition, at: int, start: int, finish: int)
    requires start <= at <= finish && ready.kind == READY
    requires Find(before, READY) == Find(base, READY)
    requires Find(status.conditions, READY) == Some(Merged(Find(before, READY), ready, at))
    requires Unique(status.conditions)
    requires status.connectionSecretName in {"", ConnectionSecretName(name)}
    requires ready.status == True <==> status.phase == Connected
    requires status.phase == Connected ==> PhaseAgrees(status)
    requires status.phase.Failed? ==> Holds(status.conditions, DEGRADED, True)
    ensures PhaseAgrees(status)
    ensures forall i: Integration | i.status == status && status.observedGeneration <= i.generation ::
              IntegrationRules(name, namespace).fits(i)
    ensures forall s: IntegrationStatus | s.conditions == base ::
              IntegrationRules(name, namespace).link(s, status, start, finish)
  {
  }

  /** The conditions of a connected Integration, as a pass sets them one after the other. */
  lemma ConnectedFits(name: string, namespace: string, base: seq<Condition>, start: seq<Condition>,
                      status: IntegrationStatus,
                      connected: Condition, t1: int, ready: Condition, t2: int, progressing: Condition, t3: int,
                      started: int, finish: int)
    requires Unique(start) && Find(start, READY) == Find(base, READY)
    requires connected.kind == CONNECTED && connected.status == True
    requires ready.kind == READY && ready.status == True && started <= t2 <= finish
    requires progressing.kind == PROGRESSING && progressing.status == False
    requires status.conditions ==
             SetIn(SetIn(SetIn(RemoveIn(start, DEGRADED), connected, t1), ready, t2), progressing, t3)
    requires status.phase == Connected && status.retries == 0 && status.lastError == ""
    requires status.connectionSecretName in {"", ConnectionSecretName(name)}
    ensures PhaseAgrees(status)
    ensures forall i: Integration | i.status == status && status.observedGeneration <= i.generation ::
              IntegrationRules(name, namespace).fits(i)
    ensures forall s: IntegrationStatus | s.conditions == base ::
              IntegrationRules(name, namespace).link(s, status, started, finish)
  {
    hide Find, SetIn, RemoveIn, IndexOf, IntegrationRules;
    RemoveKeeps(start, DEGRADED);
    DraftFits(name, namespace, base, base, status, ready, t2, started, finish);
  }

  /** Readiness is dated honestly: over any stretch of a run in which it does not change, lost
      writes included, its transition time stays the same. */
  lemma ReadySince(name: string, namespace: string, history: History, i: nat, j: nat, s: ConditionStatus)
    requires Faithful(IntegrationRules(name, namespace), history) && i <= j < |history|
    requires forall k | i <= k <= j :: Conditions.Holds(history[k].resource.status.conditions, READY, s)
    ensures var first := Find(history[i].resource.status.conditions, READY);
            var last := Find(history[j].resource.status.conditions, READY);
            first.Some? && last.Some? && first.value.lastTransition == last.value.lastTransition
  {
    hide ReadyHonest, Find, Conditions.Holds, PhaseAgrees;
    ReadyTimeStays(IntegrationRules(name, namespace), (s: IntegrationStatus) => s.conditions, history, i, j, s);
  }

  /** A new transition time comes with a flip, and is a time of the pass that wrote it. */
  lemma ReadyFlipsInPass(name: string, namespace: string, history: History, i: nat)
    requires Faithful(IntegrationRules(name, namespace), history) && 0 < i < |history|
    ensures var before := Find(history[i - 1].resource.status.conditions, READY);
            var after := Find(history[i].resource.status.conditions, READY);
            after.Some? ==>
              if before.Some? && before.value.status == after.value.status
              then after.value.lastTransition == before.value.lastTransition
              else history[i].started <= after.value.lastTransition <= history[i].time
  {
    hide ReadyHonest, Find, PhaseAgrees;
    ReadyFlips(IntegrationRules(name, namespace), (s: IntegrationStatus) => s.conditions, history, i);
  }

  /** Phase and conditions agree in every persisted status of a run: Ready=True iff Connected,
      and then no retries and no Degraded; one entry per condition type. */
  lemma PhasesAgree(name: string, namespace: string, history: History, i: nat)
    requires Faithful(IntegrationRules(name, namespace), history) && i < |history|
    ensures var s := history[i].resource.status;
            && (Holds(s.conditions, "Ready", True) <==> s.phase == Connected)
            && (s.phase == Connected ==> s.retries == 0 && Find(s.conditions, "Degraded").None?)
            && (s.phase.Failed? ==> Holds(s.conditions, "Degraded", True))
            && forall j, k | 0 <= j < k < |s.conditions| :: s.conditions[j].kind != s.conditions[k].kind
  {
    hide Find;
    assert Good(IntegrationRules(name, namespace), history[i]);
  }

  /** The Integration controller never requests the deletion of an Integration. */
  lemma NeverDeletes(name: string, namespace: string, history: History, i: nat)
    requires Faithful(IntegrationRules(name, namespace), history) && 0 < i < |history| && !history[i].outside
    ensures history[i].resource.deleting ==> history[i - 1].resource.deleting
  {
    if history[i].resource.deleting && !history[i - 1].resource.deleting {
      DeletionWasDue(IntegrationRules(name, namespace), history, i);
    }
  }
}
