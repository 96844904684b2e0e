/** What one pass provisions for an Environment, as a plan over the cluster. */
module EnvironmentResources {
  import opened Base
  import opened Labels
  import opened Clusters
  import opened Namespaces
  import opened Quotas
  import opened Configs
  import opened Convergence
  import opened GitOps

  datatype EnvironmentType = Development | Staging | Production | Preview | Ephemeral

  datatype EnvironmentSpec = EnvironmentSpec(
    tenantRef: string, kind: EnvironmentType, profile: string, delivery: Delivery, ttl: Option<int>,
    domain: string, variables: map<string, string>, secretRefs: seq<Selector>, suspend: bool)

  function TargetNamespace(tenantNamespace: string, name: string): string { tenantNamespace + "-" + name }

  /** What a pass works from: where to, the quota of the profile, the configuration, what the
      selectors were resolved to, and the delivery. */
  datatype Blueprint = Blueprint(site: Site, hard: ResourceList, variables: map<string, string>,
                                 selectors: seq<Selector>, collected: Result<map<string, string>>,
                                 delivery: Delivery)
  {
    function Labels(): Labels {
      TenantLabels(site.tenant, "environment", map[]) + map[ENVIRONMENT_LABEL := site.environment]
    }

    function Keys(): seq<Key> {
      [NamespaceKey(site.target), QuotaKey(site.target), ConfigKey(site.target), SecretKey(site.target, SECRET_NAME)]
      + DeliveryKeys(delivery, site)
    }

    function Desired(k: nat, slot: Option<Child>): Result<Option<Child>> {
      match k
      case 0 => DesiredNamespace(slot, Labels(), None)
      case 1 => DesiredQuota(slot, hard, false, Labels(), None)
      case 2 => DesiredConfig(slot, variables, Labels())
      case 3 => DesiredSecret(slot, selectors, collected, Labels())
      case _ => DesiredDelivery(delivery, site, k - 4, slot)
    }

    // ---- What is asked for, told without reference to how it is reached ----

    /** The object in slot k is what the spec asks for. */
    predicate Serves(k: nat, slot: Option<Child>) {
      match k
      case 0 => Marked(slot, site)
      case 1 => if hard == map[] then slot.None? else Holds(slot, QuotaBody(hard))
      case 2 => if variables == map[] then slot.None? else Holds(slot, DataBody(variables))
      case 3 => if selectors == [] then slot.None? else collected.Ok? && Holds(slot, DataBody(collected.value))
      case _ =>
        k - 4 < |DeliveryKinds(delivery.provider)| &&
        Conducts(slot, DeliveryKinds(delivery.provider)[k - 4], delivery, site)
    }

    predicate Holds(slot: Option<Child>, body: Body) {
      Marked(slot, site) && slot.value.body == body
    }
  }

  /** An object in the workload namespace, or that namespace, says whose it is. */
  predicate Marked(slot: Option<Child>, site: Site) {
    slot.Some? &&
    Branded(slot.value.labels, site.tenant, "environment", "platform.upo.io/environment", site.environment)
  }

  lemma MarkedMeans(b: Blueprint, child: Child)
    ensures Carries(child.labels, b.Labels()) <==> Marked(Some(child), b.site)
  {
    hide Carries, Branded;
    CarriesBrand(child.labels, b.site.tenant, "environment", ENVIRONMENT_LABEL, b.site.environment);
    assert b.Labels() == TenantLabels(b.site.tenant, "environment", map[])[ENVIRONMENT_LABEL := b.site.environment];
  }

  /** The objects of an environment, by kind, namespace and name. */
  function ObjectKeys(site: Site, provider: Provider): seq<Key> {
    [Key(Namespace, "", site.target), Key(ResourceQuota, site.target, "upo-tenant-quota"),
     Key(ConfigMap, site.target, "upo-env-config"), Key(Secret, site.target, "upo-env-secrets")]
    + seq(|DeliveryKinds(provider)|, i requires 0 <= i < |DeliveryKinds(provider)| =>
        Key(DeliveryKinds(provider)[i], site.namespace, "upo-" + site.environment))
  }

  /** The steps work on the objects that are meant. */
  lemma StepsReachObjects(b: Blueprint)
    ensures b.Keys() == ObjectKeys(b.site, b.delivery.provider)
  {
    KeysAreMeant(b.delivery, b.site);
  }

  /** An object is there to be updated, or a live namespace to create it in. */
  predicate TakesWrite(objects: Objects, key: Key) {
    key in objects || Live(objects, Key(Namespace, "", key.namespace))
  }

  /** Nothing but an API fault keeps step k from going through. */
  predicate Clear(b: Blueprint, objects: Objects, k: nat)
    requires k < |b.Keys()|
  {
    var key := b.Keys()[k];
    match k
    case 0 => true
    case 1 => b.hard != map[] ==> TakesWrite(objects, key)
    case 2 => b.variables != map[] ==> TakesWrite(objects, key)
    case 3 => b.selectors != [] ==> Satisfied(objects, b.site.namespace, b.selectors) && TakesWrite(objects, key)
    case _ => b.delivery.source.Some? && key.kind in b.site.engines && TakesWrite(objects, key)
              && (key in objects && objects[key].controller.Some? ==>
                   objects[key].controller.value == b.site.environment)
  }

  lemma ClearMeans(b: Blueprint, objects: Objects, k: nat)
    requires k < |b.Keys()| && (k == 3 ==> b.collected == Collect(objects, b.site.namespace, b.selectors))
    ensures Possible(objects, b.Keys()[k], b.Desired(k, Slot(objects, b.Keys()[k]))) <==> Clear(b, objects, k)
  {
    hide Collect, b.Labels, Satisfied, DesiredDelivery, DeliveryKeys;
    if k < 4 {
      CollectSucceeds(objects, b.site.namespace, b.selectors);
      assert |b.hard| == 0 <==> b.hard == map[];
      assert |b.variables| == 0 <==> b.variables == map[];
    } else {
      ClearDelivery(b, objects, k);
    }
  }

  lemma ClearDelivery(b: Blueprint, objects: Objects, k: nat)
    requires 4 <= k < |b.Keys()|
    ensures Possible(objects, b.Keys()[k], b.Desired(k, Slot(objects, b.Keys()[k]))) <==> Clear(b, objects, k)
  {
    hide GitOpsLabels, Satisfied;
  }

  /** Something other than a failing call stops the pass at its next step, be it one of the
      first four or the delivery: a draining namespace lacks an object, a required selector does
      not resolve, there is no source or no engine to deliver with, or a delivery object belongs
      to another controller or has no live namespace to be created in. */
  predicate Obstructed(b: Blueprint, objects: Objects) {
    exists k: nat | k < |b.Keys()| :: DoneIn(objects, b, if k < 4 then k else 4) && !Clear(b, objects, k)
  }

  /** Delivery is feasible as a whole if each step of it is clear at the start. */
  lemma DeliveryIsClear(b: Blueprint, objects: Objects)
    ensures var plan := DeliveryPlan(b.delivery, b.site);
            Feasible(objects, plan, |plan.keys|) <==> forall k: nat | 4 <= k < |b.Keys()| :: Clear(b, objects, k)
  {
    hide Clear, b.Desired, DesiredDelivery, Run;
    var plan := DeliveryPlan(b.delivery, b.site);
    DeliverySeparate(b.delivery, b.site);
    forall k: nat | k < |plan.keys| ensures StepPossible(objects, plan, k) <==> Clear(b, objects, k + 4) {
      var before := Run(objects, plan, k);
      assert plan.keys[k] == b.Keys()[k + 4];
      TurnOfStep(objects, plan, k);
      RunElsewhere(objects, plan, k, NamespaceKey(b.site.namespace));
      assert Slot(before, plan.keys[k]) == Slot(objects, plan.keys[k]);
      SameClear(b, before, objects, k + 4);
      ClearMeans(b, before, k + 4);
      assert b.Desired(k + 4, Slot(before, plan.keys[k])) == plan.want(k, Slot(before, plan.keys[k])) by {
        DeliveryIsDesired(b, k, Slot(before, plan.keys[k]));
      }
    }
    forall k: nat | 4 <= k < |b.Keys()| ensures Clear(b, objects, k) <==> StepPossible(objects, plan, k - 4) {
    }
  }

  lemma DeliveryObstructs(b: Blueprint, objects: Objects)
    requires DoneIn(objects, b, 4)
    requires !Feasible(objects, DeliveryPlan(b.delivery, b.site), |DeliveryKeys(b.delivery, b.site)|)
    ensures Obstructed(b, objects)
  {
    hide DoneIn, Clear, Feasible;
    DeliveryIsClear(b, objects);
    var k: nat :| 4 <= k < |b.Keys()| && !Clear(b, objects, k);
  }

  lemma DeliveryIsDesired(b: Blueprint, k: nat, slot: Option<Child>)
    ensures b.Desired(k + 4, slot) == DeliveryPlan(b.delivery, b.site).want(k, slot)
  {
  }

  lemma SameClear(b: Blueprint, o: Objects, p: Objects, k: nat)
    requires 4 <= k < |b.Keys()| && Slot(o, b.Keys()[k]) == Slot(p, b.Keys()[k])
    requires Slot(o, NamespaceKey(b.site.namespace)) == Slot(p, NamespaceKey(b.site.namespace))
    ensures Clear(b, o, k) == Clear(b, p, k)
  {
  }

  function ConfigKey(namespace: string): Key { Key(ConfigMap, namespace, CONFIG_NAME) }

  function EnvironmentPlan(b: Blueprint): Plan {
    Plan(b.Keys(), (k: nat, slot) => b.Desired(k, slot))
  }

  /** Every object of the environment, whatever provider it delivers through. */
  predicate Owns(site: Site, key: Key) {
    match key.kind
    case Namespace => key == Key(Namespace, "", site.target)
    case ResourceQuota => key == Key(ResourceQuota, site.target, "upo-tenant-quota")
    case ConfigMap => key == Key(ConfigMap, site.target, "upo-env-config")
    case Secret => key == Key(Secret, site.target, "upo-env-secrets")
    case Application => key == Key(Application, site.namespace, "upo-" + site.environment)
    case Kustomization => key == Key(Kustomization, site.namespace, "upo-" + site.environment)
    case GitRepository => key == Key(GitRepository, site.namespace, "upo-" + site.environment)
    case _ => false
  }

  /** The environment's objects are the same, whatever has become of all others. */
  ghost predicate SameOwned(site: Site, a: Objects, b: Objects) {
    forall key | Owns(site, key) :: Slot(a, key) == Slot(b, key)
  }

  lemma PlanOwns(b: Blueprint, k: nat)
    requires k < |b.Keys()|
    ensures Owns(b.site, b.Keys()[k])
  {
  }

  /** Whatever was in the slot, a step that goes through leaves what the spec asks for, and
      run again on that changes nothing. */
  lemma DesiredServes(b: Blueprint, k: nat, slot: Option<Child>)
    requires k < |b.Keys()| && b.Desired(k, slot).Ok?
    ensures b.Serves(k, b.Desired(k, slot).value)
    ensures b.Desired(k, b.Desired(k, slot).value) == b.Desired(k, slot)
  {
    hide GitOpsLabels, TenantLabels, DeliveryBody, Installed, Overwrite, Carries, Branded, Marked, b.Labels, Conducts;
    var made := b.Desired(k, slot).value;
    if made.Some? { MarkedMeans(b, made.value); }
    match k
    case 0 => NamespaceServed(b, slot);
    case 1 =>
      assert |b.hard| == 0 <==> b.hard == map[];
      if b.hard != map[] { OverwriteFacts(slot, b.Labels(), QuotaBody(b.hard), QuotaBody(b.hard), None); }
    case 2 =>
      assert |b.variables| == 0 <==> b.variables == map[];
      if b.variables != map[] {
        OverwriteFacts(slot, b.Labels(), DataBody(b.variables), DataBody(b.variables), None);
      }
    case 3 =>
      if b.selectors != [] {
        var body := DataBody(b.collected.value);
        OverwriteFacts(slot, b.Labels(), body, body, None);
      }
    case _ =>
      var body := DeliveryBody(b.delivery.source.value, b.delivery, b.site, k - 4);
      OverwriteFacts(slot, GitOpsLabels(b.site), body, body, Some(b.site.environment));
      DesiredConducts(b.delivery, b.site, k - 4, slot);
  }

  lemma NamespaceServed(b: Blueprint, slot: Option<Child>)
    ensures b.Desired(0, slot).Ok? && b.Serves(0, b.Desired(0, slot).value)
    ensures b.Desired(0, b.Desired(0, slot).value) == b.Desired(0, slot)
  {
    hide b.Labels, Branded;
    var have := if slot.Some? then slot.value.labels else map[];
    MarkedMeans(b, b.Desired(0, slot).value.value);
    assert (have + b.Labels()) + b.Labels() == have + b.Labels();
  }

  lemma KeysDiffer(b: Blueprint)
    ensures forall i, j | 0 <= i < j < |b.Keys()| :: b.Keys()[i] != b.Keys()[j]
    ensures forall k: nat | k < |b.Keys()| && b.Keys()[k] == NamespaceKey(b.site.target) :: k == 0
  {
  }

  /** The namespace step keeps a live namespace live. */
  lemma NamespaceStays(b: Blueprint, k: nat, slot: Option<Child>)
    requires k == 0 && b.Desired(k, slot).Ok? && slot.Some? && !slot.value.terminating
    ensures b.Desired(k, slot).value.Some? && !b.Desired(k, slot).value.value.terminating
  {
  }

  /** The first k objects are what the spec asks for. */
  predicate DoneIn(objects: Objects, b: Blueprint, k: nat) {
    k <= |b.Keys()| && forall j: nat | j < k :: b.Serves(j, Slot(objects, b.Keys()[j]))
  }

  // ---- A pass, as far as it has got ----

  /** The first k steps of a pass that found `start` have been taken, and nothing else has been
      done to the environment's objects. */
  ghost predicate Reached(objects: Objects, start: Objects, b: Blueprint, k: nat) {
    DoneIn(objects, b, k) && SameOwned(b.site, objects, Run(start, EnvironmentPlan(b), k))
  }

  /** Some first steps of a pass that found `start` have been taken, and nothing else. */
  ghost predicate Partial(objects: Objects, start: Objects, b: Blueprint) {
    exists n: nat | n <= |b.Keys()| :: SameOwned(b.site, objects, Run(start, EnvironmentPlan(b), n))
  }

  /** What a pass has reached it keeps while others are at work. */
  lemma ReachedKept(before: Objects, after: Objects, start: Objects, b: Blueprint, k: nat)
    requires SameOwned(b.site, before, after)
    ensures Reached(before, start, b, k) ==> Reached(after, start, b, k) && Partial(after, start, b)
    ensures Partial(before, start, b) ==> Partial(after, start, b)
  {
    hide DoneIn, Run, Owns, b.Keys;
    if DoneIn(before, b, k) {
      DoneKept(before, after, b, k);
    }
    if Partial(before, start, b) {
      var n: nat :| n <= |b.Keys()| && SameOwned(b.site, before, Run(start, EnvironmentPlan(b), n));
      assert SameOwned(b.site, after, Run(start, EnvironmentPlan(b), n));
    }
    assert DoneIn(after, b, k) ==> k <= |b.Keys()| by {
      DoneFits(after, b, k);
    }
  }

  lemma DoneFits(objects: Objects, b: Blueprint, k: nat)
    ensures DoneIn(objects, b, k) ==> k <= |b.Keys()|
  {
  }

  /** A pass starts with nothing done. */
  lemma ReachedAtFirst(objects: Objects, start: Objects, b: Blueprint)
    requires SameOwned(b.site, objects, start)
    ensures Reached(objects, start, b, 0) && Partial(objects, start, b)
  {
    hide Owns;
    assert Run(start, EnvironmentPlan(b), 0) == start;
  }

  /** One step of a pass, on a cluster that the pass has brought k steps ahead. */
  lemma StepReaches(start: Objects, before: Objects, after: Objects, b: Blueprint, k: nat, ok: bool, failed: bool)
    requires k < |b.Keys()| && Reached(before, start, b, k)
    requires k == 3 ==> b.collected == Collect(before, b.site.namespace, b.selectors)
    requires Stepped(before, after, b.Keys()[k], b.Desired(k, Slot(before, b.Keys()[k])), ok, failed)
    ensures ok ==> Reached(after, start, b, k + 1)
    ensures Partial(after, start, b)
  {
    hide b.Desired, b.Keys, Writable, DoneIn, Owns;
    StepServes(before, after, b, k, ok, failed);
    PlanOwns(b, k);
    var plan, key := EnvironmentPlan(b), b.Keys()[k];
    assert Slot(before, key) == Slot(Run(start, plan, k), key);
    assert SameOwned(b.site, after, Run(start, plan, k)) || SameOwned(b.site, after, Run(start, plan, k + 1));
  }

  /** On clusters that are alike in the environment's objects a pass does the same. */
  lemma {:induction false} RunsAlike(start: Objects, other: Objects, b: Blueprint, n: nat)
    requires n <= |b.Keys()| && SameOwned(b.site, start, other)
    ensures SameOwned(b.site, Run(start, EnvironmentPlan(b), n), Run(other, EnvironmentPlan(b), n))
  {
    hide b.Desired, b.Keys, Owns;
    if n > 0 {
      RunsAlike(start, other, b, n - 1);
      PlanOwns(b, n - 1);
    }
  }

  lemma PassesAlike(objects: Objects, start: Objects, other: Objects, b: Blueprint, k: nat)
    requires SameOwned(b.site, start, other)
    ensures Reached(objects, start, b, k) ==> Reached(objects, other, b, k)
    ensures Partial(objects, start, b) ==> Partial(objects, other, b)
  {
    hide DoneIn, Run, Owns, b.Keys;
    if Reached(objects, start, b, k) {
      DoneFits(objects, b, k);
      RunsAlike(start, other, b, k);
    }
    if Partial(objects, start, b) {
      var n: nat :| n <= |b.Keys()| && SameOwned(b.site, objects, Run(start, EnvironmentPlan(b), n));
      RunsAlike(start, other, b, n);
      assert SameOwned(b.site, objects, Run(other, EnvironmentPlan(b), n));
    }
  }

  /** Delivery takes the steps from the fifth on. */
  lemma {:induction false} DeliveryContinues(start: Objects, before: Objects, b: Blueprint, n: nat)
    requires n <= |DeliveryKeys(b.delivery, b.site)| && SameOwned(b.site, before, Run(start, EnvironmentPlan(b), 4))
    ensures SameOwned(b.site, Run(before, DeliveryPlan(b.delivery, b.site), n), Run(start, EnvironmentPlan(b), 4 + n))
  {
    hide b.Desired, DesiredDelivery, Owns, b.Keys, DeliveryKeys;
    if n > 0 {
      DeliveryKeyAt(b, n - 1);
      DeliveryContinues(start, before, b, n - 1);
      PlanOwns(b, 3 + n);
      var plan, key := DeliveryPlan(b.delivery, b.site), b.Keys()[3 + n];
      var left, right := Run(before, plan, n - 1), Run(start, EnvironmentPlan(b), 3 + n);
      assert Slot(left, key) == Slot(right, key);
      DeliveryIsDesired(b, n - 1, Slot(left, key));
    }
  }

  lemma DeliveryKeyAt(b: Blueprint, n: nat)
    requires n < |DeliveryKeys(b.delivery, b.site)|
    ensures 4 + n < |b.Keys()| && DeliveryKeys(b.delivery, b.site)[n] == b.Keys()[4 + n]
  {
  }

  // ---- What a provisioned Environment has ----

  /** What a spec asks for, before its selectors are resolved. */
  function BlueprintOf(site: Site, quotas: string -> ResourceList, spec: EnvironmentSpec): Blueprint {
    Blueprint(site, quotas(spec.profile), spec.variables, spec.secretRefs, Err(""), spec.delivery)
  }

  /** Namespace, quota, configuration and delivery are what the spec asks for. The Secret is not
      among them: it follows its sources, whatever the spec. */
  predicate Settled(objects: Objects, b: Blueprint) {
    forall k: nat | k < |b.Keys()| && k != 3 :: b.Serves(k, Slot(objects, b.Keys()[k]))
  }

  /** The same, told of the spec and the objects alone: a labelled workload namespace; the quota of
      the profile and the variables, or none where there are none; and all delivery objects of the
      provider, from the source of the spec. */
  predicate Provided(objects: Objects, site: Site, quotas: string -> ResourceList, spec: EnvironmentSpec) {
    var hard := quotas(spec.profile);
    var quota := Slot(objects, Key(ResourceQuota, site.target, "upo-tenant-quota"));
    var config := Slot(objects, Key(ConfigMap, site.target, "upo-env-config"));
    && Marked(Slot(objects, Key(Namespace, "", site.target)), site)
    && (if hard == map[] then quota.None? else Marked(quota, site) && quota.value.body == QuotaBody(hard))
    && (if spec.variables == map[] then config.None?
        else Marked(config, site) && config.value.body == DataBody(spec.variables))
    && Delivers(objects, spec.delivery, site)
  }

  /** The projected Secret has what the selectors of the spec find in `sources`; without selectors
      there is none. */
  ghost predicate Projected(objects: Objects, site: Site, spec: EnvironmentSpec, sources: Objects) {
    var slot := Slot(objects, Key(Secret, site.target, "upo-env-secrets"));
    if spec.secretRefs == [] then slot.None?
    else Marked(slot, site) && slot.value.body.DataBody?
         && Projects(sources, site.namespace, spec.secretRefs, slot.value.body.data)
  }

  lemma SettledMeans(objects: Objects, site: Site, quotas: string -> ResourceList, spec: EnvironmentSpec)
    ensures Settled(objects, BlueprintOf(site, quotas, spec)) <==> Provided(objects, site, quotas, spec)
  {
    var b, kinds := BlueprintOf(site, quotas, spec), DeliveryKinds(spec.delivery.provider);
    hide Conducts, Marked, b.Keys, DeliveryKinds;
    StepsReachObjects(b);
    if Provided(objects, site, quotas, spec) {
      forall k: nat | k < |b.Keys()| && k != 3 ensures b.Serves(k, Slot(objects, b.Keys()[k])) {
        assert k >= 4 ==> kinds[k - 4] in kinds;
      }
    }
    if Settled(objects, b) {
      assert forall k: nat | k < |b.Keys()| && k != 3 :: b.Serves(k, Slot(objects, b.Keys()[k]));
      assert b.Keys()[0] == Key(Namespace, "", site.target);
      assert b.Keys()[1] == Key(ResourceQuota, site.target, "upo-tenant-quota");
      assert b.Keys()[2] == Key(ConfigMap, site.target, "upo-env-config");
      forall kind | kind in kinds
        ensures Conducts(Slot(objects, Key(kind, site.namespace, "upo-" + site.environment)), kind, spec.delivery, site)
      {
        var i :| 0 <= i < |kinds| && kinds[i] == kind;
        assert b.Keys()[i + 4] == Key(kind, site.namespace, "upo-" + site.environment);
        assert b.Serves(i + 4, Slot(objects, b.Keys()[i + 4]));
      }
    }
  }

  /** A completed pass has provided everything, and projected what its sources held. */
  lemma DoneMeans(objects: Objects, site: Site, quotas: string -> ResourceList, spec: EnvironmentSpec, b: Blueprint,
                  sources: Objects)
    requires b == BlueprintOf(site, quotas, spec).(collected := b.collected) && DoneIn(objects, b, |b.Keys()|)
    requires b.collected == Collect(sources, site.namespace, spec.secretRefs)
    ensures Provided(objects, site, quotas, spec) && Projected(objects, site, spec, sources)
  {
    hide Conducts, Marked, b.Keys, DeliveryKinds, Settled, Provided, Collect, Projected;
    StepsReachObjects(b);
    SettledAnyhow(objects, b, Err(""));
    SettledMeans(objects, site, quotas, spec);
    SecretMeans(objects, site, spec, b, |b.Keys()|, sources);
  }

  lemma SecretMeans(objects: Objects, site: Site, spec: EnvironmentSpec, b: Blueprint, k: nat, sources: Objects)
    requires b.site == site && b.selectors == spec.secretRefs && k > 3 && DoneIn(objects, b, k)
    requires b.collected == Collect(sources, site.namespace, spec.secretRefs)
    ensures Projected(objects, site, spec, sources)
  {
    hide Conducts, Marked, b.Keys, Collect, Projects;
    StepsReachObjects(b);
    CollectMeans(sources, site.namespace, spec.secretRefs);
    assert b.Serves(3, Slot(objects, b.Keys()[3]));
  }

  lemma SettledAnyhow(objects: Objects, b: Blueprint, collected: Result<map<string, string>>)
    ensures Settled(objects, b) <==> Settled(objects, b.(collected := collected))
    ensures DoneIn(objects, b, |b.Keys()|) ==> Settled(objects, b)
  {
    var c := b.(collected := collected);
    assert forall k: nat | k < |b.Keys()| && k != 3 ::
      b.Keys()[k] == c.Keys()[k] && b.Serves(k, Slot(objects, b.Keys()[k])) == c.Serves(k, Slot(objects, c.Keys()[k]));
  }

  lemma SettledKept(before: Objects, after: Objects, b: Blueprint)
    requires SameOwned(b.site, before, after) && Settled(before, b)
    ensures Settled(after, b)
  {
    hide b.Serves, Owns, b.Keys;
    forall k: nat | k < |b.Keys()| && k != 3 ensures b.Serves(k, Slot(after, b.Keys()[k])) {
      PlanOwns(b, k);
    }
  }

  /** A step of a pass for the same spec, whatever becomes of it, unsettles nothing. */
  lemma StepSettles(before: Objects, after: Objects, b: Blueprint, k: nat, ok: bool, failed: bool)
    requires k < |b.Keys()| && Settled(before, b)
    requires Stepped(before, after, b.Keys()[k], b.Desired(k, Slot(before, b.Keys()[k])), ok, failed)
    ensures Settled(after, b)
  {
    hide b.Serves, b.Desired, b.Keys, Writable;
    KeysDiffer(b);
    var slot := Slot(before, b.Keys()[k]);
    if b.Desired(k, slot).Ok? {
      DesiredServes(b, k, slot);
    }
  }

  /** A step goes through exactly if it is clear and no call of it fails, and then completes one
      more object; no step ends the workload namespace. */
  lemma StepServes(before: Objects, after: Objects, b: Blueprint, k: nat, ok: bool, failed: bool)
    requires k < |b.Keys()| && DoneIn(before, b, k)
    requires k == 3 ==> b.collected == Collect(before, b.site.namespace, b.selectors)
    requires Stepped(before, after, b.Keys()[k], b.Desired(k, Slot(before, b.Keys()[k])), ok, failed)
    ensures ok <==> !failed && Clear(b, before, k)
    ensures ok ==> DoneIn(after, b, k + 1)
    ensures forall key | key != b.Keys()[k] :: Slot(after, key) == Slot(before, key)
    ensures Live(before, NamespaceKey(b.site.target)) ==> Live(after, NamespaceKey(b.site.target))
  {
    hide b.Serves, b.Desired, b.Keys, Writable, Clear;
    KeysDiffer(b);
    ClearMeans(b, before, k);
    var slot := Slot(before, b.Keys()[k]);
    if b.Desired(k, slot).Ok? {
      DesiredServes(b, k, slot);
      if k == 0 && slot.Some? && !slot.value.terminating {
        NamespaceStays(b, k, slot);
      }
    }
  }

  lemma PlanIsSound(b: Blueprint)
    ensures EnvironmentPlan(b).Separate() && EnvironmentPlan(b).Absorbing()
  {
    var plan := EnvironmentPlan(b);
    forall k: nat, slot | k < |plan.keys| && plan.want(k, slot).Ok?
      ensures plan.want(k, plan.want(k, slot).value) == plan.want(k, slot)
    {
      DesiredServes(b, k, slot);
    }
  }

  /** Where there was no namespace and no call failed, there is a live one. */
  lemma NamespaceComesUp(before: Objects, after: Objects, b: Blueprint, ok: bool)
    requires NamespaceKey(b.site.target) !in before
    requires Stepped(before, after, b.Keys()[0], b.Desired(0, Slot(before, b.Keys()[0])), ok, false)
    ensures ok && Live(after, NamespaceKey(b.site.target))
  {
    assert b.Keys()[0] == NamespaceKey(b.site.target);
  }

  /** What is done stays done while others are at work. */
  lemma DoneKept(before: Objects, after: Objects, b: Blueprint, k: nat)
    requires DoneIn(before, b, k)
    requires forall key | Owns(b.site, key) :: Slot(after, key) == Slot(before, key)
    ensures DoneIn(after, b, k)
  {
    hide b.Serves, Owns, b.Keys;
    forall j: nat | j < k ensures b.Serves(j, Slot(after, b.Keys()[j])) {
      PlanOwns(b, j);
    }
  }

  /** The first three steps do not depend on what the selectors resolve to. */
  lemma CollectedLater(objects: Objects, start: Objects, b: Blueprint, collected: Result<map<string, string>>)
    requires Reached(objects, start, b, 3)
    ensures Reached(objects, start, b.(collected := collected), 3)
  {
    hide Run, Owns;
    var c := b.(collected := collected);
    forall j: nat | j < 3 ensures c.Serves(j, Slot(objects, c.Keys()[j])) {
      assert b.Serves(j, Slot(objects, b.Keys()[j]));
    }
    CollectedInTime(start, b, collected, 3);
  }

  lemma {:induction false} CollectedInTime(start: Objects, b: Blueprint, collected: Result<map<string, string>>, n: nat)
    requires n <= 3
    ensures Run(start, EnvironmentPlan(b.(collected := collected)), n) == Run(start, EnvironmentPlan(b), n)
  {
    hide DesiredNamespace, DesiredQuota, DesiredConfig, DeliveryKeys;
    if n > 0 {
      CollectedInTime(start, b, collected, n - 1);
    }
  }

  /** Delivery, as a whole, completes the rest. */
  lemma DeliveryServes(before: Objects, after: Objects, b: Blueprint, n: nat)
    requires n <= |DeliveryKeys(b.delivery, b.site)| && after == Run(before, DeliveryPlan(b.delivery, b.site), n)
    requires DoneIn(before, b, 4)
    ensures forall key | key !in DeliveryKeys(b.delivery, b.site) :: Slot(after, key) == Slot(before, key)
    ensures n == |DeliveryKeys(b.delivery, b.site)| && Feasible(before, DeliveryPlan(b.delivery, b.site), n) ==>
              DoneIn(after, b, |b.Keys()|)
  {
    hide Run;
    var plan := DeliveryPlan(b.delivery, b.site);
    DeliverySeparate(b.delivery, b.site);
    forall key | key !in plan.keys ensures Slot(after, key) == Slot(before, key) {
      RunElsewhere(before, plan, n, key);
    }
    if n == |plan.keys| && Feasible(before, plan, n) {
      forall j: nat | j < |b.Keys()| ensures b.Serves(j, Slot(after, b.Keys()[j])) {
        if j >= 4 {
          RunSlot(before, plan, n, j - 4);
          TurnOfStep(before, plan, j - 4);
          assert StepPossible(before, plan, j - 4);
          assert plan.keys[j - 4] == b.Keys()[j];
          DesiredServes(b, j, Slot(before, plan.keys[j - 4]));
        }
      }
    }
  }

  /** What one run of the delivery does to the objects, and why it may not succeed. */
  lemma Delivered(start: Objects, before: Objects, after: Objects, b: Blueprint, ok: bool)
    requires Reached(before, start, b, 4)
    requires var plan := DeliveryPlan(b.delivery, b.site);
             && (exists n: nat | n <= |plan.keys| :: after == Run(before, plan, n))
             && (ok ==> after == Run(before, plan, |plan.keys|) && Feasible(before, plan, |plan.keys|))
    ensures forall key | key !in DeliveryKeys(b.delivery, b.site) :: Slot(after, key) == Slot(before, key)
    ensures ok ==> Reached(after, start, b, |b.Keys()|)
    ensures Partial(after, start, b)
    ensures Settled(before, b) ==> Settled(after, b)
    ensures Feasible(before, DeliveryPlan(b.delivery, b.site), |DeliveryKeys(b.delivery, b.site)|) ||
              Obstructed(b, before)
  {
    hide Run, DoneIn, Feasible, Obstructed, Owns, Settled, b.Serves;
    var plan := DeliveryPlan(b.delivery, b.site);
    var n: nat :| n <= |plan.keys| && after == Run(before, plan, n) && (ok ==> n == |plan.keys|);
    DeliveryServes(before, after, b, n);
    DeliveryContinues(start, before, b, n);
    DeliverySettles(before, b, n);
    if !Feasible(before, plan, |plan.keys|) {
      DeliveryObstructs(b, before);
    }
  }

  lemma DeliverySettles(before: Objects, b: Blueprint, n: nat)
    requires n <= |DeliveryKeys(b.delivery, b.site)|
    ensures Settled(before, b) ==> Settled(Run(before, DeliveryPlan(b.delivery, b.site), n), b)
  {
    hide Run, DesiredDelivery, b.Serves;
    var plan := DeliveryPlan(b.delivery, b.site);
    var after := Run(before, plan, n);
    DeliverySeparate(b.delivery, b.site);
    if Settled(before, b) {
      forall k: nat | k < |b.Keys()| && k != 3 ensures b.Serves(k, Slot(after, b.Keys()[k])) {
        var slot := Slot(before, b.Keys()[k]);
        if 4 <= k < 4 + n {
          RunSlot(before, plan, n, k - 4);
          DeliveryIsDesired(b, k - 4, slot);
          if b.Desired(k, slot).Ok? { DesiredServes(b, k, slot); }
        } else {
          KeysDiffer(b);
          assert b.Keys()[k] !in plan.keys[..n] by {
            assert forall j | 0 <= j < n :: plan.keys[j] == b.Keys()[j + 4];
          }
          RunElsewhere(before, plan, n, b.Keys()[k]);
        }
      }
    }
  }

  // ---- Convergence ----

  /** A pass of a spec: what its selectors were resolved to, and the step after which it was cut
      off. */
  datatype Attempt = Attempt(collected: Result<map<string, string>>, steps: nat)

  /** The cluster after such a pass. */
  function CutOff(objects: Objects, b: Blueprint, a: Attempt): Objects
    requires a.steps <= |b.Keys()|
  {
    SameLabels(b, a.collected);
    Run(objects, EnvironmentPlan(b.(collected := a.collected)), a.steps)
  }

  /** The cluster after a series of passes of one spec. */
  function Attempted(objects: Objects, b: Blueprint, attempts: seq<Attempt>): Objects
    requires forall i | 0 <= i < |attempts| :: attempts[i].steps <= |b.Keys()|
    decreases |attempts|
  {
    if attempts == [] then objects else Attempted(CutOff(objects, b, attempts[0]), b, attempts[1..])
  }

  /** What a step has left, whatever the selectors were resolved to, is as good a start for the
      step as what was there before. */
  lemma StepAbsorbed(b: Blueprint, collected: Result<map<string, string>>, k: nat, slot: Option<Child>)
    requires k < |b.Keys()|
    ensures var left := After(EnvironmentPlan(b.(collected := collected)), k, slot);
            && b.Desired(k, left) == b.Desired(k, slot)
            && (b.Desired(k, slot).Ok? && b.Desired(k, slot).value.Some? && slot.Some? ==> left.Some?)
  {
    hide GitOpsLabels, TenantLabels, DeliveryBody, Installed, b.Labels;
    var c := b.(collected := collected);
    if k != 3 {
      SameDesired(b, collected, k, slot);
      if b.Desired(k, slot).Ok? { DesiredServes(b, k, slot); }
    } else if b.selectors != [] && collected.Ok? && b.collected.Ok? {
      SameLabels(b, collected);
      OverwriteFacts(slot, b.Labels(), DataBody(collected.value), DataBody(b.collected.value), None);
    }
  }

  lemma SameDesired(b: Blueprint, collected: Result<map<string, string>>, k: nat, slot: Option<Child>)
    requires k != 3
    ensures b.(collected := collected).Desired(k, slot) == b.Desired(k, slot)
  {
  }

  lemma SameLabels(b: Blueprint, collected: Result<map<string, string>>)
    ensures b.(collected := collected).Labels() == b.Labels()
    ensures b.(collected := collected).Keys() == b.Keys()
  {
  }

  /** What a cut-off pass has left under key k. */
  lemma AttemptSlot(objects: Objects, b: Blueprint, a: Attempt, k: nat)
    requires k < |b.Keys()| && a.steps <= |b.Keys()|
    ensures var slot, left := Slot(objects, b.Keys()[k]), Slot(CutOff(objects, b, a), b.Keys()[k]);
            && b.Desired(k, left) == b.Desired(k, slot)
            && (b.Desired(k, slot).Ok? && b.Desired(k, slot).value.Some? && slot.Some? ==> left.Some?)
  {
    hide b.Desired, Run, b.Keys, After;
    var c := b.(collected := a.collected);
    var plan := EnvironmentPlan(c);
    SameLabels(b, a.collected);
    PlanIsSound(c);
    if k < a.steps {
      RunSlot(objects, plan, a.steps, k);
      StepAbsorbed(b, a.collected, k, Slot(objects, b.Keys()[k]));
    } else {
      KeyAt(plan, k, a.steps);
      RunElsewhere(objects, plan, a.steps, b.Keys()[k]);
    }
  }

  /** A cut-off pass of the spec vanishes under a completed pass. */
  lemma AttemptAbsorbed(objects: Objects, b: Blueprint, a: Attempt)
    requires a.steps <= |b.Keys()| && Feasible(objects, EnvironmentPlan(b), |b.Keys()|)
    ensures var left := CutOff(objects, b, a);
            && Run(left, EnvironmentPlan(b), |b.Keys()|) == Run(objects, EnvironmentPlan(b), |b.Keys()|)
            && Feasible(left, EnvironmentPlan(b), |b.Keys()|)
  {
    hide b.Desired, Run, b.Keys, Feasible;
    var plan, n := EnvironmentPlan(b), |b.Keys()|;
    var left := CutOff(objects, b, a);
    PlanIsSound(b);
    SameLabels(b, a.collected);
    forall key ensures Slot(Run(left, plan, n), key) == Slot(Run(objects, plan, n), key) {
      if key in plan.keys {
        var k: nat :| k < n && plan.keys[k] == key;
        AttemptSlot(objects, b, a, k);
        RunSlot(left, plan, n, k);
        RunSlot(objects, plan, n, k);
        AllPossible(objects, plan, n, k);
        TurnOfStep(objects, plan, k);
      } else {
        RunElsewhere(left, plan, n, key);
        RunElsewhere(objects, plan, n, key);
        RunElsewhere(objects, EnvironmentPlan(b.(collected := a.collected)), a.steps, key);
      }
    }
    SameSlots(Run(left, plan, n), Run(objects, plan, n));
    AttemptFeasible(objects, b, a);
  }

  lemma AttemptFeasible(objects: Objects, b: Blueprint, a: Attempt)
    requires a.steps <= |b.Keys()| && Feasible(objects, EnvironmentPlan(b), |b.Keys()|)
    ensures Feasible(CutOff(objects, b, a), EnvironmentPlan(b), |b.Keys()|)
  {
    hide b.Keys, b.Desired, Run, CutOff, StepPossible;
    forall k: nat | k < |b.Keys()| ensures StepPossible(CutOff(objects, b, a), EnvironmentPlan(b), k) {
      StillPossible(objects, b, a, k);
    }
  }

  lemma AllPossible(objects: Objects, plan: Plan, n: nat, k: nat)
    requires k < n <= |plan.keys| && Feasible(objects, plan, n)
    ensures StepPossible(objects, plan, k)
  {
  }

  /** A step that was possible still is after a cut-off pass. */
  lemma StillPossible(objects: Objects, b: Blueprint, a: Attempt, k: nat)
    requires k < |b.Keys()| && a.steps <= |b.Keys()| && Feasible(objects, EnvironmentPlan(b), |b.Keys()|)
    ensures StepPossible(CutOff(objects, b, a), EnvironmentPlan(b), k)
  {
    hide b.Desired, Run, b.Keys;
    var plan, key := EnvironmentPlan(b), b.Keys()[k];
    var left := CutOff(objects, b, a);
    var before, later := Run(objects, plan, k), Run(left, plan, k);
    PlanIsSound(b);
    assert StepPossible(objects, plan, k) && StepPossible(objects, plan, 0);
    TurnOfStep(objects, plan, 0);
    AttemptSlot(objects, b, a, k);
    TurnOfStep(objects, plan, k);
    TurnOfStep(left, plan, k);
    var want := b.Desired(k, Slot(before, key));
    if want.value.Some? {
      assert key in before ==> key in later by {
        assert Slot(before, key) == Slot(objects, key) && Slot(later, key) == Slot(left, key);
      }
      if k > 0 {
        SameNamespace(objects, b, a, k);
        assert Slot(later, NamespaceKey(key.namespace)) == Slot(before, NamespaceKey(key.namespace));
      }
      WrittenAnyway(b, k, Slot(later, key));
    }
  }

  /** What is there can be overwritten. */
  lemma WrittenAnyway(b: Blueprint, k: nat, slot: Option<Child>)
    requires k < |b.Keys()|
    ensures b.Desired(k, slot).Ok? && b.Desired(k, slot).value.Some? ==>
              var child := b.Desired(k, slot).value.value;
              child.body.BindingBody? ==> slot.Some? && slot.value.body == child.body
    ensures k == 0 ==> b.Keys()[k].kind == Namespace
  {
    hide GitOpsLabels, TenantLabels, b.Labels;
  }

  /** The namespaces that a step may need are the same. */
  lemma SameNamespace(objects: Objects, b: Blueprint, a: Attempt, k: nat)
    requires 0 < k < |b.Keys()| && a.steps <= |b.Keys()|
    requires b.Desired(0, Slot(objects, b.Keys()[0])).Ok?
    ensures var left := CutOff(objects, b, a);
            var ns := NamespaceKey(b.Keys()[k].namespace);
            Slot(Run(left, EnvironmentPlan(b), k), ns) == Slot(Run(objects, EnvironmentPlan(b), k), ns)
  {
    hide b.Desired, Run, b.Keys;
    var plan, c := EnvironmentPlan(b), b.(collected := a.collected);
    var left := CutOff(objects, b, a);
    var ns := NamespaceKey(b.Keys()[k].namespace);
    PlanIsSound(b);
    SameLabels(b, a.collected);
    if ns == b.Keys()[0] {
      AttemptSlot(objects, b, a, 0);
      RunSlot(left, plan, k, 0);
      RunSlot(objects, plan, k, 0);
    } else {
      OneNamespaceKey(b, ns);
      RunElsewhere(left, plan, k, ns);
      RunElsewhere(objects, plan, k, ns);
      RunElsewhere(objects, EnvironmentPlan(c), a.steps, ns);
    }
  }

  lemma OneNamespaceKey(b: Blueprint, ns: Key)
    requires ns.kind == Namespace && ns != b.Keys()[0]
    ensures ns !in b.Keys()
  {
  }

  /** Crash-absorbing convergence of an environment: where a pass of a spec is feasible, so is
      every pass after any series of passes of it, each cut off at any call and whatever its
      selectors were resolved to. A completed pass then leaves what a single completed pass would
      have left; every object is then what the spec asks for; nothing else has moved; and a
      further pass changes nothing. */
  lemma {:induction false} EnvironmentConverges(objects: Objects, b: Blueprint, attempts: seq<Attempt>, again: nat,
                                                other: Key)
    requires Feasible(objects, EnvironmentPlan(b), |b.Keys()|) && again <= |b.Keys()| && !Owns(b.site, other)
    requires forall i | 0 <= i < |attempts| :: attempts[i].steps <= |b.Keys()|
    ensures var plan := EnvironmentPlan(b);
            var left := Attempted(objects, b, attempts);
            var done := Run(left, plan, |b.Keys()|);
            && Feasible(left, plan, |b.Keys()|)
            && done == Run(objects, plan, |b.Keys()|) && Run(done, plan, again) == done
            && (forall k: nat | k < |b.Keys()| :: b.Serves(k, Slot(done, b.Keys()[k])))
            && b.Keys() == ObjectKeys(b.site, b.delivery.provider) && Slot(done, other) == Slot(objects, other)
    decreases |attempts|
  {
    hide Run, b.Serves, b.Desired, b.Keys, Feasible, Owns;
    StepsReachObjects(b);
    if attempts == [] {
      PassConverges(objects, b, again, other);
    } else {
      AttemptAbsorbed(objects, b, attempts[0]);
      EnvironmentConverges(CutOff(objects, b, attempts[0]), b, attempts[1..], again, other);
      PassConverges(objects, b, again, other);
    }
  }

  /** One completed pass. */
  lemma PassConverges(objects: Objects, b: Blueprint, again: nat, other: Key)
    requires Feasible(objects, EnvironmentPlan(b), |b.Keys()|) && again <= |b.Keys()| && !Owns(b.site, other)
    ensures var plan := EnvironmentPlan(b);
            var done := Run(objects, plan, |b.Keys()|);
            && Run(done, plan, again) == done
            && (forall k: nat | k < |b.Keys()| :: b.Serves(k, Slot(done, b.Keys()[k])))
            && Slot(done, other) == Slot(objects, other)
  {
    hide Run, b.Serves, b.Desired;
    var plan := EnvironmentPlan(b);
    PlanIsSound(b);
    PassAbsorbs(objects, plan, |b.Keys()|, again);
    var done := Run(objects, plan, |b.Keys()|);
    forall k: nat | k < |b.Keys()| ensures b.Serves(k, Slot(done, b.Keys()[k])) {
      assert StepPossible(objects, plan, k);
      TurnOfStep(objects, plan, k);
      RunSlot(objects, plan, |b.Keys()|, k);
      DesiredServes(b, k, Slot(objects, plan.keys[k]));
    }
    forall k: nat | k < |b.Keys()| ensures b.Keys()[k] != other {
      PlanOwns(b, k);
    }
    RunElsewhere(objects, plan, |b.Keys()|, other);
  }
}
