/** internal/platform/networkpolicy.go: the default NetworkPolicy of a tenant namespace. */
module NetworkPolicies {
  import opened Base
  import opened Labels
  import opened Clusters
  import opened Quotas

  const POLICY_NAME := "upo-tenant-default"
  const DNS_PORT := 53

  datatype Isolation = Open | Baseline | Strict | Unset

  function PolicyKey(namespace: string): Key { Key(NetworkPolicy, namespace, POLICY_NAME) }

  /** `Open` is the value "None" of the API. An unset value keeps whatever rules are there. */
  function PostureBody(slot: Option<Child>, isolation: Isolation): Body {
    match isolation
    case Baseline =>
      PolicyBody(map[], [Ingress, Egress],
                 [Rule([PodsOfSameNamespace], [])],
                 [Rule([PodsOfSameNamespace], []), Rule([], [Port(UDP, DNS_PORT), Port(TCP, DNS_PORT)])])
    case Strict => PolicyBody(map[], [Ingress, Egress], [], [])
    case _ =>
      if slot.Some? && slot.value.body.PolicyBody?
      then slot.value.body.(podSelector := map[], policyTypes := [Ingress, Egress])
      else PolicyBody(map[], [Ingress, Egress], [], [])
  }

  function DesiredPolicy(slot: Option<Child>, isolation: Isolation, labels: Labels,
                         owner: string): Result<Option<Child>> {
    if isolation == Open then Ok(None) else Overwrite(slot, labels, PostureBody(slot, isolation), Some(owner))
  }

  method ReconcileNetworkPolicy(c: Cluster, owner: string, namespace: string, isolation: Isolation, labels: Labels)
    returns (ok: bool)
    requires c.Valid()
    modifies c
    ensures c.Valid() && old(c.calls) <= c.calls && old(c.failures) <= c.failures
    ensures var key := PolicyKey(namespace);
            var want := DesiredPolicy(Slot(old(c.objects), key), isolation, labels, owner);
            Stepped(old(c.objects), c.objects, key, want, ok, old(c.failures) < c.failures)
  {
    var key := PolicyKey(namespace);
    if isolation == Open {
      ok := c.Discard(key);
      return;
    }
    var fetched := c.Get(key);
    if fetched.Failed? {
      return false;
    }
    var spec := if fetched.Found? && fetched.child.body.PolicyBody? then fetched.child.body
                else PolicyBody(map[], [], [], []);
    spec := spec.(podSelector := map[], policyTypes := [Ingress, Egress]);
    if isolation == Strict {
      spec := spec.(ingress := [], egress := []);
    } else if isolation == Baseline {
      var sameNamespace := [PodsOfSameNamespace];
      spec := spec.(ingress := [Rule(sameNamespace, [])]);
      spec := spec.(egress := [Rule(sameNamespace, []), Rule([], [Port(UDP, DNS_PORT), Port(TCP, DNS_PORT)])]);
    }
    ok := Apply(c, key, fetched, labels, spec, Some(owner));
  }

  /** What a policy lets through: the reading of the NetworkPolicy API. A direction that is
      not among the policy types is open; a rule without peers or without ports does not
      restrict them. */
  datatype Traffic = Traffic(direction: PolicyType, sameNamespace: bool, port: Port)

  predicate RuleAdmits(rule: Rule, t: Traffic) {
    && (rule.peers != [] ==> t.sameNamespace && PodsOfSameNamespace in rule.peers)
    && (rule.ports != [] ==> t.port in rule.ports)
  }

  predicate Admits(policy: Body, t: Traffic)
    requires policy.PolicyBody?
  {
    t.direction in policy.policyTypes ==>
      exists r | r in (if t.direction == Ingress then policy.ingress else policy.egress) :: RuleAdmits(r, t)
  }

  /** The documented postures, for an arbitrary policy already in place: Strict admits
      nothing, Baseline admits exactly same-namespace traffic and DNS egress, and both select
      every pod. Without a posture the rules in place are kept, and a new policy admits nothing. */
  lemma PostureMeaning(slot: Option<Child>, t: Traffic)
    ensures var strict := PostureBody(slot, Strict); strict.podSelector == map[] && !Admits(strict, t)
    ensures var baseline := PostureBody(slot, Baseline);
            && baseline.podSelector == map[]
            && (Admits(baseline, t) <==>
                t.sameNamespace || (t.direction == Egress && t.port.number == 53))
    ensures var unset, there := PostureBody(slot, Unset), slot.Some? && slot.value.body.PolicyBody?;
            && unset.podSelector == map[] && Ingress in unset.policyTypes && Egress in unset.policyTypes
            && (there ==> unset.ingress == slot.value.body.ingress && unset.egress == slot.value.body.egress)
            && (!there ==> !Admits(unset, t))
  {
    assert PostureBody(slot, Unset).policyTypes == [Ingress, Egress];
    var baseline := PostureBody(slot, Baseline);
    var ports := [Port(UDP, DNS_PORT), Port(TCP, DNS_PORT)];
    assert t.direction.Ingress? || t.direction.Egress?;
    assert t.port.protocol.UDP? || t.port.protocol.TCP?;
    assert baseline.policyTypes[0] == Ingress && baseline.policyTypes[1] == Egress;
    assert baseline.ingress[0] == Rule([PodsOfSameNamespace], []);
    assert baseline.egress[0] == Rule([PodsOfSameNamespace], []) && baseline.egress[1] == Rule([], ports);
    assert ports[0] == Port(UDP, DNS_PORT) && ports[1] == Port(TCP, DNS_PORT);
    assert t.port.number == DNS_PORT ==> t.port == ports[0] || t.port == ports[1];
    assert RuleAdmits(baseline.egress[1], t) <==> t.port in ports;
    assert RuleAdmits(baseline.egress[0], t) <==> t.sameNamespace;
  }
}
