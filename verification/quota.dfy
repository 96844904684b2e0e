/** internal/platform/quota.go: the managed ResourceQuota and LimitRange. */
module Quotas {
  import opened Base
  import opened Labels
  import opened Clusters

  const QUOTA_NAME := "upo-tenant-quota"
  const LIMIT_RANGE_NAME := "upo-tenant-limits"
  const PODS := "pods"

  function QuotaKey(namespace: string): Key { Key(ResourceQuota, namespace, QUOTA_NAME) }
  function LimitsKey(namespace: string): Key { Key(LimitRange, namespace, LIMIT_RANGE_NAME) }

  /** Applies labels, body and, where one is given, the controller to the object in a slot. */
  function Overwrite(slot: Option<Child>, labels: Labels, body: Body, owner: Option<string>): Result<Option<Child>> {
    var have := if slot.Some? then slot.value.labels else map[];
    var child := Child(have + labels, body, if slot.Some? then slot.value.controller else None,
                       slot.Some? && slot.value.terminating);
    if owner.None? then Ok(Some(child))
    else match SetControllerReference(owner.value, child)
         case Ok(owned) => Ok(Some(owned))
         case Err(e) => Err(e)
  }

  /** What Overwrite leaves has the body, the labels and, where one was given, the controller;
      overwriting it again, with this body or another, gives what that would have given at once. */
  lemma OverwriteFacts(slot: Option<Child>, labels: Labels, body: Body, other: Body, owner: Option<string>)
    requires Overwrite(slot, labels, body, owner).Ok?
    ensures var child := Overwrite(slot, labels, body, owner).value;
            && child.Some? && (owner.Some? ==> child.value.controller == owner)
            && child.value.body == body && Carries(child.value.labels, labels)
            && Overwrite(child, labels, other, owner) == Overwrite(slot, labels, other, owner)
  {
    var have := if slot.Some? then slot.value.labels else map[];
    assert (have + labels) + labels == have + labels;
  }

  /** It keeps labels under foreign keys and a deletion under way. */
  lemma OverwriteKeeps(slot: Option<Child>, labels: Labels, body: Body, owner: Option<string>, foreign: string)
    requires slot.Some?
    ensures var made := Overwrite(slot, labels, body, owner);
            made.Ok? ==>
              && made.value.Some? && made.value.value.terminating == slot.value.terminating
              && (foreign !in labels && foreign in slot.value.labels ==>
                    Has(made.value.value.labels, foreign, slot.value.labels[foreign]))
  {
  }

  function DesiredQuota(slot: Option<Child>, hard: ResourceList, suspended: bool, labels: Labels,
                        owner: Option<string>): Result<Option<Child>> {
    if |hard| == 0 && !suspended then Ok(None)
    else Overwrite(slot, labels, QuotaBody(if suspended then hard[PODS := 0] else hard), owner)
  }

  function NonEmpty(rl: ResourceList): Option<ResourceList> {
    if |rl| == 0 then None else Some(rl)
  }

  function DesiredLimits(slot: Option<Child>, default: ResourceList, defaultRequest: ResourceList,
                         max: ResourceList, labels: Labels, owner: Option<string>): Result<Option<Child>> {
    if |default| == 0 && |defaultRequest| == 0 && |max| == 0 then Ok(None)
    else Overwrite(slot, labels,
                   LimitsBody([ContainerLimits(NonEmpty(default), NonEmpty(defaultRequest), NonEmpty(max))]),
                   owner)
  }

  /** The tail of every CreateOrUpdate in this package: labels are merged into what was
      fetched, the body is replaced, the owner is set, and the result is written. */
  method Apply(c: Cluster, key: Key, fetched: Reply, labels: Labels, body: Body, owner: Option<string>)
    returns (ok: bool)
    requires c.Valid() && c.Known(key.kind)
    requires fetched == if key in c.objects then Found(c.objects[key]) else NotFound
    modifies c
    ensures c.Valid() && old(c.calls) <= c.calls && old(c.failures) <= c.failures
    ensures var want := Overwrite(Slot(old(c.objects), key), labels, body, owner);
            Stepped(old(c.objects), c.objects, key, want, ok, old(c.failures) < c.failures)
  {
    var existing := if fetched.Found? then fetched.child else Child(map[], body, None, false);
    var merged := MergeLabels(existing.labels, labels);
    existing := existing.(labels := merged, body := body);
    if owner.Some? {
      match SetControllerReference(owner.value, existing)
      case Err(_) => return false;
      case Ok(owned) => existing := owned;
    }
    ok := c.Write(key, fetched, existing);
  }

  method ReconcileResourceQuota(c: Cluster, owner: string, setController: bool, namespace: string,
                                hard: ResourceList, suspended: bool, labels: Labels) returns (ok: bool)
    requires c.Valid()
    modifies c
    ensures c.Valid() && old(c.calls) <= c.calls && old(c.failures) <= c.failures
    ensures var key := QuotaKey(namespace);
            var want := DesiredQuota(Slot(old(c.objects), key), hard, suspended, labels,
                                     if setController then Some(owner) else None);
            Stepped(old(c.objects), c.objects, key, want, ok, old(c.failures) < c.failures)
  {
    var key := QuotaKey(namespace);
    if |hard| == 0 && !suspended {
      ok := c.Discard(key);
      return;
    }
    var fetched := c.Get(key);
    if fetched.Failed? {
      return false;
    }
    var desired: ResourceList := map[];
    var todo := hard.Keys;
    while todo != {}
      invariant todo <= hard.Keys
      invariant desired.Keys == hard.Keys - todo
      invariant forall k | k in desired :: desired[k] == hard[k]
    {
      var k :| k in todo;
      desired := desired[k := hard[k]];
      todo := todo - {k};
    }
    assert desired == hard;
    if suspended {
      desired := desired[PODS := 0];
    }
    ok := Apply(c, key, fetched, labels, QuotaBody(desired), if setController then Some(owner) else None);
  }

  method ReconcileLimitRange(c: Cluster, owner: string, setController: bool, namespace: string,
                             default: ResourceList, defaultRequest: ResourceList, max: ResourceList,
                             labels: Labels) returns (ok: bool)
    requires c.Valid()
    modifies c
    ensures c.Valid() && old(c.calls) <= c.calls && old(c.failures) <= c.failures
    ensures var key := LimitsKey(namespace);
            var want := DesiredLimits(Slot(old(c.objects), key), default, defaultRequest, max, labels,
                                      if setController then Some(owner) else None);
            Stepped(old(c.objects), c.objects, key, want, ok, old(c.failures) < c.failures)
  {
    var key := LimitsKey(namespace);
    if |default| == 0 && |defaultRequest| == 0 && |max| == 0 {
      ok := c.Discard(key);
      return;
    }
    var fetched := c.Get(key);
    if fetched.Failed? {
      return false;
    }
    var item := ContainerLimits(NonEmpty(default), NonEmpty(defaultRequest), NonEmpty(max));
    ok := Apply(c, key, fetched, labels, LimitsBody([item]), if setController then Some(owner) else None);
  }
}
