/** Label construction of internal/platform/labels.go. */
module Labels {

  type Labels = map<string, string>

  const MANAGED_BY_LABEL := "app.kubernetes.io/managed-by"
  const MANAGED_BY_VALUE := "unified-platform-operator"
  const TENANT_LABEL := "platform.upo.io/tenant"
  const ENVIRONMENT_LABEL := "platform.upo.io/environment"
  const INTEGRATION_LABEL := "platform.upo.io/integration"
  const COMPONENT_LABEL := "platform.upo.io/component"
  const PART_OF_LABEL := "app.kubernetes.io/part-of"
  const PART_OF_VALUE := "upo-platform"

  const BASE_LABELS: Labels := map[MANAGED_BY_LABEL := MANAGED_BY_VALUE, PART_OF_LABEL := PART_OF_VALUE]

  /** The labels of a tenant's component: base labels, then the extra ones, then the two
      protected keys. */
  function TenantLabels(tenant: string, component: string, extra: Labels): Labels {
    var out := (BASE_LABELS + extra)[TENANT_LABEL := tenant];
    if component == "" then out else out[COMPONENT_LABEL := component]
  }

  /** `have` carries every wanted label. */
  predicate Carries(have: Labels, want: Labels) {
    forall k | k in want :: k in have && have[k] == want[k]
  }

  predicate Has(have: Labels, key: string, value: string) { key in have && have[key] == value }

  /** The labels of a tenant's component, key by key: the two protected ones, every extra label
      under another key, and the two base labels where no extra label names their keys. */
  predicate Labelled(have: Labels, tenant: string, component: string, extra: Labels) {
    && Has(have, "platform.upo.io/tenant", tenant)
    && Has(have, "platform.upo.io/component", component)
    && (forall k | k in extra && k != "platform.upo.io/tenant" && k != "platform.upo.io/component" ::
          Has(have, k, extra[k]))
    && ("app.kubernetes.io/managed-by" !in extra ==>
          Has(have, "app.kubernetes.io/managed-by", "unified-platform-operator"))
    && ("app.kubernetes.io/part-of" !in extra ==> Has(have, "app.kubernetes.io/part-of", "upo-platform"))
  }

  /** The labels of an object that one environment or one integration has for its own: `key` says
      whose it is. */
  predicate Branded(have: Labels, tenant: string, component: string, key: string, name: string) {
    Labelled(have, tenant, component, map[]) && Has(have, key, name)
  }

  lemma KeysDiffer()
    ensures |{MANAGED_BY_LABEL, PART_OF_LABEL, TENANT_LABEL, COMPONENT_LABEL}| == 4
    ensures ENVIRONMENT_LABEL !in {MANAGED_BY_LABEL, PART_OF_LABEL, TENANT_LABEL, COMPONENT_LABEL}
    ensures INTEGRATION_LABEL !in {MANAGED_BY_LABEL, PART_OF_LABEL, TENANT_LABEL, COMPONENT_LABEL}
  {
    assert MANAGED_BY_LABEL[0] == 'a' && PART_OF_LABEL[0] == 'a' && |MANAGED_BY_LABEL| != |PART_OF_LABEL|;
    assert TENANT_LABEL[0] == 'p' && COMPONENT_LABEL[0] == 'p' && |TENANT_LABEL| != |COMPONENT_LABEL|;
    assert ENVIRONMENT_LABEL[0] == 'p' && ENVIRONMENT_LABEL[16] == 'e' && TENANT_LABEL[16] == 't';
    assert COMPONENT_LABEL[16] == 'c' && INTEGRATION_LABEL[0] == 'p' && INTEGRATION_LABEL[16] == 'i';
  }

  /** An object carries the labels that are built for a component exactly if it is labelled. */
  lemma CarriesMeans(have: Labels, tenant: string, component: string, extra: Labels)
    requires component != ""
    ensures Carries(have, TenantLabels(tenant, component, extra)) <==> Labelled(have, tenant, component, extra)
  {
    var want := TenantLabels(tenant, component, extra);
    KeysDiffer();
  }

  lemma LabelKeys(tenant: string, component: string, extra: Labels)
    requires component != ""
    ensures TenantLabels(tenant, component, extra).Keys == extra.Keys +
              {"app.kubernetes.io/managed-by", "app.kubernetes.io/part-of", "platform.upo.io/tenant",
               "platform.upo.io/component"}
  {
  }

  lemma CarriesBrand(have: Labels, tenant: string, component: string, key: string, name: string)
    requires component != "" && key in {ENVIRONMENT_LABEL, INTEGRATION_LABEL}
    ensures Carries(have, TenantLabels(tenant, component, map[])[key := name]) <==>
            Branded(have, tenant, component, key, name)
  {
    var want := TenantLabels(tenant, component, map[]);
    KeysDiffer();
    CarriesMeans(have, tenant, component, map[]);
    assert want.Keys == {MANAGED_BY_LABEL, PART_OF_LABEL, TENANT_LABEL, COMPONENT_LABEL};
    assert forall k | k in want :: k in want[key := name] && want[key := name][k] == want[k];
  }

  /** Overlays src on dst one entry at a time, in whatever order the map yields its keys. */
  method MergeLabels(dst: Labels, src: Labels) returns (out: Labels)
    ensures out == dst + src
  {
    out := dst;
    var todo := src.Keys;
    while todo != {}
      invariant todo <= src.Keys
      invariant out.Keys == dst.Keys + (src.Keys - todo)
      invariant forall k | k in out :: out[k] == if k in src.Keys - todo then src[k] else dst[k]
    {
      var k :| k in todo;
      out := out[k := src[k]];
      todo := todo - {k};
    }
  }

  method BuildTenantLabels(tenant: string, component: string, extra: Labels) returns (out: Labels)
    ensures out == TenantLabels(tenant, component, extra)
    ensures component != "" ==> Labelled(out, tenant, component, extra)
    ensures out.Keys == extra.Keys + (if component == "" then {} else {"platform.upo.io/component"}) +
                        {"app.kubernetes.io/managed-by", "app.kubernetes.io/part-of", "platform.upo.io/tenant"}
  {
    out := MergeLabels(BASE_LABELS, extra);
    out := out[TENANT_LABEL := tenant];
    if component != "" {
      out := out[COMPONENT_LABEL := component];
      CarriesMeans(out, tenant, component, extra);
    }
  }

  /** The comment on TenantLabels promises that extra labels never override the reserved
      keys. The tenant and component keys are protected from every extra map; the two base
      keys survive exactly when the extra map does not give them another value; and every other
      extra label is there. */
  lemma ReservedLabels(tenant: string, component: string, extra: Labels)
    ensures var out := TenantLabels(tenant, component, extra);
            && Has(out, "platform.upo.io/tenant", tenant)
            && (component != "" ==> Has(out, "platform.upo.io/component", component))
            && (Has(out, "app.kubernetes.io/managed-by", "unified-platform-operator") <==>
                "app.kubernetes.io/managed-by" in extra ==>
                  extra["app.kubernetes.io/managed-by"] == "unified-platform-operator")
            && (Has(out, "app.kubernetes.io/part-of", "upo-platform") <==>
                "app.kubernetes.io/part-of" in extra ==> extra["app.kubernetes.io/part-of"] == "upo-platform")
            && forall k | k in extra && k !in {"platform.upo.io/tenant", "platform.upo.io/component"} ::
                 Has(out, k, extra[k])
  {
    KeysDiffer();
  }
}
