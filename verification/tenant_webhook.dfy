/** internal/webhook/v1alpha1/tenant_webhook.go: defaulting and validation of Tenants. */
module TenantWebhook {
  import opened Base
  import opened NetworkPolicies
  import opened Rbac
  import opened TenantResources

  const MAX_NAMESPACE_LENGTH := 63
  const STANDARD_TIER := "standard"

  datatype FieldError = PrefixImmutable | NameTooLong(prefix: string) | AdminNamespaceRequired(index: nat)

  /** An object under admission: the defaulter changes its spec in place. */
  class Draft {
    var spec: TenantSpec

    constructor (spec: TenantSpec)
      ensures this.spec == spec
    {
      this.spec := spec;
    }

    method Default()
      modifies this
      ensures spec == Defaulted(old(spec))
      ensures spec.tier == if old(spec.tier) == "" then "standard" else old(spec.tier)
      ensures spec.namespacePrefix == if old(spec.namespacePrefix) == "" then "tenant" else old(spec.namespacePrefix)
      ensures spec.isolation == if old(spec.isolation) == Unset then Baseline else old(spec.isolation)
      ensures spec.deletionPolicy ==
                if old(spec.deletionPolicy) == UnsetPolicy then DeleteNamespace else old(spec.deletionPolicy)
      ensures old(spec) == spec.(tier := old(spec.tier), namespacePrefix := old(spec.namespacePrefix),
                                 isolation := old(spec.isolation), deletionPolicy := old(spec.deletionPolicy))
    {
      if spec.tier == "" {
        spec := spec.(tier := STANDARD_TIER);
      }
      if spec.namespacePrefix == "" {
        spec := spec.(namespacePrefix := DEFAULT_PREFIX);
      }
      if spec.isolation == Unset {
        spec := spec.(isolation := Baseline);
      }
      if spec.deletionPolicy == UnsetPolicy {
        spec := spec.(deletionPolicy := DeleteNamespace);
      }
    }
  }

  function Defaulted(s: TenantSpec): TenantSpec {
    s.(tier := if s.tier == "" then STANDARD_TIER else s.tier,
       namespacePrefix := if s.namespacePrefix == "" then DEFAULT_PREFIX else s.namespacePrefix,
       isolation := if s.isolation == Unset then Baseline else s.isolation,
       deletionPolicy := if s.deletionPolicy == UnsetPolicy then DeleteNamespace else s.deletionPolicy)
  }

  class ErrorList {
    var items: seq<FieldError>

    constructor ()
      ensures items == []
    {
      items := [];
    }
  }

  /** Admin i is a service account without namespace. */
  predicate Nameless(spec: TenantSpec, i: int)
    requires 0 <= i < |spec.admins|
  {
    spec.admins[i].kind == "ServiceAccount" && spec.admins[i].namespace == ""
  }

  predicate Valid(name: string, spec: TenantSpec) {
    && |(if spec.namespacePrefix == "" then "tenant" else spec.namespacePrefix) + "-" + name| <= 63
    && forall i | 0 <= i < |spec.admins| :: !Nameless(spec, i)
  }

  function AdminErrors(spec: TenantSpec, n: nat): seq<FieldError>
    requires n <= |spec.admins|
  {
    if n == 0 then []
    else AdminErrors(spec, n - 1) + if Nameless(spec, n - 1) then [AdminNamespaceRequired(n - 1)] else []
  }

  /** The errors of a spec, in the order in which the validator reports them. */
  function Violations(name: string, spec: TenantSpec): seq<FieldError> {
    var prefix := if spec.namespacePrefix == "" then DEFAULT_PREFIX else spec.namespacePrefix;
    (if |NamespaceName(name, spec.namespacePrefix)| > MAX_NAMESPACE_LENGTH then [NameTooLong(prefix)] else [])
    + AdminErrors(spec, |spec.admins|)
  }

  lemma {:induction false} AdminErrorsMeaning(spec: TenantSpec, n: nat)
    requires n <= |spec.admins|
    ensures forall e :: e in AdminErrors(spec, n) <==>
                        e.AdminNamespaceRequired? && e.index < n && Nameless(spec, e.index)
  {
    if n > 0 {
      AdminErrorsMeaning(spec, n - 1);
    }
  }

  /** One error per violated rule and none else: the list is empty exactly for valid specs. */
  lemma ViolationsMeaning(name: string, spec: TenantSpec)
    ensures Violations(name, spec) == [] <==> Valid(name, spec)
    ensures forall i: nat :: AdminNamespaceRequired(i) in Violations(name, spec) <==>
              i < |spec.admins| && Nameless(spec, i)
    ensures forall p :: NameTooLong(p) in Violations(name, spec) <==>
              p == (if spec.namespacePrefix == "" then "tenant" else spec.namespacePrefix) && |p + "-" + name| > 63
    ensures PrefixImmutable !in Violations(name, spec)
  {
    AdminErrorsMeaning(spec, |spec.admins|);
    var errors := AdminErrors(spec, |spec.admins|);
    if errors != [] {
      assert errors[0] in errors;
    }
    if i: nat :| i < |spec.admins| && Nameless(spec, i) {
      assert AdminNamespaceRequired(i) in errors;
    }
  }

  method ValidateInto(name: string, spec: TenantSpec, errs: ErrorList)
    modifies errs
    ensures errs.items == old(errs.items) + Violations(name, spec)
  {
    ghost var before := errs.items;
    var prefix := spec.namespacePrefix;
    if prefix == "" {
      prefix := DEFAULT_PREFIX;
    }
    var nsName := prefix + "-" + name;
    if |nsName| > MAX_NAMESPACE_LENGTH {
      errs.items := errs.items + [NameTooLong(prefix)];
    }
    ghost var first := errs.items;
    for i := 0 to |spec.admins|
      invariant errs.items == first + AdminErrors(spec, i)
    {
      var a := spec.admins[i];
      if a.kind == SERVICE_ACCOUNT && a.namespace == "" {
        errs.items := errs.items + [AdminNamespaceRequired(i)];
      }
    }
  }

  method ValidateCreate(name: string, spec: TenantSpec) returns (admitted: bool)
    ensures admitted <==> Valid(name, spec)
  {
    var errs := new ErrorList();
    ValidateInto(name, spec, errs);
    ViolationsMeaning(name, spec);
    admitted := errs.items == [];
  }

  method ValidateUpdate(name: string, before: TenantSpec, after: TenantSpec) returns (admitted: bool)
    ensures admitted <==> before.namespacePrefix == after.namespacePrefix && Valid(name, after)
  {
    var errs := new ErrorList();
    if before.namespacePrefix != after.namespacePrefix {
      errs.items := errs.items + [PrefixImmutable];
    }
    ValidateInto(name, after, errs);
    ViolationsMeaning(name, after);
    admitted := errs.items == [];
  }

  /** What the store may hold after an update: the validator has accepted the defaulted spec. */
  predicate AdmitsUpdate(name: string, before: TenantSpec, after: TenantSpec) {
    after == Defaulted(after) && before.namespacePrefix == after.namespacePrefix && Valid(name, after)
  }

  /** Over every history of admitted updates the derived namespace has one name of at most 63
      characters, and it is spelled with the stored prefix: no default is left to fill in. */
  lemma {:induction false} OneNamespacePerTenant(name: string, specs: seq<TenantSpec>, i: nat)
    requires i < |specs| && specs[0] == Defaulted(specs[0]) && Valid(name, specs[0])
    requires forall k | 0 < k < |specs| :: AdmitsUpdate(name, specs[k - 1], specs[k])
    ensures NamespaceName(name, specs[i].namespacePrefix) == specs[0].namespacePrefix + "-" + name
    ensures |NamespaceName(name, specs[i].namespacePrefix)| <= 63 && specs[i].namespacePrefix != ""
  {
    if i > 0 {
      OneNamespacePerTenant(name, specs[..i], i - 1);
      assert AdmitsUpdate(name, specs[i - 1], specs[i]);
    }
  }

  /** Without the prefix rule the promise is lost: an update that would otherwise be admitted
      moves the tenant to another namespace exactly when it changes the effective prefix. */
  lemma PrefixDecidesNamespace(name: string, a: TenantSpec, b: TenantSpec)
    requires a == Defaulted(a) && b == Defaulted(b)
    ensures NamespaceName(name, a.namespacePrefix) == a.namespacePrefix + "-" + name
    ensures NamespaceName(name, a.namespacePrefix) == NamespaceName(name, b.namespacePrefix) <==>
            a.namespacePrefix == b.namespacePrefix
  {
    var x, y := NamespaceName(name, a.namespacePrefix), NamespaceName(name, b.namespacePrefix);
    if x == y {
      assert x[..|x| - |name| - 1] == a.namespacePrefix;
      assert y[..|y| - |name| - 1] == b.namespacePrefix;
    }
  }
}
