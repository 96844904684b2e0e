/** internal/webhook/v1alpha1/environment_webhook.go: defaulting and validation of
    Environments. */
module EnvironmentWebhook {
  import opened Base
  import opened Clusters
  import opened GitOps
  import opened EnvironmentResources

  const MEDIUM_PROFILE := "medium"
  const HEAD := "HEAD"
  const ROOT_PATH := "."

  datatype FieldError = TenantRequired | TTLRequired | RepoURLRequired | TenantImmutable | TypeImmutable

  /** An object under admission: the defaulter changes its spec in place. */
  class Draft {
    var spec: EnvironmentSpec

    constructor (spec: EnvironmentSpec)
      ensures this.spec == spec
    {
      this.spec := spec;
    }

    method Default()
      modifies this
      ensures spec == Defaulted(old(spec))
      ensures Filled(old(spec), spec)
    {
      hide Filled;
      ghost var before := spec;
      if spec.profile == "" {
        spec := spec.(profile := MEDIUM_PROFILE);
      }
      if spec.delivery.provider == UnsetProvider {
        spec := spec.(delivery := spec.delivery.(provider := NoProvider));
      }
      if spec.delivery.source.Some? {
        var source := spec.delivery.source.value;
        if source.revision == "" {
          source := source.(revision := HEAD);
        }
        if source.path == "" {
          source := source.(path := ROOT_PATH);
        }
        spec := spec.(delivery := spec.delivery.(source := Some(source)));
      }
      DefaultsFilled(before);
    }
  }

  /** Defaulting fills four fields that may be empty, and leaves all others alone. */
  predicate Filled(before: EnvironmentSpec, after: EnvironmentSpec) {
    && after.profile == (if before.profile == "" then "medium" else before.profile)
    && after.delivery.provider ==
         (if before.delivery.provider == UnsetProvider then NoProvider else before.delivery.provider)
    && (before.delivery.source.None? ==> after.delivery.source.None?)
    && (before.delivery.source.Some? ==>
          && after.delivery.source.Some?
          && var source, filled := before.delivery.source.value, after.delivery.source.value;
          && filled.repoURL == source.repoURL
          && filled.revision == (if source.revision == "" then "HEAD" else source.revision)
          && filled.path == (if source.path == "" then "." else source.path))
    && after.tenantRef == before.tenantRef && after.kind == before.kind && after.ttl == before.ttl
    && after.domain == before.domain && after.variables == before.variables
    && after.secretRefs == before.secretRefs && after.suspend == before.suspend
    && after.delivery.autoSync == before.delivery.autoSync && after.delivery.prune == before.delivery.prune
  }

  lemma DefaultsFilled(s: EnvironmentSpec)
    ensures Filled(s, Defaulted(s))
  {
  }

  function DefaultedSource(s: GitSource): GitSource {
    GitSource(s.repoURL, if s.revision == "" then HEAD else s.revision, if s.path == "" then ROOT_PATH else s.path)
  }

  function Defaulted(s: EnvironmentSpec): EnvironmentSpec {
    var d := s.delivery;
    s.(profile := if s.profile == "" then MEDIUM_PROFILE else s.profile,
       delivery := Delivery(if d.provider == UnsetProvider then NoProvider else d.provider,
                            if d.source.Some? then Some(DefaultedSource(d.source.value)) else None,
                            d.autoSync, d.prune))
  }

  class ErrorList {
    var items: seq<FieldError>

    constructor ()
      ensures items == []
    {
      items := [];
    }
  }

  /** An owning tenant, a lifetime where there must be one, and a source where one is needed. */
  predicate Valid(spec: EnvironmentSpec) {
    && spec.tenantRef != ""
    && (spec.kind == Ephemeral ==> spec.ttl.Some?)
    && (spec.delivery.provider != NoProvider ==> spec.delivery.source.Some? && spec.delivery.source.value.repoURL != "")
  }

  predicate Violates(spec: EnvironmentSpec, e: FieldError) {
    match e
    case TenantRequired => spec.tenantRef == ""
    case TTLRequired => spec.kind == Ephemeral && spec.ttl.None?
    case RepoURLRequired =>
      spec.delivery.provider != NoProvider && (spec.delivery.source.None? || spec.delivery.source.value.repoURL == "")
    case _ => false
  }

  /** Appends one error for each rule that is violated, and none else. */
  method ValidateInto(spec: EnvironmentSpec, errs: ErrorList)
    modifies errs
    ensures exists found: seq<FieldError> ::
              && errs.items == old(errs.items) + found
              && (forall e :: e in found <==> Violates(spec, e))
              && (found == [] <==> Valid(spec))
  {
    ghost var before, found := errs.items, [];
    if spec.tenantRef == "" {
      errs.items := errs.items + [TenantRequired];
      found := found + [TenantRequired];
    }
    if spec.kind == Ephemeral && spec.ttl.None? {
      errs.items := errs.items + [TTLRequired];
      found := found + [TTLRequired];
    }
    if spec.delivery.provider != NoProvider {
      if spec.delivery.source.None? || spec.delivery.source.value.repoURL == "" {
        errs.items := errs.items + [RepoURLRequired];
        found := found + [RepoURLRequired];
      }
    }
    assert errs.items == before + found;
  }

  method ValidateCreate(spec: EnvironmentSpec) returns (admitted: bool)
    ensures admitted <==> Valid(spec)
  {
    var errs := new ErrorList();
    ValidateInto(spec, errs);
    admitted := errs.items == [];
  }

  method ValidateUpdate(before: EnvironmentSpec, after: EnvironmentSpec) returns (admitted: bool)
    ensures admitted <==> before.tenantRef == after.tenantRef && before.kind == after.kind && Valid(after)
  {
    var errs := new ErrorList();
    if before.tenantRef != after.tenantRef {
      errs.items := errs.items + [TenantImmutable];
    }
    if before.kind != after.kind {
      errs.items := errs.items + [TypeImmutable];
    }
    ValidateInto(after, errs);
    admitted := errs.items == [];
  }

  /** What the store may hold after an update: the validator has accepted the defaulted spec. */
  predicate AdmitsUpdate(before: EnvironmentSpec, after: EnvironmentSpec) {
    after == Defaulted(after) && before.tenantRef == after.tenantRef && before.kind == after.kind && Valid(after)
  }

  /** Over every history of admitted updates an Environment stays with its tenant and its type;
      an ephemeral one always has a lifetime; and no step of its delivery can ever lack a
      source. */
  lemma {:induction false} AdmittedHistory(specs: seq<EnvironmentSpec>, i: nat, site: Site)
    requires i < |specs| && specs[0] == Defaulted(specs[0]) && Valid(specs[0])
    requires forall j | 0 < j < |specs| :: AdmitsUpdate(specs[j - 1], specs[j])
    ensures specs[i].tenantRef == specs[0].tenantRef && specs[i].kind == specs[0].kind
    ensures specs[i].kind == Ephemeral ==> specs[i].ttl.Some?
    ensures DeliveryKeys(specs[i].delivery, site) != [] ==> specs[i].delivery.source.Some?
  {
    if i > 0 {
      AdmittedHistory(specs[..i], i - 1, site);
      assert AdmitsUpdate(specs[i - 1], specs[i]);
    }
  }
}
