/** internal/platform/rbac.go: the tenant admins' RoleBinding. */
module Rbac {
  import opened Base
  import opened Labels
  import opened Clusters
  import opened Quotas

  const BINDING_NAME := "upo-tenant-admins"
  const GROUP_NAME := "rbac.authorization.k8s.io"
  const SERVICE_ACCOUNT := "ServiceAccount"
  const ADMIN_ROLE := RoleRef(GROUP_NAME, "ClusterRole", "admin")

  datatype SubjectReference = SubjectReference(kind: string, name: string, namespace: string)

  function BindingKey(namespace: string): Key { Key(RoleBinding, namespace, BINDING_NAME) }

  function ToSubject(a: SubjectReference): Subject {
    if a.kind == SERVICE_ACCOUNT then Subject(a.kind, a.name, a.namespace, "")
    else Subject(a.kind, a.name, "", GROUP_NAME)
  }

  /** A service account is granted in its namespace, a user or a group by the API group. */
  predicate Grants(s: Subject, a: SubjectReference) {
    && s.kind == a.kind && s.name == a.name
    && s.namespace == (if a.kind == "ServiceAccount" then a.namespace else "")
    && s.apiGroup == (if a.kind == "ServiceAccount" then "" else "rbac.authorization.k8s.io")
  }

  function ToSubjects(admins: seq<SubjectReference>): seq<Subject> {
    seq(|admins|, i requires 0 <= i < |admins| => ToSubject(admins[i]))
  }

  function DesiredBinding(slot: Option<Child>, admins: seq<SubjectReference>, labels: Labels,
                          owner: string): Result<Option<Child>> {
    if admins == [] then Ok(None)
    else Overwrite(slot, labels, BindingBody(ADMIN_ROLE, ToSubjects(admins)), Some(owner))
  }

  /** The binding in the slot refers to another role; a RoleRef can never be changed. */
  predicate ForeignRole(slot: Option<Child>) {
    && slot.Some? && slot.value.body.BindingBody?
    && slot.value.body.roleRef != RoleRef("rbac.authorization.k8s.io", "ClusterRole", "admin")
  }

  method BuildSubjects(admins: seq<SubjectReference>) returns (subjects: seq<Subject>)
    ensures subjects == ToSubjects(admins)
    ensures |subjects| == |admins| && forall i | 0 <= i < |admins| :: Grants(subjects[i], admins[i])
  {
    subjects := [];
    for i := 0 to |admins|
      invariant subjects == ToSubjects(admins[..i])
    {
      var a := admins[i];
      var s := Subject(a.kind, a.name, "", "");
      if a.kind == SERVICE_ACCOUNT {
        s := s.(namespace := a.namespace, apiGroup := "");
      } else {
        s := s.(apiGroup := GROUP_NAME);
      }
      subjects := subjects + [s];
    }
    assert admins[..|admins|] == admins;
  }

  /** A binding that refers to another role can never be converged: the API server rejects
      the update, whatever the comment in the source says about leaving the role alone. */
  method ReconcileTenantAdminBinding(c: Cluster, owner: string, namespace: string,
                                     admins: seq<SubjectReference>, labels: Labels) returns (ok: bool)
    requires c.Valid()
    modifies c
    ensures c.Valid() && old(c.calls) <= c.calls && old(c.failures) <= c.failures
    ensures var key := BindingKey(namespace);
            var want := DesiredBinding(Slot(old(c.objects), key), admins, labels, owner);
            Stepped(old(c.objects), c.objects, key, want, ok, old(c.failures) < c.failures)
    ensures admins != [] && ForeignRole(Slot(old(c.objects), BindingKey(namespace))) ==>
              !ok && c.objects == old(c.objects)
  {
    var key := BindingKey(namespace);
    if |admins| == 0 {
      ok := c.Discard(key);
      return;
    }
    var fetched := c.Get(key);
    if fetched.Failed? {
      return false;
    }
    var subjects := BuildSubjects(admins);
    ok := Apply(c, key, fetched, labels, BindingBody(ADMIN_ROLE, subjects), Some(owner));
  }
}
