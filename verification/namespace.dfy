/** internal/platform/namespace.go: namespaces are converged by label and owner, and deletion
    is requested without waiting for the drain. */
module Namespaces {
  import opened Base
  import opened Labels
  import opened Clusters

  function DesiredNamespace(slot: Option<Child>, labels: Labels, owner: Option<string>): Result<Option<Child>> {
    var existing := if slot.Some? then slot.value else Child(map[], NamespaceBody, None, false);
    var labelled := existing.(labels := existing.labels + labels);
    if owner.None? then Ok(Some(labelled))
    else match SetControllerReference(owner.value, labelled)
         case Ok(child) => Ok(Some(child))
         case Err(e) => Err(e)
  }

  method ReconcileNamespace(c: Cluster, owner: string, setController: bool, name: string, labels: Labels)
    returns (ok: bool)
    requires c.Valid()
    modifies c
    ensures c.Valid() && old(c.calls) <= c.calls && old(c.failures) <= c.failures
    ensures var want := DesiredNamespace(Slot(old(c.objects), NamespaceKey(name)), labels,
                                         if setController then Some(owner) else None);
            Stepped(old(c.objects), c.objects, NamespaceKey(name), want, ok, old(c.failures) < c.failures)
  {
    var key := NamespaceKey(name);
    var fetched := c.Get(key);
    if fetched.Failed? {
      return false;
    }
    var ns := if fetched.Found? then fetched.child else Child(map[], NamespaceBody, None, false);
    var merged := MergeLabels(ns.labels, labels);
    ns := ns.(labels := merged);
    if setController {
      match SetControllerReference(owner, ns)
      case Err(_) => return false;
      case Ok(owned) => ns := owned;
    }
    ok := c.Write(key, fetched, ns);
  }

  /** The owner's finalizer is never kept waiting: either deletion has been requested, or the
      call failed and is to be retried. */
  method EnsureNamespaceDeleted(c: Cluster, name: string) returns (done: bool, ok: bool)
    requires c.Valid()
    modifies c
    ensures c.Valid() && old(c.calls) <= c.calls && old(c.failures) <= c.failures
    ensures done == ok
    ensures ok ==> Reclaimed(c.objects, NamespaceKey(name))
    ensures ok <==> old(c.failures) == c.failures
    ensures c.objects.Keys <= old(c.objects).Keys
    ensures forall k | k != NamespaceKey(name) :: Slot(c.objects, k) == Slot(old(c.objects), k)
    ensures Reclaimed(old(c.objects), NamespaceKey(name)) ==> Reclaimed(c.objects, NamespaceKey(name))
  {
    var key := NamespaceKey(name);
    var fetched := c.Get(key);
    if fetched.NotFound? {
      return true, true;
    }
    if fetched.Failed? {
      return false, false;
    }
    if !fetched.child.terminating {
      var r := c.Delete(key);
      if r != Done && r != Missing {
        return false, false;
      }
    }
    return true, true;
  }
}
