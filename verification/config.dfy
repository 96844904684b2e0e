/** internal/platform/config.go: the projected ConfigMap and Secret of an environment. */
module Configs {
  import opened Base
  import opened Labels
  import opened Clusters
  import opened Quotas

  const CONFIG_NAME := "upo-env-config"
  const SECRET_NAME := "upo-env-secrets"

  datatype Selector = Selector(name: string, key: string, optional: bool)

  function SecretKey(namespace: string, name: string): Key { Key(Secret, namespace, name) }

  function DesiredConfig(slot: Option<Child>, data: map<string, string>, labels: Labels): Result<Option<Child>> {
    if |data| == 0 then Ok(None) else Overwrite(slot, labels, DataBody(data), None)
  }

  method ReconcileConfigMap(c: Cluster, namespace: string, name: string, data: map<string, string>, labels: Labels)
    returns (ok: bool)
    requires c.Valid()
    modifies c
    ensures c.Valid() && old(c.calls) <= c.calls && old(c.failures) <= c.failures
    ensures var key := Key(ConfigMap, namespace, name);
            Stepped(old(c.objects), c.objects, key, DesiredConfig(Slot(old(c.objects), key), data, labels),
                    ok, old(c.failures) < c.failures)
  {
    var key := Key(ConfigMap, namespace, name);
    if |data| == 0 {
      ok := c.Discard(key);
      return;
    }
    var fetched := c.Get(key);
    if fetched.Failed? {
      return false;
    }
    ok := Apply(c, key, fetched, labels, DataBody(data), None);
  }

  /** The value a selector finds in its source Secret. */
  function Resolve(objects: Objects, namespace: string, sel: Selector): Option<string> {
    var key := SecretKey(namespace, sel.name);
    if key in objects && objects[key].body.DataBody? && sel.key in objects[key].body.data
    then Some(objects[key].body.data[sel.key]) else None
  }

  /** Folds the selectors, in order, into the projected data. */
  function Collect(objects: Objects, namespace: string, selectors: seq<Selector>): Result<map<string, string>> {
    if selectors == [] then Ok(map[])
    else
      var n := |selectors| - 1;
      var sel := selectors[n];
      match Collect(objects, namespace, selectors[..n])
      case Err(e) => Err(e)
      case Ok(data) =>
        match Resolve(objects, namespace, sel)
        case Some(v) => Ok(data[sel.key := v])
        case None => if sel.optional then Ok(data) else Err("required selector does not resolve")
  }

  function DesiredSecret(slot: Option<Child>, selectors: seq<Selector>, collected: Result<map<string, string>>,
                         labels: Labels): Result<Option<Child>> {
    if selectors == [] then Ok(None)
    else match collected
         case Ok(data) => Overwrite(slot, labels, DataBody(data), None)
         case Err(e) => Err(e)
  }

  /** All or nothing: a selector that cannot be resolved, or a lookup that fails, leaves the
      destination as it was; and success means that no lookup has failed. */
  method ProjectSecrets(c: Cluster, source: string, destination: string, name: string,
                        selectors: seq<Selector>, labels: Labels) returns (ok: bool)
    requires c.Valid()
    modifies c
    ensures c.Valid() && old(c.calls) <= c.calls && old(c.failures) <= c.failures
    ensures var key := SecretKey(destination, name);
            Stepped(old(c.objects), c.objects, key,
                    DesiredSecret(Slot(old(c.objects), key), selectors, Collect(old(c.objects), source, selectors),
                      labels),
                    ok, old(c.failures) < c.failures)
    ensures var there := Key(Secret, destination, name) in old(c.objects) ||
                         Live(old(c.objects), Key(Namespace, "", destination));
            ok <==> && old(c.failures) == c.failures
                    && (selectors != [] ==> there && Satisfied(old(c.objects), source, selectors))
    ensures var key := Key(Secret, destination, name);
            if ok && selectors == [] then key !in c.objects
            else ok ==> key in c.objects && c.objects[key].body.DataBody? &&
                        Projects(old(c.objects), source, selectors, c.objects[key].body.data)
    ensures c.objects != old(c.objects) ==>
              forall n | old(c.calls) <= n < old(c.calls) + |selectors| :: c.faults(n) == Served
  {
    hide Satisfied, Projects, Found;
    var key := SecretKey(destination, name);
    CollectMeans(c.objects, source, selectors);
    CollectSucceeds(c.objects, source, selectors);
    if |selectors| == 0 {
      ok := c.Discard(key);
      return;
    }
    var collected: map<string, string> := map[];
    for i := 0 to |selectors|
      invariant c.Valid() && c.objects == old(c.objects)
      invariant c.calls == old(c.calls) + i && c.failures == old(c.failures)
      invariant forall n | old(c.calls) <= n < c.calls :: c.faults(n) == Served
      invariant Collect(c.objects, source, selectors[..i]) == Ok(collected)
    {
      var sel := selectors[i];
      assert selectors[..i + 1][..i] == selectors[..i];
      var src := c.Get(SecretKey(source, sel.name));
      if src.Failed? {
        return false;
      }
      var value := if src.Found? && src.child.body.DataBody? && sel.key in src.child.body.data
                   then Some(src.child.body.data[sel.key]) else None;
      assert value == Resolve(c.objects, source, sel);
      if value.None? {
        if sel.optional {
          continue;
        }
        CollectFails(c.objects, source, selectors, i + 1);
        return false;
      }
      collected := collected[sel.key := value.value];
    }
    assert selectors[..|selectors|] == selectors;
    var fetched := c.Get(key);
    if fetched.Failed? {
      return false;
    }
    ok := Apply(c, key, fetched, labels, DataBody(collected), None);
  }

  /** A prefix that cannot be resolved spoils the whole list. */
  lemma {:induction false} CollectFails(objects: Objects, namespace: string, selectors: seq<Selector>, n: nat)
    requires n <= |selectors| && Collect(objects, namespace, selectors[..n]).Err?
    ensures Collect(objects, namespace, selectors).Err?
  {
    if n == |selectors| {
      assert selectors[..n] == selectors;
    } else {
      var init := selectors[..|selectors| - 1];
      assert init[..n] == selectors[..n];
      CollectFails(objects, namespace, init, n);
    }
  }

  // ---- What the selectors project, told of the source objects alone ----

  /** The Secret that the selector names is there and has the selector's key. */
  predicate Found(objects: Objects, namespace: string, sel: Selector) {
    var source := Key(Secret, namespace, sel.name);
    source in objects && objects[source].body.DataBody? && sel.key in objects[source].body.data
  }

  function ValueOf(objects: Objects, namespace: string, sel: Selector): string
    requires Found(objects, namespace, sel)
  {
    objects[Key(Secret, namespace, sel.name)].body.data[sel.key]
  }

  /** Selector i is the last one in the list that finds a value for its key. */
  predicate Decides(objects: Objects, namespace: string, selectors: seq<Selector>, i: nat)
    requires i < |selectors|
  {
    && Found(objects, namespace, selectors[i])
    && forall j | i < j < |selectors| ::
         selectors[j].key == selectors[i].key ==> !Found(objects, namespace, selectors[j])
  }

  predicate Satisfied(objects: Objects, namespace: string, selectors: seq<Selector>) {
    forall i | 0 <= i < |selectors| :: selectors[i].optional || Found(objects, namespace, selectors[i])
  }

  /** Every required selector finds its value; each key holds what the last selector for it has
      found; and there are no other keys. */
  ghost predicate Projects(objects: Objects, namespace: string, selectors: seq<Selector>, data: map<string, string>) {
    && Satisfied(objects, namespace, selectors)
    && (forall i: nat | i < |selectors| && Decides(objects, namespace, selectors, i) ::
          selectors[i].key in data && data[selectors[i].key] == ValueOf(objects, namespace, selectors[i]))
    && forall k | k in data ::
         exists i: nat | i < |selectors| && selectors[i].key == k :: Decides(objects, namespace, selectors, i)
  }

  lemma ResolveMeans(objects: Objects, namespace: string, sel: Selector)
    ensures Resolve(objects, namespace, sel) ==
              if Found(objects, namespace, sel) then Some(ValueOf(objects, namespace, sel)) else None
  {
  }

  /** The projection succeeds exactly when every required selector finds its value. */
  lemma {:induction false} ProjectionSucceeds(objects: Objects, namespace: string, selectors: seq<Selector>)
    ensures Collect(objects, namespace, selectors).Ok? <==>
            forall i | 0 <= i < |selectors| :: selectors[i].optional || Found(objects, namespace, selectors[i])
  {
    if selectors != [] {
      var n := |selectors| - 1;
      var init := selectors[..n];
      ProjectionSucceeds(objects, namespace, init);
      ResolveMeans(objects, namespace, selectors[n]);
      assert forall i | 0 <= i < n :: selectors[i] == init[i];
    }
  }

  /** Then each key holds the value of the last selector that finds one for it, and there are
      no other keys. */
  lemma {:induction false} LastSelectorWins(objects: Objects, namespace: string, selectors: seq<Selector>, i: nat)
    requires Collect(objects, namespace, selectors).Ok? && i < |selectors| && Decides(objects, namespace, selectors, i)
    ensures var data := Collect(objects, namespace, selectors).value;
            selectors[i].key in data && data[selectors[i].key] == ValueOf(objects, namespace, selectors[i])
  {
    hide Resolve, Found, ValueOf;
    var n := |selectors| - 1;
    var init := selectors[..n];
    ResolveMeans(objects, namespace, selectors[n]);
    assert Found(objects, namespace, selectors[n]) && i < n ==> selectors[n].key != selectors[i].key;
    if i < n {
      assert forall j | i <= j < n :: selectors[j] == init[j];
      LastSelectorWins(objects, namespace, init, i);
    }
  }

  lemma {:induction false} NoOtherKeys(objects: Objects, namespace: string, selectors: seq<Selector>, k: string)
    returns (i: nat)
    requires Collect(objects, namespace, selectors).Ok? && k in Collect(objects, namespace, selectors).value
    ensures i < |selectors| && selectors[i].key == k && Decides(objects, namespace, selectors, i)
  {
    hide Resolve, Found, ValueOf;
    var n := |selectors| - 1;
    var init := selectors[..n];
    ResolveMeans(objects, namespace, selectors[n]);
    if selectors[n].key == k && Found(objects, namespace, selectors[n]) {
      i := n;
    } else {
      i := NoOtherKeys(objects, namespace, init, k);
      assert forall j | i <= j < n :: selectors[j] == init[j];
    }
  }

  lemma CollectSucceeds(objects: Objects, namespace: string, selectors: seq<Selector>)
    ensures Collect(objects, namespace, selectors).Ok? <==> Satisfied(objects, namespace, selectors)
  {
    hide Collect, Found;
    ProjectionSucceeds(objects, namespace, selectors);
  }

  /** Hence the projected data are determined by the source objects. */
  lemma CollectMeans(objects: Objects, namespace: string, selectors: seq<Selector>)
    ensures forall data :: Collect(objects, namespace, selectors) == Ok(data) <==>
                           Projects(objects, namespace, selectors, data)
  {
    hide Collect, Found, ValueOf;
    ProjectionSucceeds(objects, namespace, selectors);
    if Collect(objects, namespace, selectors).Ok? {
      var made := Collect(objects, namespace, selectors).value;
      forall i: nat | i < |selectors| && Decides(objects, namespace, selectors, i)
        ensures selectors[i].key in made && made[selectors[i].key] == ValueOf(objects, namespace, selectors[i])
      {
        LastSelectorWins(objects, namespace, selectors, i);
      }
      forall k | k in made
        ensures exists i: nat | i < |selectors| && selectors[i].key == k :: Decides(objects, namespace, selectors, i)
      {
        var i := NoOtherKeys(objects, namespace, selectors, k);
      }
      forall data | Projects(objects, namespace, selectors, data) ensures data == made {
        OneProjection(objects, namespace, selectors, data, made);
      }
    }
  }

  lemma OneProjection(objects: Objects, namespace: string, selectors: seq<Selector>, a: map<string, string>,
                      b: map<string, string>)
    requires Projects(objects, namespace, selectors, a) && Projects(objects, namespace, selectors, b)
    ensures a == b
  {
    hide Found, ValueOf, Decides;
    assert forall k | k in a :: k in b && a[k] == b[k];
    assert forall k | k in b :: k in a;
  }
}
