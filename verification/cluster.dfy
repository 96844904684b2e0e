/** The child objects of the cluster and the API calls that reach them. */
module Clusters {
  import opened Base
  import opened Labels

  datatype Kind =
    | Namespace | ResourceQuota | LimitRange | NetworkPolicy | RoleBinding | ConfigMap | Secret
    | Application | Kustomization | GitRepository

  datatype Key = Key(kind: Kind, namespace: string, name: string)

  const GITOPS_KINDS: set<Kind> := {Application, Kustomization, GitRepository}
  const DRAINING_KINDS: set<Kind> := {Namespace} + GITOPS_KINDS

  type ResourceList = map<string, int>

  datatype LimitItem = ContainerLimits(default: Option<ResourceList>, defaultRequest: Option<ResourceList>,
                                       max: Option<ResourceList>)

  datatype Peer = PodsOfSameNamespace
  datatype Protocol = TCP | UDP
  datatype Port = Port(protocol: Protocol, number: int)
  datatype Rule = Rule(peers: seq<Peer>, ports: seq<Port>)
  datatype PolicyType = Ingress | Egress

  datatype RoleRef = RoleRef(apiGroup: string, kind: string, name: string)
  datatype Subject = Subject(kind: string, name: string, namespace: string, apiGroup: string)

  datatype GitOpsSpec =
    | ArgoApplication(repoURL: string, revision: string, path: string, destination: string,
                      automated: Option<bool>)
    | FluxRepository(url: string, ref: string)
    | FluxKustomization(path: string, prune: bool, destination: string, source: string)

  datatype Body =
    | NamespaceBody
    | QuotaBody(hard: ResourceList)
    | LimitsBody(items: seq<LimitItem>)
    | PolicyBody(podSelector: Labels, policyTypes: seq<PolicyType>, ingress: seq<Rule>, egress: seq<Rule>)
    | BindingBody(roleRef: RoleRef, subjects: seq<Subject>)
    | DataBody(data: map<string, string>)
    | GitOpsBody(spec: GitOpsSpec)

  /** `controller` is the controller owner reference; `terminating` a set deletionTimestamp. */
  datatype Child = Child(labels: Labels, body: Body, controller: Option<string>, terminating: bool)

  type Objects = map<Key, Child>

  function NamespaceKey(name: string): Key { Key(Namespace, "", name) }

  function Slot(objects: Objects, key: Key): Option<Child> {
    if key in objects then Some(objects[key]) else None
  }

  function Place(objects: Objects, key: Key, slot: Option<Child>): Objects {
    if slot.Some? then objects[key := slot.value] else objects - {key}
  }

  /** Absent, or on its way out. */
  predicate Reclaimed(objects: Objects, key: Key) {
    key !in objects || objects[key].terminating
  }

  predicate Live(objects: Objects, key: Key) { !Reclaimed(objects, key) }

  /** A create needs a live namespace around it; an update may not change a RoleRef. */
  predicate Writable(objects: Objects, key: Key, child: Child) {
    if key in objects
    then objects[key].body.BindingBody? && child.body.BindingBody? ==> objects[key].body.roleRef == child.body.roleRef
    else key.kind == Namespace || Live(objects, NamespaceKey(key.namespace))
  }

  function SetControllerReference(owner: string, child: Child): Result<Child> {
    if child.controller.Some? && child.controller.value != owner
    then Err("already owned by another controller")
    else Ok(child.(controller := Some(owner)))
  }

  /** Nothing but an API fault stands between the cluster and `want`. */
  predicate Possible(before: Objects, key: Key, want: Result<Option<Child>>) {
    want.Ok? && (want.value.Some? ==> Writable(before, key, want.value.value))
  }

  /** What a converging call does to the cluster. It succeeds exactly if it is possible and no
      API fault has hit it (`failed`); then the object under `key` is what `want` asks for and
      nothing else has moved. After an error that has happened all the same, or nothing has. */
  predicate Stepped(before: Objects, after: Objects, key: Key, want: Result<Option<Child>>, ok: bool, failed: bool) {
    && (ok <==> Possible(before, key, want) && !failed)
    && (ok ==> after == Place(before, key, want.value))
    && (!ok ==> after == before || (Possible(before, key, want) && after == Place(before, key, want.value)))
  }

  /** Objects have only gone, and what was gone or going still is. */
  ghost predicate Receding(before: Objects, after: Objects) {
    && after.Keys <= before.Keys
    && forall key :: Reclaimed(before, key) ==> Reclaimed(after, key)
  }

  /** The deletion of one object. */
  lemma SlotsRecede(before: Objects, after: Objects, key: Key)
    requires after.Keys <= before.Keys
    requires forall k | k != key :: Slot(after, k) == Slot(before, k)
    requires Reclaimed(before, key) ==> Reclaimed(after, key)
    ensures Receding(before, after)
  {
    forall k | Reclaimed(before, k) ensures Reclaimed(after, k) {
      assert k != key ==> Slot(after, k) == Slot(before, k);
    }
  }

  datatype Reply = Found(child: Child) | NotFound | Failed
  datatype Ack = Done | Missing | NoMatch | Error

  /** `faults` decides call by call what the API server does. Nobody but the controllers
      writes the managed objects, so a read stays valid until the write that follows it. */
  class Cluster {
    const faults: nat -> Outcome
    const lingers: nat -> bool
    const engines: set<Kind>
    var calls: nat
    var failures: nat
    var objects: Objects

    ghost predicate Valid() reads this {
      && (forall k | k in objects :: Known(k.kind))
      && failures == Faults(calls)
    }

    /** The faults among the first n calls; a rejected call is not a fault. */
    ghost function Faults(n: nat): nat {
      if n == 0 then 0 else Faults(n - 1) + if faults(n - 1) == Served then 0 else 1
    }

    lemma {:induction false} NoFaults(n: nat)
      requires forall k :: faults(k) == Served
      ensures Faults(n) == 0
    {
      if n > 0 {
        NoFaults(n - 1);
      }
    }

    /** The GitOps kinds are optional: an engine that is not installed has no objects. */
    predicate Known(kind: Kind) {
      kind in GITOPS_KINDS ==> kind in engines
    }

    constructor (faults: nat -> Outcome, lingers: nat -> bool, engines: set<Kind>, objects: Objects)
      requires forall k | k in objects :: k.kind in GITOPS_KINDS ==> k.kind in engines
      ensures Valid() && calls == 0 && failures == 0 && this.objects == objects
      ensures this.faults == faults && this.engines == engines && this.lingers == lingers
    {
      this.faults, this.lingers, this.engines := faults, lingers, engines;
      calls, failures, this.objects := 0, 0, objects;
    }

    method Get(key: Key) returns (r: Reply)
      requires Valid()
      modifies this`calls, this`failures
      ensures Valid() && calls == old(calls) + 1
      ensures r.Found? ==> key in objects && r.child == objects[key]
      ensures r.NotFound? ==> key !in objects
      ensures r.Failed? <==> faults(old(calls)) != Served || !Known(key.kind)
      ensures failures == old(failures) + if faults(old(calls)) == Served then 0 else 1
    {
      var outcome := faults(calls);
      calls := calls + 1;
      if outcome != Served {
        failures := failures + 1;
      }
      if outcome != Served || !Known(key.kind) {
        r := Failed;
      } else if key in objects {
        r := Found(objects[key]);
      } else {
        r := NotFound;
      }
    }

    /** The writing half of CreateOrUpdate: creates or updates, and calls nobody when the
        object is already equal to what is wanted. */
    method Write(key: Key, fetched: Reply, child: Child) returns (ok: bool)
      requires Valid() && Known(key.kind)
      requires fetched == if key in objects then Found(objects[key]) else NotFound
      modifies this
      ensures Valid() && old(calls) <= calls && old(failures) <= failures
      ensures Stepped(old(objects), objects, key, Ok(Some(child)), ok, old(failures) < failures)
    {
      if fetched == Found(child) {
        assert objects == objects[key := child];
        return true;
      }
      var outcome := faults(calls);
      calls := calls + 1;
      ok := outcome == Served && Writable(objects, key, child);
      if outcome != Refused && Writable(objects, key, child) {
        objects := objects[key := child];
      }
      if outcome != Served {
        failures := failures + 1;
      }
    }

    /** A namespace keeps existing while it drains; so may a GitOps object. Every other kind
        goes at once. */
    method Delete(key: Key) returns (r: Ack)
      requires Valid()
      modifies this
      ensures Valid() && calls == old(calls) + 1 && old(failures) <= failures
      ensures old(objects).Keys >= objects.Keys
      ensures forall k | k != key :: Slot(objects, k) == Slot(old(objects), k)
      ensures r == Missing ==> key !in old(objects)
      ensures r == NoMatch ==> !Known(key.kind)
      ensures r != Error ==> Reclaimed(objects, key)
      ensures r == Error ==> objects == old(objects) || Reclaimed(objects, key)
      ensures r == Error <==> faults(old(calls)) != Served
      ensures key.kind !in DRAINING_KINDS ==>
                objects == old(objects) || objects == old(objects) - {key}
      ensures key.kind !in DRAINING_KINDS && r != Error ==>
                objects == old(objects) - {key}
      ensures failures == old(failures) + if r == Error then 1 else 0
      ensures Reclaimed(old(objects), key) ==> Reclaimed(objects, key)
    {
      var outcome := faults(calls);
      var n := calls;
      calls := calls + 1;
      if !Known(key.kind) && outcome == Served {
        assert objects - {key} == objects;
        return NoMatch;
      }
      r := if outcome != Served then Error else if key in objects then Done else Missing;
      if outcome != Refused {
        if key in objects && (key.kind == Namespace ||
                              (key.kind in GITOPS_KINDS && lingers(n)))
        {
          objects := objects[key := objects[key].(terminating := true)];
        } else {
          objects := objects - {key};
        }
      }
      if r == Error {
        failures := failures + 1;
      }
    }

    /** Delete, with a missing object counted as deleted. */
    method Discard(key: Key) returns (ok: bool)
      requires Valid() && key.kind !in DRAINING_KINDS
      modifies this
      ensures Valid() && old(calls) <= calls && old(failures) <= failures
      ensures Stepped(old(objects), objects, key, Ok(None), ok, old(failures) < failures)
    {
      var r := Delete(key);
      ok := r == Done || r == Missing;
    }
  }
}
