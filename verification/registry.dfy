/** One custom resource in the API server: the log of its persisted versions, the informer
    cache that trails it, and the users who edit it between any two calls. */
module Registries {
  import opened Base

  /** `held` tells whether the controller's finalizer is on the object. */
  datatype Resource<S, T> = Resource(spec: S, generation: nat, deleting: bool, held: bool, status: T)

  datatype Act<S> =
    | Edit(spec: S)
    | RequestDeletion
    | Deliver(upTo: nat)
    | Resync

  datatype Turn<S> = Turn(act: Act<S>, outcome: Outcome, deliveredGone: bool)

  datatype Reply<S, T> = Found(version: nat, resource: Resource<S, T>) | NotFound | Failed

  /** `b` is the same object at a later version: generations do not go back, each belongs to
      one spec, and a requested deletion stays requested. */
  predicate Later<S(==), T>(a: Resource<S, T>, b: Resource<S, T>) {
    && a.generation <= b.generation
    && (a.generation == b.generation ==> a.spec == b.spec)
    && (a.deleting ==> b.deleting)
  }

  predicate Ordered<S(==), T>(log: seq<Resource<S, T>>) {
    forall i, j | 0 <= i <= j < |log| :: Later(log[i], log[j])
  }

  lemma OrderedSnoc<S, T>(log: seq<Resource<S, T>>, next: Resource<S, T>)
    requires Ordered(log) && log != [] && Later(log[|log| - 1], next)
    ensures Ordered(log + [next])
  {
    var longer := log + [next];
    forall i, j | 0 <= i <= j < |longer| ensures Later(longer[i], longer[j]) {
      if j == |log| && i < |log| {
        assert Later(log[i], log[|log| - 1]);
      }
    }
  }

  function Latest<S, T>(log: seq<Resource<S, T>>): Resource<S, T>
    requires log != []
  {
    log[|log| - 1]
  }

  /** Admission keeps the immutable part of a spec. */
  ghost predicate Preserves<S(!new)>(admit: (S, S) -> bool, identity: S -> string) {
    forall a, b | admit(a, b) :: identity(a) == identity(b)
  }

  class Registry<S(==, !new), T(==)> {
    /** What happens at the n-th turn, and which edits admission lets through. `identity` is
        the part of a spec that admission keeps fixed. */
    const schedule: nat -> Turn<S>
    const admit: (S, S) -> bool
    const identity: S -> string
    var turn: nat
    var log: seq<Resource<S, T>>
    var gone: bool
    var seen: nat
    var pending: bool
    var failures: nat
    ghost var read: nat

    ghost predicate Valid() reads this {
      && Preserves(admit, identity)
      && read <= seen < |log|
      && Ordered(log)
      && (forall i | 0 <= i < |log| :: identity(log[i].spec) == identity(log[0].spec))
      && (forall i | 0 <= i < |log| :: log[i].deleting && !log[i].held ==> gone)
    }

    function Last(): Resource<S, T>
      requires |log| > 0
      reads this
    {
      log[|log| - 1]
    }

    /** The persisted object exists and carries the finalizer. */
    predicate Held() reads this {
      |log| > 0 && !gone && Last().held
    }

    constructor (schedule: nat -> Turn<S>, admit: (S, S) -> bool, identity: S -> string, spec: S, status: T)
      requires Preserves(admit, identity)
      ensures Valid() && !gone && pending && failures == 0 && read == seen == 0 && turn == 0
      ensures log == [Resource(spec, 1, false, false, status)]
      ensures this.admit == admit && this.identity == identity && this.schedule == schedule
    {
      this.schedule, this.admit, this.identity := schedule, admit, identity;
      turn, failures, seen, read := 0, 0, 0, 0;
      log := [Resource(spec, 1, false, false, status)];
      gone, pending := false, true;
    }

    /** The server's answer to a deletion request: a timestamp and a new generation; without a
        finalizer the object goes at once. */
    method MarkDeleted()
      requires Valid() && !gone && !Last().deleting
      modifies this`log, this`gone
      ensures Valid() && gone == !old(Last()).held
      ensures log == old(log) + [old(Last()).(deleting := true, generation := old(Last()).generation + 1)]
    {
      var next := Last().(deleting := true, generation := Last().generation + 1);
      OrderedSnoc(log, next);
      log := log + [next];
      gone := !next.held;
    }

    /** An edit that admission has let through. */
    method Accept(spec: S)
      requires Valid() && !gone && admit(Last().spec, spec)
      modifies this`log
      ensures Valid() && log == old(log) + [old(Last()).(spec := spec, generation := old(Last()).generation + 1)]
      ensures identity(spec) == identity(old(Last()).spec)
    {
      assert identity(Last().spec) == identity(spec);
      var next := Last().(spec := spec, generation := Last().generation + 1);
      OrderedSnoc(log, next);
      log := log + [next];
    }

    /** One act of the world outside the controllers: an admitted spec edit, a deletion
        request, an event delivered to the cache, or a timer. Users touch neither finalizer
        nor status; the server raises the generation when the spec changes or deletion is
        requested, and an object without finalizer goes at once. */
    method Others()
      requires Valid()
      modifies this
      ensures Valid() && read == old(read) && failures == old(failures)
      ensures old(pending) ==> pending
      ensures seen == old(seen) || (seen > old(seen) && pending)
      ensures log == old(log) || (|log| == |old(log)| + 1 && old(log) == log[..|old(log)|])
      ensures Last().status == old(Last()).status && Last().held == old(Last()).held
      ensures Later(old(Last()), Last()) && identity(Last().spec) == identity(old(Last()).spec)
      ensures old(gone) ==> gone && log == old(log)
      ensures log == old(log) ==> gone == old(gone)
      ensures gone && !old(gone) ==> !old(Last()).held
      ensures turn == old(turn) + 1
      ensures schedule(old(turn)).act.RequestDeletion? && !old(gone) && !old(Last()).deleting ==>
                && log == old(log) + [old(Last()).(deleting := true, generation := old(Last()).generation + 1)]
                && seen == old(seen)
      ensures schedule(old(turn)).act.Deliver? ==>
                var upTo := schedule(old(turn)).act.upTo;
                log == old(log) && seen == if old(seen) < upTo < |log| then upTo else old(seen)
    {
      hide Ordered, Preserves;
      var t := schedule(turn);
      turn := turn + 1;
      match t.act
      case Edit(spec) =>
        if !gone && admit(Last().spec, spec) && spec != Last().spec {
          Accept(spec);
        }
      case RequestDeletion =>
        if !gone && !Last().deleting {
          MarkDeleted();
        }
      case Deliver(upTo) =>
        if seen < upTo < |log| {
          seen := upTo;
          pending := true;
        }
      case Resync =>
        pending := true;
    }

    /** Reads the cache, which trails the store but never goes back. */
    method Get() returns (r: Reply<S, T>)
      requires Valid()
      modifies this`turn, this`failures, this`read
      ensures Valid()
      ensures r.Found? ==> r == Found(seen, log[seen]) && read == seen
      ensures !r.Found? ==> read == old(read)
      ensures r.NotFound? ==> gone
      ensures failures == old(failures) + if r.Failed? then 1 else 0
      ensures turn == old(turn) + 1 && (r.Failed? <==> schedule(old(turn)).outcome != Served)
    {
      var t := schedule(turn);
      turn := turn + 1;
      if t.outcome != Served {
        failures := failures + 1;
        return Failed;
      }
      if gone && t.deliveredGone {
        return NotFound;
      }
      read := seen;
      r := Found(seen, log[seen]);
    }

    /** A read of other resources through the same client: it is answered or it fails. */
    method Answered() returns (ok: bool)
      requires Valid()
      modifies this`turn, this`failures
      ensures Valid()
      ensures failures == old(failures) + if ok then 0 else 1
      ensures turn == old(turn) + 1 && (ok <==> schedule(old(turn)).outcome == Served)
    {
      ok := schedule(turn).outcome == Served;
      turn := turn + 1;
      if !ok {
        failures := failures + 1;
      }
    }

    /** Appends a version; a write that changes nothing makes none. */
    method Commit(next: Resource<S, T>)
      requires Valid() && !gone && Later(Last(), next) && next.spec == Last().spec
      requires next.deleting && !next.held ==> next != Last()
      modifies this`log, this`gone
      ensures Valid() && Last() == next
      ensures next == old(Last()) ==> log == old(log)
      ensures next != old(Last()) ==> log == old(log) + [next]
      ensures gone <==> next.deleting && !next.held
    {
      if next != Last() {
        OrderedSnoc(log, next);
        log := log + [next];
        gone := next.deleting && !next.held;
      }
    }

    /** Update: writes metadata, here the finalizer, and never the status. A stale version is
        rejected. Dropping the last finalizer of a deleting object removes it. */
    method Update(version: nat, held: bool) returns (ok: bool)
      requires Valid() && version < |log|
      modifies this
      ensures Valid() && read == old(read) && seen == old(seen) && pending == old(pending)
      ensures failures == old(failures) + if ok then 0 else 1
      ensures log == old(log) ||
              (old(version == |log| - 1 && !gone) && log == old(log) + [old(Last()).(held := held)])
      ensures ok ==> old(version == |log| - 1 && !gone) && Last() == old(Last()).(held := held)
      ensures gone == if log == old(log) then old(gone) else Last().deleting && !held
      ensures turn == old(turn) + 1
      ensures ok <==> schedule(old(turn)).outcome == Served && old(version == |log| - 1 && !gone)
    {
      var t := schedule(turn);
      turn := turn + 1;
      ok := t.outcome == Served && version == |log| - 1 && !gone;
      if t.outcome != Refused && version == |log| - 1 && !gone {
        Commit(Last().(held := held));
      }
      if !ok {
        failures := failures + 1;
      }
    }

    /** Status().Update: writes the status and nothing else, and reports the new version. */
    method UpdateStatus(version: nat, status: T) returns (ok: bool, written: nat)
      requires Valid() && version < |log|
      modifies this
      ensures Valid() && read == old(read) && seen == old(seen) && pending == old(pending) && gone == old(gone)
      ensures failures == old(failures) + if ok then 0 else 1
      ensures log == old(log) ||
              (old(version == |log| - 1 && !gone) && log == old(log) + [old(Last()).(status := status)])
      ensures ok ==> old(version == |log| - 1 && !gone) && Last() == old(Last()).(status := status)
      ensures written == if ok then |log| - 1 else version
      ensures turn == old(turn) + 1
      ensures ok <==> schedule(old(turn)).outcome == Served && old(version == |log| - 1 && !gone)
      ensures schedule(old(turn)).outcome == Refused ==> log == old(log)
    {
      var t := schedule(turn);
      turn := turn + 1;
      ok := t.outcome == Served && version == |log| - 1 && !gone;
      if t.outcome != Refused && version == |log| - 1 && !gone {
        Commit(Last().(status := status));
      }
      written := if ok then |log| - 1 else version;
      if !ok {
        failures := failures + 1;
      }
    }

    /** Delete: asks for deletion of whatever version is current. */
    method Delete() returns (ok: bool)
      requires Valid()
      modifies this
      ensures Valid() && read == old(read) && seen == old(seen) && pending == old(pending)
      ensures failures == old(failures) + if ok then 0 else 1
      ensures log == old(log) || (|log| == |old(log)| + 1 && old(log) == log[..|old(log)|])
      ensures Last().status == old(Last()).status && Last().held == old(Last()).held
      ensures Later(old(Last()), Last()) && identity(Last().spec) == identity(old(Last()).spec)
      ensures ok && !gone ==> Last().deleting
      ensures old(gone) ==> gone && log == old(log)
      ensures log == old(log) ==> gone == old(gone)
      ensures gone && !old(gone) ==> !old(Last()).held
    {
      var t := schedule(turn);
      turn := turn + 1;
      ok := t.outcome == Served;
      if t.outcome != Refused && !gone && !Last().deleting {
        MarkDeleted();
      }
      if !ok {
        failures := failures + 1;
      }
    }
  }
}
