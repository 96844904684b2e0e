/** What every controller of this operator has in common: one custom resource, one pass over
    it at a time, and a cluster that others write to as well. The rules that are particular to
    a kind of resource are parameters. */
module Stages {
  import opened Base
  import opened Conditions
  import opened Clusters
  import opened Registries

  /** `managed` are the objects that belong to the resource alone. Every persisted version
      `fits`, and its status is about generation `observed`. A status is linked to the one
      before it by `link`, which may refer to the clock at the start of the pass and now.
      `claim` is what a live version says of the cluster, and `closed` what the controller owes
      the cluster when it releases the resource. `order` relates the objects before and after
      any step. A controller that has read a version may itself request the deletion of the
      resource only when it is `due` at that time. */
  datatype Rules<!S(!new), !T(!new)> = Rules(
    managed: Key -> bool,
    fits: Resource<S, T> -> bool,
    observed: T -> nat,
    link: (T, T, int, int) -> bool,
    claim: (Resource<S, T>, Objects) -> bool,
    closed: (Resource<S, T>, Objects) -> bool,
    order: (Objects, Objects) -> bool,
    due: (Resource<S, T>, int) -> bool)
  {
    /** What others do breaks no rule: neither their edits of the resource, nor their writes of
        other objects. A deleted resource claims nothing. */
    ghost predicate Lawful(identity: S -> string) {
      && (forall s, start, finish :: link(s, s, start, finish))
      && (forall o :: order(o, o))
      && (forall r: Resource<S, T>, o | r.deleting :: claim(r, o))
      && (forall r: Resource<S, T>, o, held: bool | closed(r, o) :: closed(r.(held := held), o))
      && (forall a, b | fits(a) && Edited(identity, a, b) :: fits(b))
      && (forall a, b, o | fits(a) && claim(a, o) && Edited(identity, a, b) :: claim(b, o))
      && (forall r, o, key, slot | !managed(key) && fits(r) && claim(r, o) :: claim(r, Place(o, key, slot)))
      && (forall r, o, key, slot | !managed(key) && fits(r) && closed(r, o) :: closed(r, Place(o, key, slot)))
      && (forall o, key, slot | !managed(key) :: order(o, Place(o, key, slot)))
    }
  }

  /** A later version with the same status: an admitted edit, a deletion request, or a change
      of the finalizer. */
  ghost predicate Edited<S, T>(identity: S -> string, a: Resource<S, T>, b: Resource<S, T>) {
    Later(a, b) && b.status == a.status && identity(a.spec) == identity(b.spec)
  }

  /** One moment of the system. `released` tells that the controller has taken its finalizer
      off a deleted resource; `seen` is the version that it has read last; `outside` tells that
      the moment is the work of somebody else. */
  datatype Moment<S, T> = Moment(
    resource: Resource<S, T>, gone: bool, released: bool, objects: Objects, seen: Resource<S, T>,
    outside: bool, started: int, time: int)

  ghost predicate Good<S(!new), T(!new)>(rules: Rules<S, T>, m: Moment<S, T>) {
    && rules.fits(m.resource)
    && (!m.gone ==> rules.claim(m.resource, m.objects))
    && (m.released ==> m.gone && rules.closed(m.resource, m.objects))
  }

  /** Managed objects come into being only under a persisted, unreleased finalizer and before
      the controller has seen the deletion. */
  ghost predicate CreatesUnderFinalizer<S(!new), T(!new)>(rules: Rules<S, T>, a: Moment<S, T>, b: Moment<S, T>) {
    forall key | rules.managed(key) && key in b.objects && key !in a.objects ::
      a.resource.held && !a.gone && !a.seen.deleting && !b.seen.deleting
  }

  /** The controller and the others keep to their own objects. */
  ghost predicate KeepsApart<S(!new), T(!new)>(rules: Rules<S, T>, before: Objects, after: Objects, outside: bool) {
    forall key | rules.managed(key) == outside :: Slot(after, key) == Slot(before, key)
  }

  /** The controller requests no deletion that is not due for the version it has read. */
  ghost predicate DeletesWhenDue<S(!new), T(!new)>(rules: Rules<S, T>, a: Moment<S, T>, b: Moment<S, T>) {
    !b.outside && b.resource.deleting && !a.resource.deleting ==> rules.due(a.seen, b.time)
  }

  ghost predicate StepOk<S(!new), T(!new)>(rules: Rules<S, T>, a: Moment<S, T>, b: Moment<S, T>) {
    && CreatesUnderFinalizer(rules, a, b)
    && KeepsApart(rules, a.objects, b.objects, b.outside)
    && rules.order(a.objects, b.objects)
    && rules.link(a.resource.status, b.resource.status, b.started, b.time)
    && DeletesWhenDue(rules, a, b)
    && (a.seen.deleting ==> b.seen.deleting) && (a.resource.deleting ==> b.resource.deleting)
    && (a.gone ==> b.gone) && (a.released ==> b.released)
  }

  ghost predicate Faithful<S(!new), T(!new)>(rules: Rules<S, T>, history: seq<Moment<S, T>>) {
    && (forall i | 0 <= i < |history| :: Good(rules, history[i]))
    && (forall i | 0 < i < |history| :: StepOk(rules, history[i - 1], history[i]))
  }

  /** Every persisted version fits, none is about a generation that the controller has not
      read yet, and a finalizer that was ever on is still on, or the controller has read the
      deletion. */
  ghost predicate Consistent<S(!new), T(!new)>(rules: Rules<S, T>, log: seq<Resource<S, T>>, gone: bool, read: nat) {
    && read < |log| && Ordered(log)
    && (forall i | 0 <= i < |log| :: rules.fits(log[i]) && rules.observed(log[i].status) <= log[read].generation)
    && (forall i | 0 <= i < |log| :: log[i].held ==> (!gone && Latest(log).held) || log[read].deleting)
  }

  // ---- How the log grows ----

  lemma ReadMoves<S(!new), T(!new)>(rules: Rules<S, T>, log: seq<Resource<S, T>>, gone: bool, read: nat, next: nat)
    requires Consistent(rules, log, gone, read) && read <= next < |log|
    ensures Consistent(rules, log, gone, next)
    ensures log[read].deleting ==> log[next].deleting
  {
    assert Later(log[read], log[next]);
  }

  lemma HeldNow<S(!new), T(!new)>(rules: Rules<S, T>, log: seq<Resource<S, T>>, gone: bool, read: nat)
    requires Consistent(rules, log, gone, read) && log[read].held && !log[read].deleting
    ensures !gone && Latest(log).held
  {
  }

  lemma FitsAt<S(!new), T(!new)>(rules: Rules<S, T>, log: seq<Resource<S, T>>, gone: bool, read: nat, i: nat)
    requires Consistent(rules, log, gone, read) && i < |log|
    ensures rules.fits(log[i]) && (log[read].deleting ==> Latest(log).deleting)
    ensures Later(log[i], Latest(log)) && (i <= read ==> Later(log[i], log[read]))
  {
    assert Later(log[read], Latest(log));
  }

  /** A status about the present generation is about the spec that the controller has read. */
  lemma AboutWhatWasRead<S(!new), T(!new)>(rules: Rules<S, T>, log: seq<Resource<S, T>>, gone: bool, read: nat)
    requires Consistent(rules, log, gone, read)
    ensures rules.observed(Latest(log).status) == Latest(log).generation ==> log[read].spec == Latest(log).spec
  {
    assert Later(log[read], Latest(log));
  }

  /** A user edit or a deletion request, by anybody. */
  lemma Outdated<S(!new), T(!new)>(rules: Rules<S, T>, identity: S -> string, log: seq<Resource<S, T>>,
                                   t: Resource<S, T>, gone: bool, gone': bool, read: nat)
    requires Consistent(rules, log, gone, read) && rules.Lawful(identity)
    requires Edited(identity, Latest(log), t) && t.held == Latest(log).held
    requires (gone ==> gone') && (gone' && !gone ==> !t.held)
    ensures Consistent(rules, log + [t], gone', read)
  {
    var longer := log + [t];
    OrderedSnoc(log, t);
    assert rules.fits(log[|log| - 1]);
    forall i | 0 <= i < |longer| && longer[i].held ensures (!gone' && t.held) || longer[read].deleting {
      if i == |log| {
        assert log[|log| - 1].held;
      } else {
        assert log[i].held;
      }
    }
  }

  /** The finalizer is added, or released by a pass that has read the deletion; or the status
      is written. */
  lemma Written<S(!new), T(!new)>(rules: Rules<S, T>, log: seq<Resource<S, T>>, t: Resource<S, T>, read: nat)
    requires Consistent(rules, log, false, read) && rules.fits(t) && rules.observed(t.status) <= log[read].generation
    requires t == Latest(log).(held := t.held, status := t.status)
    requires t.held || t.held == Latest(log).held || log[read].deleting
    ensures Consistent(rules, log + [t], t.deleting && !t.held, read)
  {
    var longer := log + [t];
    assert Later(Latest(log), Latest(log));
    OrderedSnoc(log, t);
    assert Later(log[read], Latest(log));
    forall i | 0 <= i < |longer| && longer[i].held ensures t.held || longer[read].deleting {
      if i < |log| { assert log[i].held; }
    }
  }

  lemma ObservedAt<S(!new), T(!new)>(rules: Rules<S, T>, log: seq<Resource<S, T>>, gone: bool, read: nat)
    requires Consistent(rules, log, gone, read)
    ensures rules.observed(Latest(log).status) <= log[read].generation
  {
    assert rules.fits(log[|log| - 1]);
  }

  lemma ClosedStays<S(!new), T(!new)>(rules: Rules<S, T>, identity: S -> string, t: Resource<S, T>, objects: Objects)
    requires rules.Lawful(identity) && rules.closed(t, objects)
    ensures rules.closed(t.(held := false), objects)
  {
  }

  lemma FinalizerFits<S(!new), T(!new)>(rules: Rules<S, T>, identity: S -> string, t: Resource<S, T>, held: bool)
    requires rules.fits(t) && rules.Lawful(identity)
    ensures rules.fits(t.(held := held))
  {
    assert Edited(identity, t, t.(held := held));
  }

  // ---- How a moment follows another ----

  lemma HistoryGrows<S(!new), T(!new)>(rules: Rules<S, T>, history: seq<Moment<S, T>>, m: Moment<S, T>)
    requires Faithful(rules, history) && history != []
    ensures Good(rules, history[|history| - 1])
    ensures Good(rules, m) && StepOk(rules, history[|history| - 1], m) ==> Faithful(rules, history + [m])
  {
  }

  /** The objects and the status stay; the resource may be edited, read, marked for deletion
      or go away, and the finalizer may be added. */
  lemma QuietStep<S(!new), T(!new)>(rules: Rules<S, T>, identity: S -> string, a: Moment<S, T>, b: Moment<S, T>)
    requires Good(rules, a) && rules.Lawful(identity)
    requires b.resource == a.resource.(held := b.resource.held) || Edited(identity, a.resource, b.resource)
    requires b.objects == a.objects && (a.gone ==> b.resource == a.resource)
    requires b.released == a.released && (a.gone ==> b.gone) && (a.seen.deleting ==> b.seen.deleting)
    requires DeletesWhenDue(rules, a, b)
    ensures Good(rules, b) && StepOk(rules, a, b)
  {
    assert Edited(identity, a.resource, b.resource);
  }

  /** Somebody else writes an object that is not managed here. */
  lemma ForeignStep<S(!new), T(!new)>(
    rules: Rules<S, T>, identity: S -> string, a: Moment<S, T>, b: Moment<S, T>, key: Key, slot: Option<Child>)
    requires Good(rules, a) && rules.Lawful(identity) && !rules.managed(key) && b.outside
    requires b == a.(objects := Place(a.objects, key, slot), outside := true, started := b.started, time := b.time)
    ensures Good(rules, b) && StepOk(rules, a, b)
  {
  }

  /** Provisioning. */
  lemma BuildStep<S(!new), T(!new)>(rules: Rules<S, T>, identity: S -> string, a: Moment<S, T>, b: Moment<S, T>)
    requires Good(rules, a) && rules.Lawful(identity)
    requires b == a.(objects := b.objects, outside := false, started := b.started, time := b.time)
    requires a.resource.held && !a.gone && !a.seen.deleting
    requires KeepsApart(rules, a.objects, b.objects, false) && rules.order(a.objects, b.objects)
    requires rules.claim(a.resource, a.objects) ==> rules.claim(a.resource, b.objects)
    ensures Good(rules, b) && StepOk(rules, a, b)
  {
  }

  /** Teardown. */
  lemma ClearStep<S(!new), T(!new)>(rules: Rules<S, T>, identity: S -> string, a: Moment<S, T>, b: Moment<S, T>)
    requires Good(rules, a) && rules.Lawful(identity)
    requires b == a.(objects := b.objects, outside := false, started := b.started, time := b.time)
    requires KeepsApart(rules, a.objects, b.objects, false) && rules.order(a.objects, b.objects)
    requires Receding(a.objects, b.objects) && a.resource.deleting
    requires rules.closed(a.resource, a.objects) ==> rules.closed(a.resource, b.objects)
    ensures Good(rules, b) && StepOk(rules, a, b)
  {
  }

  /** A call that writes one managed object keeps apart. */
  lemma PlacedApart<S(!new), T(!new)>(rules: Rules<S, T>, before: Objects, after: Objects, key: Key)
    requires rules.managed(key) && forall k | k != key :: Slot(after, k) == Slot(before, k)
    ensures KeepsApart(rules, before, after, false)
  {
  }

  lemma StatusStep<S(!new), T(!new)>(rules: Rules<S, T>, identity: S -> string, a: Moment<S, T>, b: Moment<S, T>)
    requires Good(rules, a) && rules.Lawful(identity) && !a.gone && rules.fits(b.resource)
    requires b == a.(resource := b.resource, outside := false, started := b.started, time := b.time)
    requires b.resource == a.resource.(status := b.resource.status)
    requires rules.link(a.resource.status, b.resource.status, b.started, b.time)
    requires rules.claim(b.resource, b.objects)
    ensures Good(rules, b) && StepOk(rules, a, b)
  {
  }

  lemma ReleaseStep<S(!new), T(!new)>(rules: Rules<S, T>, identity: S -> string, a: Moment<S, T>, b: Moment<S, T>)
    requires Good(rules, a) && rules.Lawful(identity) && rules.fits(b.resource)
    requires b == a.(resource := a.resource.(held := false), gone := true, released := true, outside := false,
                     started := b.started, time := b.time)
    requires rules.closed(b.resource, a.objects)
    ensures Good(rules, b) && StepOk(rules, a, b)
  {
  }

  // ---- Whole runs ----

  /** Over a stretch in which only the controller acts, it touches none but its own objects. */
  lemma {:induction false} HandsOff<S(!new), T(!new)>(rules: Rules<S, T>, history: seq<Moment<S, T>>, i: nat, j: nat,
                                      key: Key)
    requires Faithful(rules, history) && i <= j < |history| && !rules.managed(key)
    requires forall k | i < k <= j :: !history[k].outside
    ensures Slot(history[j].objects, key) == Slot(history[i].objects, key)
  {
    if i < j {
      HandsOff(rules, history, i, j - 1, key);
      assert StepOk(rules, history[j - 1], history[j]);
    }
  }

  /** From the moment the controller has seen the deletion timestamp no managed object comes
      into being: every finalize pass runs after all creations. */
  lemma {:induction false} FinalizeRunsLast<S(!new), T(!new)>(rules: Rules<S, T>, history: seq<Moment<S, T>>, i: nat,
                                              j: nat, key: Key)
    requires Faithful(rules, history) && i <= j < |history| && history[i].seen.deleting
    requires rules.managed(key) && key !in history[i].objects
    ensures history[j].seen.deleting && key !in history[j].objects
  {
    if i < j {
      FinalizeRunsLast(rules, history, i, j - 1, key);
      assert StepOk(rules, history[j - 1], history[j]);
    }
  }

  /** Finalizer before effects: a managed object that is absent at one moment and there at a
      later one was created at a moment in between, by the controller, while the persisted
      resource existed and held its finalizer, and before the controller had read a deletion. */
  lemma {:induction false} CreatedUnderFinalizer<S(!new), T(!new)>(
    rules: Rules<S, T>, history: seq<Moment<S, T>>, i: nat, j: nat, key: Key) returns (k: nat)
    requires Faithful(rules, history) && i < j < |history| && rules.managed(key)
    requires key !in history[i].objects && key in history[j].objects
    ensures i < k <= j && key !in history[k - 1].objects && key in history[k].objects && !history[k].outside
    ensures history[k - 1].resource.held && !history[k - 1].gone && !history[k - 1].released
    ensures !history[k - 1].seen.deleting && !history[k].seen.deleting
  {
    assert StepOk(rules, history[j - 1], history[j]) && Good(rules, history[j - 1]);
    if key in history[j - 1].objects {
      k := CreatedUnderFinalizer(rules, history, i, j - 1, key);
    } else {
      k := j;
      assert Slot(history[j].objects, key) != Slot(history[j - 1].objects, key);
    }
  }

  /** Neither the controller's knowledge of the deletion nor the end of the resource is undone. */
  lemma {:induction false} Sticky<S(!new), T(!new)>(rules: Rules<S, T>, history: seq<Moment<S, T>>, i: nat, j: nat)
    requires Faithful(rules, history) && i <= j < |history|
    ensures history[i].seen.deleting ==> history[j].seen.deleting
    ensures history[i].resource.deleting ==> history[j].resource.deleting
    ensures history[i].gone ==> history[j].gone
    ensures history[i].released ==> history[j].released
  {
    if i < j {
      Sticky(rules, history, i, j - 1);
      assert StepOk(rules, history[j - 1], history[j]);
    }
  }

  /** Where the link between statuses is honest about readiness: as long as readiness does not
      change, its transition time is the same at both ends of a stretch, however many status
      writes were made or lost in between. */
  lemma {:induction false} ReadyTimeStays<S(!new), T(!new)>(
    rules: Rules<S, T>, conditionsOf: T -> seq<Condition>, history: seq<Moment<S, T>>, i: nat, j: nat,
    s: ConditionStatus)
    requires Faithful(rules, history) && i <= j < |history|
    requires forall a, b, start, finish | rules.link(a, b, start, finish) ::
               ReadyHonest(conditionsOf(a), conditionsOf(b), start, finish)
    requires forall k | i <= k <= j :: Conditions.Holds(conditionsOf(history[k].resource.status), READY, s)
    ensures var first := Find(conditionsOf(history[i].resource.status), READY);
            var last := Find(conditionsOf(history[j].resource.status), READY);
            first.Some? && last.Some? && first.value.lastTransition == last.value.lastTransition
  {
    if i < j {
      ReadyTimeStays(rules, conditionsOf, history, i, j - 1, s);
      assert StepOk(rules, history[j - 1], history[j]);
    }
  }

  /** And when it does change, or appears, from one moment to the next, the new transition time
      is a time of the pass that wrote it. */
  lemma ReadyFlips<S(!new), T(!new)>(
    rules: Rules<S, T>, conditionsOf: T -> seq<Condition>, history: seq<Moment<S, T>>, i: nat)
    requires Faithful(rules, history) && 0 < i < |history|
    requires forall a, b, start, finish | rules.link(a, b, start, finish) ::
               ReadyHonest(conditionsOf(a), conditionsOf(b), start, finish)
    ensures var before := Find(conditionsOf(history[i - 1].resource.status), READY);
            var after := Find(conditionsOf(history[i].resource.status), READY);
            && (before.Some? ==> after.Some?)
            && (after.Some? && (before.None? || before.value.status != after.value.status) ==>
                  history[i].started <= after.value.lastTransition <= history[i].time)
            && (after.Some? && before.Some? && before.value.status == after.value.status ==>
                  after.value.lastTransition == before.value.lastTransition)
  {
    assert StepOk(rules, history[i - 1], history[i]);
  }

  /** A deletion that the controller has requested was due, by the version that it had read. */
  lemma DeletionWasDue<S(!new), T(!new)>(rules: Rules<S, T>, history: seq<Moment<S, T>>, i: nat)
    requires Faithful(rules, history) && 0 < i < |history| && !history[i].outside
    requires history[i].resource.deleting && !history[i - 1].resource.deleting
    ensures rules.due(history[i - 1].seen, history[i].time)
  {
    assert StepOk(rules, history[i - 1], history[i]);
  }

  // ---- The stage itself ----

  /** One act of others: on the resource, or on an object that is not managed here. */
  datatype Move = ResourceMove | ObjectMove(key: Key, slot: Option<Child>)

  class Stage<S(==, !new), T(==, !new)> {
    ghost const rules: Rules<S, T>
    const owned: Key -> bool
    const registry: Registry<S, T>
    const cluster: Cluster
    const clock: Clock
    const moves: nat -> Move
    const bursts: nat -> nat
    var moved: nat
    var busy: bool
    ghost var released: bool
    ghost var started: int
    ghost var history: seq<Moment<S, T>>

    ghost function Now(outside: bool): Moment<S, T>
      requires registry.Valid()
      reads this`released, this`started, registry, cluster, clock
    {
      Moment(registry.Last(), registry.gone, released, cluster.objects,
             registry.log[registry.read], outside, started, clock.time)
    }

    ghost predicate Sound()
      reads this`released, this`started, this`history, registry, cluster, clock
    {
      && rules.Lawful(registry.identity) && registry.Valid() && cluster.Valid()
      && (forall key :: owned(key) == rules.managed(key))
      && history != [] && Faithful(rules, history)
      && history[|history| - 1].time <= clock.time && started <= clock.time
      && Consistent(rules, registry.log, registry.gone, registry.read)
    }

    /** Between two atomic actions; the present moment has been recorded. */
    ghost predicate Valid()
      reads this`released, this`started, this`history, registry, cluster, clock
    {
      && Sound()
      && var last := history[|history| - 1];
         last == Now(last.outside).(time := last.time)
    }

    /** A call has just been made on objects that were `before`. */
    ghost predicate Unrecorded(before: Objects)
      reads this`released, this`started, this`history, registry, cluster, clock
    {
      && Sound()
      && var last := history[|history| - 1];
         last == Now(last.outside).(objects := before, time := last.time)
    }

    twostate lemma Called()
      requires old(Valid()) && unchanged(this) && unchanged(registry) && unchanged(clock) && cluster.Valid()
      ensures Unrecorded(old(cluster.objects)) && registry.read < |registry.log|
    {
    }

    /** A call that only read. */
    twostate lemma Asked()
      requires old(Valid()) && unchanged(this) && unchanged(registry) && unchanged(clock) && cluster.Valid()
      requires cluster.objects == old(cluster.objects)
      ensures Valid()
    {
    }

    /** The latest moment, and what it says, is part of a faithful history. */
    lemma IsFaithful()
      requires Valid()
      ensures history != [] && Faithful(rules, history)
      ensures registry.read < |registry.log|
      ensures var last := history[|history| - 1];
              && last.seen.deleting == Stopping() && last.gone == registry.gone
              && last.resource == registry.Last() && last.released == released
    {
    }

    /** A persisted status about the present generation is about the spec that was read. */
    lemma AboutWhatItRead(before: Objects)
      requires Unrecorded(before)
      ensures registry.read < |registry.log|
      ensures rules.observed(registry.Last().status) == registry.Last().generation ==>
                Copy().spec == registry.Last().spec
    {
      AboutWhatWasRead(rules, registry.log, registry.gone, registry.read);
    }

    lemma ReleasedIsGone()
      requires Valid() && released
      ensures registry.gone
    {
    }

    function Failures(): nat
      reads registry, cluster
    {
      registry.failures + cluster.failures
    }

    /** The version that the current pass works on. */
    ghost function Copy(): Resource<S, T>
      requires registry.read < |registry.log|
      reads registry
    {
      registry.log[registry.read]
    }

    /** The pass holds this version: the one it has read, or its own status write over that. */
    ghost predicate At(version: nat)
      reads this`busy, registry
    {
      && busy && registry.read <= version < |registry.log|
      && registry.log[version] == Copy().(status := registry.log[version].status)
    }

    /** The controller has read the deletion timestamp. */
    ghost predicate Stopping()
      reads registry
    {
      registry.read < |registry.log| && Copy().deleting
    }

    ghost method Observe(outside: bool)
      requires Sound() && Good(rules, Now(outside)) && StepOk(rules, history[|history| - 1], Now(outside))
      modifies this`history
      ensures Valid() && history == old(history) + [Now(outside)]
    {
      hide Good, StepOk, Consistent, Ordered, Faithful, Later;
      HistoryGrows(rules, history, Now(outside));
      history := history + [Now(outside)];
    }

    constructor (ghost rules: Rules<S, T>, owned: Key -> bool, registry: Registry<S, T>, cluster: Cluster, clock: Clock,
                 moves: nat -> Move, bursts: nat -> nat)
      requires rules.Lawful(registry.identity) && registry.Valid() && cluster.Valid()
      requires forall key :: owned(key) == rules.managed(key)
      requires |registry.log| == 1 && !registry.Last().held && rules.fits(registry.Last())
      requires rules.observed(registry.Last().status) <= registry.Last().generation
      requires rules.claim(registry.Last(), cluster.objects) && !registry.gone
      ensures Valid() && !busy && !released
      ensures this.rules == rules && this.registry == registry && this.cluster == cluster && this.clock == clock
      ensures this.moves == moves && this.bursts == bursts
    {
      this.rules, this.owned, this.registry, this.cluster, this.clock := rules, owned, registry, cluster, clock;
      this.moves, this.bursts := moves, bursts;
      moved, busy, released, started := 0, false, false, clock.time;
      new;
      history := [Now(true)];
    }

    /** A reading of the clock disturbs nothing. */
    twostate lemma Ticked()
      requires old(Valid()) && unchanged(this) && unchanged(registry) && unchanged(cluster)
      requires old(clock.time) <= clock.time
      ensures Valid() && registry.read < |registry.log| && started <= old(clock.time)
    {
    }

    // ---- Others ----

    /** What others cannot do to a pass: the log at most grows, the persisted status, the
        version read, the finalizer and the managed objects stay. */
    twostate predicate Undisturbed()
      reads this, registry, cluster
    {
      && old(registry.log) <= registry.log && registry.read == old(registry.read) < |old(registry.log)|
      && Copy() == old(Copy())
      && registry.Last().status == old(registry.Last().status)
      && registry.failures == old(registry.failures)
      && cluster.failures == old(cluster.failures) && cluster.calls == old(cluster.calls)
      && (registry.seen == old(registry.seen) || (registry.seen > old(registry.seen) && registry.pending))
      && (old(registry.pending) ==> registry.pending)
      && (old(registry.Held()) ==> registry.Held()) && (old(registry.gone) ==> registry.gone)
      && released == old(released) && started == old(started) && busy == old(busy)
      && ManagedKept()
    }

    /** Nobody else ever acts. */
    ghost predicate Alone() {
      forall n :: bursts(n) == 0
    }

    /** The next call on the resource will be refused. */
    ghost predicate WillRefuse()
      reads registry
    {
      Alone() && registry.schedule(registry.turn).outcome == Refused
    }

    /** With nobody else at work, n calls have been made and the resource is as it was. */
    twostate predicate Calls(n: nat)
      reads registry
    {
      Alone() ==>
        && registry.turn == old(registry.turn) + n
        && registry.log == old(registry.log) && registry.seen == old(registry.seen)
        && registry.gone == old(registry.gone)
    }

    twostate predicate ManagedKept()
      reads cluster
    {
      forall key | rules.managed(key) :: Slot(cluster.objects, key) == Slot(old(cluster.objects), key)
    }

    lemma ValidParts()
      requires Valid()
      ensures registry.read < |registry.log| && registry.Valid() && cluster.Valid()
    {
    }

    method MoveResource()
      requires Valid()
      modifies this`history, registry
      ensures Valid() && old(history) <= history && Undisturbed()
      ensures registry.schedule(old(registry.turn)).act.RequestDeletion? && !old(registry.gone) &&
                !old(registry.Last()).deleting ==>
                var last := old(registry.Last());
                && registry.log == old(registry.log) + [last.(deleting := true, generation := last.generation + 1)]
                && registry.seen == old(registry.seen)
      ensures registry.schedule(old(registry.turn)).act.Deliver? ==>
                var upTo := registry.schedule(old(registry.turn)).act.upTo;
                && registry.log == old(registry.log) && registry.gone == old(registry.gone)
                && registry.seen == if old(registry.seen) < upTo < |registry.log| then upTo else old(registry.seen)
      ensures registry.turn == old(registry.turn) + 1
    {
      hide Good, StepOk, Consistent, Ordered, Faithful, Later, rules.Lawful, registry.Valid, cluster.Valid;
      ValidParts();
      ghost var log, gone := registry.log, registry.gone;
      registry.Others();
      if registry.log != log {
        assert registry.log == log + [registry.Last()];
        Outdated(rules, registry.identity, log, registry.Last(), gone, registry.gone, registry.read);
      }
      HistoryGrows(rules, history, Now(true));
      QuietStep(rules, registry.identity, history[|history| - 1], Now(true));
      Observe(true);
    }

    method MoveObject(key: Key, slot: Option<Child>)
      requires Valid() && !owned(key) && (slot.Some? ==> cluster.Known(key.kind))
      modifies this`history, cluster`objects
      ensures Valid() && old(history) <= history && Undisturbed()
    {
      hide Good, StepOk, Consistent, Ordered, Faithful, Later, rules.Lawful, registry.Valid;
      ValidParts();
      HistoryGrows(rules, history, Now(true));
      ghost var last := history[|history| - 1];
      cluster.objects := Place(cluster.objects, key, slot);
      ForeignStep(rules, registry.identity, last, Now(true), key, slot);
      Observe(true);
    }

    /** Any number of acts between two calls of the controller. */
    method Others()
      requires Valid()
      modifies this`history, this`moved, registry, cluster`objects
      ensures Valid() && old(history) <= history && Undisturbed()
      ensures Calls(0) && (Alone() ==> cluster.objects == old(cluster.objects))
    {
      hide Sound, Valid, registry.Valid;
      ValidParts();
      var n := bursts(moved);
      while n > 0
        invariant Valid() && old(history) <= history && Undisturbed()
        invariant Alone() ==> n == 0
        invariant Calls(0) && (Alone() ==> cluster.objects == old(cluster.objects))
      {
        match moves(moved) {
          case ResourceMove => MoveResource();
          case ObjectMove(key, slot) =>
            if !owned(key) && (slot.None? || cluster.Known(key.kind)) {
              MoveObject(key, slot);
            }
        }
        moved := moved + 1;
        n := n - 1;
      }
    }

    // ---- The calls of a pass, each one atomic ----

    /** The work queue hands the key over. */
    method Take()
      requires Valid() && !busy
      modifies this`history, this`busy, this`started, registry`pending, clock
      ensures Valid() && busy && old(history) <= history && old(clock.time) <= clock.time
    {
      hide Good, StepOk, Consistent, Ordered, Faithful, Later, rules.Lawful, Edited, cluster.Valid, Preserves;
      HistoryGrows(rules, history, Now(false));
      ghost var last := history[|history| - 1];
      busy, registry.pending := true, false;
      var now := clock.Now();
      started := now;
      QuietStep(rules, registry.identity, last, Now(false));
      Observe(false);
    }

    /** The pass is over; after an error the queue takes the key back. */
    method Finish(err: bool)
      requires Valid() && busy
      modifies this`busy, registry`pending
      ensures Valid() && !busy
      ensures registry.pending == (err || old(registry.pending))
    {
      hide Good, StepOk, Consistent, Ordered, Faithful, Later, rules.Lawful;
      busy := false;
      if err {
        registry.pending := true;
      }
    }

    /** An event puts the key in the queue. */
    method Enqueue()
      requires Valid()
      modifies registry`pending
      ensures Valid() && registry.pending
    {
      hide Good, StepOk, Consistent, Ordered, Faithful, Later, rules.Lawful, Preserves;
      registry.pending := true;
    }

    /** The Get that opens a pass. A deletion, once read, is read again. */
    method Fetch() returns (r: Registries.Reply<S, T>)
      requires Valid() && busy
      modifies this`history, registry
      ensures Valid() && old(history) <= history && Failures() >= old(Failures())
      ensures registry.log == old(registry.log) && registry.gone == old(registry.gone)
      ensures r.Found? ==> r.version == registry.read && r.resource == Copy()
      ensures old(Copy().deleting) ==> Copy().deleting
      ensures r.NotFound? ==> registry.gone
      ensures r.Failed? ==> Failures() > old(Failures())
      ensures !r.Failed? ==> Failures() == old(Failures())
      ensures Calls(1) && (r.Failed? <==> registry.schedule(old(registry.turn)).outcome != Served)
      ensures r.Found? ==> registry.read == registry.seen
    {
      hide Good, StepOk, Consistent, Ordered, Faithful, Later, rules.Lawful;
      HistoryGrows(rules, history, Now(false));
      ghost var last, read := history[|history| - 1], registry.read;
      r := registry.Get();
      ReadMoves(rules, registry.log, registry.gone, read, registry.read);
      QuietStep(rules, registry.identity, last, Now(false));
      Observe(false);
    }

    /** A read of something that is not modelled as an object. */
    method Answered() returns (ok: bool)
      requires Valid()
      modifies registry`turn, registry`failures
      ensures Valid()
      ensures registry.failures == old(registry.failures) + if ok then 0 else 1
      ensures Calls(1) && (ok <==> registry.schedule(old(registry.turn)).outcome == Served)
    {
      hide Good, StepOk, Consistent, Ordered, Faithful, Later, rules.Lawful;
      ok := registry.Answered();
    }

    /** The Update that adds the finalizer. */
    method AddFinalizer(version: nat) returns (ok: bool)
      requires Valid() && busy && version == registry.read && !Copy().deleting && !Copy().held
      modifies this`history, registry
      ensures Valid() && old(history) <= history && Failures() >= old(Failures())
      ensures old(registry.log) <= registry.log && registry.Last().status == old(registry.Last().status)
      ensures !ok ==> Failures() > old(Failures())
      ensures ok ==> Failures() == old(Failures())
      ensures registry.turn == old(registry.turn) + 1 && registry.seen == old(registry.seen) &&
                registry.read == old(registry.read)
      ensures ok <==> registry.schedule(old(registry.turn)).outcome == Served &&
                      old(version == |registry.log| - 1 && !registry.gone)
      ensures ok ==> registry.Last() == Copy().(held := true) && |registry.log| == |old(registry.log)| + 1 &&
                     !registry.gone
    {
      hide Good, StepOk, Consistent, Ordered, Faithful, Later, rules.Lawful;
      HistoryGrows(rules, history, Now(false));
      ghost var last, log := history[|history| - 1], registry.log;
      FitsAt(rules, registry.log, registry.gone, registry.read, |registry.log| - 1);
      FinalizerFits(rules, registry.identity, registry.Last(), true);
      ObservedAt(rules, registry.log, registry.gone, registry.read);
      ok := registry.Update(version, true);
      if registry.log != log {
        Written(rules, log, registry.Last(), registry.read);
        QuietStep(rules, registry.identity, last, Now(false));
        Observe(false);
      }
    }

    /** Status().Update over the version that the pass holds. */
    method CommitStatus(version: nat, status: T) returns (ok: bool, written: nat, ghost landed: bool)
      requires Valid() && At(version) && rules.observed(status) <= Copy().generation
      requires var next := registry.log[version].(status := status);
               rules.fits(next) && rules.claim(next, cluster.objects)
      requires rules.link(registry.log[version].status, status, started, clock.time)
      modifies this`history, registry
      ensures Valid() && At(written) && old(history) <= history && Failures() >= old(Failures())
      ensures registry.read == old(registry.read) && registry.seen == old(registry.seen)
      ensures old(registry.log) <= registry.log && Copy() == old(Copy())
      ensures registry.gone == old(registry.gone) && registry.pending == old(registry.pending)
      ensures ok ==> Failures() == old(Failures())
      ensures ok ==> landed && written == |registry.log| - 1 && registry.Last().status == status
      ensures !ok ==> Failures() > old(Failures()) && written == version
      ensures landed ==> !registry.gone && old(registry.Last()) == old(registry.log[version])
                         && registry.Last() == old(registry.Last()).(status := status)
      ensures !landed ==> registry.log == old(registry.log)
      ensures registry.schedule(old(registry.turn)).outcome == Refused ==> Calls(1) && !landed
    {
      hide Good, StepOk, Consistent, Ordered, Faithful, Later, rules.Lawful;
      ghost var last, log := history[|history| - 1], registry.log;
      HistoryGrows(rules, history, Now(false));
      ok, written := registry.UpdateStatus(version, status);
      landed := ok || registry.log != log;
      if registry.log != log {
        Written(rules, log, registry.Last(), registry.read);
        StatusStep(rules, registry.identity, last, Now(false));
        Observe(false);
      }
    }

    /** Delete, by the controller itself. */
    method Delete() returns (ok: bool)
      requires Valid() && busy && rules.due(Copy(), clock.time)
      modifies this`history, registry
      ensures Valid() && old(history) <= history && Failures() >= old(Failures())
      ensures old(registry.log) <= registry.log && registry.Last().status == old(registry.Last().status)
      ensures if ok then Failures() == old(Failures()) else Failures() > old(Failures())
      ensures ok ==> registry.gone || registry.Last().deleting
    {
      hide Good, StepOk, Consistent, Ordered, Faithful, Later, rules.Lawful, registry.Valid, cluster.Valid;
      ValidParts();
      ghost var log, gone := registry.log, registry.gone;
      ok := registry.Delete();
      if registry.log != log {
        assert registry.log == log + [registry.Last()];
        Outdated(rules, registry.identity, log, registry.Last(), gone, registry.gone, registry.read);
      }
      HistoryGrows(rules, history, Now(false));
      QuietStep(rules, registry.identity, history[|history| - 1], Now(false));
      Observe(false);
    }

    /** Removes the finalizer of a deleted resource, which goes with it. */
    method Release(version: nat) returns (ok: bool)
      requires Valid() && At(version) && Copy().deleting && rules.closed(registry.log[version], cluster.objects)
      modifies this`history, this`released, registry
      ensures Valid() && old(history) <= history && Failures() >= old(Failures())
      ensures ok ==> registry.gone
      ensures ok <==> registry.schedule(old(registry.turn)).outcome == Served &&
                      old(version == |registry.log| - 1 && !registry.gone)
      ensures !ok ==> Failures() > old(Failures())
      ensures registry.gone && !old(registry.gone) ==> released && old(registry.Last()) == old(registry.log[version])
      ensures !(registry.gone && !old(registry.gone)) ==> released == old(released)
      ensures registry.read == old(registry.read) && old(registry.log) <= registry.log && Copy() == old(Copy())
      ensures registry.Last().status == old(registry.Last().status)
    {
      hide Good, StepOk, Consistent, Ordered, Faithful, Later, rules.Lawful;
      HistoryGrows(rules, history, Now(false));
      ghost var last, log := history[|history| - 1], registry.log;
      FitsAt(rules, registry.log, registry.gone, registry.read, |registry.log| - 1);
      FinalizerFits(rules, registry.identity, registry.Last(), false);
      ObservedAt(rules, registry.log, registry.gone, registry.read);
      ok := registry.Update(version, false);
      if registry.log != log {
        ClosedStays(rules, registry.identity, log[version], cluster.objects);
        released := true;
        Written(rules, log, registry.Last(), registry.read);
        ReleaseStep(rules, registry.identity, last, Now(false));
        Observe(false);
      }
    }

    /** Records what a provisioning call has made of the objects. */
    ghost method Built(before: Objects)
      requires Unrecorded(before) && busy && registry.read < |registry.log| && Copy().held && !Copy().deleting
      requires KeepsApart(rules, before, cluster.objects, false) && rules.order(before, cluster.objects)
      requires rules.claim(registry.Last(), before) ==> rules.claim(registry.Last(), cluster.objects)
      modifies this`history
      ensures Valid() && old(history) <= history && registry.Held()
    {
      hide Good, StepOk, Consistent, Ordered, Faithful, Later, rules.Lawful;
      HistoryGrows(rules, history, Now(false));
      HeldNow(rules, registry.log, registry.gone, registry.read);
      BuildStep(rules, registry.identity, history[|history| - 1], Now(false));
      Observe(false);
    }

    /** Records what a teardown call has made of the objects. */
    ghost method Cleared(before: Objects)
      requires Unrecorded(before) && busy && Copy().deleting
      requires KeepsApart(rules, before, cluster.objects, false) && rules.order(before, cluster.objects)
      requires Receding(before, cluster.objects)
      requires rules.closed(registry.Last(), before) ==> rules.closed(registry.Last(), cluster.objects)
      modifies this`history
      ensures Valid() && old(history) <= history
    {
      hide Good, StepOk, Consistent, Ordered, Faithful, Later, rules.Lawful;
      HistoryGrows(rules, history, Now(false));
      FitsAt(rules, registry.log, registry.gone, registry.read, registry.read);
      ClearStep(rules, registry.identity, history[|history| - 1], Now(false));
      Observe(false);
    }
  }
}
