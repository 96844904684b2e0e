/** The condition helpers of pkg/conditions over the semantics of meta.SetStatusCondition. */
module Conditions {
  import opened Base

  datatype ConditionStatus = True | False | Unknown

  datatype Condition = Condition(kind: string, status: ConditionStatus, reason: string,
                                 message: string, observedGeneration: int, lastTransition: int)

  const READY := "Ready"
  const PROGRESSING := "Progressing"
  const DEGRADED := "Degraded"
  const CONNECTED := "Connected"
  const SECRET_RESOLVED := "SecretResolved"
  const REASON_FALLBACK := "Unspecified"

  /** The position of the first entry of the given type, or the length of the list. */
  function IndexOf(list: seq<Condition>, kind: string): (i: nat)
    ensures i <= |list|
    ensures forall j | 0 <= j < i :: list[j].kind != kind
    ensures i < |list| ==> list[i].kind == kind
  {
    if list == [] then 0 else if list[0].kind == kind then 0 else 1 + IndexOf(list[1..], kind)
  }

  /** The first entry of the given type. */
  function Find(list: seq<Condition>, kind: string): Option<Condition> {
    var i := IndexOf(list, kind);
    if i < |list| then Some(list[i]) else None
  }

  predicate Unique(list: seq<Condition>) {
    forall i, j | 0 <= i < j < |list| :: list[i].kind != list[j].kind
  }

  predicate Holds(list: seq<Condition>, kind: string, status: ConditionStatus) {
    Find(list, kind).Some? && Find(list, kind).value.status == status
  }

  /** The entry that replaces `previous` when `next` is set at time `now`: everything is
      taken from `next` but the transition time, which moves only on a status flip. */
  function Merged(previous: Option<Condition>, next: Condition, now: int): Condition {
    next.(lastTransition :=
      if previous.Some? && previous.value.status == next.status
      then previous.value.lastTransition else now)
  }

  function Entry(kind: string, status: ConditionStatus, reason: string, message: string, gen: int): Condition {
    Condition(kind, status, if reason == "" then REASON_FALLBACK else reason, message, gen, 0)
  }

  lemma FindAt(list: seq<Condition>, i: nat)
    requires i < |list|
    requires forall j | 0 <= j < i :: list[j].kind != list[i].kind
    ensures Find(list, list[i].kind) == Some(list[i])
  {
    var k := IndexOf(list, list[i].kind);
    assert k <= i;
  }

  lemma FindNothing(list: seq<Condition>, kind: string)
    ensures Find(list, kind).None? <==> forall c | c in list :: c.kind != kind
  {
    if IndexOf(list, kind) < |list| {
      assert list[IndexOf(list, kind)] in list;
    }
  }

  /** Where no type has two entries, a list says of a type what its entry says. */
  lemma HoldsMeans(list: seq<Condition>, kind: string, status: ConditionStatus)
    requires Unique(list)
    ensures Holds(list, kind, status) <==> exists c :: c in list && c.kind == kind && c.status == status
    ensures Find(list, kind).None? <==> forall c | c in list :: c.kind != kind
  {
    FindNothing(list, kind);
    if c :| c in list && c.kind == kind && c.status == status {
      var i :| 0 <= i < |list| && list[i] == c;
      FindAt(list, i);
    }
  }

  lemma FindAfterSet(list: seq<Condition>, entry: Condition, k: string)
    ensures var i := IndexOf(list, entry.kind);
            var r := if i < |list| then list[i := entry] else list + [entry];
            Find(r, k) == if k == entry.kind then Some(entry) else Find(list, k)
  {
    var i := IndexOf(list, entry.kind);
    var r := if i < |list| then list[i := entry] else list + [entry];
    var p := IndexOf(list, k);
    if k == entry.kind {
      FindAt(r, i);
    } else if p < |list| {
      assert forall j | 0 <= j < p :: r[j].kind == if j == i then entry.kind else list[j].kind;
      FindAt(r, p);
    } else {
      assert forall c | c in r :: c == entry || c in list;
      FindNothing(list, k);
      FindNothing(r, k);
    }
  }

  function SetIn(list: seq<Condition>, next: Condition, now: int): (r: seq<Condition>)
    ensures Unique(list) ==> Unique(r)
    ensures forall k :: Find(r, k) ==
                        if k == next.kind then Some(Merged(Find(list, k), next, now)) else Find(list, k)
  {
    var i := IndexOf(list, next.kind);
    var entry := Merged(Find(list, next.kind), next, now);
    assert forall k :: Find(if i < |list| then list[i := entry] else list + [entry], k) ==
                       if k == entry.kind then Some(entry) else Find(list, k) by {
      forall k { FindAfterSet(list, entry, k); }
    }
    if i < |list| then list[i := entry] else list + [entry]
  }

  function RemoveIn(list: seq<Condition>, kind: string): (r: seq<Condition>)
    ensures forall c :: c in r <==> c in list && c.kind != kind
  {
    if list == [] then []
    else if list[|list| - 1].kind == kind then RemoveIn(list[..|list| - 1], kind)
    else RemoveIn(list[..|list| - 1], kind) + [list[|list| - 1]]
  }

  lemma {:induction false} RemoveKeeps(list: seq<Condition>, kind: string)
    ensures Unique(list) ==> Unique(RemoveIn(list, kind))
    ensures forall k :: Find(RemoveIn(list, kind), k) == if k == kind then None else Find(list, k)
  {
    if list != [] {
      var init, last := list[..|list| - 1], list[|list| - 1];
      var kept := RemoveIn(init, kind);
      RemoveKeeps(init, kind);
      assert list == init + [last];
      assert forall c | c in kept :: c in init;
      forall k ensures Find(RemoveIn(list, kind), k) == if k == kind then None else Find(list, k) {
        FindSnoc(init, last, k);
        FindSnoc(kept, last, k);
      }
    }
  }

  lemma FindSnoc(list: seq<Condition>, c: Condition, k: string)
    ensures Find(list + [c], k) ==
            if Find(list, k).Some? then Find(list, k) else if c.kind == k then Some(c) else None
  {
    var p := IndexOf(list, k);
    if p < |list| {
      FindAt(list + [c], p);
    } else if c.kind == k {
      FindAt(list + [c], |list|);
    } else {
      FindNothing(list, k);
      FindNothing(list + [c], k);
    }
  }

  /** The system clock: readings never decrease, and nothing else is known about them. */
  class Clock {
    const advance: nat -> nat
    var time: int
    var readings: nat

    constructor (advance: nat -> nat, start: int)
      ensures time == start && this.advance == advance
    {
      this.advance := advance;
      time, readings := start, 0;
    }

    method Now() returns (t: int)
      modifies this
      ensures old(time) <= time == t
    {
      time := time + advance(readings);
      readings := readings + 1;
      t := time;
    }
  }

  /** A condition list that callers change in place. */
  class ConditionList {
    var items: seq<Condition>

    constructor (items: seq<Condition>)
      ensures this.items == items
    {
      this.items := items;
    }

    method Set(clock: Clock, kind: string, status: ConditionStatus, reason: string,
               message: string, observedGeneration: int)
      modifies this, clock
      ensures old(clock.time) <= clock.time
      ensures items == SetIn(old(items), Entry(kind, status, reason, message, observedGeneration), clock.time)
      ensures Find(items, kind).Some?
      ensures var before, after := Find(old(items), kind), Find(items, kind).value;
              && after.status == status && after.reason == (if reason == "" then "Unspecified" else reason)
              && after.message == message && after.observedGeneration == observedGeneration
              && after.lastTransition == if before.Some? && before.value.status == status
                                         then before.value.lastTransition else clock.time
      ensures forall k | k != kind :: Find(items, k) == Find(old(items), k)
    {
      var r := reason;
      if r == "" {
        r := REASON_FALLBACK;
      }
      var now := clock.Now();
      var next := Condition(kind, status, r, message, observedGeneration, 0);
      var i := 0;
      while i < |items| && items[i].kind != kind
        invariant 0 <= i <= |items|
        invariant forall j | 0 <= j < i :: items[j].kind != kind
      {
        i := i + 1;
      }
      assert i == IndexOf(items, kind);
      if i == |items| {
        items := items + [next.(lastTransition := now)];
      } else {
        var existing := items[i];
        if existing.status != status {
          existing := existing.(status := status, lastTransition := now);
        }
        existing := existing.(reason := r, message := message, observedGeneration := observedGeneration);
        items := items[i := existing];
      }
    }

    method MarkTrue(clock: Clock, kind: string, reason: string, message: string, gen: int)
      modifies this, clock
      ensures old(clock.time) <= clock.time
      ensures items == SetIn(old(items), Entry(kind, True, reason, message, gen), clock.time)
    {
      Set(clock, kind, True, reason, message, gen);
    }

    method MarkFalse(clock: Clock, kind: string, reason: string, message: string, gen: int)
      modifies this, clock
      ensures old(clock.time) <= clock.time
      ensures items == SetIn(old(items), Entry(kind, False, reason, message, gen), clock.time)
    {
      Set(clock, kind, False, reason, message, gen);
    }

    method MarkUnknown(clock: Clock, kind: string, reason: string, message: string, gen: int)
      modifies this, clock
      ensures old(clock.time) <= clock.time
      ensures items == SetIn(old(items), Entry(kind, Unknown, reason, message, gen), clock.time)
    {
      Set(clock, kind, Unknown, reason, message, gen);
    }

    method Remove(kind: string)
      modifies this
      ensures items == RemoveIn(old(items), kind)
    {
      var kept: seq<Condition> := [];
      for i := 0 to |items|
        invariant items == old(items)
        invariant kept == RemoveIn(items[..i], kind)
      {
        assert items[..i + 1][..i] == items[..i];
        if items[i].kind != kind {
          kept := kept + [items[i]];
        }
      }
      assert items[..|items|] == items;
      items := kept;
    }
  }

  /** Two successive persisted lists agree on the readiness clock: an unchanged Ready status
      keeps its transition time, a changed one carries a reading from [start, finish]. */
  predicate ReadyHonest(before: seq<Condition>, after: seq<Condition>, start: int, finish: int) {
    var x, y := Find(before, READY), Find(after, READY);
    if y.None? then x.None?
    else if x.Some? && x.value.status == y.value.status
    then y.value.lastTransition == x.value.lastTransition
    else start <= y.value.lastTransition <= finish
  }
}
