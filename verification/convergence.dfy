/** Provisioning as a plan: an ordered list of objects, each with a function from what is there
    to what should be there. The facts here hold for every plan. */
module Convergence {
  import opened Base
  import opened Clusters

  type Want = (nat, Option<Child>) -> Result<Option<Child>>

  datatype Plan = Plan(keys: seq<Key>, want: Want) {
    /** Every step has an object of its own. */
    predicate Separate() {
      forall i, j | 0 <= i < j < |keys| :: keys[i] != keys[j]
    }

    /** A step run on its own result changes nothing. */
    ghost predicate Absorbing() {
      forall k: nat, slot | k < |keys| && want(k, slot).Ok? :: want(k, want(k, slot).value) == want(k, slot)
    }
  }

  /** What step k makes of an object. */
  function After(plan: Plan, k: nat, slot: Option<Child>): Option<Child> {
    match plan.want(k, slot)
    case Ok(next) => next
    case Err(_) => slot
  }

  /** The cluster after the first n steps. */
  function Run(objects: Objects, plan: Plan, n: nat): Objects
    requires n <= |plan.keys|
  {
    if n == 0 then objects
    else
      var before := Run(objects, plan, n - 1);
      Place(before, plan.keys[n - 1], After(plan, n - 1, Slot(before, plan.keys[n - 1])))
  }

  /** The API server accepts each of the first n steps, when the steps before it have been
      taken: no foreign controller, no immutable field, no namespace on its way out. */
  predicate Feasible(objects: Objects, plan: Plan, n: nat)
    requires n <= |plan.keys|
  {
    forall k: nat | k < n :: StepPossible(objects, plan, k)
  }

  predicate StepPossible(objects: Objects, plan: Plan, k: nat)
    requires k < |plan.keys|
  {
    var before := Run(objects, plan, k);
    Possible(before, plan.keys[k], plan.want(k, Slot(before, plan.keys[k])))
  }

  lemma RunStarts(objects: Objects, plan: Plan)
    ensures Run(objects, plan, 0) == objects
  {
  }

  /** One converging call of a pass takes one step of its plan. */
  lemma StepRuns(start: Objects, plan: Plan, k: nat, after: Objects, ok: bool, failed: bool)
    requires k < |plan.keys|
    requires var before := Run(start, plan, k);
             Stepped(before, after, plan.keys[k], plan.want(k, Slot(before, plan.keys[k])), ok, failed)
    ensures ok <==> StepPossible(start, plan, k) && !failed
    ensures after == Run(start, plan, k + 1) || (!ok && after == Run(start, plan, k))
  {
  }

  lemma SameSlots(a: Objects, b: Objects)
    requires forall key :: Slot(a, key) == Slot(b, key)
    ensures a == b
  {
    forall key ensures key in a <==> key in b {
      assert Slot(a, key) == Slot(b, key);
    }
    forall key | key in a ensures a[key] == b[key] {
      assert Slot(a, key) == Slot(b, key);
    }
  }

  lemma {:induction false} RunElsewhere(objects: Objects, plan: Plan, n: nat, key: Key)
    requires n <= |plan.keys| && key !in plan.keys[..n]
    ensures Slot(Run(objects, plan, n), key) == Slot(objects, key)
  {
    if n > 0 {
      assert plan.keys[..n] == plan.keys[..n - 1] + [plan.keys[n - 1]];
      RunElsewhere(objects, plan, n - 1, key);
    }
  }

  /** The steps act on separate objects, so each can be read off directly. */
  lemma {:induction false} RunSlot(objects: Objects, plan: Plan, n: nat, k: nat)
    requires k < n <= |plan.keys| && plan.Separate()
    ensures Slot(Run(objects, plan, n), plan.keys[k]) == After(plan, k, Slot(objects, plan.keys[k]))
  {
    if k == n - 1 {
      RunElsewhere(objects, plan, k, plan.keys[k]);
    } else {
      RunSlot(objects, plan, n - 1, k);
    }
  }

  /** The step's object is untouched when its turn comes. */
  lemma {:induction false} TurnOfStep(objects: Objects, plan: Plan, k: nat)
    requires k < |plan.keys| && plan.Separate()
    ensures Slot(Run(objects, plan, k), plan.keys[k]) == Slot(objects, plan.keys[k])
  {
    RunElsewhere(objects, plan, k, plan.keys[k]);
  }

  lemma AbsorbSlot(objects: Objects, plan: Plan, cut: nat, n: nat, key: Key)
    requires plan.Separate() && plan.Absorbing() && cut <= |plan.keys| && n <= |plan.keys|
    ensures Slot(Run(Run(objects, plan, cut), plan, n), key) ==
            Slot(Run(objects, plan, if cut <= n then n else cut), key)
  {
    var partial := Run(objects, plan, cut);
    var most := if cut <= n then n else cut;
    if key in plan.keys {
      var k: nat :| k < |plan.keys| && plan.keys[k] == key;
      KeyAt(plan, k, cut);
      KeyAt(plan, k, n);
      if k < cut { RunSlot(objects, plan, cut, k); } else { RunElsewhere(objects, plan, cut, key); }
      if k < n { RunSlot(partial, plan, n, k); } else { RunElsewhere(partial, plan, n, key); }
      if k < most { RunSlot(objects, plan, most, k); } else { RunElsewhere(objects, plan, most, key); }
    } else {
      RunElsewhere(objects, plan, cut, key);
      RunElsewhere(partial, plan, n, key);
      RunElsewhere(objects, plan, most, key);
    }
  }

  lemma KeyAt(plan: Plan, k: nat, n: nat)
    requires plan.Separate() && k < |plan.keys| && n <= |plan.keys|
    ensures plan.keys[k] in plan.keys[..n] <==> k < n
  {
    if k < n {
      assert plan.keys[..n][k] == plan.keys[k];
    }
  }

  /** A pass over a cut-off pass of the same plan reaches what the longer of the two reaches. */
  lemma PassAbsorbs(objects: Objects, plan: Plan, cut: nat, n: nat)
    requires plan.Separate() && plan.Absorbing() && cut <= |plan.keys| && n <= |plan.keys|
    ensures Run(Run(objects, plan, cut), plan, n) == Run(objects, plan, if cut <= n then n else cut)
  {
    var left, right := Run(Run(objects, plan, cut), plan, n), Run(objects, plan, if cut <= n then n else cut);
    forall key ensures Slot(left, key) == Slot(right, key) {
      AbsorbSlot(objects, plan, cut, n, key);
    }
    SameSlots(left, right);
  }

  /** What a pass was able to do, a later pass of the plan is able to do as well. */
  lemma FeasibleAfter(objects: Objects, plan: Plan, cut: nat)
    requires plan.Separate() && plan.Absorbing() && cut <= |plan.keys| && Feasible(objects, plan, |plan.keys|)
    ensures Feasible(Run(objects, plan, cut), plan, |plan.keys|)
  {
    var partial := Run(objects, plan, cut);
    forall k: nat | k < |plan.keys| ensures StepPossible(partial, plan, k) {
      assert StepPossible(objects, plan, k);
      PassAbsorbs(objects, plan, cut, k);
      if k < cut {
        RunSlot(objects, plan, cut, k);
        TurnOfStep(objects, plan, k);
        assert Slot(Run(partial, plan, k), plan.keys[k]) == plan.want(k, Slot(objects, plan.keys[k])).value;
      }
    }
  }

  /** The cluster after a series of passes, the i-th of them cut off after cuts[i] steps. */
  function Interrupted(objects: Objects, plan: Plan, cuts: seq<nat>): Objects
    requires forall i | 0 <= i < |cuts| :: cuts[i] <= |plan.keys|
    decreases |cuts|
  {
    if cuts == [] then objects else Interrupted(Run(objects, plan, cuts[0]), plan, cuts[1..])
  }

  /** Crash-absorbing convergence: where one pass of a plan is feasible, so is every pass after
      any series of passes of it, each cut off anywhere. One completed pass then leaves what a
      single completed pass would have left on the starting cluster; a further pass, completed
      or cut off, is feasible and changes nothing. */
  lemma {:induction false} CrashesAbsorbed(objects: Objects, plan: Plan, cuts: seq<nat>, again: nat)
    requires plan.Separate() && plan.Absorbing() && again <= |plan.keys| && Feasible(objects, plan, |plan.keys|)
    requires forall i | 0 <= i < |cuts| :: cuts[i] <= |plan.keys|
    ensures var left := Interrupted(objects, plan, cuts);
            var done := Run(left, plan, |plan.keys|);
            && Feasible(left, plan, |plan.keys|) && done == Run(objects, plan, |plan.keys|)
            && Feasible(done, plan, |plan.keys|) && Run(done, plan, again) == done
    decreases |cuts|
  {
    hide Feasible, Run;
    if cuts != [] {
      FeasibleAfter(objects, plan, cuts[0]);
      CrashesAbsorbed(Run(objects, plan, cuts[0]), plan, cuts[1..], again);
      PassAbsorbs(objects, plan, cuts[0], |plan.keys|);
    }
    FeasibleAfter(objects, plan, |plan.keys|);
    PassAbsorbs(objects, plan, |plan.keys|, again);
  }
}
