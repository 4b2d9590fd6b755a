/**
 A chain of all-or-nothing steps that an interruption can stop anywhere: each step either is kept
 entirely or leaves the data as it was.  Whatever the steps are, restarting the chain after any number
 of interruptions ends where an uninterrupted run would have ended.
 */
module ResumableChain {
  import opened Common

  /** Where an outside failure strikes, counted in units of work: nowhere, or after so many. */
  type Interruption = Option<nat>

  datatype StepResult<D, O> = Kept(next: D, left: Interruption) | Ended(outcome: O)

  type Step<!D, O> = (D, nat, Interruption) -> StepResult<D, O>

  /** Takes the steps from `v` to `last`; no outcome means that all of them were kept. */
  function Run<D, O>(d: D, v: nat, last: nat, i: Interruption, step: Step<D, O>): (D, Option<O>)
    decreases last - v
  {
    if v >= last then (d, None)
    else
      match step(d, v, i)
      case Ended(o) => (d, Some(o))
      case Kept(next, left) => Run(next, v + 1, last, left, step)
  }

  /** On valid data every step, when it is kept, is the upgrade; uninterrupted it is always kept. */
  ghost predicate Upgrading<D(!new), O(!new)>(step: Step<D, O>, upgrade: (D, nat) -> D, valid: (D, nat) -> bool, last: nat) {
    && (forall d, v: nat :: v < last && valid(d, v) ==> valid(upgrade(d, v), v + 1) && step(d, v, None) == Kept(upgrade(d, v), None))
    && (forall d, v: nat, i :: v < last && valid(d, v) ==> step(d, v, i).Ended? || step(d, v, i).next == upgrade(d, v))
  }

  function Target<D>(d: D, v: nat, last: nat, upgrade: (D, nat) -> D): D
    decreases last - v
  {
    if v >= last then d else Target(upgrade(d, v), v + 1, last, upgrade)
  }

  lemma {:induction false} RunCompletes<D(!new), O(!new)>(d: D, v: nat, last: nat, step: Step<D, O>, upgrade: (D, nat) -> D, valid: (D, nat) -> bool)
    requires Upgrading(step, upgrade, valid, last) && valid(d, v) && v <= last
    ensures Run(d, v, last, None, step) == (Target(d, v, last, upgrade), None)
    ensures valid(Target(d, v, last, upgrade), last)
    decreases last - v
  {
    if v < last {
      RunCompletes(upgrade(d, v), v + 1, last, step, upgrade, valid);
    }
  }

  /** A transitive relation that every upgrade satisfies relates the end of the chain to its start. */
  lemma {:induction false} TargetRelated<D(!new)>(d: D, v: nat, last: nat, upgrade: (D, nat) -> D, valid: (D, nat) -> bool, keeps: (D, D) -> bool)
    requires valid(d, v) && v <= last
    requires forall a: D :: keeps(a, a)
    requires forall a: D, b: D, c: D :: keeps(b, a) && keeps(c, b) ==> keeps(c, a)
    requires forall a: D, w: nat :: w < last && valid(a, w) ==> valid(upgrade(a, w), w + 1) && keeps(upgrade(a, w), a)
    ensures keeps(Target(d, v, last, upgrade), d)
    decreases last - v
  {
    if v < last {
      TargetRelated(upgrade(d, v), v + 1, last, upgrade, valid, keeps);
      assert keeps(upgrade(d, v), d);
    }
  }

  /** Wherever a run is interrupted, it leaves valid data on the way to the same end. */
  lemma {:induction false} InterruptedOnTheWay<D(!new), O(!new)>(d: D, v: nat, last: nat, i: Interruption, step: Step<D, O>, upgrade: (D, nat) -> D, valid: (D, nat) -> bool)
    returns (w: nat)
    requires Upgrading(step, upgrade, valid, last) && valid(d, v) && v <= last
    ensures v <= w <= last && valid(Run(d, v, last, i, step).0, w)
    ensures Target(Run(d, v, last, i, step).0, w, last, upgrade) == Target(d, v, last, upgrade)
    decreases last - v
  {
    w := v;
    if v < last && step(d, v, i).Kept? {
      w := InterruptedOnTheWay(upgrade(d, v), v + 1, last, step(d, v, i).left, step, upgrade, valid);
    }
  }
}
