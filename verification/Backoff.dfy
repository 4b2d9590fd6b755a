/**
 The retry discipline shared by the three drain loops: an exponential delay, capped, with a jitter in
 [1/2, 1), and an attempt counter that only an answered request resets.  Delays are reals; the one
 floating-point effect kept is that 2^attempt no longer converts to a float from attempt 1024 on, which
 raises in the middle of the wait.
 */
module Backoff {
  import opened Common

  const MAX_FLOAT_EXPONENT := 1024

  datatype Tuning = Tuning(initial: real, cap: real)

  predicate ValidTuning(t: Tuning) {
    0.0 < t.initial <= t.cap
  }

  function Delay(t: Tuning, attempt: nat): real {
    var scaled := t.initial * (Pow2(attempt) as real);
    if scaled <= t.cap then scaled else t.cap
  }

  function Jittered(delay: real, jitter: real): real {
    delay * (0.5 + jitter * 0.5)
  }

  /** The sum of the un-jittered delays of attempts `from` .. `from + n - 1`. */
  function Nominal(t: Tuning, from: nat, n: nat): real
    decreases n
  {
    if n == 0 then 0.0 else Delay(t, from) + Nominal(t, from + 1, n - 1)
  }

  function Total(waits: seq<real>): real {
    if waits == [] then 0.0 else waits[0] + Total(waits[1..])
  }

  /** One pass of the loop body as the loop sees it. */
  datatype Iteration =
    | Answered                           // a batch was answered: the counter is reset
    | NothingToSend                      // idle: the counter is kept
    | BatchFailed(jitter: real)          // the body itself waits, then asks for another pass
    | Raised(jitter: real)               // the body raised: the loop waits

  predicate ValidIteration(i: Iteration) {
    i.BatchFailed? || i.Raised? ==> 0.0 <= i.jitter < 1.0
  }

  datatype LoopState = LoopState(attempt: nat, waits: seq<real>, alive: bool)

  /** A failed pass waits once; when the wait itself raises, the handler's own wait raises again and
      nothing catches it, so the task ends. */
  function Step(t: Tuning, s: LoopState, i: Iteration): LoopState {
    if !s.alive then s
    else match i
      case Answered => s.(attempt := 0)
      case NothingToSend => s
      case BatchFailed(j) => Wait(t, s, j)
      case Raised(j) => Wait(t, s, j)
  }

  function Wait(t: Tuning, s: LoopState, jitter: real): LoopState {
    if s.attempt >= MAX_FLOAT_EXPONENT then s.(alive := false)
    else LoopState(s.attempt + 1, s.waits + [Jittered(Delay(t, s.attempt), jitter)], true)
  }

  function RunLoop(t: Tuning, s: LoopState, passes: seq<Iteration>): LoopState
    decreases |passes|
  {
    if passes == [] then s else RunLoop(t, Step(t, s, passes[0]), passes[1..])
  }

  // ---- How long a streak of failures waits -----------------------------------------------------

  predicate IsFailure(i: Iteration) {
    i.BatchFailed? || i.Raised?
  }

  lemma {:induction false} TotalAppend(a: seq<real>, b: seq<real>)
    ensures Total(a + b) == Total(a) + Total(b)
  {
    if a == [] {
      assert a + b == b;
    } else {
      assert (a + b)[1..] == a[1..] + b;
      TotalAppend(a[1..], b);
    }
  }

  /** One failed pass below the float limit adds one wait, between half the delay and the delay. */
  lemma FailureWaits(t: Tuning, s: LoopState, pass: Iteration)
    requires ValidTuning(t) && s.alive && s.attempt < MAX_FLOAT_EXPONENT
    requires IsFailure(pass) && ValidIteration(pass)
    ensures var next := Step(t, s, pass);
            && next.alive && next.attempt == s.attempt + 1
            && Total(s.waits) + Delay(t, s.attempt) / 2.0 <= Total(next.waits) <= Total(s.waits) + Delay(t, s.attempt)
  {
    DelayPositive(t, s.attempt);
    JitterBounds(Delay(t, s.attempt), pass.jitter);
    TotalOneMore(s.waits, Jittered(Delay(t, s.attempt), pass.jitter));
  }

  lemma TotalOneMore(waits: seq<real>, wait: real)
    ensures Total(waits + [wait]) == Total(waits) + wait
  {
    TotalAppend(waits, [wait]);
    assert Total([wait]) == wait + Total([wait][1..]);
  }

  ghost predicate AllFailures(passes: seq<Iteration>) {
    forall i :: 0 <= i < |passes| ==> IsFailure(passes[i]) && ValidIteration(passes[i])
  }

  /** n consecutive failures wait, in total, between half of and all of the nominal schedule. */
  lemma {:induction false} StreakWaits(t: Tuning, s: LoopState, passes: seq<Iteration>)
    requires ValidTuning(t) && s.alive
    requires AllFailures(passes)
    requires s.attempt + |passes| <= MAX_FLOAT_EXPONENT
    ensures var s' := RunLoop(t, s, passes);
            var nominal := Nominal(t, s.attempt, |passes|);
            && s'.alive && s'.attempt == s.attempt + |passes|
            && Total(s.waits) + nominal / 2.0 <= Total(s'.waits) <= Total(s.waits) + nominal
    decreases |passes|
  {
    if passes != [] {
      var next := Step(t, s, passes[0]);
      FailureWaits(t, s, passes[0]);
      StreakWaits(t, next, passes[1..]);
    }
  }

  lemma DelayPositive(t: Tuning, attempt: nat)
    requires ValidTuning(t)
    ensures 0.0 < Delay(t, attempt) <= t.cap
  {
    PowPositive(attempt);
    var p := Pow2(attempt) as real;
    assert p >= 1.0;
    assert t.initial * p > 0.0;
  }

  lemma JitterBounds(delay: real, jitter: real)
    requires 0.0 <= jitter < 1.0 && 0.0 <= delay
    ensures delay / 2.0 <= Jittered(delay, jitter) <= delay
  {
    ProductOrdered(delay, 0.5, 0.5 + jitter * 0.5);
    ProductOrdered(delay, 0.5 + jitter * 0.5, 1.0);
  }

  lemma ProductOrdered(scale: real, low: real, high: real)
    requires 0.0 <= scale && low <= high
    ensures scale * low <= scale * high
  {
    var gap := high - low;
    assert scale * gap >= 0.0;
    assert scale * high == scale * low + scale * gap;
  }

  // ---- Exactly when the task survives ----------------------------------------------------------

  function Next(from: nat, pass: Iteration): nat {
    if pass.Answered? then 0 else if IsFailure(pass) then from + 1 else from
  }

  /** Failures since the last answered pass. */
  function Streak(from: nat, passes: seq<Iteration>): nat
    decreases |passes|
  {
    if passes == [] then from else Streak(Next(from, passes[0]), passes[1..])
  }

  /** Some prefix of the passes ends a streak longer than 1024. */
  ghost predicate StreakTooLong(from: nat, passes: seq<Iteration>) {
    exists k :: 0 <= k <= |passes| && Streak(from, passes[..k]) > MAX_FLOAT_EXPONENT
  }

  /** The loop is still alive after `passes` exactly when no 1025 failures ever followed each other
      without an answered batch in between; idle passes do not help. */
  lemma {:induction false} SurvivesIff(t: Tuning, s: LoopState, passes: seq<Iteration>)
    requires s.alive && s.attempt <= MAX_FLOAT_EXPONENT
    ensures RunLoop(t, s, passes).alive <==> !StreakTooLong(s.attempt, passes)
    decreases |passes|
  {
    if passes == [] {
      assert forall k :: 0 <= k <= |passes| ==> passes[..k] == [];
    } else {
      var next := Step(t, s, passes[0]);
      StreakTail(s.attempt, passes);
      if next.alive {
        SurvivesIff(t, next, passes[1..]);
      } else {
        var after := Next(s.attempt, passes[0]);
        assert passes[1..][..0] == [];
        assert Streak(after, passes[1..][..0]) > MAX_FLOAT_EXPONENT;
        DeadStaysDead(t, next, passes[1..]);
      }
    }
  }

  lemma StreakTail(from: nat, passes: seq<Iteration>)
    requires passes != [] && from <= MAX_FLOAT_EXPONENT
    ensures StreakTooLong(from, passes) <==> StreakTooLong(Next(from, passes[0]), passes[1..])
  {
    var after, rest := Next(from, passes[0]), passes[1..];
    assert Streak(from, passes[..0]) == from;
    forall k | 0 < k <= |passes|
      ensures Streak(from, passes[..k]) == Streak(after, rest[..k - 1])
    {
      assert passes[..k][0] == passes[0] && passes[..k][1..] == rest[..k - 1];
    }
    if StreakTooLong(from, passes) {
      var k :| 0 <= k <= |passes| && Streak(from, passes[..k]) > MAX_FLOAT_EXPONENT;
      assert Streak(after, rest[..k - 1]) > MAX_FLOAT_EXPONENT;
    }
    if StreakTooLong(after, rest) {
      var k :| 0 <= k <= |rest| && Streak(after, rest[..k]) > MAX_FLOAT_EXPONENT;
      assert Streak(from, passes[..k + 1]) > MAX_FLOAT_EXPONENT;
    }
  }

  lemma {:induction false} DeadStaysDead(t: Tuning, s: LoopState, passes: seq<Iteration>)
    requires !s.alive
    ensures RunLoop(t, s, passes) == s
    decreases |passes|
  {
    if passes != [] {
      DeadStaysDead(t, s, passes[1..]);
    }
  }
}
