/** Retry policies and their capped exponential backoff (internal/contracts/policy.go), over exact reals.
    Durations are whole nanoseconds. The random draw of the jitter is a parameter in [0, 1). */
module Policy {
  import opened Contracts

  datatype RetryPolicy = RetryPolicy(
    maxRetries: int,
    initialDelay: int,
    maxDelay: int,
    multiplier: real,
    jitter: bool)

  const SECOND: int := 1_000_000_000
  const DURATION_LIMIT: int := 0x8000_0000_0000_0000

  function DefaultRetryPolicy(): RetryPolicy {
    RetryPolicy(3, SECOND, 5 * 60 * SECOND, 2.0, true)
  }

  datatype PolicyError =
    NegativeRetries | NegativeInitialDelay | NegativeMaxDelay | ShrinkingMultiplier | InitialAboveMax

  function Validate(p: RetryPolicy): Option<PolicyError> {
    if p.maxRetries < 0 then Some(NegativeRetries)
    else if p.initialDelay < 0 then Some(NegativeInitialDelay)
    else if p.maxDelay < 0 then Some(NegativeMaxDelay)
    else if p.multiplier < 1.0 then Some(ShrinkingMultiplier)
    else if p.maxDelay > 0 && p.initialDelay > p.maxDelay then Some(InitialAboveMax)
    else None
  }

  function Pow(base: real, n: nat): real {
    if n == 0 then 1.0 else base * Pow(base, n - 1)
  }

  /** The uncapped delay; negative attempts count as attempt 0. */
  function Grown(p: RetryPolicy, attempt: int): real {
    p.initialDelay as real * Pow(p.multiplier, if attempt < 0 then 0 else attempt)
  }

  /** Conversion of a float to a duration: truncation toward zero, defined only inside 64 bits. */
  function ToDuration(x: real): int
    requires -(DURATION_LIMIT as real) <= x < DURATION_LIMIT as real
  {
    if x >= 0.0 then x.Floor else -((-x).Floor)
  }

  /** The cap test converts the grown delay, so that delay must fit whenever a cap is set. */
  ghost predicate CapTestFits(p: RetryPolicy, attempt: int) {
    p.maxDelay > 0 ==> -(DURATION_LIMIT as real) <= Grown(p, attempt) < DURATION_LIMIT as real
  }

  /** The cap test compares the truncated delay, so a delay less than one nanosecond above the cap passes. */
  function Capped(p: RetryPolicy, attempt: int): real
    requires CapTestFits(p, attempt)
  {
    if p.maxDelay > 0 && ToDuration(Grown(p, attempt)) > p.maxDelay then p.maxDelay as real
    else Grown(p, attempt)
  }

  /** Up to 25 percent of the delay on top of it. */
  function AddJitter(delay: real, draw: real): real {
    delay + delay * 0.25 * draw
  }

  function Jittered(p: RetryPolicy, attempt: int, draw: real): real
    requires CapTestFits(p, attempt)
  {
    var delay := Capped(p, attempt);
    if p.jitter then AddJitter(delay, draw) else delay
  }

  /** Both conversions of the calculation stay inside 64 bits. */
  ghost predicate Fits(p: RetryPolicy, attempt: int, draw: real) {
    CapTestFits(p, attempt) && -(DURATION_LIMIT as real) <= Jittered(p, attempt, draw) < DURATION_LIMIT as real
  }

  function CalculateBackoff(p: RetryPolicy, attempt: int, draw: real): int
    requires Fits(p, attempt, draw)
  {
    ToDuration(Jittered(p, attempt, draw))
  }

  predicate Draw(x: real) {
    0.0 <= x < 1.0
  }

  // ----- Growth -----

  lemma {:induction false} PowGrows(base: real, i: nat, j: nat)
    requires base >= 1.0 && i <= j
    ensures 1.0 <= Pow(base, i) <= Pow(base, j)
  {
    if i < j {
      PowGrows(base, i, j - 1);
      var x := Pow(base, j - 1);
      assert base * x >= x by { assert (base - 1.0) * x >= 0.0; }
    } else if i > 0 {
      PowGrows(base, i - 1, i - 1);
      var x := Pow(base, i - 1);
      assert base * x >= x by { assert (base - 1.0) * x >= 0.0; }
    }
  }

  lemma {:induction false} GrownGrows(p: RetryPolicy, i: int, j: int)
    requires Validate(p) == None && i <= j
    ensures p.initialDelay as real <= Grown(p, i) <= Grown(p, j)
  {
    var a, b := if i < 0 then 0 else i, if j < 0 then 0 else j;
    var d, x, y := p.initialDelay as real, Pow(p.multiplier, a), Pow(p.multiplier, b);
    assert Grown(p, i) == d * x && Grown(p, j) == d * y;
    hide Grown, Pow;
    PowGrows(p.multiplier, a, b);
    Scale(d, x, y);
  }

  lemma Scale(d: real, x: real, y: real)
    requires d >= 0.0 && 1.0 <= x <= y
    ensures d <= d * x <= d * y
  {
    Product(d, x - 1.0);
    Product(d, y - x);
  }

  lemma Product(d: real, z: real)
    requires d >= 0.0 && z >= 0.0
    ensures d * z >= 0.0
  {
  }

  /** Without jitter the backoff of a validated policy never shrinks from one attempt to a later one, is at
      least the initial delay, and at most the maximal delay when there is one. */
  lemma {:induction false} BackoffMonotone(p: RetryPolicy, i: int, j: int, draw: real)
    requires Validate(p) == None && !p.jitter && i <= j
    requires Fits(p, i, draw) && Fits(p, j, draw)
    ensures p.initialDelay <= CalculateBackoff(p, i, draw) <= CalculateBackoff(p, j, draw)
    ensures p.maxDelay > 0 ==> CalculateBackoff(p, j, draw) <= p.maxDelay
  {
    GrownGrows(p, i, j);
    assert (p.initialDelay as real).Floor == p.initialDelay;
  }

  // ----- Jitter -----

  lemma JitterStrict(d: real, draw: real)
    requires d >= 0.0 && Draw(draw)
    ensures d <= AddJitter(d, draw) <= d * 1.25
    ensures d > 0.0 ==> AddJitter(d, draw) < d * 1.25
  {
    assert d * 0.25 * draw >= 0.0 by { assert d * 0.25 >= 0.0; }
    if d > 0.0 {
      assert d * 0.25 * (1.0 - draw) > 0.0 by { assert d * 0.25 > 0.0; }
    }
  }

  lemma CappedBounds(p: RetryPolicy, attempt: int)
    requires Validate(p) == None && CapTestFits(p, attempt)
    ensures p.initialDelay as real <= Capped(p, attempt) <= Grown(p, attempt)
    ensures p.maxDelay > 0 ==> Capped(p, attempt).Floor <= p.maxDelay
  {
    GrownGrows(p, attempt, attempt);
    hide Grown;
  }

  lemma JitteredBounds(p: RetryPolicy, attempt: int, draw: real)
    requires Validate(p) == None && CapTestFits(p, attempt) && Draw(draw)
    ensures 0.0 <= Capped(p, attempt) <= Jittered(p, attempt, draw) <= Capped(p, attempt) * 1.25
    ensures Capped(p, attempt) > 0.0 ==> Jittered(p, attempt, draw) < Capped(p, attempt) * 1.25
  {
    CappedBounds(p, attempt);
    JitterStrict(Capped(p, attempt), draw);
    hide AddJitter, Capped, Grown;
  }

  /** Jitter only adds, and never more than a quarter of the real-valued capped delay. */
  lemma {:induction false} JitterBounds(p: RetryPolicy, attempt: int, draw: real)
    requires Validate(p) == None && Draw(draw)
    requires Fits(p, attempt, draw)
    ensures p.initialDelay <= Capped(p, attempt).Floor <= CalculateBackoff(p, attempt, draw)
    ensures CalculateBackoff(p, attempt, draw) <= (Capped(p, attempt) * 1.25).Floor
    ensures !p.jitter ==> CalculateBackoff(p, attempt, draw) == Capped(p, attempt).Floor
  {
    CappedBounds(p, attempt);
    JitteredBounds(p, attempt, draw);
    assert !p.jitter ==> Jittered(p, attempt, draw) == Capped(p, attempt);
    assert (p.initialDelay as real).Floor == p.initialDelay;
    hide Capped, Grown, Jittered;
  }

  /** No draw lifts the backoff above five quarters of the backoff without jitter. */
  ghost predicate WithinQuarter(p: RetryPolicy, attempt: int)
    requires forall draw :: Draw(draw) ==> Fits(p, attempt, draw)
    requires CapTestFits(p, attempt)
  {
    forall draw :: Draw(draw) ==> 4 * CalculateBackoff(p, attempt, draw) <= 5 * Capped(p, attempt).Floor
  }

  lemma BackoffIsFloor(p: RetryPolicy, attempt: int, draw: real)
    requires Validate(p) == None && Draw(draw) && Fits(p, attempt, draw)
    ensures CalculateBackoff(p, attempt, draw) == Jittered(p, attempt, draw).Floor
  {
    JitteredBounds(p, attempt, draw);
    hide Jittered, Capped, Grown;
  }

  lemma CappedNotNegative(p: RetryPolicy, attempt: int)
    requires Validate(p) == None && CapTestFits(p, attempt)
    ensures Capped(p, attempt) >= 0.0
  {
    CappedBounds(p, attempt);
    hide Capped;
  }

  /** Truncation happens before the quarter is added in one reading and after it in the other; they agree
      for every draw exactly when no whole number lies strictly between the two limits. */
  lemma {:induction false} WithinQuarterExactly(p: RetryPolicy, attempt: int)
    requires Validate(p) == None && p.jitter
    requires forall draw :: Draw(draw) ==> Fits(p, attempt, draw)
    requires CapTestFits(p, attempt)
    ensures WithinQuarter(p, attempt) <==>
            Capped(p, attempt) * 1.25 <= (5 * Capped(p, attempt).Floor / 4 + 1) as real
  {
    hide Fits, Capped, CalculateBackoff, CapTestFits, Grown, Validate, AddJitter;
    var d := Capped(p, attempt);
    var next := 5 * d.Floor / 4 + 1;
    CappedNotNegative(p, attempt);
    if d * 1.25 <= next as real {
      forall draw | Draw(draw) ensures 4 * CalculateBackoff(p, attempt, draw) <= 5 * d.Floor {
        JitteredBounds(p, attempt, draw);
        BackoffIsFloor(p, attempt, draw);
        BelowNext(Jittered(p, attempt, draw), d.Floor);
      }
    } else {
      var q := next as real / d;
      HitsExactly(d, next as real, q);
      var draw := 4.0 * (q - 1.0);
      BackoffIsFloor(p, attempt, draw);
      assert Jittered(p, attempt, draw) == next as real;
      assert 4 * next > 5 * d.Floor;
    }
  }

  lemma BelowNext(x: real, n: int)
    requires x < (5 * n / 4 + 1) as real || (x == 0.0 && n == 0)
    ensures 4 * x.Floor <= 5 * n
  {
    FloorBelow(x, 5 * n / 4 + 1);
  }

  lemma FloorBelow(x: real, n: int)
    requires x < n as real
    ensures x.Floor < n
  {
  }

  lemma HitsExactly(d: real, target: real, q: real)
    requires 0.0 < d < target && target < 1.25 * d && q * d == target
    ensures Draw(4.0 * (q - 1.0)) && AddJitter(d, 4.0 * (q - 1.0)) == target
  {
    QuotientAbove(d, q - 1.0, target - d);
    QuotientAbove(d, 1.25 - q, 1.25 * d - target);
    assert d * (q - 1.0) == target - d;
  }

  lemma QuotientAbove(d: real, x: real, product: real)
    requires d > 0.0 && product > 0.0 && x * d == product
    ensures x > 0.0
  {
  }

  function IntPow(base: int, n: nat): int {
    if n == 0 then 1 else base * IntPow(base, n - 1)
  }

  lemma RealProduct(a: int, b: int)
    ensures (a as real) * (b as real) == (a * b) as real
  {
  }

  lemma {:induction false} PowWhole(base: int, n: nat)
    ensures Pow(base as real, n) == IntPow(base, n) as real
  {
    if n > 0 {
      PowWhole(base, n - 1);
      RealProduct(base, IntPow(base, n - 1));
    }
  }

  lemma CappedWhole(p: RetryPolicy, attempt: int, multiplier: int)
    requires p.multiplier == multiplier as real && CapTestFits(p, attempt)
    ensures Capped(p, attempt) == Capped(p, attempt).Floor as real
  {
    var n: nat := if attempt < 0 then 0 else attempt;
    PowWhole(multiplier, n);
    RealProduct(p.initialDelay, IntPow(multiplier, n));
    assert Grown(p, attempt) == (p.initialDelay * IntPow(multiplier, n)) as real;
    hide Grown;
  }

  /** For a whole multiplier, such as the default 2.0, the quarter limit always holds. */
  lemma {:induction false} WholeMultiplierWithinQuarter(p: RetryPolicy, attempt: int, multiplier: int)
    requires Validate(p) == None && p.jitter && p.multiplier == multiplier as real
    requires forall draw :: Draw(draw) ==> Fits(p, attempt, draw)
    requires CapTestFits(p, attempt)
    ensures WithinQuarter(p, attempt)
  {
    CappedWhole(p, attempt, multiplier);
    WithinQuarterExactly(p, attempt);
    hide *;
  }

  /** A fractional multiplier can break it: 7ns grown by 1.1 passes a 7ns cap and is then jittered to 9ns. */
  lemma {:induction false} FractionalMultiplierOvershoots()
    ensures var p := RetryPolicy(3, 7, 7, 1.1, true);
            Validate(p) == None && Fits(p, 1, 0.99) &&
            4 * CalculateBackoff(p, 1, 0.99) > 5 * p.maxDelay
  {
    var p := RetryPolicy(3, 7, 7, 1.1, true);
    assert Pow(1.1, 1) == 1.1 * Pow(1.1, 0) == 1.1;
    assert Grown(p, 1) == 7.7;
    assert Capped(p, 1) == 7.7;
    assert Jittered(p, 1, 0.99) == 7.7 + 7.7 * 0.25 * 0.99;
    assert Jittered(p, 1, 0.99).Floor == 9;
  }

  // ----- Totals -----

  /** Every backoff of the first n attempts fits, whatever is drawn. */
  ghost predicate AllFit(p: RetryPolicy, n: nat) {
    forall k: nat, draw :: k < n && Draw(draw) ==> Fits(p, k, draw)
  }

  ghost function TotalBackoff(p: RetryPolicy, n: nat, draws: nat -> real): int
    requires AllFit(p, n) && forall k: nat :: Draw(draws(k))
  {
    if n == 0 then 0
    else (
      assert Fits(p, n - 1, draws(n - 1));
      TotalBackoff(p, n - 1, draws) + CalculateBackoff(p, n - 1, draws(n - 1))
    )
  }

  /** Closed form of 1 + base + ... + base^(n-1). */
  function Geometric(base: real, n: nat): real {
    if base == 1.0 then n as real else (Pow(base, n) - 1.0) / (base - 1.0)
  }

  lemma {:induction false} GeometricStep(base: real, n: nat)
    ensures Geometric(base, n + 1) == Geometric(base, n) + Pow(base, n)
  {
    if base == 1.0 {
      PowOfOne(n);
    } else {
      var x, d := Pow(base, n), base - 1.0;
      var q := (x - 1.0) / d;
      assert (q + x) * d == q * d + x * d == base * x - 1.0;
      QuotientUnique(base * x - 1.0, d, q + x);
    }
  }

  lemma QuotientOfZero(base: real)
    ensures Geometric(base, 0) == 0.0
  {
    if base != 1.0 { QuotientUnique(0.0, base - 1.0, 0.0); }
  }

  lemma QuotientUnique(a: real, d: real, q: real)
    requires d != 0.0 && q * d == a
    ensures a / d == q
  {
  }

  lemma {:induction false} PowOfOne(n: nat)
    ensures Pow(1.0, n) == 1.0
  {
    if n > 0 { PowOfOne(n - 1); }
  }

  /** Closed form of the sum of the first n uncapped delays. */
  function Series(p: RetryPolicy, n: nat): real {
    p.initialDelay as real * Geometric(p.multiplier, n)
  }

  /** The most that jitter can make of a delay. */
  function WithJitter(p: RetryPolicy, delay: real): real {
    if p.jitter then delay * 1.25 else delay
  }

  lemma StepBelowGrown(p: RetryPolicy, k: nat, draw: real)
    requires Validate(p) == None && Fits(p, k, draw) && Draw(draw)
    ensures CalculateBackoff(p, k, draw) as real <= WithJitter(p, Grown(p, k))
  {
    hide Grown, AddJitter;
    JitteredBounds(p, k, draw);
    CappedBounds(p, k);
    hide Capped;
  }

  predicate Whole(x: real) {
    x == x.Floor as real
  }

  lemma StepBelowCap(p: RetryPolicy, k: nat, draw: real)
    requires Validate(p) == None && p.maxDelay > 0 && (p.jitter ==> Whole(p.multiplier))
    requires (forall draw :: Draw(draw) ==> Fits(p, k, draw)) && Draw(draw)
    ensures 4 * CalculateBackoff(p, k, draw) <= (if p.jitter then 5 * p.maxDelay else 4 * p.maxDelay)
  {
    assert Fits(p, k, draw);
    JitterBounds(p, k, draw);
    CappedBounds(p, k);
    if p.jitter {
      WholeMultiplierWithinQuarter(p, k, p.multiplier.Floor);
      assert 4 * CalculateBackoff(p, k, draw) <= 5 * Capped(p, k).Floor;
    }
    hide *;
  }

  /** For any multiplier the delay is less than one nanosecond above the cap before the quarter is added. */
  lemma StepBelowNext(p: RetryPolicy, k: nat, draw: real)
    requires Validate(p) == None && p.maxDelay > 0 && Fits(p, k, draw) && Draw(draw)
    ensures 4 * CalculateBackoff(p, k, draw) <= 5 * (p.maxDelay + 1)
  {
    JitterBounds(p, k, draw);
    CappedBounds(p, k);
    var d := Capped(p, k);
    hide *;
    assert d < (p.maxDelay + 1) as real;
  }

  /** The waiting time of n attempts is bounded by the geometric series, times 5/4 with jitter. */
  lemma {:induction false} TotalBelowGeometric(p: RetryPolicy, n: nat, draws: nat -> real)
    requires Validate(p) == None && AllFit(p, n) && forall k: nat :: Draw(draws(k))
    ensures TotalBackoff(p, n, draws) as real <= WithJitter(p, Series(p, n))
  {
    if n > 0 {
      var k := n - 1;
      TotalBelowGeometric(p, k, draws);
      assert Fits(p, k, draws(k));
      StepBelowGrown(p, k, draws(k));
      Distribute(p, k);
      assert TotalBackoff(p, n, draws) == TotalBackoff(p, k, draws) + CalculateBackoff(p, k, draws(k));
      hide Grown, Series, TotalBackoff, CalculateBackoff;
    } else {
      QuotientOfZero(p.multiplier);
    }
  }

  lemma Distribute(p: RetryPolicy, k: nat)
    ensures Series(p, k + 1)
         == Series(p, k) + Grown(p, k)
  {
    GeometricStep(p.multiplier, k);
    assert Grown(p, k) == p.initialDelay as real * Pow(p.multiplier, k);
    Expand(p.initialDelay as real, Geometric(p.multiplier, k), Pow(p.multiplier, k));
    hide *;
  }

  lemma Expand(d: real, g: real, x: real)
    ensures d * (g + x) == d * g + d * x
  {
  }

  /** With a cap, n attempts wait at most n times the cap without jitter, whatever the multiplier, and at most 5/4 of
      that with jitter and a whole multiplier. */
  lemma {:induction false} TotalBelowCap(p: RetryPolicy, n: nat, draws: nat -> real)
    requires Validate(p) == None && p.maxDelay > 0 && (p.jitter ==> Whole(p.multiplier))
    requires AllFit(p, n) && forall k: nat :: Draw(draws(k))
    ensures 4 * TotalBackoff(p, n, draws) <= n * (if p.jitter then 5 * p.maxDelay else 4 * p.maxDelay)
  {
    if n > 0 {
      var k := n - 1;
      TotalBelowCap(p, k, draws);
      assert forall draw :: Draw(draw) ==> Fits(p, k, draw);
      assert Fits(p, k, draws(k));
      StepBelowCap(p, k, draws(k));
      assert TotalBackoff(p, n, draws) == TotalBackoff(p, k, draws) + CalculateBackoff(p, k, draws(k));
      var m := if p.jitter then 5 * p.maxDelay else 4 * p.maxDelay;
      AddOne(k, m);
      hide *;
    }
  }

  /** With any multiplier and jitter, one nanosecond more than the cap takes its place. */
  lemma {:induction false} TotalBelowNext(p: RetryPolicy, n: nat, draws: nat -> real)
    requires Validate(p) == None && p.maxDelay > 0
    requires AllFit(p, n) && forall k: nat :: Draw(draws(k))
    ensures 4 * TotalBackoff(p, n, draws) <= n * (5 * (p.maxDelay + 1))
  {
    if n > 0 {
      var k := n - 1;
      TotalBelowNext(p, k, draws);
      assert Fits(p, k, draws(k));
      StepBelowNext(p, k, draws(k));
      assert TotalBackoff(p, n, draws) == TotalBackoff(p, k, draws) + CalculateBackoff(p, k, draws(k));
      AddOne(k, 5 * (p.maxDelay + 1));
      hide *;
    }
  }

  // ----- The longest waits -----

  /** The greatest whole number strictly below x. */
  function LastBelow(x: real): int {
    if Whole(x) then x.Floor - 1 else x.Floor
  }

  /** The longest wait that any draw can make of an attempt. */
  function WorstBackoff(p: RetryPolicy, attempt: nat): int
    requires CapTestFits(p, attempt)
  {
    var d := Capped(p, attempt);
    if p.jitter && d > 0.0 then LastBelow(d * 1.25) else d.Floor
  }

  /** The draw that makes it. */
  ghost function WorstDraw(p: RetryPolicy, attempt: nat): real {
    if !CapTestFits(p, attempt) then 0.0
    else
      var d, worst := Capped(p, attempt), WorstBackoff(p, attempt);
      if p.jitter && d > 0.0 && worst as real > d then 4.0 * (worst as real / d - 1.0) else 0.0
  }

  lemma BelowQuarter(d: real, x: real)
    requires 0.0 < d <= x < d * 1.25
    ensures x.Floor <= LastBelow(d * 1.25) && LastBelow(d * 1.25) as real < d * 1.25 && d.Floor <= LastBelow(d * 1.25)
  {
  }

  lemma WorstIsWorst(p: RetryPolicy, k: nat, draw: real)
    requires Validate(p) == None && Fits(p, k, draw) && Draw(draw)
    ensures CalculateBackoff(p, k, draw) <= WorstBackoff(p, k)
  {
    JitteredBounds(p, k, draw);
    var d, x := Capped(p, k), Jittered(p, k, draw);
    assert CalculateBackoff(p, k, draw) == x.Floor;
    assert !p.jitter ==> x == d;
    if d > 0.0 { BelowQuarter(d, x); }
    hide Capped, Jittered, LastBelow, Grown;
  }

  /** The two cases in which jitter matters: the longest wait is beyond the delay itself, or it is the delay. */
  lemma QuarterIsDrawn(d: real)
    requires d > 0.0
    ensures var worst := LastBelow(d * 1.25);
            var draw := if worst as real > d then 4.0 * (worst as real / d - 1.0) else 0.0;
            Draw(draw) && AddJitter(d, draw).Floor == worst
  {
    BelowQuarter(d, d);
    var worst := LastBelow(d * 1.25);
    hide LastBelow;
    if worst as real > d {
      HitsExactly(d, worst as real, worst as real / d);
      hide AddJitter;
    }
  }

  lemma WorstIsDrawn(p: RetryPolicy, k: nat)
    requires Validate(p) == None && CapTestFits(p, k)
    ensures Draw(WorstDraw(p, k))
    ensures Fits(p, k, WorstDraw(p, k)) ==> CalculateBackoff(p, k, WorstDraw(p, k)) == WorstBackoff(p, k)
  {
    CappedBounds(p, k);
    hide Capped, Grown, LastBelow, AddJitter, CapTestFits;
    var d := Capped(p, k);
    if p.jitter && d > 0.0 { QuarterIsDrawn(d); }
    if p.jitter && d <= 0.0 { NothingToAdd(d); }
    hide Draw;
  }

  lemma NothingToAdd(d: real)
    requires d == 0.0
    ensures AddJitter(d, 0.0) == d
  {
  }

  ghost function WorstTotal(p: RetryPolicy, n: nat): int
    requires AllFit(p, n)
  {
    if n == 0 then 0
    else (
      assert Fits(p, n - 1, 0.0);
      WorstTotal(p, n - 1) + WorstBackoff(p, n - 1)
    )
  }

  lemma {:induction false} TotalBelowWorst(p: RetryPolicy, n: nat, draws: nat -> real)
    requires Validate(p) == None && AllFit(p, n) && forall k: nat :: Draw(draws(k))
    ensures TotalBackoff(p, n, draws) <= WorstTotal(p, n)
  {
    if n > 0 {
      TotalBelowWorst(p, n - 1, draws);
      assert Fits(p, n - 1, draws(n - 1));
      WorstIsWorst(p, n - 1, draws(n - 1));
      hide CalculateBackoff, WorstBackoff, Fits;
    }
  }

  lemma {:induction false} WorstTotalIsDrawn(p: RetryPolicy, n: nat, draws: nat -> real)
    requires Validate(p) == None && AllFit(p, n) && forall k: nat :: Draw(draws(k))
    requires forall k: nat :: k < n ==> draws(k) == WorstDraw(p, k)
    ensures TotalBackoff(p, n, draws) == WorstTotal(p, n)
  {
    if n > 0 {
      WorstTotalIsDrawn(p, n - 1, draws);
      assert Fits(p, n - 1, draws(n - 1));
      WorstIsDrawn(p, n - 1);
      hide CalculateBackoff, WorstBackoff, WorstDraw, Fits;
    }
  }

  /** No draws lift the waiting time of n attempts above the bound. */
  ghost predicate NeverAbove(p: RetryPolicy, n: nat, bound: real)
    requires AllFit(p, n)
  {
    forall draws: nat -> real :: (forall k: nat :: Draw(draws(k))) ==> TotalBackoff(p, n, draws) as real <= bound
  }

  /** Exactly: a bound, such as 5/4 of n times the cap, holds for all draws if and only if it holds for the sum of the
      longest waits, which the policy determines. */
  lemma {:induction false} NeverAboveExactly(p: RetryPolicy, n: nat, bound: real)
    requires Validate(p) == None && AllFit(p, n)
    ensures NeverAbove(p, n, bound) <==> WorstTotal(p, n) as real <= bound
  {
    if WorstTotal(p, n) as real <= bound {
      forall draws: nat -> real | (forall k: nat :: Draw(draws(k))) ensures TotalBackoff(p, n, draws) as real <= bound {
        TotalBelowWorst(p, n, draws);
      }
    }
    if NeverAbove(p, n, bound) {
      var draws: nat -> real := (k: nat) => if k < n then WorstDraw(p, k) else 0.0;
      forall k: nat ensures Draw(draws(k)) {
        if k < n {
          assert Fits(p, k, 0.0);
          WorstIsDrawn(p, k);
        }
      }
      WorstTotalIsDrawn(p, n, draws);
    }
  }

  /** With a fractional multiplier and jitter 5/4 of n times the cap can be exceeded: two attempts of 5ns grown by 1.18
      under a cap of 5ns wait 13ns. */
  lemma {:induction false} FractionalTotalOvershoots(draws: nat -> real)
    requires forall k: nat :: draws(k) == 0.9
    ensures var p := RetryPolicy(3, 5, 5, 1.18, true);
            && Validate(p) == None && AllFit(p, 2)
            && TotalBackoff(p, 2, draws) == 13 && 4 * TotalBackoff(p, 2, draws) > 2 * (5 * p.maxDelay)
  {
    var p := RetryPolicy(3, 5, 5, 1.18, true);
    assert Pow(1.18, 1) == 1.18 * Pow(1.18, 0) == 1.18;
    assert Grown(p, 0) == 5.0 && Grown(p, 1) == 5.9;
    assert Capped(p, 0) == 5.0 && Capped(p, 1) == 5.9;
    forall k: nat, draw | k < 2 && Draw(draw) ensures Fits(p, k, draw) {
      JitteredBounds(p, k, draw);
    }
    assert CalculateBackoff(p, 0, 0.9) == 6 && CalculateBackoff(p, 1, 0.9) == 7;
    TwoBackoffs(p, draws);
  }

  lemma TwoBackoffs(p: RetryPolicy, draws: nat -> real)
    requires AllFit(p, 2) && forall k: nat :: Draw(draws(k))
    ensures Fits(p, 0, draws(0)) && Fits(p, 1, draws(1))
    ensures TotalBackoff(p, 2, draws) == CalculateBackoff(p, 0, draws(0)) + CalculateBackoff(p, 1, draws(1))
  {
    assert AllFit(p, 1) && AllFit(p, 0);
    assert TotalBackoff(p, 1, draws) == TotalBackoff(p, 0, draws) + CalculateBackoff(p, 0, draws(0));
    hide CalculateBackoff, Fits;
  }

  lemma AddOne(k: nat, m: int)
    ensures (k + 1) * m == k * m + m
  {
  }

  // ----- The exact delay -----

  /** The backoff of a validated policy: the initial delay, grown once per attempt, as long as no cap is set or its
      whole nanoseconds do not exceed the cap, and the cap from then on; with jitter the drawn part of up to a quarter
      comes on top before the truncation. */
  lemma {:induction false} BackoffExactly(p: RetryPolicy, attempt: int, draw: real)
    requires Validate(p) == None && Fits(p, attempt, draw) && Draw(draw)
    ensures var grown := p.initialDelay as real * Pow(p.multiplier, if attempt < 0 then 0 else attempt);
            var delay := if p.maxDelay == 0 || grown.Floor <= p.maxDelay then grown else p.maxDelay as real;
            if p.jitter then
              && CalculateBackoff(p, attempt, draw) == (delay + draw * delay / 4.0).Floor
              && CalculateBackoff(p, attempt, draw) >= delay.Floor
            else CalculateBackoff(p, attempt, draw) == delay.Floor
  {
    assert CapTestFits(p, attempt);
    hide Pow, Capped, Grown, Fits, CalculateBackoff;
    CappedMeans(p, attempt);
    JitteredMeans(p, attempt, draw, Capped(p, attempt));
  }

  lemma JitteredMeans(p: RetryPolicy, attempt: int, draw: real, delay: real)
    requires Fits(p, attempt, draw) && Draw(draw) && delay == Capped(p, attempt) >= 0.0
    ensures CalculateBackoff(p, attempt, draw)
         == (if p.jitter then (delay + draw * delay / 4.0).Floor else delay.Floor)
         >= delay.Floor
  {
    hide Capped;
    Product(delay, draw);
    Quarter(delay, draw);
  }

  lemma CappedMeans(p: RetryPolicy, attempt: int)
    requires Validate(p) == None && CapTestFits(p, attempt)
    ensures var grown := p.initialDelay as real * Pow(p.multiplier, if attempt < 0 then 0 else attempt);
            && grown == Grown(p, attempt) >= 0.0
            && Capped(p, attempt)
               == (if p.maxDelay == 0 || grown.Floor <= p.maxDelay then grown else p.maxDelay as real)
            && Capped(p, attempt) >= 0.0
  {
    GrownGrows(p, attempt, attempt);
    hide Pow;
  }

  lemma Quarter(delay: real, draw: real)
    ensures delay * 0.25 * draw == draw * delay / 4.0
  {
  }

  /** What Validate reports is the first of these that the policy violates. */
  lemma ValidateReports(p: RetryPolicy)
    ensures var sound := [p.maxRetries >= 0, p.initialDelay >= 0, p.maxDelay >= 0, p.multiplier >= 1.0,
                          p.maxDelay == 0 || p.initialDelay <= p.maxDelay];
            var errors := [NegativeRetries, NegativeInitialDelay, NegativeMaxDelay, ShrinkingMultiplier,
                           InitialAboveMax];
            && (Validate(p) == None <==> false !in sound)
            && forall i :: 0 <= i < 5 ==>
                 (Validate(p) == Some(errors[i]) <==> !sound[i] && forall j :: 0 <= j < i ==> sound[j])
  {
    var sound := [p.maxRetries >= 0, p.initialDelay >= 0, p.maxDelay >= 0, p.multiplier >= 1.0,
                  p.maxDelay == 0 || p.initialDelay <= p.maxDelay];
    assert sound[0] && sound[1] && sound[2] && sound[3] && sound[4] ==>
        forall i :: 0 <= i < |sound| ==> sound[i];
  }

  /** The default policy waits 1, 2, 4, ... 256 seconds, and five minutes from attempt 9 on, as long as its delays fit;
      a draw of one half adds an eighth. */
  lemma {:induction false} DefaultBackoffs(k: nat)
    requires k <= 33
    ensures var p := DefaultRetryPolicy();
            var seconds := if k < 9 then [1, 2, 4, 8, 16, 32, 64, 128, 256][k] else 300;
            && Fits(p, k, 0.0) && Fits(p, k, 0.5)
            && CalculateBackoff(p, k, 0.0) == seconds * 1_000_000_000
            && CalculateBackoff(p, k, 0.5) == seconds * 1_125_000_000
  {
    var p := DefaultRetryPolicy();
    DefaultPolicyRange(k, 0.0);
    DefaultPolicyRange(k, 0.5);
    BackoffExactly(p, k, 0.0);
    BackoffExactly(p, k, 0.5);
    PowerOfTwo(k);
    hide Fits, CalculateBackoff, Pow;
  }

  /** The first nine powers of two, and a bound for the others. */
  lemma {:induction false} PowerOfTwo(k: nat)
    ensures if k < 9 then Pow(2.0, k) == [1, 2, 4, 8, 16, 32, 64, 128, 256][k] as real else Pow(2.0, k) >= 512.0
  {
    if k > 0 {
      PowerOfTwo(k - 1);
    }
  }

  /** The default policy stays inside 64-bit durations exactly through attempt 33. */
  lemma {:induction false} DefaultPolicyRange(attempt: nat, draw: real)
    requires Draw(draw)
    ensures Validate(DefaultRetryPolicy()) == None
    ensures Fits(DefaultRetryPolicy(), attempt, draw) <==> attempt <= 33
  {
    var p := DefaultRetryPolicy();
    PowersOfTwo();
    assert Grown(p, 33) == 1000000000.0 * 8589934592.0;
    assert Grown(p, 34) == 1000000000.0 * 17179869184.0;
    if attempt <= 33 {
      GrownGrows(p, attempt, 33);
      hide Grown;
      assert CapTestFits(p, attempt);
      CappedBounds(p, attempt);
      JitteredBounds(p, attempt, draw);
      hide Capped, Jittered;
    } else {
      GrownGrows(p, 34, attempt);
      hide Grown;
    }
  }

  lemma PowersOfTwo()
    ensures Pow(2.0, 33) == 8589934592.0 && Pow(2.0, 34) == 17179869184.0
  {
    PowAdd(2.0, 8, 8);
    PowAdd(2.0, 16, 16);
    assert Pow(2.0, 8) == 256.0 by {
      PowAdd(2.0, 4, 4);
      assert Pow(2.0, 4) == 16.0 by {
        PowAdd(2.0, 2, 2);
        assert Pow(2.0, 2) == 2.0 * Pow(2.0, 1);
      }
    }
    assert Pow(2.0, 33) == 2.0 * Pow(2.0, 32);
    assert Pow(2.0, 34) == 2.0 * Pow(2.0, 33);
  }

  lemma {:induction false} PowAdd(base: real, i: nat, j: nat)
    ensures Pow(base, i + j) == Pow(base, i) * Pow(base, j)
  {
    if i > 0 {
      PowAdd(base, i - 1, j);
      assert base * Pow(base, i - 1) * Pow(base, j) == base * (Pow(base, i - 1) * Pow(base, j));
    }
  }
}
