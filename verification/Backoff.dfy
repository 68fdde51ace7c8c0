/** The delay between redeliveries (src/broker.ts, backoffDelayMs), over the reals. */
module Backoff {

  datatype Options = Options(baseMs: real, maxMs: real, factor: real)

  function Power(x: real, n: nat): real {
    if n == 0 then 1.0 else Power(x, n - 1) * x
  }

  /** The delay after n earlier ones, before the cap. */
  function Uncapped(o: Options, n: nat): real {
    o.baseMs * Power(o.factor, n)
  }

  function Delay(o: Options, attempt: nat): real
    requires attempt >= 1
  {
    Capped(Uncapped(o, attempt - 1), o.maxMs)
  }

  function Capped(delay: real, cap: real): real {
    if delay <= cap then delay else cap
  }

  lemma ScaleUp(x: real, f: real)
    requires x >= 0.0 && f >= 1.0
    ensures x * f >= x
  {
    assert x * (f - 1.0) >= 0.0;
  }

  lemma {:induction false} PowerPositive(f: real, n: nat)
    requires f >= 1.0
    ensures Power(f, n) >= 1.0
  {
    if n > 0 {
      PowerPositive(f, n - 1);
      ScaleUp(Power(f, n - 1), f);
    }
  }

  /** Bernoulli's inequality. */
  lemma {:induction false} PowerGrows(f: real, n: nat)
    requires f >= 1.0
    ensures Power(f, n) >= 1.0 + n as real * (f - 1.0)
  {
    if n > 0 {
      PowerGrows(f, n - 1);
      PowerPositive(f, n - 1);
      var p, d := Power(f, n - 1), f - 1.0;
      assert Power(f, n) == p + p * d;
      ScaleDifference(p, d);
      assert (n as real - 1.0) * d + d == n as real * d;
    }
  }

  lemma ScaleDifference(p: real, d: real)
    requires p >= 1.0 && d >= 0.0
    ensures p * d >= d
  {
    assert (p - 1.0) * d >= 0.0;
  }

  /** A growing power of a factor above one overtakes any bound. */
  lemma PowerUnbounded(f: real, bound: real) returns (n: nat)
    requires f > 1.0
    ensures n >= 1 && Power(f, n) > bound
  {
    var need := if bound <= 0.0 then 0.0 else bound / (f - 1.0);
    if bound > 0.0 { QuotientPositive(bound, f - 1.0); }
    n := need.Floor + 1;
    PowerGrows(f, n);
    assert n as real > need;
    MoreThanShare(n as real, bound, f - 1.0);
  }

  lemma QuotientPositive(x: real, d: real)
    requires x > 0.0 && d > 0.0
    ensures x / d > 0.0
  {
    assert x / d * d == x;
    SignOfProduct(x / d, d);
  }

  lemma SignOfProduct(q: real, d: real)
    requires d > 0.0
    ensures q * d > 0.0 ==> q > 0.0
  {
  }

  lemma MoreThanShare(n: real, bound: real, d: real)
    requires d > 0.0 && n > (if bound <= 0.0 then 0.0 else bound / d)
    ensures n * d > bound
  {
    if bound <= 0.0 {
      assert n * d > 0.0;
    } else {
      assert (n - bound / d) * d > 0.0;
      assert bound / d * d == bound;
    }
  }

  /** Before the cap is applied the delay does not shrink. */
  lemma ProductGrows(o: Options, n: nat)
    requires o.factor >= 1.0 && (o.baseMs >= 0.0 || o.factor == 1.0)
    ensures Uncapped(o, n) <= Uncapped(o, n + 1)
  {
    var p := Power(o.factor, n);
    assert Power(o.factor, n + 1) == p * o.factor;
    if o.baseMs >= 0.0 {
      PowerPositive(o.factor, n);
      GrowsBy(o.baseMs, p, o.factor);
    } else {
      assert p * o.factor == p;
    }
  }

  lemma StepUp(o: Options, attempt: nat)
    requires attempt >= 1 && o.factor >= 1.0 && (o.baseMs >= 0.0 || o.factor == 1.0)
    ensures Delay(o, attempt) <= Delay(o, attempt + 1)
  {
    hide Uncapped;
    ProductGrows(o, attempt - 1);
  }

  lemma GrowsBy(b: real, p: real, f: real)
    requires b >= 0.0 && p >= 1.0 && f >= 1.0
    ensures b * (p * f) >= b * p
  {
    assert b * p >= 0.0;
    ScaleUp(b * p, f);
    assert b * (p * f) == b * p * f;
  }

  /** A negative base under a factor above one sinks below any cap sooner or later. */
  lemma StepDown(o: Options) returns (attempt: nat)
    requires o.factor > 1.0 && o.baseMs < 0.0
    ensures attempt >= 1 && Delay(o, attempt) > Delay(o, attempt + 1)
  {
    var ratio := o.maxMs / o.baseMs;
    attempt := PowerUnbounded(o.factor, ratio);
    var p, q := Power(o.factor, attempt - 1), Power(o.factor, attempt);
    PowerPositive(o.factor, attempt - 1);
    ScaleDifference(p, o.factor - 1.0);
    assert q == p + p * (o.factor - 1.0);
    NegativeScales(o.baseMs, p, q);
    NegativeScales(o.baseMs, ratio, q);
    RatioTimes(o.maxMs, o.baseMs);
    assert Delay(o, attempt + 1) == Capped(o.baseMs * q, o.maxMs) == o.baseMs * q;
    assert Delay(o, attempt) == Capped(o.baseMs * p, o.maxMs);
  }

  lemma RatioTimes(x: real, b: real)
    requires b != 0.0
    ensures b * (x / b) == x
  {
  }

  lemma NegativeScales(b: real, x: real, y: real)
    requires b < 0.0 && x < y
    ensures b * y < b * x
  {
    assert (y - x) * b < 0.0;
  }

  /** With a factor of at least one, delays never shrink exactly when the base is not negative or
      the factor is one. */
  lemma DelaysNeverShrinkIff(o: Options)
    requires o.factor >= 1.0
    ensures (forall a: nat | a >= 1 :: Delay(o, a) <= Delay(o, a + 1)) <==> o.baseMs >= 0.0 || o.factor == 1.0
  {
    if o.baseMs >= 0.0 || o.factor == 1.0 {
      forall a: nat | a >= 1 ensures Delay(o, a) <= Delay(o, a + 1) { StepUp(o, a); }
    } else {
      var a := StepDown(o);
    }
  }

  /** What the delays are, step by step: the base, then each time the factor times the one before, until
      the cap is reached; and from there on the cap, when the base is not negative and the factor is at
      least one. */
  lemma DelaysMultiply(o: Options, attempt: nat)
    requires attempt >= 1
    ensures Delay(o, 1) == if o.baseMs <= o.maxMs then o.baseMs else o.maxMs
    ensures Delay(o, attempt) < o.maxMs ==>
              var next := Delay(o, attempt) * o.factor;
              Delay(o, attempt + 1) == if next <= o.maxMs then next else o.maxMs
    ensures Delay(o, attempt) >= o.maxMs && o.baseMs >= 0.0 && o.factor >= 1.0 ==>
              Delay(o, attempt) == Delay(o, attempt + 1) == o.maxMs
  {
    var p := Power(o.factor, attempt - 1);
    assert Power(o.factor, attempt) == p * o.factor;
    assert Power(o.factor, 0) == 1.0;
    assert o.baseMs * (p * o.factor) == o.baseMs * p * o.factor;
    if o.baseMs >= 0.0 && o.factor >= 1.0 { StepUp(o, attempt); }
  }

  /** sleep: a delay that is not positive does not wait. */
  function Sleep(o: Options, attempt: nat): real
    requires attempt >= 1
  {
    if Delay(o, attempt) > 0.0 then Delay(o, attempt) else 0.0
  }

  /** The sleeps after these attempts together. */
  function Waited(o: Options, attempts: seq<nat>): real
    requires forall a | a in attempts :: a >= 1
  {
    if attempts == [] then 0.0
    else
      var front, last := attempts[..|attempts| - 1], attempts[|attempts| - 1];
      assert last in attempts && forall a | a in front :: a in attempts;
      Waited(o, front) + Sleep(o, last)
  }

  lemma DelayCapped(o: Options, attempt: nat)
    requires attempt >= 1
    ensures Delay(o, attempt) <= o.maxMs
  {
  }

  function Cap(o: Options): real {
    if o.maxMs > 0.0 then o.maxMs else 0.0
  }

  /** The cap once for each of m retries. */
  function MaxWait(o: Options, m: nat): real {
    if m == 0 then 0.0 else MaxWait(o, m - 1) + Cap(o)
  }

  lemma {:induction false} MaxWaitIs(o: Options, m: nat)
    ensures MaxWait(o, m) == m as real * Cap(o)
  {
    if m > 0 {
      MaxWaitIs(o, m - 1);
      OneMore(m, Cap(o));
    }
  }

  lemma OneMore(m: nat, cap: real)
    requires m > 0
    ensures (m - 1) as real * cap + cap == m as real * cap
  {
  }

  lemma {:induction false} MaxWaitGrows(o: Options, n: nat, m: nat)
    requires n <= m
    ensures MaxWait(o, n) <= MaxWait(o, m)
  {
    if n < m { MaxWaitGrows(o, n, m - 1); }
  }

  lemma {:induction false} WaitBounded(o: Options, attempts: seq<nat>)
    requires forall a | a in attempts :: a >= 1
    ensures 0.0 <= Waited(o, attempts) <= MaxWait(o, |attempts|)
  {
    if attempts != [] {
      var front, last := attempts[..|attempts| - 1], attempts[|attempts| - 1];
      assert last in attempts && forall a | a in front :: a in attempts;
      DelayCapped(o, last);
      WaitBounded(o, front);
    }
  }
}
