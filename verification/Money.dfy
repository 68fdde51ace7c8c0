/** Exact money: totalCents adds line totals in floating point, yet never returns an inexact
    sum (src/orders.ts). */
module Money {
  import opened Messages

  /** All the code relies on about the arithmetic of doubles on integer results: it is monotone,
      and exact on integers up to 2^53 in magnitude. */
  ghost predicate IsRounding(rnd: int -> int) {
    && (forall x, y | x <= y :: rnd(x) <= rnd(y))
    && (forall x | -MAX_SAFE - 1 <= x <= MAX_SAFE + 1 :: rnd(x) == x)
  }

  function LineTotal(it: Line): int {
    it.quantity * it.unit_price_cents
  }

  /** The true sum of a cart. */
  function TrueSum(items: seq<Line>): int {
    if items == [] then 0 else TrueSum(items[..|items| - 1]) + LineTotal(items[|items| - 1])
  }

  /** The sum in exact integers, given up as soon as any number on the way is not safe. */
  function SafeSum(items: seq<Line>): Option<int> {
    if items == [] then Some(0)
    else
      var before, it := SafeSum(items[..|items| - 1]), items[|items| - 1];
      if before.None? || !Safe(it.quantity) || !Safe(it.unit_price_cents) || !Safe(LineTotal(it))
         || !Safe(before.value + LineTotal(it)) then None
      else Some(before.value + LineTotal(it))
  }

  /** Rounding never turns an unsafe integer into a safe one, nor changes a safe one. */
  lemma SafeSurvivesRounding(rnd: int -> int, x: int)
    requires IsRounding(rnd)
    ensures Safe(rnd(x)) <==> Safe(x)
    ensures Safe(x) ==> rnd(x) == x
  {
    if x > MAX_SAFE {
      assert rnd(MAX_SAFE + 1) <= rnd(x);
    } else if x < -MAX_SAFE {
      assert rnd(x) <= rnd(-MAX_SAFE - 1);
    }
  }

  /** totalCents, with every product and sum rounded: the result is the exact safe sum. */
  method TotalCents(items: seq<Line>, rnd: int -> int) returns (total: Option<int>)
    requires IsRounding(rnd)
    ensures total == SafeSum(items)
    ensures total.Some? ==> total.value == TrueSum(items) && Safe(total.value)
  {
    var sum := 0;
    for i := 0 to |items|
      invariant SafeSum(items[..i]) == Some(sum) && Safe(sum) && sum == TrueSum(items[..i])
    {
      assert items[..i + 1][..i] == items[..i];
      var it := items[i];
      if !Safe(it.quantity) || !Safe(it.unit_price_cents) { GivenUp(items, i); return None; }
      var line := rnd(it.quantity * it.unit_price_cents);
      SafeSurvivesRounding(rnd, LineTotal(it));
      if !Safe(line) { GivenUp(items, i); return None; }
      var next := rnd(sum + line);
      SafeSurvivesRounding(rnd, sum + line);
      if !Safe(next) { GivenUp(items, i); return None; }
      sum := next;
    }
    assert items[..|items|] == items;
    return Some(sum);
  }

  lemma {:induction false} GivenUp(items: seq<Line>, i: nat)
    requires i < |items| && SafeSum(items[..i + 1]).None?
    ensures SafeSum(items).None?
    decreases |items|
  {
    if i + 1 == |items| {
      assert items[..i + 1] == items;
    } else {
      assert items[..|items| - 1][..i + 1] == items[..i + 1];
      GivenUp(items[..|items| - 1], i);
    }
  }

  /** A line as the schema admits it. */
  predicate ValidLine(it: Line) {
    it.quantity > 0 && it.unit_price_cents >= 0
  }

  ghost predicate ValidCart(items: seq<Line>) {
    forall it | it in items :: ValidLine(it)
  }

  /** A free line whose quantity is beyond the safe integers. */
  predicate HugeFreeLine(it: Line) {
    it.unit_price_cents == 0 && it.quantity > MAX_SAFE
  }

  lemma ProductAtLeast(a: int, b: int)
    requires a >= 1 && b >= 0
    ensures a * b >= b && (b >= 1 ==> a * b >= a)
  {
  }

  lemma ValidLineSafe(it: Line)
    requires ValidLine(it) && LineTotal(it) <= MAX_SAFE && !HugeFreeLine(it)
    ensures Safe(it.quantity) && Safe(it.unit_price_cents) && LineTotal(it) >= 0
  {
    ProductAtLeast(it.quantity, it.unit_price_cents);
  }

  lemma {:induction false} PartialSums(items: seq<Line>)
    requires ValidCart(items)
    ensures TrueSum(items) >= 0
    ensures forall it | it in items :: 0 <= LineTotal(it) <= TrueSum(items)
  {
    if items != [] {
      var front, last := items[..|items| - 1], items[|items| - 1];
      assert items == front + [last] && last in items;
      forall it | it in front ensures ValidLine(it) { assert it in items; }
      PartialSums(front);
      ProductAtLeast(last.quantity, last.unit_price_cents);
    }
  }

  /** On carts the schema admits, a total is returned exactly when the true sum is a safe integer
      and no line is free with a quantity beyond the safe integers. */
  lemma {:induction false} TotalReturnedIff(items: seq<Line>)
    requires ValidCart(items)
    ensures SafeSum(items).Some? <==> TrueSum(items) <= MAX_SAFE && forall it | it in items :: !HugeFreeLine(it)
    ensures SafeSum(items).Some? ==> SafeSum(items).value == TrueSum(items)
  {
    if items != [] {
      var front, last := items[..|items| - 1], items[|items| - 1];
      assert items == front + [last] && last in items;
      forall it | it in front ensures ValidLine(it) { assert it in items; }
      TotalReturnedIff(front);
      PartialSums(items);
      PartialSums(front);
      if TrueSum(items) <= MAX_SAFE && !HugeFreeLine(last) { ValidLineSafe(last); }
    }
  }

  /** A safe true sum is not enough: this cart costs nothing, is admitted by the schema, and yet
      gets no total. */
  lemma FreeLineGetsNoTotal(sku: Sku)
    ensures var cart := [Line(sku, MAX_SAFE + 1, 0)];
            ValidCart(cart) && TrueSum(cart) == 0 && SafeSum(cart).None?
  {
    var cart := [Line(sku, MAX_SAFE + 1, 0)];
    assert cart[..0] == [];
    assert LineTotal(cart[0]) == 0;
    assert TrueSum(cart) == TrueSum(cart[..0]) + LineTotal(cart[0]);
  }

  lemma {:induction false} SumWithout(items: seq<Line>, i: nat)
    requires i < |items|
    ensures TrueSum(items) == TrueSum(items[..i] + items[i + 1..]) + LineTotal(items[i])
    decreases |items|
  {
    var last := |items| - 1;
    if i == last {
      assert items[..i] + items[i + 1..] == items[..last];
    } else {
      SumWithout(items[..last], i);
      var rest := items[..i] + items[i + 1..];
      assert rest[..|rest| - 1] == items[..last][..i] + items[..last][i + 1..];
      assert rest[|rest| - 1] == items[last];
    }
  }

  lemma TakeOut(b: seq<Line>, i: nat)
    requires i < |b|
    ensures multiset(b[..i] + b[i + 1..]) == multiset(b) - multiset{b[i]}
  {
    assert b == b[..i] + [b[i]] + b[i + 1..];
  }

  lemma {:induction false} SumPermuted(a: seq<Line>, b: seq<Line>)
    requires multiset(a) == multiset(b)
    ensures TrueSum(a) == TrueSum(b)
    decreases |a|
  {
    if a == [] {
      assert |multiset(b)| == 0;
      assert b == [];
    } else {
      var front, last := a[..|a| - 1], a[|a| - 1];
      assert a == front + [last];
      assert last in multiset(b);
      var i :| 0 <= i < |b| && b[i] == last;
      TakeOut(b, i);
      SumPermuted(front, b[..i] + b[i + 1..]);
      SumWithout(b, i);
    }
  }

  /** On carts the schema admits, the total does not depend on the order of the lines. */
  lemma TotalIgnoresOrder(a: seq<Line>, b: seq<Line>)
    requires ValidCart(a) && multiset(a) == multiset(b)
    ensures SafeSum(a) == SafeSum(b)
  {
    assert forall it :: it in a <==> it in multiset(a);
    assert forall it :: it in b <==> it in multiset(b);
    SumPermuted(a, b);
    TotalReturnedIff(a);
    TotalReturnedIff(b);
  }
}
