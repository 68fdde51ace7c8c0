/** Aggregating a cart: each SKU once, with its true total, in the order of first occurrence. */
module CartProofs {
  import opened Messages
  import opened InventoryModel
  import Money

  // ---------------------------------------------------------------------------------------
  // True totals and distinct SKUs

  /** The true total of one SKU in a cart. */
  function TotalOf(items: seq<Line>, sku: Sku): int {
    if items == [] then 0
    else TotalOf(items[..|items| - 1], sku) +
         (if items[|items| - 1].sku == sku then items[|items| - 1].quantity else 0)
  }

  ghost predicate Distinct(needs: seq<Need>) {
    forall i, j | 0 <= i < j < |needs| :: needs[i].sku != needs[j].sku
  }

  ghost predicate HasSku(needs: seq<Need>, sku: Sku) {
    exists i :: 0 <= i < |needs| && needs[i].sku == sku
  }

  lemma {:induction false} QuantityOfSpec(needs: seq<Need>, sku: Sku)
    ensures !HasSku(needs, sku) ==> QuantityOf(needs, sku) == 0
    ensures Distinct(needs) ==>
              forall i | 0 <= i < |needs| && needs[i].sku == sku :: QuantityOf(needs, sku) == needs[i].quantity
  {
    if needs != [] {
      QuantityOfSpec(needs[1..], sku);
      if needs[0].sku != sku {
        assert forall i | 1 <= i < |needs| :: needs[i] == needs[1..][i - 1];
      }
    }
  }

  /** Setting a quantity overwrites the entry of a listed SKU and appends one for a new SKU. */
  ghost predicate SetAt(needs: seq<Need>, after: seq<Need>, n: Need, i: nat) {
    i < |needs| && needs[i].sku == n.sku && after == needs[i := n]
  }

  lemma {:induction false} SetQuantityShape(needs: seq<Need>, sku: Sku, q: int)
    ensures !HasSku(needs, sku) ==> SetQuantity(needs, sku, q) == needs + [Need(sku, q)]
    ensures HasSku(needs, sku) ==> exists i: nat :: SetAt(needs, SetQuantity(needs, sku, q), Need(sku, q), i)
  {
    if needs == [] {
    } else if needs[0].sku == sku {
      assert SetAt(needs, SetQuantity(needs, sku, q), Need(sku, q), 0);
    } else {
      var rest := needs[1..];
      SetQuantityShape(rest, sku, q);
      if HasSku(needs, sku) {
        var j :| 0 <= j < |needs| && needs[j].sku == sku;
        assert rest[j - 1].sku == sku;
        var i: nat :| SetAt(rest, SetQuantity(rest, sku, q), Need(sku, q), i);
        assert SetAt(needs, SetQuantity(needs, sku, q), Need(sku, q), i + 1);
      } else {
        assert forall i | 0 <= i < |rest| :: rest[i] == needs[i + 1];
      }
    }
  }

  // ---------------------------------------------------------------------------------------
  // What Aggregate returns

  ghost predicate InCart(items: seq<Line>, x: Sku) {
    exists i :: 0 <= i < |items| && items[i].sku == x
  }

  /** Where a SKU of the cart first occurs. */
  ghost function FirstAt(items: seq<Line>, x: Sku): nat {
    if items == [] then 0
    else if InCart(items[..|items| - 1], x) then FirstAt(items[..|items| - 1], x)
    else |items| - 1
  }

  ghost predicate Aggregates(items: seq<Line>, needs: seq<Need>) {
    && Distinct(needs)
    && (forall x :: HasSku(needs, x) <==> InCart(items, x))
    && (forall i, j | 0 <= i < j < |needs| :: FirstAt(items, needs[i].sku) < FirstAt(items, needs[j].sku))
    && (forall i | 0 <= i < |needs| :: 0 < needs[i].quantity <= MAX_SAFE
                                      && needs[i].quantity == TotalOf(items, needs[i].sku))
  }

  ghost predicate Countable(items: seq<Line>) {
    && (forall i | 0 <= i < |items| :: items[i].quantity > 0)
    && (forall x :: TotalOf(items, x) <= MAX_SAFE)
  }

  lemma {:induction false} TotalsGrow(items: seq<Line>, x: Sku)
    requires forall i | 0 <= i < |items| :: items[i].quantity > 0
    ensures TotalOf(items, x) >= 0
    ensures forall i | 0 <= i < |items| && items[i].sku == x :: items[i].quantity <= TotalOf(items, x)
    ensures items != [] ==> TotalOf(items[..|items| - 1], x) <= TotalOf(items, x)
  {
    if items != [] {
      var front := items[..|items| - 1];
      TotalsGrow(front, x);
      assert forall i | 0 <= i < |front| :: items[i] == front[i];
    }
  }

  /** A cart aggregates exactly when every quantity is positive and every SKU's total is a safe
      integer; the result then lists each SKU of the cart once, in the order of first occurrence, with its
      total. */
  lemma {:induction false} AggregateSpec(items: seq<Line>)
    ensures Aggregate(items).Some? <==> Countable(items)
    ensures Aggregate(items).Some? ==> Aggregates(items, Aggregate(items).value)
  {
    if items != [] {
      var front, last := items[..|items| - 1], items[|items| - 1];
      AggregateSpec(front);
      assert items == front + [last];
      assert forall i | 0 <= i < |front| :: items[i] == front[i];
      if Countable(items) {
        forall x ensures TotalOf(front, x) <= MAX_SAFE { TotalsGrow(items, x); }
        assert items[|front|] == last;
        TotalsGrow(items, last.sku);
      }
      if Countable(front) {
        AddLineSpec(front, Aggregate(front).value, last);
      }
    }
  }

  lemma InCartAppend(front: seq<Line>, last: Line, x: Sku)
    ensures InCart(front + [last], x) <==> InCart(front, x) || x == last.sku
  {
    var items := front + [last];
    assert items[|front|] == last;
    if InCart(front, x) { var i :| 0 <= i < |front| && front[i].sku == x; assert items[i].sku == x; }
  }

  lemma {:induction false} FirstAtBound(items: seq<Line>, x: Sku)
    requires InCart(items, x)
    ensures FirstAt(items, x) < |items|
  {
    if InCart(items[..|items| - 1], x) { FirstAtBound(items[..|items| - 1], x); }
  }

  lemma {:induction false} NotInCartTotal(items: seq<Line>, x: Sku)
    requires !InCart(items, x)
    ensures TotalOf(items, x) == 0
  {
    if items != [] {
      var front := items[..|items| - 1];
      assert forall i | 0 <= i < |front| :: front[i] == items[i];
      NotInCartTotal(front, x);
    }
  }

  /** The running quantity of a SKU is its total so far. */
  lemma RunningQuantity(front: seq<Line>, needs: seq<Need>, sku: Sku)
    requires Aggregates(front, needs)
    ensures QuantityOf(needs, sku) == TotalOf(front, sku)
  {
    QuantityOfSpec(needs, sku);
    if !HasSku(needs, sku) { NotInCartTotal(front, sku); }
  }

  lemma TotalsAppend(front: seq<Line>, last: Line)
    ensures forall x :: TotalOf(front + [last], x) == TotalOf(front, x) + (if x == last.sku then last.quantity else 0)
    ensures forall x | InCart(front, x) :: FirstAt(front + [last], x) == FirstAt(front, x) < |front|
    ensures !InCart(front, last.sku) ==> FirstAt(front + [last], last.sku) == |front|
    ensures forall x :: InCart(front + [last], x) <==> InCart(front, x) || x == last.sku
  {
    assert (front + [last])[..|front|] == front;
    forall x | InCart(front, x) ensures FirstAt(front + [last], x) == FirstAt(front, x) < |front| {
      FirstAtBound(front, x);
    }
    forall x ensures InCart(front + [last], x) <==> InCart(front, x) || x == last.sku { InCartAppend(front, last, x); }
  }

  lemma HasSkuAppend(needs: seq<Need>, n: Need, x: Sku)
    ensures HasSku(needs + [n], x) <==> HasSku(needs, x) || x == n.sku
  {
    var after := needs + [n];
    assert after[|needs|].sku == n.sku;
    if HasSku(needs, x) { var i :| 0 <= i < |needs| && needs[i].sku == x; assert after[i].sku == x; }
  }

  lemma NewSkuAggregates(front: seq<Line>, needs: seq<Need>, last: Line)
    requires Aggregates(front, needs) && !HasSku(needs, last.sku) && 0 < last.quantity <= MAX_SAFE
    ensures Aggregates(front + [last], needs + [Need(last.sku, last.quantity)])
  {
    var items, after := front + [last], needs + [Need(last.sku, last.quantity)];
    TotalsAppend(front, last);
    NotInCartTotal(front, last.sku);
    assert forall i | 0 <= i < |needs| :: HasSku(needs, needs[i].sku);
    forall x ensures HasSku(after, x) <==> HasSku(needs, x) || x == last.sku {
      HasSkuAppend(needs, Need(last.sku, last.quantity), x);
    }
    forall i | 0 <= i < |after|
      ensures 0 < after[i].quantity <= MAX_SAFE && after[i].quantity == TotalOf(items, after[i].sku)
    {
      if i < |needs| { assert needs[i].sku != last.sku; }
    }
  }

  lemma OldSkuAggregates(front: seq<Line>, needs: seq<Need>, last: Line, i: nat)
    requires Aggregates(front, needs) && i < |needs| && needs[i].sku == last.sku && last.quantity > 0
    requires TotalOf(front + [last], last.sku) <= MAX_SAFE
    ensures Aggregates(front + [last], needs[i := Need(last.sku, TotalOf(front + [last], last.sku))])
  {
    var after := needs[i := Need(last.sku, TotalOf(front + [last], last.sku))];
    TotalsAppend(front, last);
    assert forall j | 0 <= j < |needs| :: after[j].sku == needs[j].sku && HasSku(needs, needs[j].sku);
    forall x ensures HasSku(after, x) <==> HasSku(needs, x) {
      if HasSku(needs, x) { var j :| 0 <= j < |needs| && needs[j].sku == x; assert after[j].sku == x; }
    }
  }

  /** One more line keeps a cart countable if its quantity is positive and its SKU's total still safe. */
  lemma CountableMore(front: seq<Line>, last: Line)
    requires Countable(front)
    ensures TotalOf(front + [last], last.sku) == TotalOf(front, last.sku) + last.quantity
    ensures TotalOf(front, last.sku) >= 0
    ensures Countable(front + [last]) <==> last.quantity > 0 && TotalOf(front + [last], last.sku) <= MAX_SAFE
  {
    hide FirstAt, InCart;
    TotalsAppend(front, last);
    TotalsGrow(front, last.sku);
    assert (front + [last])[|front|] == last;
  }

  lemma NewSkuTotal(front: seq<Line>, needs: seq<Need>, x: Sku)
    requires Aggregates(front, needs) && !HasSku(needs, x)
    ensures TotalOf(front, x) == 0
  {
    NotInCartTotal(front, x);
  }

  lemma AddLineSpec(front: seq<Line>, needs: seq<Need>, last: Line)
    requires Aggregates(front, needs) && Countable(front)
    ensures AddLine(needs, last).Some? <==> Countable(front + [last])
    ensures AddLine(needs, last).Some? ==> Aggregates(front + [last], AddLine(needs, last).value)
  {
    hide Aggregates, Countable, SetQuantity, TotalOf;
    RunningQuantity(front, needs, last.sku);
    CountableMore(front, last);
    var next := TotalOf(front + [last], last.sku);
    if AddLine(needs, last).Some? {
      SetQuantityShape(needs, last.sku, next);
      if HasSku(needs, last.sku) {
        var i: nat :| SetAt(needs, AddLine(needs, last).value, Need(last.sku, next), i);
        OldSkuAggregates(front, needs, last, i);
      } else {
        NewSkuTotal(front, needs, last.sku);
        NewSkuAggregates(front, needs, last);
      }
    }
  }

  // ---------------------------------------------------------------------------------------
  // Carts the orders service accepts

  ghost predicate Priced(items: seq<Line>) {
    forall i | 0 <= i < |items| :: items[i].quantity > 0 && items[i].unit_price_cents >= 1
  }

  lemma {:induction false} TotalWithinSum(items: seq<Line>, x: Sku)
    requires Priced(items)
    ensures TotalOf(items, x) <= Money.TrueSum(items) && Money.TrueSum(items) >= 0
  {
    if items != [] {
      var front, last := items[..|items| - 1], items[|items| - 1];
      TotalWithinSum(front, x);
      Money.ProductAtLeast(last.unit_price_cents, last.quantity);
      assert Money.LineTotal(last) >= last.quantity;
    }
  }

  /** When no line is free, every cart the orders service can total is one the inventory can count,
      so its order always gets an answer. */
  lemma PricedCartsAreCountable(items: seq<Line>)
    requires Priced(items) && Money.SafeSum(items).Some?
    ensures Aggregate(items).Some?
  {
    forall it | it in items ensures Money.ValidLine(it) {}
    Money.TotalReturnedIff(items);
    forall x ensures TotalOf(items, x) <= MAX_SAFE { TotalWithinSum(items, x); }
    AggregateSpec(items);
  }

  /** One SKU in two lines at no price. */
  function FreeCart(sku: Sku): seq<Line> {
    [Line(sku, MAX_SAFE, 0), Line(sku, 1, 0)]
  }

  /** With free lines that fails: this cart is accepted at a total of zero, but the inventory refuses
      to count it. */
  lemma FreeCartUnanswered(sku: Sku)
    ensures Money.SafeSum(FreeCart(sku)) == Some(0) && Aggregate(FreeCart(sku)).None?
  {
    var a, b, cart := Line(sku, MAX_SAFE, 0), Line(sku, 1, 0), FreeCart(sku);
    assert cart[..1] == [a] && [a][..0] == [];
    assert Money.LineTotal(a) == 0 && Money.LineTotal(b) == 0;
    assert Money.SafeSum([a]) == Some(0);
    assert TotalOf([a], sku) == TotalOf([a][..0], sku) + MAX_SAFE;
    assert TotalOf(cart, sku) == MAX_SAFE + 1;
    AggregateSpec(cart);
  }
}
