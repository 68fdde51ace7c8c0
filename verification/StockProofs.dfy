/** Holding and returning stock: carts are all-or-nothing, and what is held is given back
    exactly. */
module StockProofs {
  import opened Messages
  import opened Sums
  import opened InventoryModel
  import opened CartProofs

  // ---------------------------------------------------------------------------------------
  // One hold

  /** A hold answers with the least up warehouse that fits; otherwise with the reason: nobody
      stocks the SKU, everybody who does is down, or nobody up has enough. */
  lemma HoldAnswerSpec(lots: Lots, down: set<Warehouse>, need: Need)
    ensures match HoldAnswer(lots, down, need)
            case Held(w) => Fits(lots, down, need, w) && forall v | Fits(lots, down, need, v) :: w <= v
            case Refused(reason) =>
              && (forall v :: !Fits(lots, down, need, v))
              && (reason == SkuUnknown <==> forall v :: !Stocks(lots, need.sku, v))
              && (reason == WarehouseUnavailable <==>
                    (exists v :: Stocks(lots, need.sku, v)) && forall v :: !Up(lots, down, need.sku, v))
  {
    var c := Candidates(lots, down, need);
    forall w ensures w in c <==> Fits(lots, down, need, w) {
      if Fits(lots, down, need, w) { assert LotKey(need.sku, w) in lots; }
    }
    if HoldAnswer(lots, down, need).Held? { assert IsLeast(Least(c), c); }
  }

  /** Two sets of lots that look the same to a need. */
  ghost predicate SameFor(a: Lots, b: Lots, sku: Sku) {
    forall w :: Stocks(a, sku, w) == Stocks(b, sku, w) &&
                (Stocks(a, sku, w) ==> a[LotKey(sku, w)] == b[LotKey(sku, w)])
  }

  lemma HoldAnswerLocal(a: Lots, b: Lots, down: set<Warehouse>, need: Need)
    requires SameFor(a, b, need.sku)
    ensures HoldAnswer(a, down, need) == HoldAnswer(b, down, need)
  {
    assert forall w :: Up(a, down, need.sku, w) == Up(b, down, need.sku, w);
    var ca, cb := Candidates(a, down, need), Candidates(b, down, need);
    forall w ensures w in ca <==> w in cb {
      if w in ca { assert LotKey(need.sku, w) in b; }
      if w in cb { assert LotKey(need.sku, w) in a; }
    }
    assert ca == cb;
  }

  // ---------------------------------------------------------------------------------------
  // A whole cart

  ghost predicate FitsSomewhere(lots: Lots, down: set<Warehouse>, need: Need) {
    HoldAnswer(lots, down, need).Held?
  }

  /** What the whole cart gets, said of the lots before the first hold. */
  ghost predicate AllOrNothing(lots: Lots, down: set<Warehouse>, needs: seq<Need>, plan: Plan) {
    match plan
    case Planned(after, lines) =>
      && |lines| == |needs|
      && (forall i | 0 <= i < |needs| ::
            HoldAnswer(lots, down, needs[i]) == Held(lines[i].warehouse_id) &&
            lines[i] == ReservedLine(needs[i].sku, needs[i].quantity, lines[i].warehouse_id))
      && after.Keys == lots.Keys
      && (forall k | k in lots :: after[k] == lots[k].(reserved := lots[k].reserved + LineSum(lines, k)))
    case Blocked(sku, reason) =>
      exists i :: 0 <= i < |needs| && BlocksAt(lots, down, needs, i, sku, reason)
  }

  ghost predicate BlocksAt(lots: Lots, down: set<Warehouse>, needs: seq<Need>, i: int, sku: Sku, reason: StockFailure)
    requires 0 <= i < |needs|
  {
    && needs[i].sku == sku && HoldAnswer(lots, down, needs[i]) == Refused(reason)
    && forall j | 0 <= j < i :: FitsSomewhere(lots, down, needs[j])
  }

  /** What some lines take from one lot. */
  function LineSum(lines: seq<ReservedLine>, k: LotKey): int {
    if lines == [] then 0
    else
      var last := lines[|lines| - 1];
      LineSum(lines[..|lines| - 1], k) + (if LineKey(last) == k then last.quantity else 0)
  }

  lemma LineSumAppend(lines: seq<ReservedLine>, l: ReservedLine, k: LotKey)
    ensures LineSum(lines + [l], k) == LineSum(lines, k) + (if LineKey(l) == k then l.quantity else 0)
  {
    assert (lines + [l])[..|lines|] == lines;
  }

  lemma {:induction false} LineSumElsewhere(lines: seq<ReservedLine>, k: LotKey)
    requires forall i | 0 <= i < |lines| :: lines[i].sku != k.sku
    ensures LineSum(lines, k) == 0
  {
    if lines != [] { LineSumElsewhere(lines[..|lines| - 1], k); }
  }

  /** The lots after some holds look to a new SKU as they did before. */
  lemma HoldsDoNotTouchOthers(lots: Lots, down: set<Warehouse>, front: seq<Need>, plan: Plan, need: Need)
    requires plan.Planned? && AllOrNothing(lots, down, front, plan) && !HasSku(front, need.sku)
    ensures SameFor(lots, plan.lots, need.sku)
  {
    forall i | 0 <= i < |front| ensures plan.lines[i].sku != need.sku {
      assert plan.lines[i].sku == front[i].sku;
    }
    forall w | Stocks(lots, need.sku, w) ensures plan.lots[LotKey(need.sku, w)] == lots[LotKey(need.sku, w)] {
      LineSumElsewhere(plan.lines, LotKey(need.sku, w));
    }
  }

  lemma HeldExtends(lots: Lots, down: set<Warehouse>, front: seq<Need>, plan: Plan, need: Need, w: Warehouse)
    requires plan.Planned? && AllOrNothing(lots, down, front, plan)
    requires HoldAnswer(lots, down, need) == Held(w) && Stocks(plan.lots, need.sku, w)
    ensures AllOrNothing(lots, down, front + [need],
              Planned(Taken(plan.lots, LotKey(need.sku, w), need.quantity),
                      plan.lines + [ReservedLine(need.sku, need.quantity, w)]))
  {
    var line := ReservedLine(need.sku, need.quantity, w);
    forall k ensures LineSum(plan.lines + [line], k)
                     == LineSum(plan.lines, k) + (if LineKey(line) == k then line.quantity else 0)
    {
      LineSumAppend(plan.lines, line, k);
    }
  }

  lemma StillBlocked(lots: Lots, down: set<Warehouse>, front: seq<Need>, need: Need, sku: Sku, reason: StockFailure)
    requires AllOrNothing(lots, down, front, Blocked(sku, reason))
    ensures AllOrNothing(lots, down, front + [need], Blocked(sku, reason))
    ensures !forall i | 0 <= i < |front + [need]| :: FitsSomewhere(lots, down, (front + [need])[i])
  {
    var i :| 0 <= i < |front| && BlocksAt(lots, down, front, i, sku, reason);
    assert BlocksAt(lots, down, front + [need], i, sku, reason);
    assert !FitsSomewhere(lots, down, (front + [need])[i]);
  }

  /** A cart with distinct SKUs is held exactly when every need fits in one up warehouse of the
      lots before the cart; then each need gets the least such warehouse and the lots grow by
      exactly the lines.  Otherwise the SKU reported is the first that does not fit. */
  lemma {:induction false} HoldAllSpec(lots: Lots, down: set<Warehouse>, needs: seq<Need>)
    requires Distinct(needs)
    ensures AllOrNothing(lots, down, needs, HoldAll(lots, down, needs))
    ensures HoldAll(lots, down, needs).Planned? <==>
              forall i | 0 <= i < |needs| :: FitsSomewhere(lots, down, needs[i])
    decreases |needs|
  {
    if needs == [] {
      assert forall k :: LineSum([], k) == 0;
    } else {
      var front, need := needs[..|needs| - 1], needs[|needs| - 1];
      assert needs == front + [need];
      HoldAllSpec(lots, down, front);
      var before := HoldAll(lots, down, front);
      if before.Blocked? {
        StillBlocked(lots, down, front, need, before.sku, before.reason);
      } else {
        HoldsDoNotTouchOthers(lots, down, front, before, need);
        HoldAnswerLocal(lots, before.lots, down, need);
        var r := HoldAnswer(lots, down, need);
        if r.Refused? {
          assert BlocksAt(lots, down, needs, |front|, need.sku, r.reason);
        } else {
          HoldAnswerSpec(before.lots, down, need);
          HeldExtends(lots, down, front, before, need, r.warehouse_id);
          assert forall i | 0 <= i < |needs| :: FitsSomewhere(lots, down, needs[i]);
        }
      }
    }
  }

  /** Holding never promises more than there is. */
  lemma {:induction false} HoldAllBounded(lots: Lots, down: set<Warehouse>, needs: seq<Need>)
    requires Distinct(needs) && (forall k | k in lots :: lots[k].reserved <= lots[k].on_hand)
    requires HoldAll(lots, down, needs).Planned?
    ensures forall k | k in HoldAll(lots, down, needs).lots ::
              HoldAll(lots, down, needs).lots[k].reserved <= HoldAll(lots, down, needs).lots[k].on_hand
    decreases |needs|
  {
    if needs != [] {
      var front, need := needs[..|needs| - 1], needs[|needs| - 1];
      HoldAllBounded(lots, down, front);
      HoldAnswerSpec(HoldAll(lots, down, front).lots, down, need);
    }
  }

  // ---------------------------------------------------------------------------------------
  // Giving back

  lemma {:induction false} LineSumCons(l: ReservedLine, rest: seq<ReservedLine>, k: LotKey)
    ensures LineSum([l] + rest, k) == (if LineKey(l) == k then l.quantity else 0) + LineSum(rest, k)
    decreases |rest|
  {
    if rest != [] {
      var front := rest[..|rest| - 1];
      LineSumCons(l, front, k);
      assert ([l] + rest)[..|[l] + rest| - 1] == [l] + front;
    }
  }

  ghost predicate LinesStocked(lots: Lots, lines: seq<ReservedLine>) {
    forall i | 0 <= i < |lines| :: LineKey(lines[i]) in lots && lines[i].quantity > 0
  }

  lemma {:induction false} LineSumNonNegative(lines: seq<ReservedLine>, k: LotKey)
    requires forall i | 0 <= i < |lines| :: lines[i].quantity > 0
    ensures LineSum(lines, k) >= 0
  {
    if lines != [] { LineSumNonNegative(lines[..|lines| - 1], k); }
  }

  /** Lines whose quantities the lots hold are all given back, lot by lot exactly. */
  lemma {:induction false} GiveBackSpec(lots: Lots, lines: seq<ReservedLine>)
    requires LinesStocked(lots, lines)
    requires forall k | k in lots :: lots[k].reserved >= LineSum(lines, k)
    ensures CanGiveAll(lots, lines)
    ensures GiveBack(lots, lines).Keys == lots.Keys
    ensures forall k | k in lots ::
        GiveBack(lots, lines)[k] == lots[k].(reserved := lots[k].reserved - LineSum(lines, k))
    decreases |lines|
  {
    if lines != [] {
      var l, rest := lines[0], lines[1..];
      assert lines == [l] + rest;
      forall k ensures LineSum(lines, k) == (if LineKey(l) == k then l.quantity else 0) + LineSum(rest, k) {
        LineSumCons(l, rest, k);
      }
      LineSumNonNegative(rest, LineKey(l));
      GiveBackSpec(Given(lots, l), rest);
    }
  }

  lemma HeldLinesStocked(lots: Lots, down: set<Warehouse>, needs: seq<Need>)
    requires Distinct(needs) && (forall i | 0 <= i < |needs| :: needs[i].quantity > 0)
    requires HoldAll(lots, down, needs).Planned?
    ensures LinesStocked(HoldAll(lots, down, needs).lots, HoldAll(lots, down, needs).lines)
  {
    HoldAllSpec(lots, down, needs);
    var plan := HoldAll(lots, down, needs);
    forall i | 0 <= i < |plan.lines| ensures LineKey(plan.lines[i]) in plan.lots && plan.lines[i].quantity > 0 {
      HoldAnswerSpec(lots, down, needs[i]);
    }
  }

  lemma TakenThenGiven(lots: Lots, after: Lots, lines: seq<ReservedLine>)
    requires LinesStocked(after, lines) && after.Keys == lots.Keys
    requires forall k | k in lots :: lots[k].reserved >= 0
    requires forall k | k in lots :: after[k] == lots[k].(reserved := lots[k].reserved + LineSum(lines, k))
    ensures GiveBack(after, lines) == lots && CanGiveAll(after, lines)
  {
    GiveBackSpec(after, lines);
  }

  /** Rolling a held cart back restores every lot. */
  lemma RollbackRestores(lots: Lots, down: set<Warehouse>, needs: seq<Need>)
    requires Distinct(needs) && (forall i | 0 <= i < |needs| :: needs[i].quantity > 0)
    requires (forall k | k in lots :: lots[k].reserved >= 0) && HoldAll(lots, down, needs).Planned?
    ensures var plan := HoldAll(lots, down, needs);
            GiveBack(plan.lots, plan.lines) == lots && CanGiveAll(plan.lots, plan.lines)
  {
    HoldAllSpec(lots, down, needs);
    HeldLinesStocked(lots, down, needs);
    var plan := HoldAll(lots, down, needs);
    TakenThenGiven(lots, plan.lots, plan.lines);
  }
}
