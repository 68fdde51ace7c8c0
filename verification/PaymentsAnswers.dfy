/** What the payments service answers to each call, and what it writes and sends, told from its ledgers,
    its records and its log before and after the call, over every run. */
module PaymentsAnswers {
  import opened Messages
  import opened PaymentsModel
  import opened PaymentsProofs

  // ---------------------------------------------------------------------------------------
  // Sending what is owed

  /** The order has an event that never went out. */
  ghost predicate Owes(st: Store, o: Uuid) {
    o in st.byOrder && st.byOrder[o].event.Some? && Sent(st.log, st.byOrder[o].event.value) == 0
  }

  /** A call about a settled payment sends the event still owed, if the publisher takes it, and does
      nothing else; answers says what it answers when nothing is owed and when the event went out. */
  ghost predicate SendsOwed(st: Store, o: Uuid, up: bool, st': Store, kind: Kind, nothing: Kind, sent: Kind) {
    if !Owes(st, o) then st' == st && kind == nothing
    else if !up then st' == st && kind == PublishFailed
    else
      && o in st.byOrder && st.byOrder[o].event.Some? && kind == sent
      && var r, e := st.byOrder[o], st.byOrder[o].event.value;
         st' == st.(byOrder := st.byOrder[o := r.(published := true)],
                    log := st.log + [Post(CatalogKey(e.body), e)])
  }

  // ---------------------------------------------------------------------------------------
  // Reserving

  ghost predicate WellFormedReserve(q: ReserveRequest) {
    q.uuids_ok && 0 < q.amount_cents <= MAX_SAFE && q.key.length >= 8
  }

  /** The record is for this very request. */
  ghost predicate ForRequest(p: Payment, q: ReserveRequest) {
    && p.order_id == q.order_id && p.customer_id == q.customer_id
    && p.amount_cents == q.amount_cents && p.currency == q.currency
  }

  /** A request under a key and for an order not seen before, with no failure injected. */
  ghost predicate NewIntent(st: Store, q: ReserveRequest) {
    && WellFormedReserve(q) && q.key !in st.byReserve && q.order_id !in st.byOrder && st.failNext != Some(AtAuthorize)
  }

  ghost function AvailableOf(st: Store, c: Uuid): int {
    if c in st.ledgers then st.ledgers[c].available_cents else 0
  }

  ghost function HeldOf(st: Store, c: Uuid): int {
    if c in st.ledgers then st.ledgers[c].held_cents else 0
  }

  /** The customer may pay, has the money, and can have that much held. */
  ghost predicate CanPay(st: Store, c: Uuid, cents: int) {
    c !in st.blocked && AvailableOf(st, c) >= cents && HeldOf(st, c) + cents <= MAX_SAFE
  }

  /** The store with a new record, found under each of its keys. */
  ghost function Recorded(st: Store, q: ReserveRequest, e: Env, r: Record): Store {
    st.(byOrder := st.byOrder[q.order_id := r], byReserve := st.byReserve[q.key := q.order_id],
        byId := st.byId[e.payId := q.order_id])
  }

  ghost predicate PaymentRight(p: Payment, q: ReserveRequest, e: Env) {
    && ForRequest(p, q) && p.payment_id == e.payId && p.reserve_key == q.key && p.charge_key.None?
    && p.captured_cents == 0 && p.correlation_id == q.correlation_id
  }

  /** A customer who can pay gets exactly the amount held, and no event is made. */
  ghost predicate HoldAnswered(st: Store, q: ReserveRequest, e: Env, st': Store, kind: Kind) {
    && kind == DidReserve && q.order_id in st'.byOrder
    && var r := st'.byOrder[q.order_id];
       && PaymentRight(r.payment, q, e) && r.payment.status == Reserved && r.payment.reserved_cents == q.amount_cents
       && r.payment.reason.None? && r.event.None? && !r.published
       && st' == Recorded(st, q, e, r).(
            ledgers := st.ledgers[q.customer_id := Ledger(AvailableOf(st, q.customer_id) - q.amount_cents,
                                                          HeldOf(st, q.customer_id) + q.amount_cents)])
  }

  /** One who cannot gets a failed payment and, if the publisher takes it, an event that says why; no
      money moves. */
  ghost predicate DeclineAnswered(st: Store, q: ReserveRequest, e: Env, st': Store, kind: Kind) {
    if !e.built then st' == st && kind == Rejected
    else
      && kind == (if e.up then DidFail else PublishFailed)
      && q.order_id in st'.byOrder && st'.byOrder[q.order_id].event.Some?
      && var r, m := st'.byOrder[q.order_id], st'.byOrder[q.order_id].event.value;
         var reason := if q.customer_id in st.blocked then CardDeclined else InsufficientFunds;
         && PaymentRight(r.payment, q, e) && r.payment.status == Failed && r.payment.reserved_cents == 0
         && r.payment.reason == Some(reason) && r.published == e.up
         && m == Envelope(e.msgId, q.correlation_id, q.causation_id, FromPayments,
                          PaymentDeclined(q.order_id, reason, false))
         && st' == Recorded(st, q, e, r).(log := st.log + (if e.up then [Post(CatalogKey(m.body), m)] else []))
  }

  /** Exactly what each reserve request gets. */
  ghost predicate ReserveAnswered(st: Store, q: ReserveRequest, e: Env, st': Store, kind: Kind) {
    if !WellFormedReserve(q) then st' == st && kind == Rejected
    else if q.key in st.byReserve then
      && st.byReserve[q.key] in st.byOrder
      && if !ForRequest(st.byOrder[st.byReserve[q.key]].payment, q) then st' == st && kind == Conflict
         else SendsOwed(st, q.order_id, e.up, st', kind, Duplicate, Replayed)
    else if q.order_id in st.byOrder then st' == st && kind == Conflict
    else if st.failNext == Some(AtAuthorize) then st' == st.(failNext := None) && kind == Rejected
    else if CanPay(st, q.customer_id, q.amount_cents) then HoldAnswered(st, q, e, st', kind)
    else DeclineAnswered(st, q, e, st', kind)
  }

  lemma FinishAnswered(st: Store, o: Uuid, up: bool)
    requires Sound(st) && o in st.byOrder
    ensures var (st', kind) := FinishExisting(st, o, up); SendsOwed(st, o, up, st', kind, Duplicate, Replayed)
    ensures st.byOrder[o].payment.status == Failed ==>
              var (st', kind) := FinishFailedCharge(st, o, up); SendsOwed(st, o, up, st', kind, DidFail, DidFail)
  {
    hide Indexed, Balanced;
    assert RecordOk(o, st.byOrder[o]) && RecordSent(st.byOrder[o], st.log);
  }

  /** The payment a new request opens. */
  function Opened(q: ReserveRequest, e: Env): Payment {
    Payment(e.payId, q.order_id, q.customer_id, q.amount_cents, q.currency, Reserved, 0, 0, q.key, None, None,
            q.correlation_id)
  }

  function HashOf(q: ReserveRequest): Hash {
    Hash(q.order_id, q.customer_id, q.amount_cents, q.currency)
  }

  lemma DeclineRight(st: Store, q: ReserveRequest, e: Env, reason: PaymentFailure)
    requires reason == if q.customer_id in st.blocked then CardDeclined else InsufficientFunds
    ensures var (st', kind) := FailReserve(st, Opened(q, e), HashOf(q), reason, q.causation_id, e);
            DeclineAnswered(st, q, e, st', kind)
  {
    if e.built {
      var m := Envelope(e.msgId, q.correlation_id, q.causation_id, FromPayments,
                        PaymentDeclined(q.order_id, reason, false));
      var r := Record(Opened(q, e).(status := Failed, reason := Some(reason)), HashOf(q), Some(m), false);
      SendStored(Put(st, r), q.order_id, e.up, r, m);
      assert Put(st, r) == Recorded(st, q, e, r);
    }
  }

  /** Sending the event of a record just stored. */
  lemma SendStored(st: Store, o: Uuid, up: bool, r: Record, m: Envelope)
    requires o in st.byOrder && st.byOrder[o] == r && r.event == Some(m) && !r.published
    requires m.body.PaymentDeclined? || m.body.PaymentCharged?
    ensures TryPublish(st, o, up) == st.(byOrder := st.byOrder[o := r.(published := up)],
                                         log := st.log + (if up then [Post(CatalogKey(m.body), m)] else []))
  {
    if !up {
      assert st.byOrder[o := r] == st.byOrder;
      assert st.log + [] == st.log;
    }
  }

  lemma HoldRight(st: Store, q: ReserveRequest, e: Env)
    requires CanPay(st, q.customer_id, q.amount_cents)
    ensures var r := Record(Opened(q, e).(reserved_cents := q.amount_cents), HashOf(q), None, false);
            var ledgers := st.ledgers[q.customer_id := Ledger(AvailableOf(st, q.customer_id) - q.amount_cents,
                                                              HeldOf(st, q.customer_id) + q.amount_cents)];
            HoldAnswered(st, q, e, Put(st.(ledgers := ledgers), r), DidReserve)
  {
  }

  lemma GrantedIff(st: Store, c: Uuid, cents: int)
    requires LedgerOk(st, c) && 0 < cents <= MAX_SAFE && c !in st.blocked
    ensures Authorize(st.ledgers, c, cents) ==
            if CanPay(st, c, cents) then
              Some(st.ledgers[c := Ledger(AvailableOf(st, c) - cents, HeldOf(st, c) + cents)])
            else None
  {
  }

  lemma NewIntentAnswered(st: Store, q: ReserveRequest, e: Env)
    requires Sound(st) && NewIntent(st, q)
    ensures var (st', kind) := Reserve(st, q, e);
            if CanPay(st, q.customer_id, q.amount_cents) then HoldAnswered(st, q, e, st', kind)
            else DeclineAnswered(st, q, e, st', kind)
  {
    hide Records, Indexed, Outbox, Authorize, FailReserve, Put, HoldAnswered, DeclineAnswered, AvailableOf;
    hide HeldOf, LedgerOk;
    assert LedgerOk(st, q.customer_id);
    if q.customer_id in st.blocked {
      DeclineRight(st, q, e, CardDeclined);
    } else {
      GrantedIff(st, q.customer_id, q.amount_cents);
      if CanPay(st, q.customer_id, q.amount_cents) { HoldRight(st, q, e); }
      else { DeclineRight(st, q, e, InsufficientFunds); }
    }
  }

  lemma ReserveRight(st: Store, q: ReserveRequest, e: Env)
    requires Sound(st)
    ensures var (st', kind) := Reserve(st, q, e); ReserveAnswered(st, q, e, st', kind)
  {
    hide SendsOwed, HoldAnswered, DeclineAnswered, Balanced, Outbox, FinishExisting, FailReserve, Authorize, CanPay;
    if NewIntent(st, q) {
      NewIntentAnswered(st, q, e);
    } else if WellFormedReserve(q) && q.key in st.byReserve {
      var o := st.byReserve[q.key];
      assert RecordOk(o, st.byOrder[o]);
      FinishAnswered(st, o, e.up);
    }
  }

  // ---------------------------------------------------------------------------------------
  // Charging

  ghost predicate WellFormedCharge(q: ChargeRequest) {
    q.uuids_ok && q.key.length >= 8
  }

  /** The store with one more key for order o's record, the record's first if it has none. */
  ghost function Bound(st: Store, key: Key, o: Uuid): Store
    requires o in st.byOrder
  {
    var p := st.byOrder[o].payment;
    st.(byCharge := st.byCharge[key := o],
        byOrder := st.byOrder[o := st.byOrder[o].(
          payment := p.(charge_key := if p.charge_key.Some? then p.charge_key else Some(key)))])
  }

  /** A reserved payment is captured in full: the hold is spent, the record charged, and the event made
      and, if the publisher takes it, sent. */
  ghost predicate CaptureAnswered(st: Store, q: ChargeRequest, e: Env, st': Store, kind: Kind) {
    && kind == (if e.up then DidCharge else PublishFailed)
    && q.order_id in st.byOrder && q.order_id in st'.byOrder && st'.byOrder[q.order_id].event.Some?
    && var p, r, m := st.byOrder[q.order_id].payment, st'.byOrder[q.order_id], st'.byOrder[q.order_id].event.value;
       var key := if p.charge_key.Some? then p.charge_key else Some(q.key);
       && m == Envelope(e.msgId, p.correlation_id, q.causation_id, FromPayments,
                        PaymentCharged(q.order_id, p.payment_id, p.amount_cents, p.currency))
       && r == st.byOrder[q.order_id].(
            payment := p.(status := Charged, captured_cents := p.amount_cents, charge_key := key),
            event := Some(m), published := e.up)
       && st' == Bound(st, q.key, q.order_id).(
            byOrder := st.byOrder[q.order_id := r],
            ledgers := st.ledgers[p.customer_id := Ledger(AvailableOf(st, p.customer_id),
                                                          HeldOf(st, p.customer_id) - p.amount_cents)],
            log := st.log + (if e.up then [Post(CatalogKey(m.body), m)] else []))
  }

  /** Exactly what each charge request gets. */
  ghost predicate ChargeAnswered(st: Store, q: ChargeRequest, e: Env, st': Store, kind: Kind) {
    var o := q.order_id;
    if !WellFormedCharge(q) then st' == st && kind == Rejected
    else if q.key in st.byCharge && st.byCharge[q.key] != o then st' == st && kind == Conflict
    else if o !in st.byOrder then st' == st && kind == Rejected
    else
      var st1 := if q.key in st.byCharge then st else Bound(st, q.key, o);
      match st.byOrder[o].payment.status
      case Failed => SendsOwed(st1, o, e.up, st', kind, DidFail, DidFail)
      case Charged => SendsOwed(st1, o, e.up, st', kind, Duplicate, Replayed)
      case Reserved =>
        if q.key in st.byCharge then st' == st && kind == Duplicate
        else if st.failNext == Some(AtCapture) then st' == st.(failNext := None) && kind == Rejected
        else if !e.built then st' == st && kind == Rejected
        else CaptureAnswered(st, q, e, st', kind)
  }

  lemma BindsAsBound(st: Store, key: Key, o: Uuid)
    requires o in st.byOrder
    ensures BindCharge(st, key, o) == Bound(st, key, o)
  {
  }

  lemma CapturedLedgers(st: Store, o: Uuid)
    requires Sound(st) && o in st.byOrder && st.byOrder[o].payment.status == Reserved
    ensures var p := st.byOrder[o].payment;
            && p.reserved_cents == p.amount_cents && !st.byOrder[o].published
            && Capture(st.ledgers, p.customer_id, p.reserved_cents)
               == Some(st.ledgers[p.customer_id := Ledger(AvailableOf(st, p.customer_id),
                                                          HeldOf(st, p.customer_id) - p.amount_cents)])
  {
    hide Indexed, Balanced, Outbox;
    CaptureSucceeds(st, o);
    assert RecordOk(o, st.byOrder[o]);
  }

  /** Storing the charged record touches no key but the new one. */
  lemma ChargedStore(st: Store, q: ChargeRequest, e: Env, ledgers: map<Uuid, Ledger>)
    requires Indexed(st) && q.order_id in st.byOrder && st.byOrder[q.order_id].payment.order_id == q.order_id
    ensures var o := q.order_id;
            var r := ChargedRecord(st.byOrder[o], q, e);
            Put(st.(ledgers := ledgers, byCharge := st.byCharge[q.key := o]), r)
            == Bound(st, q.key, o).(ledgers := ledgers, byOrder := st.byOrder[o := r])
  {
    assert IndexedAt(st, q.order_id);
  }

  lemma CaptureRight(st: Store, q: ChargeRequest, e: Env)
    requires Sound(st) && q.order_id in st.byOrder && st.byOrder[q.order_id].payment.status == Reserved
    requires st.failNext != Some(AtCapture) && e.built
    ensures var (st', kind) := Settle(st, q, e); CaptureAnswered(st, q, e, st', kind)
  {
    hide Outbox, Balanced, Indexed, Settle, Capture, Put, TryPublish;
    var o, p := q.order_id, st.byOrder[q.order_id].payment;
    assert RecordOk(o, st.byOrder[o]);
    CapturedLedgers(st, o);
    var ledgers := Capture(st.ledgers, p.customer_id, p.reserved_cents).value;
    var r := ChargedRecord(st.byOrder[o], q, e);
    SettleIsChargeThenSend(st, q, e, ledgers);
    ChargedStore(st, q, e, ledgers);
    SendStored(Bound(st, q.key, o).(ledgers := ledgers, byOrder := st.byOrder[o := r]), o, e.up, r, r.event.value);
  }

  lemma ChargeRight(st: Store, q: ChargeRequest, e: Env)
    requires Sound(st)
    ensures var (st', kind) := Charge(st, q, e); ChargeAnswered(st, q, e, st', kind)
  {
    hide SendsOwed, CaptureAnswered, Sound, FinishExisting, FinishFailedCharge, Settle, BindCharge, Bound;
    if WellFormedCharge(q) {
      if q.key in st.byCharge {
        ChargeKeyKnown(st, q.key);
        FinishAnswered(st, st.byCharge[q.key], e.up);
        if st.byOrder[st.byCharge[q.key]].payment.status == Reserved { NothingOwed(st, st.byCharge[q.key], e.up); }
      } else if q.order_id in st.byOrder {
        if st.byOrder[q.order_id].payment.status == Reserved {
          if st.failNext != Some(AtCapture) && e.built { CaptureRight(st, q, e); }
          else { SettleRefused(st, q, e); }
        } else {
          BindsAsBound(st, q.key, q.order_id);
          BindKeeps(st, q.key, q.order_id);
          BoundStatus(st, q.key, q.order_id);
          FinishAnswered(BindCharge(st, q.key, q.order_id), q.order_id, e.up);
        }
      }
    }
  }

  lemma NothingOwed(st: Store, o: Uuid, up: bool)
    requires o in st.byOrder && st.byOrder[o].payment.status == Reserved
    ensures FinishExisting(st, o, up) == (st, Duplicate)
  {
  }

  lemma SettleRefused(st: Store, q: ChargeRequest, e: Env)
    requires q.order_id in st.byOrder && (st.failNext == Some(AtCapture) || !e.built)
    ensures Settle(st, q, e) == (if st.failNext == Some(AtCapture) then st.(failNext := None) else st, Rejected)
  {
  }

  lemma BoundStatus(st: Store, key: Key, o: Uuid)
    requires o in st.byOrder
    ensures o in BindCharge(st, key, o).byOrder
    ensures BindCharge(st, key, o).byOrder[o].payment.status == st.byOrder[o].payment.status
  {
  }

  // ---------------------------------------------------------------------------------------
  // Over every run

  /** Crediting adds exactly that much, unless it is negative or the sum is not a safe integer. */
  ghost predicate CreditAnswered(st: Store, c: Uuid, cents: int, st': Store, kind: Kind) {
    if 0 <= cents <= MAX_SAFE && AvailableOf(st, c) + cents <= MAX_SAFE then
      && kind == Credited
      && st' == st.(ledgers := st.ledgers[c := Ledger(AvailableOf(st, c) + cents, HeldOf(st, c))])
    else st' == st && kind == Refused
  }

  ghost predicate Answered(st: Store, i: Input, st': Store, kind: Kind) {
    match i
    case DoReserve(q, e) => ReserveAnswered(st, q, e, st', kind)
    case DoCharge(q, e) => ChargeAnswered(st, q, e, st', kind)
    case DoCredit(c, cents) => CreditAnswered(st, c, cents, st', kind)
    case Arm(p) => st' == st.(failNext := p) && kind == Configured
    case Block(c) => st' == st.(blocked := st.blocked + {c}) && kind == Configured
  }

  /** Every answer, after every run.  A new, well-formed request is granted exactly when the customer is
      not blocked and has the money, and then exactly the amount moves from available to held; otherwise
      it is declined with the right reason and no money moves.  A charge of a reserved payment captures
      exactly what was held.  A known key gives the old answer again, or a conflict when it was used for
      something else, and sends only the event still owed. */
  lemma AnswersRight(inputs: seq<Input>, i: Input)
    requires FreshIds(inputs)
    ensures var st := Run(EMPTY, inputs); var (st', kind) := Step(st, i); Answered(st, i, st', kind)
  {
    hide ReserveAnswered, ChargeAnswered, Reserve, Charge;
    RunKeeps(inputs);
    var st := Run(EMPTY, inputs);
    match i
    case DoReserve(q, e) => ReserveRight(st, q, e);
    case DoCharge(q, e) => ChargeRight(st, q, e);
    case DoCredit(c, _) => assert LedgerOk(st, c);
    case _ =>
  }
}
