/** What the orders service answers to each command, and what it writes and sends, told from its
    records and its log before and after the call, over every run. */
module OrdersAnswers {
  import opened Messages
  import opened Money
  import opened OrdersModel
  import opened OrdersProofs

  ghost predicate FromGatewayCommand(env: Envelope) {
    env.body.PlaceOrder? && env.source == FromGateway
  }

  /** The order was placed for this very body. */
  ghost predicate SameOrder(order: Order, b: Body) {
    b.PlaceOrder? && order.customer_id == b.customer_id && order.items == b.items && order.currency == b.currency
  }

  /** The order a command is about already: by its message id, or by its key if its cart has a total. */
  ghost function KnownAs(st: Store, env: Envelope): Option<Uuid> {
    if !FromGatewayCommand(env) then None
    else if env.message_id in st.byMessage then Some(st.byMessage[env.message_id])
    else if SafeSum(env.body.items).Some? && env.body.idempotency_key in st.byIdem then
      Some(st.byIdem[env.body.idempotency_key])
    else None
  }

  /** Its key was used for another body. */
  ghost predicate Clashes(st: Store, env: Envelope) {
    && KnownAs(st, env).Some? && env.message_id !in st.byMessage && KnownAs(st, env).value in st.byId
    && !SameOrder(st.byId[KnownAs(st, env).value].order, env.body)
  }

  ghost predicate Owes(st: Store, o: Uuid) {
    o in st.byId && Sent(st.log, st.byId[o].event) == 0
  }

  /** A known command sends the event still owed, and does nothing else. */
  ghost predicate ResendAnswered(st: Store, o: Uuid, up: bool, st': Store, kind: Kind) {
    if !Owes(st, o) then st' == st && kind == Duplicate
    else if !up then st' == st && kind == PublishFailed
    else
      && o in st.byId && kind == Replayed
      && st' == st.(byId := st.byId[o := st.byId[o].(published := true)],
                    log := st.log + [Post(EventsOrdersCreated, st.byId[o].event)])
  }

  /** A new command makes one order with the exact total, found under its key and its message, and its
      event, sent if the publisher takes it. */
  ghost predicate PlaceAnswered(st: Store, i: Input, st': Store, kind: Kind)
    requires FromGatewayCommand(i.env)
  {
    var o, b := i.orderId, i.env.body;
    var order := Order(o, b.customer_id, b.items, b.currency, TrueSum(b.items), b.idempotency_key,
                       i.env.correlation_id, i.env.message_id);
    var event := Envelope(i.msgId, i.env.correlation_id, Some(i.env.message_id), FromOrders,
                          OrderCreated(o, b.customer_id, b.items, b.currency, TrueSum(b.items)));
    && kind == (if i.up then Created else PublishFailed)
    && o in st'.byId && st'.byId[o].order == order && st'.byId[o].event == event && st'.byId[o].published == i.up
    && st' == st.(byId := st.byId[o := st'.byId[o]], byIdem := st.byIdem[b.idempotency_key := o],
                  byMessage := st.byMessage[i.env.message_id := o],
                  log := st.log + (if i.up then [Post(EventsOrdersCreated, event)] else []))
  }

  /** Exactly what each message gets. */
  ghost predicate Answered(st: Store, i: Input, st': Store, kind: Kind) {
    if Clashes(st, i.env) then st' == st && kind == Conflict
    else if KnownAs(st, i.env).Some? then ResendAnswered(st, KnownAs(st, i.env).value, i.up, st', kind)
    else if FromGatewayCommand(i.env) && SafeSum(i.env.body.items).Some? && i.built then
      PlaceAnswered(st, i, st', kind)
    else st' == st && kind == Rejected
  }

  lemma FinishAnswered(st: Store, o: Uuid, up: bool)
    requires Sound(st) && o in st.byId
    ensures var (st', kind) := FinishExisting(st, o, up); ResendAnswered(st, o, up, st', kind)
  {
    hide Indexed, TrueSum;
    assert RecordOk(o, st.byId[o]) && RecordSent(st.byId[o], st.log);
  }

  lemma KnownInStore(st: Store, env: Envelope)
    requires Sound(st) && KnownAs(st, env).Some?
    ensures KnownAs(st, env).value in st.byId
    ensures var r := st.byId[KnownAs(st, env).value];
            r.request == Request(r.order.customer_id, r.order.items, r.order.currency)
  {
    hide TrueSum, SafeSum;
    var o := KnownAs(st, env).value;
    assert o in st.byId && RecordOk(o, st.byId[o]);
  }

  lemma PlaceRight(st: Store, i: Input)
    requires FromGatewayCommand(i.env) && SafeSum(i.env.body.items).Some? && KnownAs(st, i.env).None? && i.built
    ensures var (st', kind) := Step(st, i); PlaceAnswered(st, i, st', kind)
  {
    hide SafeSum, TrueSum;
    SafeSumExact(i.env.body.items);
    assert st.log + [] == st.log;
  }

  lemma StepAnswered(st: Store, i: Input)
    requires Sound(st)
    ensures var (st', kind) := Step(st, i); Answered(st, i, st', kind)
  {
    hide Sound, SafeSum, TrueSum, ResendAnswered, PlaceAnswered, FinishExisting;
    if KnownAs(st, i.env).Some? {
      KnownInStore(st, i.env);
      FinishAnswered(st, KnownAs(st, i.env).value, i.up);
    } else if FromGatewayCommand(i.env) && SafeSum(i.env.body.items).Some? && i.built {
      PlaceRight(st, i);
    }
  }

  /** Every answer, after every run.  A command under a new key and id, with a cart that has a total,
      makes one order; the same key with another body is a conflict; a known command only sends the
      event still owed; everything else is rejected and changes nothing. */
  lemma AnswersRight(inputs: seq<Input>, i: Input)
    requires FreshIds(inputs)
    ensures var st := Run(EMPTY, inputs); var (st', kind) := Step(st, i); Answered(st, i, st', kind)
  {
    hide Answered, Step;
    RunKeeps(inputs);
    StepAnswered(Run(EMPTY, inputs), i);
  }
}
