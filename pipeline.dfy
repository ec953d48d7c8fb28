/**
  The fraud-detection pipeline as wired together: the ingestion boundary,
  the rolling-window aggregator and the fast cash-out detector on one bus,
  plus the alert handler. Delivery is synchronous and nested: a callback
  that publishes has the new event fully delivered before it returns, so
  deliveries happen in depth-first order.

  The detector's verdict comes from an outside model; here it is an
  arbitrary function of the inbound total, the outbound total and the ratio.
 */
module Pipeline {
  import opened Events
  import opened Agents

  /** The callbacks the pipeline registers on its bus. */
  datatype Callback =
    | RollingWindow        // the aggregator's payment handler
    | FastCashoutDetector  // the detector's window-update handler
    | AlertHandler         // the handler that reports alerts

  /** One call of one callback with one event. */
  datatype Delivery = Delivery(callback: Callback, event: Event)

  type Table = map<string, seq<PaymentObserved>>

  /** The outside verdict: suspicious or not, given inbound, outbound and ratio. */
  type Oracle = (real, real, real) -> bool

  /** The aggregator's table after a publish, and every delivery it made, in call order. */
  datatype Dispatch = Dispatch(table: Table, deliveries: seq<Delivery>)

  /** How deep in a chain of nested publishes an event can be produced. */
  function Rank(e: Event): nat
  {
    match e
    case BaseEvent(_) => 0
    case Payment(_) => 0
    case BalanceUpdate(_) => 1
    case CashoutAlert(_) => 2
  }

  /** The subscriptions the agents' set-up and the alert handler make. */
  const StandardWiring: map<EventType, seq<Callback>> :=
    map[PaymentObservedClass := [RollingWindow],
        BalanceWindowUpdatedClass := [FastCashoutDetector],
        FastCashoutAlertRaisedClass := [AlertHandler]]

  /** The detector's outcome for a window update, with the verdict taken from the oracle. */
  function Evaluate(oracle: Oracle, u: BalanceWindowUpdated): Option<FastCashoutAlertRaised>
  {
    OnBalanceUpdated(u, oracle(u.inLast30m, u.outLast30m, Ratio(u.inLast30m, u.outLast30m)))
  }

  /** Publishing e: every callback registered for e's class runs in turn. */
  function Published(subscribers: map<EventType, seq<Callback>>, table: Table, oracle: Oracle, e: Event): Dispatch
    decreases 2 - Rank(e), 2, 0
  {
    Delivered(subscribers, table, oracle, CallbacksIn(subscribers, TypeOf(e)), e)
  }

  /** Running the callbacks one after the other, each seeing the table the previous one left. */
  function Delivered(subscribers: map<EventType, seq<Callback>>, table: Table, oracle: Oracle,
                     callbacks: seq<Callback>, e: Event): Dispatch
    decreases 2 - Rank(e), 1, |callbacks|
  {
    if callbacks == [] then Dispatch(table, [])
    else
      var first := Handled(subscribers, table, oracle, callbacks[0], e);
      var rest := Delivered(subscribers, first.table, oracle, callbacks[1..], e);
      Dispatch(rest.table, first.deliveries + rest.deliveries)
  }

  /**
    One callback handling one event, including everything it publishes.
    A callback given an event of a kind it does not handle does nothing.
   */
  function Handled(subscribers: map<EventType, seq<Callback>>, table: Table, oracle: Oracle,
                   callback: Callback, e: Event): Dispatch
    decreases 2 - Rank(e), 0, 0
  {
    var here := Delivery(callback, e);
    if callback == RollingWindow && e.Payment? then
      var p := e.payment;
      var w := Window(TransactionsOf(table, p.accountId), p);
      var next := Published(subscribers, table[p.accountId := w], oracle, BalanceUpdate(Summary(p, w)));
      Dispatch(next.table, [here] + next.deliveries)
    else if callback == FastCashoutDetector && e.BalanceUpdate? then
      match Evaluate(oracle, e.update)
      case None => Dispatch(table, [here])
      case Some(alert) =>
        var next := Published(subscribers, table, oracle, CashoutAlert(alert));
        Dispatch(next.table, [here] + next.deliveries)
    else
      Dispatch(table, [here])
  }

  /** Delivering from the i-th callback on: the i-th one runs, then the rest. */
  lemma {:induction false} DeliveredFrom(subscribers: map<EventType, seq<Callback>>, table: Table, oracle: Oracle,
                                         callbacks: seq<Callback>, i: nat, e: Event)
    requires i < |callbacks|
    ensures var first := Handled(subscribers, table, oracle, callbacks[i], e);
            var rest := Delivered(subscribers, first.table, oracle, callbacks[i + 1..], e);
            Delivered(subscribers, table, oracle, callbacks[i..], e)
              == Dispatch(rest.table, first.deliveries + rest.deliveries)
  {
    assert callbacks[i..][0] == callbacks[i] && callbacks[i..][1..] == callbacks[i + 1..];
  }

  /** One turn of the delivery loop: running callbacks[i] moves the remaining work on by one callback. */
  lemma DeliverStep(subscribers: map<EventType, seq<Callback>>, table: Table, after: Table, oracle: Oracle,
                    callbacks: seq<Callback>, i: nat, e: Event,
                    soFar: seq<Delivery>, d: seq<Delivery>, full: Dispatch)
    requires i < |callbacks|
    requires Handled(subscribers, table, oracle, callbacks[i], e).table == after
    requires Handled(subscribers, table, oracle, callbacks[i], e).deliveries == d
    requires Delivered(subscribers, table, oracle, callbacks[i..], e).table == full.table
    requires soFar + Delivered(subscribers, table, oracle, callbacks[i..], e).deliveries == full.deliveries
    ensures Delivered(subscribers, after, oracle, callbacks[i + 1..], e).table == full.table
    ensures (soFar + d) + Delivered(subscribers, after, oracle, callbacks[i + 1..], e).deliveries == full.deliveries
  {
    DeliveredFrom(subscribers, table, oracle, callbacks, i, e);
    var rest := Delivered(subscribers, after, oracle, callbacks[i + 1..], e);
    assert soFar + (d + rest.deliveries) == (soFar + d) + rest.deliveries;
  }

  // ---------------------------------------------------------------------
  // Properties of nested delivery
  // ---------------------------------------------------------------------

  /**
    With the standard wiring a payment is handled completely before the
    publish returns: first the aggregator's delivery, then the detector's
    with the new window summary, then the alert handler's when an alert is
    raised. The payment's account entry becomes its new window.
   */
  lemma {:induction false} PaymentDispatch(table: Table, oracle: Oracle, p: PaymentObserved)
    ensures var w := Window(TransactionsOf(table, p.accountId), p);
            var u := Summary(p, w);
            var alert := Evaluate(oracle, u);
            Published(StandardWiring, table, oracle, Payment(p))
              == Dispatch(table[p.accountId := w],
                          [Delivery(RollingWindow, Payment(p)), Delivery(FastCashoutDetector, BalanceUpdate(u))]
                          + (if alert.Some? then [Delivery(AlertHandler, CashoutAlert(alert.value))] else []))
  {
    var w := Window(TransactionsOf(table, p.accountId), p);
    var t1 := table[p.accountId := w];
    var u := Summary(p, w);
    var alert := Evaluate(oracle, u);
    assert CallbacksIn(StandardWiring, PaymentObservedClass) == [RollingWindow];
    assert CallbacksIn(StandardWiring, BalanceWindowUpdatedClass) == [FastCashoutDetector];
    assert CallbacksIn(StandardWiring, FastCashoutAlertRaisedClass) == [AlertHandler];
    var tail := if alert.Some? then [Delivery(AlertHandler, CashoutAlert(alert.value))] else [];
    var detected := Handled(StandardWiring, t1, oracle, FastCashoutDetector, BalanceUpdate(u));
    if alert.Some? {
      var raised := CashoutAlert(alert.value);
      assert Handled(StandardWiring, t1, oracle, AlertHandler, raised) == Dispatch(t1, tail);
      assert Delivered(StandardWiring, t1, oracle, [AlertHandler], raised) == Dispatch(t1, tail + []);
      assert Published(StandardWiring, t1, oracle, raised) == Dispatch(t1, tail);
    }
    assert detected == Dispatch(t1, [Delivery(FastCashoutDetector, BalanceUpdate(u))] + tail);
    assert Delivered(StandardWiring, t1, oracle, [FastCashoutDetector], BalanceUpdate(u)) == Dispatch(detected.table, detected.deliveries + []);
    assert Published(StandardWiring, t1, oracle, BalanceUpdate(u)) == detected;
    var handled := Handled(StandardWiring, table, oracle, RollingWindow, Payment(p));
    assert handled == Dispatch(t1, [Delivery(RollingWindow, Payment(p))] + detected.deliveries);
    assert Delivered(StandardWiring, table, oracle, [RollingWindow], Payment(p)) == Dispatch(handled.table, handled.deliveries + []);
  }

  /** The accounts a publish of e may change: the payment's own, or none. */
  function Touched(e: Event): set<string>
  {
    if e.Payment? then {e.payment.accountId} else {}
  }

  /** The entry of account a is the same in both tables (both absent, or equal). */
  ghost predicate SameEntry(before: Table, after: Table, a: string)
  {
    (a in before <==> a in after) && (a in before ==> before[a] == after[a])
  }

  /**
    Per-account isolation, for any wiring of the callbacks as modelled here
    (each ignores event kinds it does not handle): publishing e, with
    everything its callbacks publish in turn, leaves the entry of every
    account other than e's own payment account as it was.
   */
  lemma {:induction false} PublishedIsolation(subscribers: map<EventType, seq<Callback>>, table: Table,
                                              oracle: Oracle, e: Event, a: string)
    requires a !in Touched(e)
    ensures SameEntry(table, Published(subscribers, table, oracle, e).table, a)
    decreases 2 - Rank(e), 2, 0
  {
    DeliveredIsolation(subscribers, table, oracle, CallbacksIn(subscribers, TypeOf(e)), e, a);
  }

  lemma {:induction false} DeliveredIsolation(subscribers: map<EventType, seq<Callback>>, table: Table,
                                              oracle: Oracle, callbacks: seq<Callback>, e: Event, a: string)
    requires a !in Touched(e)
    ensures SameEntry(table, Delivered(subscribers, table, oracle, callbacks, e).table, a)
    decreases 2 - Rank(e), 1, |callbacks|
  {
    if callbacks != [] {
      var first := Handled(subscribers, table, oracle, callbacks[0], e);
      HandledIsolation(subscribers, table, oracle, callbacks[0], e, a);
      DeliveredIsolation(subscribers, first.table, oracle, callbacks[1..], e, a);
    }
  }

  lemma {:induction false} HandledIsolation(subscribers: map<EventType, seq<Callback>>, table: Table,
                                            oracle: Oracle, callback: Callback, e: Event, a: string)
    requires a !in Touched(e)
    ensures SameEntry(table, Handled(subscribers, table, oracle, callback, e).table, a)
    decreases 2 - Rank(e), 0, 0
  {
    if callback == RollingWindow && e.Payment? {
      var p := e.payment;
      var w := Window(TransactionsOf(table, p.accountId), p);
      PublishedIsolation(subscribers, table[p.accountId := w], oracle, BalanceUpdate(Summary(p, w)), a);
    } else if callback == FastCashoutDetector && e.BalanceUpdate? {
      match Evaluate(oracle, e.update)
      case None =>
      case Some(alert) =>
        PublishedIsolation(subscribers, table, oracle, CashoutAlert(alert), a);
    }
  }

  /** Publishing keeps the aggregator's table valid. */
  lemma {:induction false} PublishedValid(subscribers: map<EventType, seq<Callback>>, table: Table,
                                          oracle: Oracle, e: Event)
    requires ValidTable(table)
    ensures ValidTable(Published(subscribers, table, oracle, e).table)
    decreases 2 - Rank(e), 2, 0
  {
    DeliveredValid(subscribers, table, oracle, CallbacksIn(subscribers, TypeOf(e)), e);
  }

  lemma {:induction false} DeliveredValid(subscribers: map<EventType, seq<Callback>>, table: Table,
                                          oracle: Oracle, callbacks: seq<Callback>, e: Event)
    requires ValidTable(table)
    ensures ValidTable(Delivered(subscribers, table, oracle, callbacks, e).table)
    decreases 2 - Rank(e), 1, |callbacks|
  {
    if callbacks != [] {
      HandledValid(subscribers, table, oracle, callbacks[0], e);
      var first := Handled(subscribers, table, oracle, callbacks[0], e);
      DeliveredValid(subscribers, first.table, oracle, callbacks[1..], e);
    }
  }

  lemma {:induction false} HandledValid(subscribers: map<EventType, seq<Callback>>, table: Table,
                                        oracle: Oracle, callback: Callback, e: Event)
    requires ValidTable(table)
    ensures ValidTable(Handled(subscribers, table, oracle, callback, e).table)
    decreases 2 - Rank(e), 0, 0
  {
    if callback == RollingWindow && e.Payment? {
      var p := e.payment;
      var w := Window(TransactionsOf(table, p.accountId), p);
      WindowKeepsValid(table, p);
      PublishedValid(subscribers, table[p.accountId := w], oracle, BalanceUpdate(Summary(p, w)));
    } else if callback == FastCashoutDetector && e.BalanceUpdate? {
      var alert := Evaluate(oracle, e.update);
      if alert.Some? {
        PublishedValid(subscribers, table, oracle, CashoutAlert(alert.value));
      }
    }
  }

  /**
    Window updates and alerts never change the aggregator's table, whatever
    is subscribed, given that the aggregator's handler ignores anything but
    payments.
   */
  lemma NonPaymentKeepsTable(subscribers: map<EventType, seq<Callback>>, table: Table, oracle: Oracle, e: Event)
    requires !e.Payment?
    ensures Published(subscribers, table, oracle, e).table == table
  {
    var after := Published(subscribers, table, oracle, e).table;
    forall a ensures (a in table <==> a in after) && (a in table ==> table[a] == after[a]) {
      PublishedIsolation(subscribers, table, oracle, e, a);
    }
    assert after.Keys == table.Keys;
  }

  /** The totals of a one-payment window. */
  lemma {:induction false} SingleTotals(a: PaymentObserved, direction: string)
    ensures SumDirection([a], direction) == Contribution(a, direction)
  {
    assert [a][1..] == [];
  }

  /** The totals of a two-payment window. */
  lemma {:induction false} PairTotals(a: PaymentObserved, b: PaymentObserved, direction: string)
    ensures SumDirection([a, b], direction) == Contribution(a, direction) + Contribution(b, direction)
  {
    SingleTotals(b, direction);
    assert [a, b][1..] == [b];
  }

  /** The totals of a three-payment window. */
  lemma {:induction false} TripleTotals(a: PaymentObserved, b: PaymentObserved, c: PaymentObserved, direction: string)
    ensures SumDirection([a, b, c], direction)
         == Contribution(a, direction) + Contribution(b, direction) + Contribution(c, direction)
  {
    PairTotals(b, c, direction);
    assert [a, b, c][1..] == [b, c];
  }

  // ---------------------------------------------------------------------
  // The demo driver's scenarios, from any start time t0 and for any verdict.
  // Each states the account's window after every payment, the update the
  // detector is handed for the last one and when an alert follows; by
  // PaymentDispatch these are exactly what publishing the payments yields.
  // ---------------------------------------------------------------------

  /**
    Inflow of 1000 at t0, then outflow of 900 twenty minutes later: the
    detector sees totals 1000 / 900 and ratio 0.9, and an alert is raised
    exactly when the verdict on those figures is suspicious.
   */
  lemma {:induction false} FastCashoutScenario(oracle: Oracle, t0: int)
    ensures var account := "ACC_FRAUD_001";
            var p1 := PaymentObserved(t0, account, 1000.0, "IN");
            var p2 := PaymentObserved(t0 + 20 * 60, account, 900.0, "OUT");
            var w1 := Window([], p1);
            var w2 := Window(w1, p2);
            var u := Summary(p2, w2);
            && w1 == [p1] && w2 == [p1, p2]
            && u == BalanceWindowUpdated(t0 + 1200, account, 1000.0, 900.0, 100.0)
            && (Evaluate(oracle, u).Some? <==> oracle(1000.0, 900.0, 0.9))
            && (Evaluate(oracle, u).Some? ==> Evaluate(oracle, u).value.ratio == 0.9)
  {
    var account := "ACC_FRAUD_001";
    var p1 := PaymentObserved(t0, account, 1000.0, "IN");
    var p2 := PaymentObserved(t0 + 20 * 60, account, 900.0, "OUT");
    SecondPayment(p1, p2);
    PairTotals(p1, p2, "IN");
    PairTotals(p1, p2, "OUT");
    assert Ratio(1000.0, 900.0) == 0.9;
  }

  /**
    Inflow of 1000 at t0, then outflows of 50 and 100 at ten and twenty-five
    minutes: every payment stays in the window, so at the last one the
    detector sees totals 1000 / 150 and ratio 0.15; whether an alert
    follows is the verdict's call alone.
   */
  lemma {:induction false} BenignScenario(oracle: Oracle, t0: int)
    ensures var account := "ACC_NORMAL_001";
            var p1 := PaymentObserved(t0, account, 1000.0, "IN");
            var p2 := PaymentObserved(t0 + 10 * 60, account, 50.0, "OUT");
            var p3 := PaymentObserved(t0 + 25 * 60, account, 100.0, "OUT");
            var u := Summary(p3, [p1, p2, p3]);
            && Window(Window([], p1), p2) == [p1, p2]
            && Window([p1, p2], p3) == [p1, p2, p3]
            && u == BalanceWindowUpdated(t0 + 1500, account, 1000.0, 150.0, 850.0)
            && (Evaluate(oracle, u).Some? <==> oracle(1000.0, 150.0, 0.15))
  {
    var account := "ACC_NORMAL_001";
    var p1 := PaymentObserved(t0, account, 1000.0, "IN");
    var p2 := PaymentObserved(t0 + 10 * 60, account, 50.0, "OUT");
    var p3 := PaymentObserved(t0 + 25 * 60, account, 100.0, "OUT");
    SecondPayment(p1, p2);
    ThirdInOrder(p1, p2, p3);
    BenignTotals(oracle, t0);
  }

  /** Three payments in time order within thirty minutes of the first are all kept. */
  lemma {:induction false} ThirdInOrder(p1: PaymentObserved, p2: PaymentObserved, p3: PaymentObserved)
    requires p1.timestamp <= p2.timestamp <= p3.timestamp
    requires p3.timestamp - p1.timestamp < WindowLength
    ensures Window([p1, p2], p3) == [p1, p2, p3]
  {
    assert SortedByTime([p1, p2]);
    InOrderArrival([p1, p2], p3);
    assert [p1, p2] + [p3] == [p1, p2, p3];
  }

  /** The figures of the benign scenario's last window, and the alert decision on them. */
  lemma {:induction false} BenignTotals(oracle: Oracle, t0: int)
    ensures var account := "ACC_NORMAL_001";
            var p1 := PaymentObserved(t0, account, 1000.0, "IN");
            var p2 := PaymentObserved(t0 + 10 * 60, account, 50.0, "OUT");
            var p3 := PaymentObserved(t0 + 25 * 60, account, 100.0, "OUT");
            var u := Summary(p3, [p1, p2, p3]);
            && u == BalanceWindowUpdated(t0 + 1500, account, 1000.0, 150.0, 850.0)
            && (Evaluate(oracle, u).Some? <==> oracle(1000.0, 150.0, 0.15))
  {
    var account := "ACC_NORMAL_001";
    var p1 := PaymentObserved(t0, account, 1000.0, "IN");
    var p2 := PaymentObserved(t0 + 10 * 60, account, 50.0, "OUT");
    var p3 := PaymentObserved(t0 + 25 * 60, account, 100.0, "OUT");
    TripleTotals(p1, p2, p3, "IN");
    TripleTotals(p1, p2, p3, "OUT");
    assert Ratio(1000.0, 150.0) == 0.15;
  }

  /**
    Inflow of 1000 at t0, then outflow of 900 thirty-one minutes later: the
    inflow has left the window, so the detector sees totals 0 / 900 and, by
    the zero-inflow rule, ratio 0; an alert still follows a suspicious verdict.
   */
  lemma {:induction false} PrunedInflowScenario(oracle: Oracle, t0: int)
    ensures var account := "ACC";
            var p1 := PaymentObserved(t0, account, 1000.0, "IN");
            var p2 := PaymentObserved(t0 + 31 * 60, account, 900.0, "OUT");
            var w2 := Window(Window([], p1), p2);
            var u := Summary(p2, w2);
            && w2 == [p2]
            && u == BalanceWindowUpdated(t0 + 1860, account, 0.0, 900.0, -900.0)
            && (Evaluate(oracle, u).Some? <==> oracle(0.0, 900.0, 0.0))
            && (Evaluate(oracle, u).Some? ==> Evaluate(oracle, u).value.ratio == 0.0)
  {
    var account := "ACC";
    var p1 := PaymentObserved(t0, account, 1000.0, "IN");
    var p2 := PaymentObserved(t0 + 31 * 60, account, 900.0, "OUT");
    SecondPayment(p1, p2);
    SingleTotals(p2, "IN");
    SingleTotals(p2, "OUT");
  }

  /**
    Outflow of 900 stamped t0 + 20 minutes arrives before inflow of 1000
    stamped t0: the late-arriving earlier payment is sorted in front, the
    later one is kept, and both are counted.
   */
  lemma {:induction false} OutOfOrderScenario(oracle: Oracle, t0: int)
    ensures var account := "ACC";
            var p1 := PaymentObserved(t0 + 20 * 60, account, 900.0, "OUT");
            var p2 := PaymentObserved(t0, account, 1000.0, "IN");
            var w2 := Window(Window([], p1), p2);
            var u := Summary(p2, w2);
            && w2 == [p2, p1]
            && u == BalanceWindowUpdated(t0, account, 1000.0, 900.0, 100.0)
  {
    var account := "ACC";
    var p1 := PaymentObserved(t0 + 20 * 60, account, 900.0, "OUT");
    var p2 := PaymentObserved(t0, account, 1000.0, "IN");
    SecondPayment(p1, p2);
    PairTotals(p2, p1, "IN");
    PairTotals(p2, p1, "OUT");
  }

  /** The pipeline's objects: the bus, the aggregator and the detector's verdict source. */
  class FraudPipeline {
    const bus: EventBus<Callback>
    const window: RollingWindowAgent
    const oracle: Oracle

    /** Sets up the agents and the alert handler in the order the demo driver does. */
    constructor (oracle: Oracle)
      ensures fresh(bus) && fresh(window)
      ensures bus.subscribers == StandardWiring
      ensures window.accountTransactions == map[] && window.Valid()
      ensures this.oracle == oracle
    {
      var b := new EventBus<Callback>();
      var w := new RollingWindowAgent();
      b.Subscribe(PaymentObservedClass, RollingWindow);
      b.Subscribe(BalanceWindowUpdatedClass, FastCashoutDetector);
      b.Subscribe(FastCashoutAlertRaisedClass, AlertHandler);
      bus, window, this.oracle := b, w, oracle;
    }

    /** Wraps raw payment data into a payment event and publishes it. */
    method Ingest(accountId: string, amount: real, direction: string, timestamp: int)
      returns (deliveries: seq<Delivery>)
      modifies window
      ensures var d := Published(bus.subscribers, old(window.accountTransactions), oracle,
                                 Payment(PaymentObserved(timestamp, accountId, amount, direction)));
              window.accountTransactions == d.table && deliveries == d.deliveries
      ensures old(window.Valid()) ==> window.Valid()
    {
      var event := PaymentObserved(timestamp, accountId, amount, direction);
      deliveries := Publish(Payment(event));
    }

    /** Publishes e on the bus and runs each callback it yields, in order. */
    method Publish(e: Event) returns (deliveries: seq<Delivery>)
      modifies window
      ensures var d := Published(bus.subscribers, old(window.accountTransactions), oracle, e);
              window.accountTransactions == d.table && deliveries == d.deliveries
      ensures old(window.Valid()) ==> window.Valid()
      decreases 2 - Rank(e), 2, 0
    {
      var callbacks := bus.Publish(e);
      deliveries := Deliver(callbacks, e);
      if old(window.Valid()) {
        PublishedValid(bus.subscribers, old(window.accountTransactions), oracle, e);
      }
    }

    /** Runs the given callbacks on e one after the other. */
    method Deliver(callbacks: seq<Callback>, e: Event) returns (deliveries: seq<Delivery>)
      modifies window
      ensures var d := Delivered(bus.subscribers, old(window.accountTransactions), oracle, callbacks, e);
              window.accountTransactions == d.table && deliveries == d.deliveries
      decreases 2 - Rank(e), 1, |callbacks|
    {
      ghost var full := Delivered(bus.subscribers, window.accountTransactions, oracle, callbacks, e);
      deliveries := [];
      for i := 0 to |callbacks|
        invariant Delivered(bus.subscribers, window.accountTransactions, oracle, callbacks[i..], e).table == full.table
        invariant deliveries + Delivered(bus.subscribers, window.accountTransactions, oracle, callbacks[i..], e).deliveries
               == full.deliveries
      {
        ghost var before := window.accountTransactions;
        var d := Invoke(callbacks[i], e);
        DeliverStep(bus.subscribers, before, window.accountTransactions, oracle, callbacks, i, e, deliveries, d, full);
        deliveries := deliveries + d;
      }
      assert callbacks[|callbacks|..] == [];
    }

    /** Runs one callback on one event; callbacks that publish do so before returning. */
    method Invoke(callback: Callback, e: Event) returns (deliveries: seq<Delivery>)
      modifies window
      ensures var d := Handled(bus.subscribers, old(window.accountTransactions), oracle, callback, e);
              window.accountTransactions == d.table && deliveries == d.deliveries
      decreases 2 - Rank(e), 0, 0
    {
      deliveries := [Delivery(callback, e)];
      if callback == RollingWindow && e.Payment? {
        var update := window.OnPaymentObserved(e.payment);
        var next := Publish(BalanceUpdate(update));
        deliveries := deliveries + next;
      } else if callback == FastCashoutDetector && e.BalanceUpdate? {
        var u := e.update;
        var suspicious := oracle(u.inLast30m, u.outLast30m, Ratio(u.inLast30m, u.outLast30m));
        var alert := OnBalanceUpdated(u, suspicious);
        if alert.Some? {
          var next := Publish(CashoutAlert(alert.value));
          deliveries := deliveries + next;
        }
      }

    }
  }
}
