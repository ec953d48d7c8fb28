/**
  The event records of the fraud-detection pipeline and the in-memory
  publish/subscribe bus that carries them between the agents.

  Timestamps are whole seconds on one clock; amounts are exact reals.
 */
module Events {

  /** A payment (credit or debit) seen for a monitored account. */
  datatype PaymentObserved = PaymentObserved(
    timestamp: int,
    accountId: string,
    amount: real,
    direction: string)  // "IN" or "OUT"; any other text counts as neither

  /** The inbound and outbound totals of one account's trailing window. */
  datatype BalanceWindowUpdated = BalanceWindowUpdated(
    timestamp: int,
    accountId: string,
    inLast30m: real,
    outLast30m: real,
    netChangeLast30m: real)

  /** A fast cash-out alert for one account. */
  datatype FastCashoutAlertRaised = FastCashoutAlertRaised(
    timestamp: int,
    accountId: string,
    inLast30m: real,
    outLast30m: real,
    ratio: real,
    firstTxnTime: int,
    lastTxnTime: int)

  /** Every value the bus can carry: the base event class and its three subclasses. */
  datatype Event =
    | BaseEvent(timestamp: int)
    | Payment(payment: PaymentObserved)
    | BalanceUpdate(update: BalanceWindowUpdated)
    | CashoutAlert(alert: FastCashoutAlertRaised)

  /** The classes an event can be an instance of; subscriptions are keyed by these. */
  datatype EventType =
    | EventClass
    | PaymentObservedClass
    | BalanceWindowUpdatedClass
    | FastCashoutAlertRaisedClass

  /** The exact class of an event (never one of its base classes). */
  function TypeOf(e: Event): EventType
  {
    match e
    case BaseEvent(_) => EventClass
    case Payment(_) => PaymentObservedClass
    case BalanceUpdate(_) => BalanceWindowUpdatedClass
    case CashoutAlert(_) => FastCashoutAlertRaisedClass
  }

  /** The callbacks a subscriber table holds for one event class, in registration order. */
  function CallbacksIn<H>(subscribers: map<EventType, seq<H>>, t: EventType): seq<H>
  {
    if t in subscribers then subscribers[t] else []
  }

  /**
    A map from event class to the ordered list of callbacks registered for it.
    Callbacks are identified by values of H; running them is up to the caller
    of Publish, which receives them in the order they are to be called.
   */
  class EventBus<H> {
    var subscribers: map<EventType, seq<H>>

    constructor ()
      ensures subscribers == map[]
    {
      subscribers := map[];
    }

    function Callbacks(t: EventType): seq<H>
      reads this
    {
      CallbacksIn(subscribers, t)
    }

    /** Registers a callback for one event class, at the end of that class's list. */
    method Subscribe(t: EventType, callback: H)
      modifies this
      ensures subscribers == old(subscribers)[t := old(Callbacks(t)) + [callback]]
      ensures t !in old(subscribers) ==> subscribers[t] == [callback]
      ensures Callbacks(t) == old(Callbacks(t)) + [callback]
      ensures forall u :: u != t ==> Callbacks(u) == old(Callbacks(u))
    {
      if t !in subscribers {
        subscribers := subscribers[t := []];
      }
      subscribers := subscribers[t := subscribers[t] + [callback]];
    }

    /**
      Delivers an event: yields, in call order, every callback registered for
      the event's exact class. The subscriber table is left as it was.
     */
    method Publish(e: Event) returns (delivered: seq<H>)
      ensures delivered == Callbacks(TypeOf(e))
      ensures TypeOf(e) !in subscribers ==> delivered == []
    {
      delivered := [];
      var t := TypeOf(e);
      if t in subscribers {
        var callbacks := subscribers[t];
        for i := 0 to |callbacks|
          invariant delivered == callbacks[..i]
        {
          delivered := delivered + [callbacks[i]];
        }
        assert callbacks[..|callbacks|] == callbacks;
      }
    }
  }

  /** Registering the same callback twice makes it run twice: there is no de-duplication. */
  method DuplicateSubscription<H>(t: EventType, callback: H, e: Event) returns (delivered: seq<H>)
    requires TypeOf(e) == t
    ensures delivered == [callback, callback]
  {
    var bus := new EventBus<H>();
    bus.Subscribe(t, callback);
    bus.Subscribe(t, callback);
    delivered := bus.Publish(e);
  }

  /** A subscriber of the base event class is not told about instances of its subclasses. */
  method BaseClassSubscription<H>(callback: H, e: Event) returns (delivered: seq<H>)
    requires !e.BaseEvent?
    ensures delivered == []
  {
    var bus := new EventBus<H>();
    bus.Subscribe(EventClass, callback);
    delivered := bus.Publish(e);
  }
}
