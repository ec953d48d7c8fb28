# Fast cash-out detection and spoke registry, modelled in Dafny

This project models two parts of a multi-agent fraud system.

The first part is the streaming fast cash-out pipeline, in `fraud_detection/`:

- An in-memory event bus carries events. Subscribers register callbacks per event class. Publishing an event calls, in registration order, exactly the callbacks of the event's own class.
- The ingestion agent wraps raw payment data into a `PaymentObserved` event and publishes it.
- The rolling-window agent keeps each account's payments. On every payment it:
  - appends the payment, then stable-sorts the list by timestamp;
  - drops everything stamped at or before thirty minutes before the new payment;
  - publishes the window's inbound/outbound totals as a `BalanceWindowUpdated`. This publish happens from inside its own handler, so delivery is nested and depth-first.
- The fast cash-out detector skips windows with no activity. Otherwise it computes `out / in`, or 0 when nothing came in. It raises a `FastCashoutAlertRaised` when an outside verdict calls the window suspicious.

The second part is the hub's spoke registry, in `hub_and_spoke_framework/hub/registry.py`. It maps spoke names to metadata: capabilities, endpoint and a mutable status. It supports:

- register, which overwrites an entry and resets it to `"active"`;
- status update, which does nothing for an unknown name;
- listing all spokes;
- a query for the active spokes offering one capability.

The modules are as follows:

- `events.dfy` (module `Events`):
  - the event records, as datatypes;
  - `EventBus<H>`, a class over a `map<EventType, seq<H>>` of callback identifiers. `Publish` returns the callbacks to be called, in call order.
- `agents.dfy` (module `Agents`):
  - the window as specification functions: `Window`, the stable sort `SortByTime` and the pruning `Retained`;
  - the lemmas about them;
  - the class `RollingWindowAgent`, whose method `OnPaymentObserved` updates the per-account table in place;
  - the detector's deterministic part, `Ratio` and `OnBalanceUpdated`. The verdict is a boolean parameter.
- `pipeline.dfy` (module `Pipeline`):
  - The three callbacks the demo driver wires up, as an enum.
  - `Published`/`Delivered`/`Handled`: nested delivery as mutually recursive functions over the aggregator's table. The verdict is an oracle `(inbound, outbound, ratio) -> bool`.
  - The class `FraudPipeline`. Its methods `Publish`/`Deliver`/`Invoke` run the delivery loop and the callbacks, and they are proved against those functions.
  - Isolation and invariant lemmas.
  - The demo driver's scenarios, as lemmas.
- `registry.dfy` (module `Registry`):
  - `SpokeCapability`;
  - the class `SpokeMetadata`, whose status is mutable;
  - the class `AgentRegistry`. It holds a `map` from name to spoke, plus the sequence of names in first-registration order, which is the order Python's dictionary iterates in;
  - the queries as functions, plus client methods that play through register, update and query.

Timestamps are whole seconds, and the window length is `30 * 60`. Amounts are exact `real`s.

## Model

| member | source | states |
|---|---|---|
| Events.TypeOf | fraud_detection/events.py:54 | definition: an event's exact class, never one of its base classes; Publish's contract and BaseClassSubscription state what follows from it |
| Events.EventBus.constructor | fraud_detection/events.py:44-45 | the subscriber table starts empty |
| Events.EventBus.Subscribe | fraud_detection/events.py:47-50 | the callback is appended at the end of its class's list (a one-element list for a class not seen before); every other class's list is unchanged |
| Events.EventBus.Publish | fraud_detection/events.py:52-57 | yields exactly the callbacks registered for the event's exact class, in registration order; nothing for a class without subscribers; the subscriber table is not changed |
| Events.DuplicateSubscription | fraud_detection/events.py:50 | subscribing the same callback twice makes one publish deliver to it twice (no de-duplication) |
| Events.BaseClassSubscription | fraud_detection/events.py:54-57 | a subscriber of the base event class receives no instance of a subclass |
| Agents.InsertByTime | fraud_detection/agents.py:34 | inserting one payment adds exactly that payment (multiset) and one element |
| Agents.SortByTime | fraud_detection/agents.py:34 | the key-only sort yields a timestamp-sorted permutation of its input |
| Agents.SortIsStable | fraud_detection/agents.py:34 | the sort keeps the relative order of payments sharing a timestamp |
| Agents.StableSortOf | fraud_detection/agents.py:34 | any sorted arrangement that keeps each timestamp's order equals SortByTime, so the model's choice of stable sort is immaterial |
| Agents.Retained | fraud_detection/agents.py:42-45 | keeps exactly the payments later than the window start, in their order |
| Agents.Window | fraud_detection/agents.py:31-45 | definition: append, stable sort, then drop everything not later than timestamp - 30 min; its properties are stated by WindowInvariant, WindowIsStable, WindowIsSortedRetained and WindowTotals |
| Agents.SumDirection | fraud_detection/agents.py:49-50 | definition: the sum of the amounts of the payments going in one direction; its properties are stated by SumAppend, SumSort, SumPermutation and WindowTotals |
| Agents.Summary | fraud_detection/agents.py:48-60 | definition: the update record built from a window; OnPaymentObserved's contract states its fields |
| Agents.WindowInvariant | fraud_detection/agents.py:31-45 | after a payment, its account's window is sorted, lies strictly after timestamp - 30 min, contains the payment, and holds exactly the stored or new payments later than the window start (stored later-stamped ones included) |
| Agents.WindowIsSortedRetained | fraud_detection/agents.py:31-45 | sorting then pruning equals pruning the arrival-order history then sorting |
| Agents.WindowIsStable | fraud_detection/agents.py:34-45 | in the window, each unexpired timestamp's payments appear in arrival order, and expired timestamps have none |
| Agents.WindowTotals | fraud_detection/agents.py:48-50 | the window's per-direction totals are the sums over the unexpired arrival-order history |
| Agents.InOrderArrival | fraud_detection/agents.py:31-45 | a payment arriving in time order with every stored payment still in the window is simply appended |
| Agents.TwoPaymentWindow | fraud_detection/agents.py:31-45 | the window after a second payment: both in time order, or only the new one once the first is 30 minutes older |
| Agents.FirstPaymentTotals | fraud_detection/agents.py:48-50 | an account's first payment alone forms the window, and the totals are its own contribution |
| Agents.Process | fraud_detection/agents.py:27-45 | definition: an account's window after a series of arrivals, one Window step per payment; its properties are stated by ProcessKeepsAll, ProcessWithinOneWindow and ArrivalOrderIrrelevant |
| Agents.SortSortedPrefix | fraud_detection/agents.py:31-34 | appending to an already sorted list and sorting again is sorting the whole arrival history |
| Agents.ProcessKeepsAll | fraud_detection/agents.py:27-45 | while every payment seen lies within one 30-minute window, nothing is pruned and the window is the stable sort of all arrivals |
| Agents.ProcessWithinOneWindow | fraud_detection/agents.py:27-45 | payments all within one window, arriving in any order on an empty account, leave the stable sort of those payments |
| Agents.SumPermutation | fraud_detection/agents.py:49-50 | a direction's total depends only on the multiset of payments, not their order |
| Agents.ArrivalOrderIrrelevant | fraud_detection/agents.py:27-50 | out-of-order tolerance: two arrival orders of the same payments, all within one window, leave the same multiset of payments and the same IN and OUT totals |
| Agents.WindowKeepsValid | fraud_detection/agents.py:28-45 | replacing an account's list by its new window keeps every list sorted and holding only its own account's payments |
| Agents.RollingWindowAgent.constructor | fraud_detection/agents.py:24 | the table starts empty |
| Agents.RollingWindowAgent.OnPaymentObserved | fraud_detection/agents.py:27-60 | only the payment's account entry changes, and it becomes Window(prior, e); the returned update carries e's timestamp and account, the IN and OUT sums of that window and net = in - out; the table invariant is kept |
| Agents.Ratio | fraud_detection/agents.py:79-81 | for positive inflow, ratio * in = out; otherwise the ratio is 0 |
| Agents.OnBalanceUpdated | fraud_detection/agents.py:71-148 | an alert is raised exactly when the verdict is suspicious and the totals are not both zero; it copies timestamp, account and totals, carries Ratio(in, out), last time = timestamp and first time = timestamp - 30 min |
| Agents.RatioThreshold | fraud_detection/events.py:31-33 | for positive inflow, ratio >= 0.8 exactly when outflow >= 80% of inflow (the rule the alert's documentation describes) |
| Agents.AlertBelowThreshold | fraud_detection/events.py:31-33 | the 80% rule is not enforced: a suspicious verdict on a window with no inflow yields an alert with ratio 0 |
| Pipeline.FraudPipeline.constructor | fraud_detection/main.py:8-25 | the bus starts with the aggregator on payments, the detector on window updates and the alert handler on alerts; the table starts empty |
| Pipeline.Evaluate | fraud_detection/agents.py:120-148 | definition: the detector's outcome with the oracle's verdict on (inbound, outbound, ratio); OnBalanceUpdated's contract states it |
| Pipeline.Published | fraud_detection/events.py:52-57 | definition: publishing as the delivery, in order, to the event's exact-class callbacks; FraudPipeline.Publish is proved equal to it, and PaymentDispatch, PublishedIsolation and PublishedValid state its properties |
| Pipeline.Delivered | fraud_detection/events.py:56-57 | definition: the callbacks run one after the other, each seeing the table the one before left; FraudPipeline.Deliver is proved equal to it |
| Pipeline.Handled | fraud_detection/agents.py:27-152 | definition: one callback's run, including the nested publish of the window update (line 61) or of the alert (line 152); FraudPipeline.Invoke is proved equal to it |
| Pipeline.FraudPipeline.Ingest | fraud_detection/agents.py:10-18 | ingesting is publishing the payment built from the raw fields: table and deliveries are those of Published on it; the table invariant is kept |
| Pipeline.FraudPipeline.Publish | fraud_detection/events.py:52-57 | the new table and the deliveries, nested callbacks included, are exactly Published(subscribers, old table, oracle, e); the table invariant is kept |
| Pipeline.FraudPipeline.Deliver | fraud_detection/events.py:56-57 | running the callback list in order gives exactly Delivered over that list |
| Pipeline.FraudPipeline.Invoke | fraud_detection/agents.py:27-152 | one callback's run, with the event it publishes delivered before it returns, is exactly Handled |
| Pipeline.PaymentDispatch | fraud_detection/agents.py:53-61 | with the standard wiring, a payment yields the aggregator's delivery, then the detector's with the new window's summary, then the alert handler's exactly when an alert is raised; the account's entry becomes its window |
| Pipeline.PublishedIsolation | fraud_detection/agents.py:28-45 | for any wiring of the model's callbacks (each ignoring event kinds it does not handle), publishing an event (with all nested publishes) leaves every account other than the payment's own unchanged |
| Pipeline.NonPaymentKeepsTable | fraud_detection/agents.py:63-152 | publishing a window update, an alert or a base event never changes the aggregator's table, given that the aggregator's handler ignores anything but payments |
| Pipeline.PublishedValid | fraud_detection/agents.py:31-45 | publishing any event keeps every stored list sorted and holding only its own account's payments |
| Pipeline.FastCashoutScenario | fraud_detection/main.py:32-39 | IN 1000 then OUT 900 twenty minutes later: both stay in the window, the detector sees 1000 / 900 / net 100, and an alert (ratio 0.9) follows exactly when the verdict on (1000, 900, 0.9) is suspicious |
| Pipeline.BenignScenario | fraud_detection/main.py:45-59 | IN 1000, OUT 50, OUT 100 within 25 minutes: all stay, the detector sees 1000 / 150 and ratio 0.15, and the verdict alone decides the alert |
| Pipeline.PrunedInflowScenario | fraud_detection/agents.py:38-45 | an inflow 31 minutes older than an outflow has left the window: totals 0 / 900, ratio 0, and a suspicious verdict still raises an alert |
| Pipeline.OutOfOrderScenario | fraud_detection/agents.py:33-34 | an earlier-stamped payment arriving late is sorted in front; the later one is kept and both are counted |
| Pipeline.ThirdInOrder | fraud_detection/agents.py:31-45 | three payments in time order within 30 minutes of the first are all kept, in order |
| Registry.SpokeMetadata.constructor | hub_and_spoke_framework/hub/registry.py:4-9 | the metadata holds the given name, capabilities and endpoint, with status "active" |
| Registry.AgentRegistry.constructor | hub_and_spoke_framework/hub/registry.py:12-13 | the registry starts empty |
| Registry.AgentRegistry.RegisterSpoke | hub_and_spoke_framework/hub/registry.py:15-16 | a fresh entry with exactly the given capabilities and endpoint and status "active" is filed under the name, replacing any earlier one; other entries are unchanged; a new name goes last in the order, a known one keeps its place |
| Registry.AgentRegistry.ListAllSpokes | hub_and_spoke_framework/hub/registry.py:25-26 | lists every entry once, in registration order; one entry per distinct registered name |
| Registry.AgentRegistry.GetSpokesForCapability | hub_and_spoke_framework/hub/registry.py:19-23 | returns exactly the registered spokes that offer the capability and are "active", in registration order (a subsequence of the full list) |
| Registry.ActiveWithCapability | hub_and_spoke_framework/hub/registry.py:20-23 | the comprehension keeps exactly the elements offering the capability with status "active", in order |
| Registry.AgentRegistry.UpdateSpokeStatus | hub_and_spoke_framework/hub/registry.py:28-30 | the named spoke's status is set; the table, the order and every other status are unchanged; an unknown name changes nothing |
| Registry.ReRegistration | hub_and_spoke_framework/hub/registry.py:15-16 | a spoke switched off and registered again is found again, with its new endpoint and status "active" |
| Registry.Deactivation | hub_and_spoke_framework/hub/registry.py:22 | a spoke with any status other than "active" is not found by a capability query but is still listed |
| Registry.UnknownNameUpdate | hub_and_spoke_framework/hub/registry.py:29 | updating an unregistered name leaves the registered spoke active and found |
| Registry.NoneQualify | hub_and_spoke_framework/hub/registry.py:22 | when no spoke of a list is active, the filter yields nothing |

## Left out

- The detector's call to a local language model: the prompt, HTTP request, JSON decoding, and the catch-all handler that prints the error. The verdict is an arbitrary oracle over (inbound, outbound, ratio) in the pipeline, and a boolean parameter of `OnBalanceUpdated`. The oracle always answers. It is one fixed function for the whole life of a pipeline, so equal figures always get equal verdicts. The source asks a generative model afresh on every update (agents.py:113-133), and nothing makes it answer the same way twice. An unreachable model, which in the source means "no alert", is the oracle answering false.
- Exceptions: a callback that raises aborts delivery to later callbacks in the source. In the model every callback is total. The detector's catch-all also covers exceptions raised by the alert's subscribers; that is not modelled.
- A callback handed an event of a kind it does not expect does nothing in the model. The source does not behave that way. Wired to window updates or alerts, the aggregator's handler first appends the foreign event to its account's list (agents.py:31), where the pruning keeps it. Only then is `AttributeError` raised at the sum (agents.py:49). When the foreign event is an alert published from inside the detector, the detector's catch-all (agents.py:154) swallows the error and the foreign object stays in the table. `NonPaymentKeepsTable` and `PublishedIsolation` therefore hold for the source only under wirings that subscribe the aggregator to payments alone, as the standard wiring does.
- `datetime.now` defaults for event timestamps: every event takes an explicit timestamp.
- Floating point and `datetime`: amounts are exact reals, and timestamps are integer seconds. Float rounding in the sums and the ratio is not modelled.
- The 80% rule in the alert's documentation is not enforced by the code. The model follows the code: the verdict decides.
- `print` output, including the registry's registration message and the detector's debug line.
- The alert handler's printing. It is a callback that only records its delivery.
- The demo drivers `fraud_detection/main.py`, `fincrime_investigation/main.py` and `fincrime_investigation/utils/mock_data.py`. The fraud driver's two scenarios appear as the lemmas `FastCashoutScenario` and `BenignScenario`.
- These parts of the repository are not part of this model:
  - `fincrime_investigation/agents/*`;
  - `hub_and_spoke_framework/spokes/implementations.py`, `common/llm_client.py` and `common/spoke_base.py`;
  - `hub/observability.py` and `hub/orchestrator.py`;
  - the records of `common/models.py`, other than `SpokeCapability`.

  They are language-model prompting, HTTP, file logging and record declarations.
- Agents.SortByTime: Python's sort (Timsort) is modelled by a stable insertion sort. `StableSortOf` proves that every stable sort by timestamp gives the same list.
- Registry.AgentRegistry.RegisterSpoke: the requirement that the name table and the order agree is stated as the class invariant `Valid()`, which the registry's methods require and keep. Python's dictionary keeps that agreement implicitly.
- The dictionary's iteration order is the sequence `order`. Re-registering a name keeps its position, as assigning to an existing dictionary key does.
- The spoke's capabilities are a `seq` value. In the source `SpokeMetadata` keeps a reference to the caller's list (registry.py:7), so a caller that later changes that list changes what capability queries return. The model does not capture that aliasing.
