/** The simulated shop: runs, purchase orders and recorded commands, and what each command does to them.
    Instants are microseconds; the clock and fresh names are inputs. Identifiers are numbers: only
    equality and the order in which the database sorts them matter. A content hash is the content. */
module SimulatorModel {
  import opened Prelude

  type Id = nat

  type Positive = n: nat | n > 0 witness 1

  const SECOND := 1_000_000
  const HOUR := 3_600_000_000
  const DAY := 86_400_000_000
  const MAX_INT := 9_223_372_036_854_775_807

  const SKU: Id := 1
  const SUPPLIER: Id := 1

  // ---------------------------------------------------------------- requests

  datatype Scenario = SC01 | Sandbox

  datatype Parameters = Parameters(
    cash: nat, onHand: nat, demand: nat, unitPrice: nat, minimum: nat, pack: Positive,
    leadSeconds: nat, horizonDays: nat)

  const DEFAULTS := Parameters(100000, 20, 60, 1000, 20, 20, 86400, 7)

  predicate ParametersValid(p: Parameters) {
    && p.cash <= 1_000_000_000_000 && p.onHand <= 1_000_000 && p.demand <= 1_000_000
    && 1 <= p.unitPrice <= 100_000_000 && 1 <= p.minimum <= 1_000_000 && p.pack <= 1_000_000
    && p.leadSeconds <= 7_776_000 && 1 <= p.horizonDays <= 90
    && p.leadSeconds <= p.horizonDays * 86400
  }

  datatype CreateRequest = CreateRequest(scenario: Scenario, title: Option<string>, parameters: Option<Parameters>)

  datatype PurchaseRequest = PurchaseRequest(
    action: Id, run: nat, store: nat, sku: Id, supplier: Id, quantity: nat, expectedTotal: nat)

  datatype AdvanceRequest = AdvanceRequest(steps: nat, skipEmptyDelivery: bool)

  datatype Kind =
    | Sale(quantity: nat, unitPrice: nat, advanceSeconds: nat)
    | Demand(remaining: nat, advanceSeconds: nat)
    | Arrival(action: Id, amount: Option<nat>)

  datatype TriggerRequest = TriggerRequest(expectedSequence: nat, kind: Kind)

  /** One reading of the clock, with a fresh forecast version. */
  datatype Tick = Tick(now: int, version: Id)

  datatype Body =
    | Create(create: CreateRequest)
    | Purchase(purchase: PurchaseRequest)
    | Advance(target: nat, advance: AdvanceRequest)
    | Trigger(target: nat, trigger: TriggerRequest)

  /** A request with its idempotency key, and what the clock and the name generator will say. */
  datatype Command = Command(key: Id, body: Body, ticks: seq<Tick>)

  predicate KindValid(k: Kind) {
    match k
    case Sale(q, price, seconds) => 1 <= q <= 1_000_000 && 1 <= price <= 100_000_000 && seconds <= 604800
    case Demand(d, seconds) => d <= 1_000_000 && seconds <= 604800
    case Arrival(_, q) => q.Some? ==> 1 <= q.value <= 1_000_000
  }

  /** The request schemas. */
  predicate BodyValid(b: Body) {
    match b
    case Create(r) =>
      && (r.scenario == SC01 ==> r.parameters.None? && r.title.None?)
      && (r.title.Some? ==> 1 <= |r.title.value| <= 120)
      && (r.parameters.Some? ==> ParametersValid(r.parameters.value))
    case Purchase(r) => 1 <= r.quantity <= MAX_INT && 1 <= r.expectedTotal <= MAX_INT
    case Advance(_, r) => 1 <= r.steps <= 100
    case Trigger(_, r) => r.expectedSequence <= MAX_INT && KindValid(r.kind)
  }

  predicate CommandValid(c: Command) {
    BodyValid(c.body) && |c.ticks| == if c.body.Advance? then c.body.advance.steps else 1
  }

  // ---------------------------------------------------------------- rows

  datatype World = World(
    cash: int, reserved: int, available: int, receivables: int, onHand: int, inTransit: int, demand: int,
    version: Id, dataAsOf: int, time: int)

  datatype Offer = Offer(
    sku: Id, supplier: Id, unitPrice: nat, minimum: nat, pack: Positive, lead: nat, validFrom: int, validUntil: int)

  datatype Seed = Seed(run: nat, store: nat, world: World, horizon: int, offer: Offer)

  datatype Payload =
    | PurchaseAccepted(action: Id, order: Id, sku: Id, quantity: int, total: int)
    | GoodsReceived(action: Id, sku: Id, quantity: int)
    | SaleRecorded(sku: Id, quantity: int, unitPrice: int)
    | DemandRevised(sku: Id, demand: int, version: Id, dataAsOf: int, validUntil: int, horizonStart: int,
      horizonEnd: int)

  datatype Event = Event(sequence: nat, store: nat, occurredAt: int, time: int, payload: Payload)

  datatype Run = Run(
    commandKey: Id, configuration: CreateRequest, seed: Seed, world: World, lastSequence: nat, events: seq<Event>,
    stepIndex: nat)

  datatype Reason =
    | OfferNotFound | OfferExpired | MinimumOrderQuantity | PackSizeMismatch | PriceMismatch | InsufficientCash
    | EtaOutsideScenario

  datatype Receipt = Receipt(action: Id, accepted: bool, order: Option<Id>, quantity: int, total: int, recordedAt: int,
    reason: Option<Reason>)

  datatype Order = Order(request: PurchaseRequest, receipt: Receipt, accepted: int, received: int, eta: Option<int>)

  datatype Response =
    | Seeded(seed: Seed)
    | Receipted(receipt: Receipt)
    | Advanced(run: nat, time: int, lastSequence: nat)
    | Triggered(run: nat, sequence: nat, time: int, before: World, after: World, event: Event)

  datatype Failure =
    | ValidationError | ResourceNotFound | ResourceForbidden | KeyReused | ActionContentConflict
    | ScenarioModeMismatch | SourceChanged | ScenarioFinished | StepBlocked | OrderNotFound
    | ReceiptQuantityInvalid | HorizonExceeded | InsufficientStock | WorldLimitExceeded | InternalError

  datatype Operation = CreateRunOp | PurchaseOp | AdvanceOp | TriggerOp

  datatype Recorded = Recorded(content: Body, response: Response)

  /** orders: the purchase table in the order of its action ids. */
  datatype Sim = Sim(runs: seq<Run>, orders: seq<Order>, commands: map<(Operation, Id), Recorded>)

  const EMPTY_SIM := Sim([], [], map[])

  // ---------------------------------------------------------------- seeds and orders

  function Effective(request: CreateRequest): Parameters {
    if request.scenario == Sandbox && request.parameters.Some? then request.parameters.value else DEFAULTS
  }

  function InitialSnapshot(run: nat, request: CreateRequest, now: int): Seed {
    var p := Effective(request);
    Seed(run, run, World(p.cash, 0, p.cash, 0, p.onHand, 0, p.demand, 0, now, now), now + p.horizonDays * DAY,
         Offer(SKU, SUPPLIER, p.unitPrice, p.minimum, p.pack, p.leadSeconds, now, now + DAY))
  }

  /** Position of the row with this action id, or the end of the table. */
  function Find(orders: seq<Order>, action: Id): (i: nat)
    ensures i <= |orders|
    ensures i < |orders| ==> orders[i].request.action == action
    ensures forall j :: 0 <= j < i ==> orders[j].request.action != action
  {
    if orders == [] || orders[0].request.action == action then 0 else 1 + Find(orders[1..], action)
  }

  /** The table with one more row, still in the order of the action ids. */
  function Insert(orders: seq<Order>, o: Order): seq<Order> {
    if orders == [] || o.request.action < orders[0].request.action then [o] + orders
    else [orders[0]] + Insert(orders[1..], o)
  }

  predicate Pending(o: Order, run: nat) {
    o.request.run == run && o.received < o.accepted
  }

  // ---------------------------------------------------------------- what can happen to a run

  /** The part of the database a command on one run works on. */
  datatype Script = Script(run: Run, orders: seq<Order>)

  function Emit(run: Run, payload: Payload, now: int): Run {
    var n := run.lastSequence + 1;
    run.(lastSequence := n, events := run.events + [Event(n, run.seed.store, now, run.world.time, payload)])
  }

  function Stamp(run: Run, time: int, now: int): Run {
    run.(world := run.world.(time := time, dataAsOf := now))
  }

  function AcceptedOrder(request: PurchaseRequest, now: int, order: Id, total: int, eta: int): Order {
    Order(request, Receipt(request.action, true, Some(order), request.quantity, total, now, None),
          request.quantity, 0, Some(eta))
  }

  function Accept(s: Script, request: PurchaseRequest, now: int, order: Id, total: int, eta: int): Script {
    var w := s.run.world;
    var run := s.run.(world := w.(cash := w.cash - total, available := w.cash - total,
                                  inTransit := w.inTransit + request.quantity, dataAsOf := now));
    Script(Emit(run, PurchaseAccepted(request.action, order, request.sku, request.quantity, total), now),
           Insert(s.orders, AcceptedOrder(request, now, order, total, eta)))
  }

  function ReceiveRow(s: Script, i: nat, quantity: int, now: int): Script
    requires i < |s.orders|
  {
    var w, o := s.run.world, s.orders[i];
    var run := s.run.(world := w.(inTransit := w.inTransit - quantity, onHand := w.onHand + quantity));
    Script(Emit(run, GoodsReceived(o.request.action, SKU, quantity), now),
           s.orders[i := o.(received := o.received + quantity)])
  }

  function Max(a: int, b: int): int {
    if a >= b then a else b
  }

  function Sell(run: Run, quantity: int, unitPrice: int, now: int): Run {
    var w := run.world;
    Emit(run.(world := w.(onHand := w.onHand - quantity, demand := Max(0, w.demand - quantity),
                          receivables := w.receivables + quantity * unitPrice)),
         SaleRecorded(SKU, quantity, unitPrice), now)
  }

  function Revise(run: Run, demand: int, version: Id, now: int): Run {
    Emit(run.(world := run.world.(demand := demand, version := version)),
         DemandRevised(SKU, demand, version, now, now + HOUR, run.world.time, run.seed.horizon), now)
  }

  // ---------------------------------------------------------------- purchases

  datatype Terms = Refused(reason: Reason) | Agreed(total: int, eta: int)

  function PurchaseTerms(run: Run, request: PurchaseRequest, now: int): Terms {
    var offer, total := run.seed.offer, request.quantity * run.seed.offer.unitPrice;
    var eta := run.world.time + offer.lead * SECOND;
    if request.sku != offer.sku || request.supplier != offer.supplier then Refused(OfferNotFound)
    else if !(offer.validFrom <= now < offer.validUntil) then Refused(OfferExpired)
    else if request.quantity < offer.minimum then Refused(MinimumOrderQuantity)
    else if request.quantity % offer.pack != 0 then Refused(PackSizeMismatch)
    else if total != request.expectedTotal then Refused(PriceMismatch)
    else if total > run.world.cash then Refused(InsufficientCash)
    else if eta > run.seed.horizon then Refused(EtaOutsideScenario)
    else Agreed(total, eta)
  }

  function Rejected(request: PurchaseRequest, now: int, reason: Reason): Order {
    Order(request, Receipt(request.action, false, None, 0, 0, now, Some(reason)), 0, 0, None)
  }

  // ---------------------------------------------------------------- the SC01 script

  predicate AnyPending(orders: seq<Order>, run: nat) {
    exists i :: 0 <= i < |orders| && Pending(orders[i], run)
  }

  predicate EtasKnown(orders: seq<Order>, run: nat) {
    forall i :: 0 <= i < |orders| && Pending(orders[i], run) ==> orders[i].eta.Some?
  }

  /** The latest of time and the ETAs of the first k rows that are pending. */
  function LatestEta(orders: seq<Order>, run: nat, time: int, k: nat): int
    requires k <= |orders| && EtasKnown(orders, run)
  {
    if k == 0 then time
    else
      var before := LatestEta(orders, run, time, k - 1);
      if Pending(orders[k - 1], run) then Max(before, orders[k - 1].eta.value) else before
  }

  /** Receive what is outstanding on row i, if it is pending. */
  function DeliverAt(s: Script, run: nat, now: int, i: nat): Result<Script, Failure>
    requires i < |s.orders|
  {
    var quantity := s.orders[i].accepted - s.orders[i].received;
    if !Pending(s.orders[i], run) then Ok(s)
    else if s.run.world.inTransit < quantity then Err(StepBlocked)
    else Ok(ReceiveRow(s, i, quantity, now))
  }

  /** Receive what is pending among the first k rows. */
  function Deliveries(s: Script, run: nat, now: int, k: nat): (r: Result<Script, Failure>)
    requires k <= |s.orders|
    ensures r.Ok? ==> |r.value.orders| == |s.orders| && forall i :: k <= i < |s.orders| ==>
      r.value.orders[i] == s.orders[i]
  {
    if k == 0 then Ok(s)
    else
      match Deliveries(s, run, now, k - 1)
      case Err(e) => Err(e)
      case Ok(t) => DeliverAt(t, run, now, k - 1)
  }

  function DeliveryStep(s: Script, run: nat, now: int): Result<Script, Failure> {
    if !AnyPending(s.orders, run) then Err(StepBlocked)
    else if !EtasKnown(s.orders, run) then Err(InternalError)
    else
      var time := LatestEta(s.orders, run, s.run.world.time, |s.orders|);
      if time > s.run.seed.horizon then Err(StepBlocked)
      else Deliveries(s.(run := Stamp(s.run, time, now)), run, now, |s.orders|)
  }

  /** A sale at script position 1, otherwise a revision of demand; time is when the hour starts. */
  function HourStep(run: Run, time: int, tick: Tick): Result<Run, Failure> {
    var stamped := Stamp(run, time + HOUR, tick.now);
    if time + HOUR >= run.seed.horizon then Err(StepBlocked)
    else if run.stepIndex == 1 then
      if run.world.onHand < 10 then Err(StepBlocked) else Ok(Sell(stamped, 10, 2000, tick.now))
    else Ok(Revise(stamped, 70, tick.version, tick.now))
  }

  function NextStep(run: Run): Run {
    run.(stepIndex := run.stepIndex + 1)
  }

  function ScriptStep(s: Script, run: nat, skip: bool, tick: Tick): Result<Script, Failure> {
    if s.run.stepIndex >= 4 then Err(ScenarioFinished)
    else if s.run.stepIndex in {0, 3} && !(s.run.stepIndex == 0 && skip && !AnyPending(s.orders, run)) then
      match DeliveryStep(s, run, tick.now)
      case Err(e) => Err(e)
      case Ok(t) => Ok(t.(run := NextStep(t.run)))
    else
      var skipped := s.run.stepIndex == 0;
      var time := s.run.world.time + if skipped then DAY else 0;
      match HourStep(if skipped then NextStep(s.run) else s.run, time, tick)
      case Err(e) => Err(e)
      case Ok(t) => Ok(s.(run := NextStep(t)))
  }

  function ScriptSteps(s: Script, run: nat, skip: bool, ticks: seq<Tick>): Result<Script, Failure> {
    if ticks == [] then Ok(s)
    else
      match ScriptSteps(s, run, skip, ticks[..|ticks| - 1])
      case Err(e) => Err(e)
      case Ok(t) => ScriptStep(t, run, skip, ticks[|ticks| - 1])
  }

  // ---------------------------------------------------------------- manual triggers

  /** The State schema of the service. */
  predicate WorldValid(w: World) {
    && 0 <= w.cash <= MAX_INT && 0 <= w.reserved <= MAX_INT && 0 <= w.available <= MAX_INT
    && 0 <= w.receivables <= MAX_INT && 0 <= w.onHand <= MAX_INT && 0 <= w.inTransit <= MAX_INT
    && 0 <= w.demand <= MAX_INT && w.available == w.cash - w.reserved
  }

  function Triggers(s: Script, run: nat, kind: Kind, tick: Tick): (t: Result<Script, Failure>)
    ensures t.Ok? ==> t.value.run.events != []
  {
    var w, horizon := s.run.world, s.run.seed.horizon;
    match kind
    case Arrival(action, amount) =>
      var i := Find(s.orders, action);
      if i == |s.orders| || s.orders[i].request.run != run then Err(OrderNotFound)
      else
        var remaining := s.orders[i].accepted - s.orders[i].received;
        var quantity := if amount.None? then remaining else amount.value;
        if quantity <= 0 || quantity > remaining || w.inTransit < quantity then Err(ReceiptQuantityInvalid)
        else if s.orders[i].eta.None? then Err(InternalError)
        else
          var time := Max(w.time, s.orders[i].eta.value);
          if time > horizon then Err(HorizonExceeded)
          else Ok(ReceiveRow(s.(run := Stamp(s.run, time, tick.now)), i, quantity, tick.now))
    case Sale(quantity, unitPrice, seconds) =>
      var time := w.time + seconds * SECOND;
      if time >= horizon then Err(HorizonExceeded)
      else if w.onHand < quantity then Err(InsufficientStock)
      else Ok(s.(run := Sell(Stamp(s.run, time, tick.now), quantity, unitPrice, tick.now)))
    case Demand(remaining, seconds) =>
      var time := w.time + seconds * SECOND;
      if time >= horizon then Err(HorizonExceeded)
      else Ok(s.(run := Revise(Stamp(s.run, time, tick.now), remaining, tick.version, tick.now)))
  }

  // ---------------------------------------------------------------- commands

  function OperationOf(b: Body): Operation {
    match b
    case Create(_) => CreateRunOp
    case Purchase(_) => PurchaseOp
    case Advance(_, _) => AdvanceOp
    case Trigger(_, _) => TriggerOp
  }

  type Outcome = (Sim, Result<Response, Failure>)

  /** The answer a recorded command gives to its key, if there is one. */
  function Replay(sim: Sim, c: Command): Option<Result<Response, Failure>> {
    var id := (OperationOf(c.body), c.key);
    if id !in sim.commands then None
    else if sim.commands[id].content != c.body then Some(Err(KeyReused))
    else Some(Ok(sim.commands[id].response))
  }

  function Record(sim: Sim, c: Command, response: Response): Outcome {
    (sim.(commands := sim.commands[(OperationOf(c.body), c.key) := Recorded(c.body, response)]), Ok(response))
  }

  /** Position of the run created under this key, or the end of the table. */
  function FindRun(runs: seq<Run>, key: Id): (i: nat)
    ensures i <= |runs|
    ensures i < |runs| ==> runs[i].commandKey == key
    ensures forall j :: 0 <= j < i ==> runs[j].commandKey != key
  {
    if runs == [] || runs[0].commandKey == key then 0 else 1 + FindRun(runs[1..], key)
  }

  function CreateRun(sim: Sim, c: Command): Outcome
    requires c.body.Create? && |c.ticks| == 1
  {
    var replay, i := Replay(sim, c), FindRun(sim.runs, c.key);
    if replay.Some? then (sim, replay.value)
    else if i == |sim.runs| then
      var seed := InitialSnapshot(|sim.runs|, c.body.create, c.ticks[0].now);
      Record(sim.(runs := sim.runs + [Run(c.key, c.body.create, seed, seed.world, 0, [], 0)]), c, Seeded(seed))
    else if sim.runs[i].configuration != c.body.create then (sim, Err(KeyReused))
    else Record(sim, c, Seeded(sim.runs[i].seed))
  }

  function SubmitPurchase(sim: Sim, c: Command): Outcome
    requires c.body.Purchase? && |c.ticks| == 1
  {
    var request, now := c.body.purchase, c.ticks[0].now;
    if request.run >= |sim.runs| then (sim, Err(ResourceNotFound))
    else if sim.runs[request.run].seed.store != request.store then (sim, Err(ResourceForbidden))
    else
      var replay, i := Replay(sim, c), Find(sim.orders, request.action);
      if replay.Some? then (sim, replay.value)
      else if i < |sim.orders| then
        if sim.orders[i].request != request then (sim, Err(ActionContentConflict))
        else Record(sim, c, Receipted(sim.orders[i].receipt))
      else
        match PurchaseTerms(sim.runs[request.run], request, now)
        case Refused(reason) =>
          var order := Rejected(request, now, reason);
          Record(sim.(orders := Insert(sim.orders, order)), c, Receipted(order.receipt))
        case Agreed(total, eta) =>
          var s := Accept(Script(sim.runs[request.run], sim.orders), request, now, c.ticks[0].version, total, eta);
          Record(sim.(runs := sim.runs[request.run := s.run], orders := s.orders), c,
                 Receipted(AcceptedOrder(request, now, c.ticks[0].version, total, eta).receipt))
  }

  function AdvanceRun(sim: Sim, c: Command): Outcome
    requires c.body.Advance? && |c.ticks| == c.body.advance.steps
  {
    var r, request := c.body.target, c.body.advance;
    if r >= |sim.runs| then (sim, Err(ResourceNotFound))
    else
      var replay, run := Replay(sim, c), sim.runs[r];
      if replay.Some? then (sim, replay.value)
      else if run.configuration.scenario != SC01 then (sim, Err(ScenarioModeMismatch))
      else if run.stepIndex + request.steps > 4 then (sim, Err(ScenarioFinished))
      else
        match ScriptSteps(Script(run, sim.orders), r, request.skipEmptyDelivery, c.ticks)
        case Err(e) => (sim, Err(e))
        case Ok(s) =>
          Record(sim.(runs := sim.runs[r := s.run], orders := s.orders), c,
                 Advanced(r, s.run.world.time, s.run.lastSequence))
  }

  function TriggerRun(sim: Sim, c: Command): Outcome
    requires c.body.Trigger? && |c.ticks| == 1
  {
    var r, request := c.body.target, c.body.trigger;
    if r >= |sim.runs| then (sim, Err(ResourceNotFound))
    else
      var replay, run := Replay(sim, c), sim.runs[r];
      if replay.Some? then (sim, replay.value)
      else if run.configuration.scenario != Sandbox then (sim, Err(ScenarioModeMismatch))
      else if run.lastSequence != request.expectedSequence then (sim, Err(SourceChanged))
      else
        match Triggers(Script(run, sim.orders), r, request.kind, c.ticks[0])
        case Err(e) => (sim, Err(e))
        case Ok(s) =>
          if !WorldValid(s.run.world) then (sim, Err(WorldLimitExceeded))
          else
            Record(sim.(runs := sim.runs[r := s.run], orders := s.orders), c,
                   Triggered(r, s.run.lastSequence, s.run.world.time, run.world, s.run.world,
                     s.run.events[|s.run.events| - 1]))
  }

  /** The service: validate, then run the command in one transaction. A failure changes nothing. */
  function Handle(sim: Sim, c: Command): Outcome {
    if !CommandValid(c) then (sim, Err(ValidationError))
    else
      match c.body
      case Create(_) => CreateRun(sim, c)
      case Purchase(_) => SubmitPurchase(sim, c)
      case Advance(_, _) => AdvanceRun(sim, c)
      case Trigger(_, _) => TriggerRun(sim, c)
  }
}
