/** What each command of the simulator decides and does, said of the request, the seed and the world. */
module SimulatorOutcomes {
  import opened Prelude
  import opened SimulatorModel
  import opened SimulatorProofs
  import opened SimulatorReachable
  import opened SimulatorTheorems

  // ---------------------------------------------------------------- tables and logs

  /** The table with one more row. */
  ghost predicate Added(before: seq<Order>, after: seq<Order>, o: Order) {
    multiset(after) == multiset(before) + multiset{o}
  }

  lemma {:induction false} InsertAdds(orders: seq<Order>, o: Order)
    ensures Added(orders, Insert(orders, o), o)
  {
    if !(orders == [] || o.request.action < orders[0].request.action) {
      InsertAdds(orders[1..], o);
      assert orders == [orders[0]] + orders[1..];
    }
  }

  /** The log with one more event: next in number, of the run's store, at the world's time. */
  ghost predicate Logs(before: Run, after: Run, payload: Payload, time: int, now: int) {
    && after.events == before.events + [Event(before.lastSequence + 1, before.seed.store, now, time, payload)]
    && after.lastSequence == before.lastSequence + 1
  }

  // ---------------------------------------------------------------- what is taken at all

  /** Amounts and times within the ranges of the request schemas. */
  predicate InRange(b: Body) {
    match b
    case Create(CreateRequest(scenario, title, parameters)) =>
      && (title.Some? ==> scenario == Sandbox && title.value != "" && |title.value| <= 120)
      && (parameters.Some? ==>
            var p := parameters.value;
            && scenario == Sandbox && p.cash <= 1000000000000 && p.onHand <= 1000000 && p.demand <= 1000000
            && 1 <= p.unitPrice <= 100000000 && 1 <= p.minimum <= 1000000 && 1 <= p.pack <= 1000000
            && p.leadSeconds <= 90 * 86400 && 1 <= p.horizonDays <= 90 && p.leadSeconds <= p.horizonDays * 86400)
    case Purchase(p) => 1 <= p.quantity <= 9223372036854775807 && 1 <= p.expectedTotal <= 9223372036854775807
    case Advance(_, request) => 1 <= request.steps <= 100
    case Trigger(_, TriggerRequest(expected, kind)) =>
      && expected <= 9223372036854775807
      && match kind
         case Sale(quantity, price, seconds) =>
           1 <= quantity <= 1000000 && 1 <= price <= 100000000 && seconds <= 7 * 86400
         case Demand(remaining, seconds) => remaining <= 1000000 && seconds <= 7 * 86400
         case Arrival(_, amount) => amount.Some? ==> 1 <= amount.value <= 1000000
  }

  /** A request is refused as invalid exactly when it is out of range; the clock is read once, or once a step. */
  lemma ValidatedExactly(sim: Sim, c: Command)
    requires |c.ticks| == if c.body.Advance? then c.body.advance.steps else 1
    ensures CommandValid(c) <==> InRange(c.body)
    ensures !InRange(c.body) ==> Handle(sim, c) == (sim, Err(ValidationError))
  {
  }

  // ---------------------------------------------------------------- creating a run

  /** The parameters of a scenario: fixed ones for the script, the requested ones for a sandbox, if any. */
  ghost predicate SetUp(request: CreateRequest, cash: int, onHand: int, demand: int, unitPrice: int, minimum: int,
                        pack: int, leadSeconds: int, horizonDays: int) {
    if request.scenario == Sandbox && request.parameters.Some? then
      var p := request.parameters.value;
      && cash == p.cash && onHand == p.onHand && demand == p.demand && unitPrice == p.unitPrice && minimum == p.minimum
      && pack == p.pack && leadSeconds == p.leadSeconds && horizonDays == p.horizonDays
    else
      && cash == 100000 && onHand == 20 && demand == 60 && unitPrice == 1000 && minimum == 20 && pack == 20
      && leadSeconds == 86400 && horizonDays == 7
  }

  /** The seed of run r as it was set up at an instant: nothing reserved, sold or on the way yet, and an
      offer that stands for a day. */
  ghost predicate SeededAt(seed: Seed, r: nat, request: CreateRequest, now: int) {
    var w, offer := seed.world, seed.offer;
    && SetUp(request, w.cash, w.onHand, w.demand, offer.unitPrice, offer.minimum, offer.pack, offer.lead,
          (seed.horizon - now) / DAY)
    && (seed.horizon - now) % DAY == 0 && seed.run == r && seed.store == r
    && w.available == w.cash && w.reserved == 0 && w.receivables == 0 && w.inTransit == 0 && w.time == now
    && w.dataAsOf == now && w.version == 0
    && offer.sku == SKU && offer.supplier == SUPPLIER && offer.validFrom == now && offer.validUntil == now + DAY
  }

  lemma WholeDays(days: int)
    ensures (days * DAY) / DAY == days && (days * DAY) % DAY == 0
  {
  }

  lemma SnapshotSeeds(r: nat, request: CreateRequest, now: int)
    ensures SeededAt(InitialSnapshot(r, request, now), r, request, now)
  {
    WholeDays(Effective(request).horizonDays);
  }

  /** A key that was not used creates one run, at the end of the table, that starts with its seed as its world;
      a used key answers as before, or is refused for other content. */
  lemma CreateDecides(commands: seq<Command>, c: Command)
    requires c.body.Create? && CommandValid(c)
    ensures var sim := Served(EMPTY_SIM, commands);
      var (t, answer) := Handle(sim, c);
      var id := (CreateRunOp, c.key);
      if id in sim.commands then
        t == sim && answer == Repeats(sim, id, c.body)
      else
        && |t.runs| == |sim.runs| + 1 && t.runs[..|sim.runs|] == sim.runs && t.orders == sim.orders
        && var run := t.runs[|sim.runs|];
           && SeededAt(run.seed, |sim.runs|, c.body.create, c.ticks[0].now) && run.world == run.seed.world
           && run.commandKey == c.key && run.configuration == c.body.create
           && run.events == [] && run.lastSequence == 0 && run.stepIndex == 0
           && answer == Ok(Seeded(run.seed))
  {
    var sim := Served(EMPTY_SIM, commands);
    Reachable(commands);
    SnapshotSeeds(|sim.runs|, c.body.create, c.ticks[0].now);
  }

  /** Every run keeps the seed it was set up with. */
  lemma SeedsAreSetUp(commands: seq<Command>, r: nat)
    requires r < |Served(EMPTY_SIM, commands).runs|
    ensures var run := Served(EMPTY_SIM, commands).runs[r];
      SeededAt(run.seed, r, run.configuration, run.seed.world.time)
  {
    var sim := Served(EMPTY_SIM, commands);
    Reachable(commands);
    assert StepLeaves(r, Script(sim.runs[r], sim.orders));
    SnapshotSeeds(r, sim.runs[r].configuration, sim.runs[r].seed.world.time);
  }

  // ---------------------------------------------------------------- purchases

  /** What an offer asks of a purchase at an instant. */
  predicate MeetsOffer(offer: Offer, request: PurchaseRequest, now: int) {
    && request.sku == offer.sku && request.supplier == offer.supplier
    && offer.validFrom <= now && now < offer.validUntil
    && offer.minimum <= request.quantity && request.quantity % offer.pack == 0
    && request.expectedTotal == request.quantity * offer.unitPrice
  }

  predicate Affordable(run: Run, request: PurchaseRequest) {
    request.quantity * run.seed.offer.unitPrice <= run.world.cash
  }

  function Due(run: Run): int {
    run.world.time + run.seed.offer.lead * SECOND
  }

  /** A purchase goes through exactly when it meets the offer, the cash is there, and the goods come in time. */
  predicate Buyable(run: Run, request: PurchaseRequest, now: int) {
    MeetsOffer(run.seed.offer, request, now) && Affordable(run, request) && Due(run) <= run.seed.horizon
  }

  /** The reason given: the first thing that is wrong, in this order. */
  predicate Explains(reason: Reason, run: Run, request: PurchaseRequest, now: int) {
    var offer := run.seed.offer;
    var found := request.sku == offer.sku && request.supplier == offer.supplier;
    var valid := found && offer.validFrom <= now && now < offer.validUntil;
    var enough := valid && request.quantity >= offer.minimum;
    var packed := enough && request.quantity % offer.pack == 0;
    var priced := packed && request.expectedTotal == request.quantity * offer.unitPrice;
    match reason
    case OfferNotFound => !found
    case OfferExpired => found && !valid
    case MinimumOrderQuantity => valid && !enough
    case PackSizeMismatch => enough && !packed
    case PriceMismatch => packed && !priced
    case InsufficientCash => priced && !Affordable(run, request)
    case EtaOutsideScenario => priced && Affordable(run, request) && Due(run) > run.seed.horizon
  }

  lemma TermsDecide(run: Run, request: PurchaseRequest, now: int)
    ensures var terms := PurchaseTerms(run, request, now);
      if Buyable(run, request, now) then terms == Agreed(request.expectedTotal, Due(run))
      else terms.Refused? && Explains(terms.reason, run, request, now)
  {
  }

  /** An accepted purchase: its receipt and row; cash out, goods on the way, one event. */
  ghost predicate Bought(sim: Sim, t: Sim, request: PurchaseRequest, receipt: Receipt, now: int, name: Id)
    requires request.run < |sim.runs|
  {
    var run := sim.runs[request.run];
    var w, total := run.world, request.quantity * run.seed.offer.unitPrice;
    && receipt == Receipt(request.action, true, Some(name), request.quantity, total, now, None)
    && |t.runs| == |sim.runs| && (forall q :: 0 <= q < |sim.runs| && q != request.run ==> t.runs[q] == sim.runs[q])
    && var after := t.runs[request.run];
       && after == run.(world := after.world, events := after.events, lastSequence := after.lastSequence)
       && after.world
          == w.(cash := w.cash - total, available := w.cash - total, inTransit := w.inTransit + request.quantity,
                            dataAsOf := now)
       && Logs(run, after, PurchaseAccepted(request.action, name, request.sku, request.quantity, total), w.time, now)
       && Added(sim.orders, t.orders, Order(request, receipt, request.quantity, 0, Some(Due(run))))
  }

  /** A refused purchase is recorded with its reason, and that is all. */
  ghost predicate TurnedDown(sim: Sim, t: Sim, request: PurchaseRequest, receipt: Receipt, now: int) {
    && !receipt.accepted && receipt.reason.Some?
    && receipt == Receipt(request.action, false, None, 0, 0, now, receipt.reason)
    && t.runs == sim.runs && Added(sim.orders, t.orders, Order(request, receipt, 0, 0, None))
  }

  ghost predicate Decided(sim: Sim, action: Id) {
    exists i :: 0 <= i < |sim.orders| && sim.orders[i].request.action == action
  }

  lemma {:induction false} FindDecides(orders: seq<Order>, action: Id)
    ensures Find(orders, action) < |orders| <==> exists i :: 0 <= i < |orders| && orders[i].request.action == action
  {
  }

  /** A purchase for a new action under a new key: accepted exactly when it can be bought, and otherwise
      refused with the first thing that is wrong. */
  lemma PurchaseDecides(sim: Sim, c: Command)
    requires c.body.Purchase? && CommandValid(c) && c.body.purchase.run < |sim.runs|
    requires sim.runs[c.body.purchase.run].seed.store == c.body.purchase.store
    requires (PurchaseOp, c.key) !in sim.commands && !Decided(sim, c.body.purchase.action)
    ensures var (t, answer) := Handle(sim, c);
      var request, now, run := c.body.purchase, c.ticks[0].now, sim.runs[c.body.purchase.run];
      && answer.Ok? && answer.value.Receipted?
      && t.commands == sim.commands[(PurchaseOp, c.key) := Recorded(c.body, answer.value)]
      && var receipt := answer.value.receipt;
         if Buyable(run, request, now) then Bought(sim, t, request, receipt, now, c.ticks[0].version)
         else TurnedDown(sim, t, request, receipt, now) && Explains(receipt.reason.value, run, request, now)
  {
    var request, now, run := c.body.purchase, c.ticks[0].now, sim.runs[c.body.purchase.run];
    FindDecides(sim.orders, request.action);
    TermsDecide(run, request, now);
    match PurchaseTerms(run, request, now)
    case Refused(reason) => InsertAdds(sim.orders, Rejected(request, now, reason));
    case Agreed(total, eta) => InsertAdds(sim.orders, AcceptedOrder(request, now, c.ticks[0].version, total, eta));
  }

  /** The first row with this action. */
  predicate FirstWith(orders: seq<Order>, action: Id, i: nat) {
    i < |orders| && orders[i].request.action == action && forall j :: 0 <= j < i ==> orders[j].request.action != action
  }

  /** What a recorded command answers to its key. */
  function Repeats(sim: Sim, id: (Operation, Id), body: Body): Result<Response, Failure>
    requires id in sim.commands
  {
    if sim.commands[id].content == body then Ok(sim.commands[id].response) else Err(KeyReused)
  }

  /** Before that: the run must exist and be the store's; a used key answers as before or is refused; an action
      that was decided answers with its receipt, or is refused for other content. */
  lemma PurchaseAnswers(sim: Sim, c: Command, i: nat)
    requires c.body.Purchase? && CommandValid(c)
    ensures var answer := Handle(sim, c).1;
      var request, id := c.body.purchase, (PurchaseOp, c.key);
      if request.run >= |sim.runs| then answer == Err(ResourceNotFound)
      else if sim.runs[request.run].seed.store != request.store then answer == Err(ResourceForbidden)
      else if id in sim.commands then answer == Repeats(sim, id, c.body)
      else
        FirstWith(sim.orders, request.action, i) ==>
          answer == if sim.orders[i].request == request then Ok(Receipted(sim.orders[i].receipt))
            else Err(ActionContentConflict)
  {
    if FirstWith(sim.orders, c.body.purchase.action, i) { assert Find(sim.orders, c.body.purchase.action) == i; }
  }

  // ---------------------------------------------------------------- every accepted order

  /** The order was placed at some event of its run, on the terms of the run's offer at that moment. */
  ghost predicate PlacedAt(run: Run, o: Order, k: nat) {
    && k < |run.events| && o.receipt.order.Some?
    && var e := run.events[k];
       && e.payload
          == PurchaseAccepted(o.request.action, o.receipt.order.value, o.request.sku, o.request.quantity,
            o.receipt.total)
       && e.occurredAt == o.receipt.recordedAt && o.eta == Some(e.time + run.seed.offer.lead * SECOND)
       && o.eta.value <= run.seed.horizon
  }

  ghost predicate SoundOrder(sim: Sim, o: Order) {
    && o.request.run < |sim.runs| && o.receipt.action == o.request.action
    && if o.receipt.accepted then
         var run := sim.runs[o.request.run];
         && MeetsOffer(run.seed.offer, o.request, o.receipt.recordedAt) && (exists k: nat :: PlacedAt(run, o, k))
         && o.receipt.quantity == o.request.quantity == o.accepted && o.receipt.total == o.request.expectedTotal
       else
         && o.receipt.order.None? && o.receipt.quantity == 0 == o.accepted && o.receipt.total == 0
         && o.receipt.reason.Some? && o.eta.None?
  }

  lemma SoundGrows(sim: Sim, t: Sim, o: Order, p: Order)
    requires SoundOrder(sim, o) && Extends(sim, t) && p == o.(received := p.received)
    ensures SoundOrder(t, p)
  {
    if o.receipt.accepted {
      var run, later := sim.runs[o.request.run], t.runs[o.request.run];
      var k: nat :| PlacedAt(run, o, k);
      assert later.events[k] == run.events[k];
      assert PlacedAt(later, p, k);
    }
  }

  /** Where the rows of the table come from: they were there, perhaps with less received, or are new. */
  lemma RowsFrom(sim: Sim, c: Command, x: Order) returns (o: Order)
    requires x in Handle(sim, c).0.orders
    ensures c.body.Purchase? ==> o == x
    ensures o in sim.orders ==> x == o.(received := x.received)
    ensures o !in sim.orders ==> c.body.Purchase? && CommandValid(c) && Handle(sim, c).0.orders != sim.orders
  {
    var t := Handle(sim, c).0;
    o := x;
    if t.orders == sim.orders {
      assert x in sim.orders;
    } else if c.body.Advance? || c.body.Trigger? {
      TouchedByHandle(sim, c);
      var i :| 0 <= i < |t.orders| && t.orders[i] == x;
      o := sim.orders[i];
    }
  }

  lemma NewRowSound(sim: Sim, c: Command, x: Order)
    requires c.body.Purchase? && CommandValid(c) && x in Handle(sim, c).0.orders && x !in sim.orders
    requires forall r :: 0 <= r < |sim.runs| ==> sim.runs[r].lastSequence == |sim.runs[r].events|
    ensures SoundOrder(Handle(sim, c).0, x)
  {
    var (t, answer) := Handle(sim, c);
    var request, now := c.body.purchase, c.ticks[0].now;
    FindDecides(sim.orders, request.action);
    PurchaseDecides(sim, c);
    var run, after := sim.runs[request.run], t.runs[request.run];
    assert x in multiset(t.orders);
    if Buyable(run, request, now) {
      assert x == Order(request, answer.value.receipt, request.quantity, 0, Some(Due(run)));
      assert PlacedAt(after, x, |run.events|);
    }
  }

  /** Every order of every reachable state: an accepted one has the article and supplier of its run's offer,
      was placed while the offer stood, for at least the minimum and in whole packs, at the offered price and
      the expected total, and is due its lead time after the event that placed it; a refused one has cost
      nothing and says why. */
  lemma {:induction false} OrdersMeetOffers(commands: seq<Command>, x: Order)
    requires x in Served(EMPTY_SIM, commands).orders
    ensures SoundOrder(Served(EMPTY_SIM, commands), x)
  {
    if commands != [] {
      var before, c := Served(EMPTY_SIM, commands[..|commands| - 1]), commands[|commands| - 1];
      Reachable(commands[..|commands| - 1]);
      var o := RowsFrom(before, c, x);
      if o in before.orders {
        OrdersMeetOffers(commands[..|commands| - 1], o);
        HandleExtends(before, c);
        SoundGrows(before, Handle(before, c).0, o, x);
      } else {
        LogsNumbered(before);
        NewRowSound(before, c, x);
      }
    }
  }

  lemma LogsNumbered(sim: Sim)
    requires SimInv(sim)
    ensures forall r :: 0 <= r < |sim.runs| ==> sim.runs[r].lastSequence == |sim.runs[r].events|
  {
    forall r | 0 <= r < |sim.runs| ensures sim.runs[r].lastSequence == |sim.runs[r].events| {
      assert StepLeaves(r, Script(sim.runs[r], sim.orders));
    }
  }

  // ---------------------------------------------------------------- what happens to a world

  /** quantity pieces sold at a price: off the shelf, off the demand, onto the receivables, into the log. */
  ghost predicate Sold(before: Run, after: Run, quantity: int, unitPrice: int, time: int, now: int) {
    var w := before.world;
    && after == before.(world := after.world, events := after.events, lastSequence := after.lastSequence, stepIndex :=
          after.stepIndex)
    && after.world == w.(onHand := w.onHand - quantity, receivables := w.receivables + quantity * unitPrice,
                         demand := after.world.demand, time := time, dataAsOf := now)
    && after.world.demand == (if w.demand > quantity then w.demand - quantity else 0)
    && Logs(before, after, SaleRecorded(SKU, quantity, unitPrice), time, now)
  }

  /** The demand revised under a new forecast version that covers the rest of the scenario. */
  ghost predicate Revised(before: Run, after: Run, demand: int, version: Id, time: int, now: int) {
    && after == before.(world := after.world, events := after.events, lastSequence := after.lastSequence, stepIndex :=
          after.stepIndex)
    && after.world == before.world.(demand := demand, version := version, time := time, dataAsOf := now)
    && Logs(before, after, DemandRevised(SKU, demand, version, now, now + HOUR, time, before.seed.horizon), time, now)
  }

  // ---------------------------------------------------------------- script steps

  /** The latest of an instant and the ETAs of what is pending. */
  ghost predicate Latest(orders: seq<Order>, r: nat, from: int, time: int) {
    && from <= time
    && (forall i :: 0 <= i < |orders| && Pending(orders[i], r) ==> orders[i].eta.Some? && orders[i].eta.value <= time)
    && (time == from || exists i :: 0 <= i < |orders| && Pending(orders[i], r) && orders[i].eta == Some(time))
  }

  lemma {:induction false} LatestEtaIsOne(orders: seq<Order>, r: nat, from: int, k: nat)
    requires k <= |orders| && EtasKnown(orders, r)
    ensures var time := LatestEta(orders, r, from, k);
      time == from || exists i :: 0 <= i < k && Pending(orders[i], r) && orders[i].eta == Some(time)
  {
    if k > 0 { LatestEtaIsOne(orders, r, from, k - 1); }
  }

  lemma {:induction false} LatestEtaCovers(orders: seq<Order>, r: nat, from: int, k: nat)
    requires k <= |orders| && EtasKnown(orders, r)
    ensures from <= LatestEta(orders, r, from, k)
    ensures forall i :: 0 <= i < k && Pending(orders[i], r) ==> orders[i].eta.value <= LatestEta(orders, r, from, k)
  {
    if k > 0 { LatestEtaCovers(orders, r, from, k - 1); }
  }

  /** Everything pending has come in: its rows, the stock, and one event for each, in the order of the table. */
  ghost predicate CameIn(r: nat, s: Script, t: Script, time: int, now: int) {
    var w := s.run.world;
    && |t.orders| == |s.orders|
    && (forall i :: 0 <= i < |s.orders| ==>
          t.orders[i] == s.orders[i].(received := if Pending(s.orders[i], r) then s.orders[i].accepted
            else s.orders[i].received))
    && t.run == s.run.(world := t.run.world, events := t.run.events, lastSequence := t.run.lastSequence, stepIndex :=
          t.run.stepIndex)
    && t.run.world == w.(inTransit := 0, onHand := w.onHand + w.inTransit, time := time, dataAsOf := now)
    && s.run.events <= t.run.events
    && Map(PayloadOf, t.run.events[|s.run.events|..]) == Map(Delivery, Filter(PendingIn(r), s.orders))
    && (forall i :: |s.run.events| <= i < |t.run.events| ==>
          t.run.events[i].time == time && t.run.events[i].occurredAt == now && t.run.events[i].sequence == i + 1)
  }

  /** What a step of the script does, by its position. Skipping an empty delivery skips its day as well. */
  ghost predicate StepDoes(r: nat, s: Script, t: Script, tick: Tick) {
    if s.run.stepIndex in {0, 3} && AnyPending(s.orders, r) then
      && t.run.stepIndex == s.run.stepIndex + 1
      && exists time :: Latest(s.orders, r, s.run.world.time, time) && CameIn(r, s, t, time, tick.now)
    else if s.run.stepIndex <= 1 then
      var start := if s.run.stepIndex == 0 then s.run.world.time + DAY else s.run.world.time;
      t.run.stepIndex == 2 && t.orders == s.orders && Sold(s.run, t.run, 10, 2000, start + HOUR, tick.now)
    else
      && t.run.stepIndex == 3 && t.orders == s.orders
      && Revised(s.run, t.run, 70, tick.version, s.run.world.time + HOUR, tick.now)
  }

  /** What k deliveries put into the log, and that they only move stock from one place to the other. */
  ghost predicate Moves(s: Script, t: Script, now: int) {
    && s.run.events <= t.run.events && t.run.lastSequence == |t.run.events|
    && t.run.world.onHand + t.run.world.inTransit == s.run.world.onHand + s.run.world.inTransit
    && (forall i :: |s.run.events| <= i < |t.run.events| ==>
          t.run.events[i].time == s.run.world.time && t.run.events[i].occurredAt == now
            && t.run.events[i].sequence == i + 1)
  }

  lemma {:induction false} DeliveriesMove(s: Script, r: nat, now: int, k: nat)
    requires k <= |s.orders| && Deliveries(s, r, now, k).Ok? && s.run.lastSequence == |s.run.events|
    ensures Moves(s, Deliveries(s, r, now, k).value, now)
  {
    if k > 0 {
      DeliveriesMove(s, r, now, k - 1);
      DeliveriesRows(r, s, now, k - 1);
      var t := Deliveries(s, r, now, k - 1).value;
      assert t.run.world.time == s.run.world.time;
    }
  }

  lemma AllInMeansNoneOnTheWay(r: nat, s: Script)
    requires ScriptInv(r, s) && !AnyPending(s.orders, r)
    ensures s.run.world.inTransit == 0
  {
    forall i | 0 <= i < |s.orders| ensures RemainingIn(r)(s.orders[i]) == 0 {
      assert OrderSound(s.orders[i]) && !Pending(s.orders[i], r);
    }
    SumZero(RemainingIn(r), s.orders);
  }

  lemma DeliverySteps(r: nat, s: Script, tick: Tick)
    requires StepLeaves(r, s) && s.run.configuration.scenario == SC01 && s.run.stepIndex in {0, 3}
      && AnyPending(s.orders, r)
    ensures DeliveryStep(s, r, tick.now).Ok?
    ensures var t := DeliveryStep(s, r, tick.now).value;
      t.run.stepIndex == s.run.stepIndex
      && exists time :: Latest(s.orders, r, s.run.world.time, time) && CameIn(r, s, t, time, tick.now)
  {
    DeliveryStepSucceeds(r, s, tick.now);
    var time := LatestEta(s.orders, r, s.run.world.time, |s.orders|);
    var u, t := s.(run := Stamp(s.run, time, tick.now)), DeliveryStep(s, r, tick.now).value;
    LatestEtaCovers(s.orders, r, s.run.world.time, |s.orders|);
    LatestEtaIsOne(s.orders, r, s.run.world.time, |s.orders|);
    assert Latest(s.orders, r, s.run.world.time, time);
    AllInMeansNoneOnTheWay(r, t);
    DeliveredMeans(r, s, u, t, time, tick.now);
  }

  lemma Behind<A>(a: seq<A>, b: seq<A>, c: seq<A>)
    requires a + b == a + c
    ensures b == c
  {
    assert b == (a + b)[|a|..] && c == (a + c)[|a|..];
  }

  lemma DeliveredLog(r: nat, s: Script, u: Script, t: Script, now: int)
    requires u.orders == s.orders && u.run.events == s.run.events && s.run.events <= t.run.events
    requires Deliveries(u, r, now, |s.orders|) == Ok(t)
    ensures Map(PayloadOf, t.run.events[|s.run.events|..]) == Map(Delivery, Filter(PendingIn(r), s.orders))
  {
    DeliveriesEvents(r, u, now, |s.orders|);
    var known, added := s.run.events, t.run.events[|s.run.events|..];
    assert t.run.events == known + added && s.orders[..|s.orders|] == s.orders;
    MapConcat(PayloadOf, known, added);
    Behind(Map(PayloadOf, known), Map(PayloadOf, added), Map(Delivery, Filter(PendingIn(r), s.orders)));
  }

  lemma DeliveredMeans(r: nat, s: Script, u: Script, t: Script, time: int, now: int)
    requires u == s.(run := Stamp(s.run, time, now)) && s.run.lastSequence == |s.run.events|
    requires Deliveries(u, r, now, |s.orders|) == Ok(t) && t.run.world.inTransit == 0
    ensures CameIn(r, s, t, time, now) && t.run.stepIndex == s.run.stepIndex
  {
    DeliveriesRows(r, u, now, |s.orders|);
    DeliveriesMove(u, r, now, |s.orders|);
    DeliveredLog(r, s, u, t, now);
  }

  /** In every reachable state: a script step that succeeds does exactly this. */
  lemma StepDoesExactly(commands: seq<Command>, r: nat, skip: bool, tick: Tick)
    requires r < |Served(EMPTY_SIM, commands).runs|
    requires Served(EMPTY_SIM, commands).runs[r].configuration.scenario == SC01
    ensures var sim := Served(EMPTY_SIM, commands);
      var s := Script(sim.runs[r], sim.orders);
      ScriptStep(s, r, skip, tick).Ok? ==> StepDoes(r, s, ScriptStep(s, r, skip, tick).value, tick)
  {
    var sim := Served(EMPTY_SIM, commands);
    Reachable(commands);
    assert StepLeaves(r, Script(sim.runs[r], sim.orders));
    if ScriptStep(Script(sim.runs[r], sim.orders), r, skip, tick).Ok? {
      StepOutcome(r, Script(sim.runs[r], sim.orders), skip, tick);
    }
  }

  lemma StepOutcome(r: nat, s: Script, skip: bool, tick: Tick)
    requires StepLeaves(r, s) && s.run.configuration.scenario == SC01 && ScriptStep(s, r, skip, tick).Ok?
    ensures StepDoes(r, s, ScriptStep(s, r, skip, tick).value, tick)
  {
    if s.run.stepIndex in {0, 3} && AnyPending(s.orders, r) {
      DeliveryOutcome(r, s, skip, tick);
    } else {
      HourOutcome(r, s, skip, tick);
    }
  }

  lemma DeliveryOutcome(r: nat, s: Script, skip: bool, tick: Tick)
    requires StepLeaves(r, s) && s.run.configuration.scenario == SC01
    requires s.run.stepIndex in {0, 3} && AnyPending(s.orders, r)
    ensures ScriptStep(s, r, skip, tick).Ok? && StepDoes(r, s, ScriptStep(s, r, skip, tick).value, tick)
  {
    DeliverySteps(r, s, tick);
    var t := DeliveryStep(s, r, tick.now).value;
    var time :| Latest(s.orders, r, s.run.world.time, time) && CameIn(r, s, t, time, tick.now);
    assert CameIn(r, s, t.(run := NextStep(t.run)), time, tick.now);
  }

  lemma HourOutcome(r: nat, s: Script, skip: bool, tick: Tick)
    requires !(s.run.stepIndex in {0, 3} && AnyPending(s.orders, r)) && ScriptStep(s, r, skip, tick).Ok?
    ensures StepDoes(r, s, ScriptStep(s, r, skip, tick).value, tick)
  {
  }

  // ---------------------------------------------------------------- triggers

  /** quantity pieces of row i have come in. */
  ghost predicate Arrived(s: Script, t: Script, i: nat, quantity: int, time: int, now: int)
    requires i < |s.orders|
  {
    var w := s.run.world;
    && t.orders == s.orders[i := s.orders[i].(received := s.orders[i].received + quantity)]
    && t.run == s.run.(world := t.run.world, events := t.run.events, lastSequence := t.run.lastSequence)
    && t.run.world
       == w.(inTransit := w.inTransit - quantity, onHand := w.onHand + quantity, time := time, dataAsOf := now)
    && Logs(s.run, t.run, GoodsReceived(s.orders[i].request.action, SKU, quantity), time, now)
  }

  /** What a trigger on a sandbox run comes to: refused for the first thing that is wrong, or done. */
  ghost predicate TriggerDoes(r: nat, s: Script, kind: Kind, tick: Tick, result: Result<Script, Failure>) {
    var w, horizon := s.run.world, s.run.seed.horizon;
    match kind
    case Sale(quantity, unitPrice, seconds) =>
      if w.time + seconds * SECOND >= horizon then result == Err(HorizonExceeded)
      else if w.onHand < quantity then result == Err(InsufficientStock)
      else
        && result.Ok? && result.value.orders == s.orders
        && Sold(s.run, result.value.run, quantity, unitPrice, w.time + seconds * SECOND, tick.now)
    case Demand(remaining, seconds) =>
      if w.time + seconds * SECOND >= horizon then result == Err(HorizonExceeded)
      else
        && result.Ok? && result.value.orders == s.orders
        && Revised(s.run, result.value.run, remaining, tick.version, w.time + seconds * SECOND, tick.now)
    case Arrival(action, amount) =>
      && ((forall i :: 0 <= i < |s.orders| ==> s.orders[i].request.action != action || s.orders[i].request.run != r) ==>
            result == Err(OrderNotFound))
      && forall i: nat :: FirstWith(s.orders, action, i) && s.orders[i].request.run == r ==>
           var o := s.orders[i];
           var quantity := if amount.Some? then amount.value else o.accepted - o.received;
           if !(1 <= quantity <= o.accepted - o.received) then result == Err(ReceiptQuantityInvalid)
           else
             && result.Ok? && o.eta.Some?
             && Arrived(s, result.value, i, quantity, if w.time < o.eta.value then o.eta.value else w.time, tick.now)
  }

  lemma ArrivalOn(r: nat, s: Script, i: nat, quantity: int, tick: Tick)
    requires StepLeaves(r, s) && i < |s.orders| && s.orders[i].request.run == r
    requires 1 <= quantity <= s.orders[i].accepted - s.orders[i].received
    ensures s.orders[i].eta.Some? && quantity <= s.run.world.inTransit && s.orders[i].eta.value <= s.run.seed.horizon
    ensures var time := if s.run.world.time < s.orders[i].eta.value then s.orders[i].eta.value else s.run.world.time;
      Arrived(s, ReceiveRow(s.(run := Stamp(s.run, time, tick.now)), i, quantity, tick.now), i, quantity, time,
        tick.now)
  {
    OpenIsInTransit(r, s, i);
    assert OrderSound(s.orders[i]);
  }

  lemma ArrivalFound(r: nat, s: Script, action: Id, amount: Option<nat>, i: nat, tick: Tick)
    requires StepLeaves(r, s) && FirstWith(s.orders, action, i) && s.orders[i].request.run == r
    ensures var o, result := s.orders[i], Triggers(s, r, Arrival(action, amount), tick);
      var quantity := if amount.Some? then amount.value else o.accepted - o.received;
      if !(1 <= quantity <= o.accepted - o.received) then result == Err(ReceiptQuantityInvalid)
      else
        && result.Ok? && o.eta.Some?
        && Arrived(s, result.value, i, quantity, if s.run.world.time < o.eta.value then o.eta.value
              else s.run.world.time, tick.now)
  {
    var o := s.orders[i];
    var quantity := if amount.Some? then amount.value else o.accepted - o.received;
    assert Find(s.orders, action) == i;
    if 1 <= quantity <= o.accepted - o.received { ArrivalOn(r, s, i, quantity, tick); }
  }

  lemma ArrivalDoes(r: nat, s: Script, kind: Kind, tick: Tick)
    requires StepLeaves(r, s) && kind.Arrival?
    ensures TriggerDoes(r, s, kind, tick, Triggers(s, r, kind, tick))
  {
    forall i: nat | FirstWith(s.orders, kind.action, i) && s.orders[i].request.run == r
      ensures var o, result := s.orders[i], Triggers(s, r, kind, tick);
        var quantity := if kind.amount.Some? then kind.amount.value else o.accepted - o.received;
        if !(1 <= quantity <= o.accepted - o.received) then result == Err(ReceiptQuantityInvalid)
        else
          && result.Ok? && o.eta.Some?
          && Arrived(s, result.value, i, quantity, if s.run.world.time < o.eta.value then o.eta.value
                else s.run.world.time, tick.now) {
      ArrivalFound(r, s, kind.action, kind.amount, i, tick);
    }
  }

  lemma TriggersDo(r: nat, s: Script, kind: Kind, tick: Tick)
    requires StepLeaves(r, s)
    ensures TriggerDoes(r, s, kind, tick, Triggers(s, r, kind, tick))
  {
    if kind.Arrival? { ArrivalDoes(r, s, kind, tick); }
  }

  /** How a trigger is answered: with what it comes to, unless receivables would leave their range. */
  ghost predicate TriggerAnswered(sim: Sim, c: Command, result: Result<Script, Failure>)
    requires c.body.Trigger? && c.body.target < |sim.runs|
  {
    var (t, answer) := Handle(sim, c);
    var r := c.body.target;
    if result.Err? then answer == Err(result.error)
    else if result.value.run.world.receivables > MAX_INT then answer == Err(WorldLimitExceeded)
    else
      var run := result.value.run;
      && t.runs == sim.runs[r := run] && t.orders == result.value.orders && run.events != []
      && answer == Ok(Triggered(r, run.lastSequence, run.world.time, sim.runs[r].world, run.world,
            run.events[|run.events| - 1]))
      && t.commands == sim.commands[(TriggerOp, c.key) := Recorded(c.body, answer.value)]
  }

  lemma TriggerOutcome(sim: Sim, c: Command)
    requires c.body.Trigger? && CommandValid(c) && c.body.target < |sim.runs| && (TriggerOp, c.key) !in sim.commands
    requires StepLeaves(c.body.target, Script(sim.runs[c.body.target], sim.orders))
    requires sim.runs[c.body.target].configuration.scenario == Sandbox
    requires sim.runs[c.body.target].lastSequence == c.body.trigger.expectedSequence
    ensures TriggerAnswered(sim, c,
      Triggers(Script(sim.runs[c.body.target], sim.orders), c.body.target, c.body.trigger.kind, c.ticks[0]))
  {
    var r, kind := c.body.target, c.body.trigger.kind;
    var s := Script(sim.runs[r], sim.orders);
    if Triggers(s, r, kind, c.ticks[0]).Ok? {
      TriggersKeep(r, s, kind, c.ticks[0]);
      WorldLimits(r, Triggers(s, r, kind, c.ticks[0]).value);
    }
  }

  /** In every reachable state: a trigger is refused for what stands in front of it, or for what it would do,
      or when receivables would leave their range; otherwise it is done and answered with both worlds. */
  lemma TriggerDecides(commands: seq<Command>, c: Command)
    requires c.body.Trigger? && CommandValid(c)
    ensures var sim := Served(EMPTY_SIM, commands);
      var answer := Handle(sim, c).1;
      var r, id := c.body.target, (TriggerOp, c.key);
      if r >= |sim.runs| then answer == Err(ResourceNotFound)
      else if id in sim.commands then answer == Repeats(sim, id, c.body)
      else if sim.runs[r].configuration.scenario != Sandbox then answer == Err(ScenarioModeMismatch)
      else if |sim.runs[r].events| != c.body.trigger.expectedSequence then answer == Err(SourceChanged)
      else
        exists result ::
          && TriggerDoes(r, Script(sim.runs[r], sim.orders), c.body.trigger.kind, c.ticks[0], result)
          && TriggerAnswered(sim, c, result)
  {
    var sim, r, kind := Served(EMPTY_SIM, commands), c.body.target, c.body.trigger.kind;
    Reachable(commands);
    if r < |sim.runs| && (TriggerOp, c.key) !in sim.commands {
      var s := Script(sim.runs[r], sim.orders);
      assert StepLeaves(r, s);
      if sim.runs[r].configuration.scenario == Sandbox && sim.runs[r].lastSequence == c.body.trigger.expectedSequence {
        TriggersDo(r, s, kind, c.ticks[0]);
        TriggerOutcome(sim, c);
      }
    }
  }

  /** An advance is refused for what stands in front of it; otherwise its steps are taken one after the other,
      all or none. */
  lemma AdvanceDecides(sim: Sim, c: Command)
    requires c.body.Advance? && CommandValid(c)
    ensures var (t, answer) := Handle(sim, c);
      var r, id, steps := c.body.target, (AdvanceOp, c.key), c.body.advance.steps;
      if r >= |sim.runs| then answer == Err(ResourceNotFound)
      else if id in sim.commands then answer == Repeats(sim, id, c.body)
      else if sim.runs[r].configuration.scenario != SC01 then answer == Err(ScenarioModeMismatch)
      else if sim.runs[r].stepIndex + steps > 4 then answer == Err(ScenarioFinished)
      else
        var s := Script(sim.runs[r], sim.orders);
        exists all: seq<Script> ::
          && 1 <= |all| <= steps + 1 && all[0] == s
          && (forall i :: 0 <= i < |all| - 1 ==>
                ScriptStep(all[i], r, c.body.advance.skipEmptyDelivery, c.ticks[i]) == Ok(all[i + 1]))
          && var last := all[|all| - 1];
             if |all| <= steps then
               var next := ScriptStep(last, r, c.body.advance.skipEmptyDelivery, c.ticks[|all| - 1]);
               next.Err? && answer == Err(next.error) && t == sim
             else
               && t.runs == sim.runs[r := last.run] && t.orders == last.orders
               && answer == Ok(Advanced(r, last.run.world.time, last.run.lastSequence))
  {
    var (t, answer) := Handle(sim, c);
    if c.body.target < |sim.runs| && (AdvanceOp, c.key) !in sim.commands {
      var all := Stages(Script(sim.runs[c.body.target], sim.orders), c.body.target, c.body.advance.skipEmptyDelivery,
        c.ticks);
    }
  }

  /** Each state is what a script step makes of the one before it. */
  ghost predicate Chain(all: seq<Script>, r: nat, skip: bool, ticks: seq<Tick>) {
    && |all| <= |ticks| + 1
    && forall i :: 0 <= i < |all| - 1 ==> ScriptStep(all[i], r, skip, ticks[i]) == Ok(all[i + 1])
  }

  lemma ChainStays(all: seq<Script>, r: nat, skip: bool, ticks: seq<Tick>, before: seq<Tick>)
    requires before <= ticks && Chain(all, r, skip, before)
    ensures Chain(all, r, skip, ticks)
  {
  }

  lemma ChainGrows(all: seq<Script>, r: nat, skip: bool, ticks: seq<Tick>, next: Script)
    requires |all| > 0 && |ticks| == |all| && Chain(all, r, skip, ticks)
    requires ScriptStep(all[|all| - 1], r, skip, ticks[|all| - 1]) == Ok(next)
    ensures Chain(all + [next], r, skip, ticks)
  {
  }

  lemma {:induction false} Stages(s: Script, r: nat, skip: bool, ticks: seq<Tick>) returns (all: seq<Script>)
    ensures 1 <= |all| <= |ticks| + 1 && all[0] == s
    ensures Chain(all, r, skip, ticks)
    ensures if |all| == |ticks| + 1 then ScriptSteps(s, r, skip, ticks) == Ok(all[|ticks|])
            else
              var next := ScriptStep(all[|all| - 1], r, skip, ticks[|all| - 1]);
              next.Err? && ScriptSteps(s, r, skip, ticks) == Err(next.error)
  {
    if ticks == [] {
      all := [s];
    } else {
      var n := |ticks| - 1;
      all := Stages(s, r, skip, ticks[..n]);
      ChainStays(all, r, skip, ticks, ticks[..n]);
      if ScriptSteps(s, r, skip, ticks).Ok? {
        ChainGrows(all, r, skip, ticks, ScriptSteps(s, r, skip, ticks).value);
        all := all + [ScriptSteps(s, r, skip, ticks).value];
      }
    }
  }
}
