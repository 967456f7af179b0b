/** The command handlers as the service runs them: rows in tables, loops over orders and script steps,
    one transaction per command. Each is proved against its specification in SimulatorModel. */
module Simulator {
  import opened Prelude
  import opened SimulatorModel

  // ---------------------------------------------------------------- rows still to be delivered

  ghost predicate Selected(rows: seq<Order>, r: nat, pending: seq<nat>, n: nat) {
    && (forall a, b :: 0 <= a < b < |pending| ==> pending[a] < pending[b])
    && (forall a :: 0 <= a < |pending| ==> pending[a] < n <= |rows| && Pending(rows[pending[a]], r))
    && (forall x :: 0 <= x < n <= |rows| && Pending(rows[x], r) ==> x in pending)
  }

  /** The run's pending rows in the order of their action ids. */
  method SelectPending(rows: seq<Order>, r: nat) returns (pending: seq<nat>)
    ensures Selected(rows, r, pending, |rows|)
  {
    pending := [];
    for i := 0 to |rows|
      invariant Selected(rows, r, pending, i)
    {
      if Pending(rows[i], r) {
        pending := pending + [i];
      }
    }
  }

  /** The row behind the first a of the selected ones. */
  function Upto(rows: seq<Order>, pending: seq<nat>, a: nat): nat
    requires a <= |pending|
  {
    if a == |pending| then |rows| else pending[a]
  }

  lemma Ordered(rows: seq<Order>, r: nat, pending: seq<nat>, a: nat, b: nat)
    requires Selected(rows, r, pending, |rows|) && a <= |pending| && b < |pending|
    ensures b < a ==> pending[b] <= pending[a - 1]
    ensures a <= b ==> pending[a] <= pending[b]
  {
  }

  lemma NoneBetween(rows: seq<Order>, r: nat, pending: seq<nat>, a: nat, x: nat)
    requires Selected(rows, r, pending, |rows|) && a <= |pending|
    requires (if a == 0 then 0 else pending[a - 1] + 1) <= x < Upto(rows, pending, a)
    ensures x < |rows| && !Pending(rows[x], r)
  {
    if x < |rows| && Pending(rows[x], r) {
      var b :| 0 <= b < |pending| && pending[b] == x;
      Ordered(rows, r, pending, a, b);
    }
  }

  lemma {:induction false} LatestSkips(rows: seq<Order>, r: nat, time: int, j: nat, k: nat)
    requires j <= k <= |rows| && EtasKnown(rows, r) && forall x :: j <= x < k ==> !Pending(rows[x], r)
    ensures LatestEta(rows, r, time, k) == LatestEta(rows, r, time, j)
  {
    if j < k { LatestSkips(rows, r, time, j, k - 1); }
  }

  lemma {:induction false} DeliveriesSkip(s: Script, r: nat, now: int, j: nat, k: nat)
    requires j <= k <= |s.orders| && forall x :: j <= x < k ==> !Pending(s.orders[x], r)
    ensures Deliveries(s, r, now, k) == Deliveries(s, r, now, j)
  {
    if j < k { DeliveriesSkip(s, r, now, j, k - 1); }
  }

  lemma {:induction false} DeliveriesFail(s: Script, r: nat, now: int, j: nat, k: nat)
    requires j <= k <= |s.orders| && Deliveries(s, r, now, j).Err?
    ensures Deliveries(s, r, now, k) == Deliveries(s, r, now, j)
  {
    if j < k { DeliveriesFail(s, r, now, j, k - 1); }
  }

  /** max of the simulated time and the ETAs; None when an ETA is missing. */
  method LatestOf(rows: seq<Order>, r: nat, pending: seq<nat>, time: int) returns (latest: Option<int>)
    requires Selected(rows, r, pending, |rows|)
    ensures latest.Some? <==> EtasKnown(rows, r)
    ensures EtasKnown(rows, r) ==> latest.value == LatestEta(rows, r, time, |rows|)
  {
    var t := time;
    if EtasKnown(rows, r) { FirstGap(rows, r, pending, 0, time); }
    for a := 0 to |pending|
      invariant forall b :: 0 <= b < a ==> rows[pending[b]].eta.Some?
      invariant EtasKnown(rows, r) ==> t == LatestEta(rows, r, time, Upto(rows, pending, a))
    {
      if rows[pending[a]].eta.None? {
        return None;
      }
      if EtasKnown(rows, r) { FirstGap(rows, r, pending, a + 1, time); }
      t := Max(t, rows[pending[a]].eta.value);
    }
    return Some(t);
  }

  lemma FirstGap(rows: seq<Order>, r: nat, pending: seq<nat>, a: nat, time: int)
    requires Selected(rows, r, pending, |rows|) && a <= |pending| && EtasKnown(rows, r)
    ensures var from := if a == 0 then 0 else pending[a - 1] + 1;
      from <= Upto(rows, pending, a) <= |rows|
      && LatestEta(rows, r, time, Upto(rows, pending, a)) == LatestEta(rows, r, time, from)
  {
    var from := if a == 0 then 0 else pending[a - 1] + 1;
    forall x | from <= x < Upto(rows, pending, a) ensures !Pending(rows[x], r) { NoneBetween(rows, r, pending, a, x); }
    LatestSkips(rows, r, time, from, Upto(rows, pending, a));
  }

  lemma DeliveryGap(s: Script, r: nat, pending: seq<nat>, a: nat, now: int)
    requires Selected(s.orders, r, pending, |s.orders|) && a <= |pending|
    ensures var from := if a == 0 then 0 else pending[a - 1] + 1;
      from <= Upto(s.orders, pending, a) <= |s.orders|
      && Deliveries(s, r, now, Upto(s.orders, pending, a)) == Deliveries(s, r, now, from)
  {
    var from := if a == 0 then 0 else pending[a - 1] + 1;
    forall x | from <= x < Upto(s.orders, pending, a)
      ensures !Pending(s.orders[x], r) { NoneBetween(s.orders, r, pending, a, x); }
    DeliveriesSkip(s, r, now, from, Upto(s.orders, pending, a));
  }

  lemma DeliveryNext(s: Script, r: nat, now: int, i: nat, t: Script)
    requires i < |s.orders| && Deliveries(s, r, now, i) == Ok(t)
    ensures |t.orders| == |s.orders| && t.orders[i] == s.orders[i]
      && Deliveries(s, r, now, i + 1) == DeliverAt(t, r, now, i)
  {
  }

  /** Receive what is outstanding on one selected row. */
  method ReceiveOrder(run: Run, rows: seq<Order>, r: nat, i: nat, now: int) returns (result: Result<Script, Failure>)
    requires i < |rows| && Pending(rows[i], r)
    ensures result == DeliverAt(Script(run, rows), r, now, i)
  {
    var order, state := rows[i], run.world;
    var quantity := order.accepted - order.received;
    if state.inTransit < quantity {
      return Err(StepBlocked);
    }
    state := state.(inTransit := state.inTransit - quantity);
    state := state.(onHand := state.onHand + quantity);
    order := order.(received := order.received + quantity);
    var received := Emit(run.(world := state), GoodsReceived(order.request.action, SKU, quantity), now);
    return Ok(Script(received, rows[i := order]));
  }

  /** Receive the selected rows one after the other. */
  method ReceiveSelected(run: Run, rows: seq<Order>, r: nat, pending: seq<nat>, now: int)
      returns (result: Result<Script, Failure>)
    requires Selected(rows, r, pending, |rows|)
    ensures result == Deliveries(Script(run, rows), r, now, |rows|)
  {
    var received, table := run, rows;
    ghost var start := Script(run, rows);
    DeliveryGap(start, r, pending, 0, now);
    for a := 0 to |pending|
      invariant |table| == |rows|
      invariant Deliveries(start, r, now, Upto(rows, pending, a)) == Ok(Script(received, table))
    {
      DeliveryNext(start, r, now, pending[a], Script(received, table));
      DeliveryGap(start, r, pending, a + 1, now);
      result := ReceiveOrder(received, table, r, pending[a], now);
      if result.Err? {
        DeliveriesFail(start, r, now, pending[a] + 1, |rows|);
        return;
      }
      received, table := result.value.run, result.value.orders;
    }
    return Ok(Script(received, table));
  }

  /** The delivery branch of a script step. */
  method Deliver(run: Run, rows: seq<Order>, r: nat, pending: seq<nat>, now: int)
      returns (result: Result<Script, Failure>)
    requires Selected(rows, r, pending, |rows|)
    ensures result == DeliveryStep(Script(run, rows), r, now)
  {
    if |pending| == 0 {
      return Err(StepBlocked);
    }
    assert Pending(rows[pending[0]], r);
    var latest := LatestOf(rows, r, pending, run.world.time);
    if latest.None? {
      return Err(InternalError);
    }
    if latest.value > run.seed.horizon {
      return Err(StepBlocked);
    }
    result := ReceiveSelected(Stamp(run, latest.value, now), rows, r, pending, now);
  }

  lemma StepsNext(s: Script, r: nat, skip: bool, ticks: seq<Tick>, i: nat, t: Script)
    requires i < |ticks| && ScriptSteps(s, r, skip, ticks[..i]) == Ok(t)
    ensures ScriptSteps(s, r, skip, ticks[..i + 1]) == ScriptStep(t, r, skip, ticks[i])
  {
    assert ticks[..i + 1][..i] == ticks[..i];
  }

  lemma {:induction false} StepsFail(s: Script, r: nat, skip: bool, ticks: seq<Tick>, i: nat)
    requires i <= |ticks| && ScriptSteps(s, r, skip, ticks[..i]).Err?
    ensures ScriptSteps(s, r, skip, ticks) == ScriptSteps(s, r, skip, ticks[..i])
  {
    if i == |ticks| {
      assert ticks[..i] == ticks;
    } else {
      assert ticks[..|ticks| - 1][..i] == ticks[..i];
      StepsFail(s, r, skip, ticks[..|ticks| - 1], i);
    }
  }

  // ---------------------------------------------------------------- the service

  class Service {
    var runs: seq<Run>
    var orders: seq<Order>
    var commands: map<(Operation, Id), Recorded>

    constructor ()
      ensures State() == EMPTY_SIM
    {
      runs, orders, commands := [], [], map[];
    }

    function State(): Sim
      reads this
    {
      Sim(runs, orders, commands)
    }

    method CommandReplay(c: Command) returns (answer: Option<Result<Response, Failure>>)
      ensures answer == Replay(State(), c)
    {
      var id := (OperationOf(c.body), c.key);
      if id in commands {
        if commands[id].content != c.body {
          return Some(Err(KeyReused));
        }
        return Some(Ok(commands[id].response));
      }
      return None;
    }

    method RecordCommand(c: Command, response: Response)
      modifies this`commands
      ensures State() == Record(old(State()), c, response).0
    {
      commands := commands[(OperationOf(c.body), c.key) := Recorded(c.body, response)];
    }

    method RunByKey(key: Id) returns (i: nat)
      ensures i == FindRun(runs, key)
    {
      i := 0;
      while i < |runs| && runs[i].commandKey != key
        invariant i <= |runs| && forall j :: 0 <= j < i ==> runs[j].commandKey != key
      {
        i := i + 1;
      }
    }

    method OrderByAction(action: Id) returns (i: nat)
      ensures i == Find(orders, action)
    {
      i := 0;
      while i < |orders| && orders[i].request.action != action
        invariant i <= |orders| && forall j :: 0 <= j < i ==> orders[j].request.action != action
      {
        i := i + 1;
      }
    }

    /** Add a row where its action id belongs. */
    method AddOrder(o: Order)
      modifies this`orders
      ensures State() == old(State()).(orders := Insert(old(orders), o))
    {
      var i := 0;
      while i < |orders| && !(o.request.action < orders[i].request.action)
        invariant i <= |orders|
        invariant Insert(orders, o) == orders[..i] + Insert(orders[i..], o)
      {
        assert orders[i..][1..] == orders[i + 1..] && orders[..i] + [orders[i]] == orders[..i + 1];
        i := i + 1;
      }
      orders := orders[..i] + [o] + orders[i..];
    }

    method CreateRun(c: Command) returns (answer: Result<Response, Failure>)
      requires CommandValid(c) && c.body.Create?
      modifies this
      ensures (State(), answer) == Handle(old(State()), c)
    {
      var replay := CommandReplay(c);
      if replay.Some? {
        return replay.value;
      }
      var seed := InitialSnapshot(|runs|, c.body.create, c.ticks[0].now);
      var i := RunByKey(c.key);
      if i == |runs| {
        runs := runs + [Run(c.key, c.body.create, seed, seed.world, 0, [], 0)];
      }
      if runs[i].configuration != c.body.create {
        return Err(KeyReused);
      }
      RecordCommand(c, Seeded(runs[i].seed));
      return Ok(Seeded(runs[i].seed));
    }

    method SubmitPurchase(c: Command) returns (answer: Result<Response, Failure>)
      requires CommandValid(c) && c.body.Purchase?
      modifies this
      ensures (State(), answer) == Handle(old(State()), c)
    {
      var request, now := c.body.purchase, c.ticks[0].now;
      if request.run >= |runs| {
        return Err(ResourceNotFound);
      }
      if runs[request.run].seed.store != request.store {
        return Err(ResourceForbidden);
      }
      var replay := CommandReplay(c);
      if replay.Some? {
        return replay.value;
      }
      var run := runs[request.run];
      var i := OrderByAction(request.action);
      var receipt: Receipt;
      if i < |orders| {
        if orders[i].request != request {
          return Err(ActionContentConflict);
        }
        receipt := orders[i].receipt;
      } else {
        var terms := PurchaseTerms(run, request, now);
        var accepted := terms.Agreed?;
        receipt := Receipt(request.action, accepted, if accepted then Some(c.ticks[0].version) else None,
                           if accepted then request.quantity else 0, if accepted then terms.total else 0, now,
                           if accepted then None else Some(terms.reason));
        AddOrder(Order(request, receipt, receipt.quantity, 0, if accepted then Some(terms.eta) else None));
        if accepted {
          var state := run.world;
          state := state.(cash := state.cash - terms.total);
          state := state.(available := state.cash);
          state := state.(inTransit := state.inTransit + request.quantity);
          state := state.(dataAsOf := now);
          run := Emit(run.(world := state),
            PurchaseAccepted(request.action, c.ticks[0].version, request.sku, request.quantity, terms.total), now);
          runs := runs[request.run := run];
        }
      }
      RecordCommand(c, Receipted(receipt));
      return Ok(Receipted(receipt));
    }

    method AdvanceRun(c: Command) returns (answer: Result<Response, Failure>)
      requires CommandValid(c) && c.body.Advance?
      modifies this
      ensures (State(), answer) == Handle(old(State()), c)
    {
      var r, request := c.body.target, c.body.advance;
      if r >= |runs| {
        return Err(ResourceNotFound);
      }
      var replay := CommandReplay(c);
      if replay.Some? {
        return replay.value;
      }
      var run, table := runs[r], orders;
      if run.configuration.scenario != SC01 {
        return Err(ScenarioModeMismatch);
      }
      if run.stepIndex + request.steps > 4 {
        return Err(ScenarioFinished);
      }
      var result := ScriptLoop(run, table, r, request.skipEmptyDelivery, c.ticks);
      if result.Err? {
        return Err(result.error);
      }
      run, table := result.value.run, result.value.orders;
      runs, orders := runs[r := run], table;
      RecordCommand(c, Advanced(r, run.world.time, run.lastSequence));
      return Ok(Advanced(r, run.world.time, run.lastSequence));
    }

    static method ScriptLoop(before: Run, rows: seq<Order>, r: nat, skip: bool, ticks: seq<Tick>)
        returns (result: Result<Script, Failure>)
      ensures result == ScriptSteps(Script(before, rows), r, skip, ticks)
    {
      var run, table := before, rows;
      ghost var start := Script(before, rows);
      for i := 0 to |ticks|
        invariant ScriptSteps(start, r, skip, ticks[..i]) == Ok(Script(run, table))
      {
        StepsNext(start, r, skip, ticks, i, Script(run, table));
        result := ScriptOnce(run, table, r, skip, ticks[i]);
        if result.Err? {
          StepsFail(start, r, skip, ticks, i + 1);
          return;
        }
        run, table := result.value.run, result.value.orders;
      }
      assert ticks[..|ticks|] == ticks;
      return Ok(Script(run, table));
    }

    /** One turn of the advance loop. */
    static method ScriptOnce(before: Run, rows: seq<Order>, r: nat, skip: bool, tick: Tick)
        returns (result: Result<Script, Failure>)
      ensures result == ScriptStep(Script(before, rows), r, skip, tick)
    {
      var run, time := before, before.world.time;
      if run.stepIndex >= 4 {
        return Err(ScenarioFinished);
      }
      var delivering := run.stepIndex == 0 || run.stepIndex == 3;
      if delivering {
        var pending := SelectPending(rows, r);
        assert |pending| > 0 <==> AnyPending(rows, r) by {
          if |pending| > 0 { assert Pending(rows[pending[0]], r); }
        }
        if |pending| == 0 && skip && run.stepIndex == 0 {
          time := time + DAY;
          run := run.(stepIndex := run.stepIndex + 1);
          delivering := false;
        } else {
          result := Deliver(run, rows, r, pending, tick.now);
          if result.Err? {
            return;
          }
          return Ok(result.value.(run := NextStep(result.value.run)));
        }
      }
      time := time + HOUR;
      if time >= run.seed.horizon {
        return Err(StepBlocked);
      }
      run := Stamp(run, time, tick.now);
      var state := run.world;
      if run.stepIndex == 1 {
        if state.onHand < 10 {
          return Err(StepBlocked);
        }
        state := state.(onHand := state.onHand - 10);
        state := state.(demand := Max(0, state.demand - 10));
        state := state.(receivables := state.receivables + 20000);
        run := Emit(run.(world := state), SaleRecorded(SKU, 10, 2000), tick.now);
      } else {
        state := state.(demand := 70);
        state := state.(version := tick.version);
        run := Emit(run.(world := state),
          DemandRevised(SKU, 70, tick.version, tick.now, tick.now + HOUR, time, run.seed.horizon), tick.now);
      }
      run := run.(stepIndex := run.stepIndex + 1);
      return Ok(Script(run, rows));
    }

    method TriggerRun(c: Command) returns (answer: Result<Response, Failure>)
      requires CommandValid(c) && c.body.Trigger?
      modifies this
      ensures (State(), answer) == Handle(old(State()), c)
    {
      var r, request, now := c.body.target, c.body.trigger, c.ticks[0].now;
      if r >= |runs| {
        return Err(ResourceNotFound);
      }
      var replay := CommandReplay(c);
      if replay.Some? {
        return replay.value;
      }
      var run := runs[r];
      if run.configuration.scenario != Sandbox {
        return Err(ScenarioModeMismatch);
      }
      if run.lastSequence != request.expectedSequence {
        return Err(SourceChanged);
      }
      var before, state, table := run.world, run.world, orders;
      var time, horizon := state.time, run.seed.horizon;
      var payload: Payload;
      match request.kind {
        case Arrival(action, amount) =>
          var i := OrderByAction(action);
          if i == |orders| || orders[i].request.run != r {
            return Err(OrderNotFound);
          }
          var remaining := orders[i].accepted - orders[i].received;
          var quantity := if amount.None? then remaining else amount.value;
          if quantity <= 0 || quantity > remaining || state.inTransit < quantity {
            return Err(ReceiptQuantityInvalid);
          }
          if orders[i].eta.None? {
            return Err(InternalError);
          }
          time := Max(time, orders[i].eta.value);
          if time > horizon {
            return Err(HorizonExceeded);
          }
          state := state.(onHand := state.onHand + quantity);
          state := state.(inTransit := state.inTransit - quantity);
          table := orders[i := orders[i].(received := orders[i].received + quantity)];
          payload := GoodsReceived(orders[i].request.action, SKU, quantity);
        case Sale(quantity, unitPrice, seconds) =>
          time := time + seconds * SECOND;
          if time >= horizon {
            return Err(HorizonExceeded);
          }
          if state.onHand < quantity {
            return Err(InsufficientStock);
          }
          state := state.(onHand := state.onHand - quantity);
          state := state.(demand := Max(0, state.demand - quantity));
          state := state.(receivables := state.receivables + quantity * unitPrice);
          payload := SaleRecorded(SKU, quantity, unitPrice);
        case Demand(remaining, seconds) =>
          time := time + seconds * SECOND;
          if time >= horizon {
            return Err(HorizonExceeded);
          }
          state := state.(demand := remaining);
          state := state.(version := c.ticks[0].version);
          payload := DemandRevised(SKU, remaining, c.ticks[0].version, now, now + HOUR, time, horizon);
      }
      state := state.(time := time, dataAsOf := now);
      run := Emit(run.(world := state), payload, now);
      assert Triggers(Script(runs[r], orders), r, request.kind, c.ticks[0]) == Ok(Script(run, table));
      if !WorldValid(state) {
        return Err(WorldLimitExceeded);
      }
      var event := run.events[|run.events| - 1];
      runs, orders := runs[r := run], table;
      RecordCommand(c, Triggered(r, run.lastSequence, time, before, state, event));
      return Ok(Triggered(r, run.lastSequence, time, before, state, event));
    }
  }
}
