/** The simulator's invariants hold after every sequence of commands. */
module SimulatorReachable {
  import opened Prelude
  import opened SimulatorModel
  import opened SimulatorProofs

  // ---------------------------------------------------------------- every reachable state

  ghost predicate RunsInv(sim: Sim) {
    forall r :: 0 <= r < |sim.runs| ==> StepLeaves(r, Script(sim.runs[r], sim.orders))
  }

  /** Every run was created by a recorded command, and no two under one key. */
  ghost predicate KeysInv(sim: Sim) {
    && (forall r :: 0 <= r < |sim.runs| ==>
          (CreateRunOp, sim.runs[r].commandKey) in sim.commands
          && sim.commands[(CreateRunOp, sim.runs[r].commandKey)].content == Create(sim.runs[r].configuration))
    && (forall q, r :: 0 <= q < r < |sim.runs| ==> sim.runs[q].commandKey != sim.runs[r].commandKey)
  }

  ghost predicate SimInv(sim: Sim) {
    && RunsInv(sim) && KeysInv(sim) && OrdersInv(sim.orders)
    && forall i :: 0 <= i < |sim.orders| ==> sim.orders[i].request.run < |sim.runs|
  }

  /** The runs of t are sound because they are those of sim, but for run r. */
  lemma OneRun(sim: Sim, t: Sim, r: nat)
    requires RunsInv(sim) && |sim.runs| <= |t.runs| <= |sim.runs| + 1 && r < |t.runs|
      && (|t.runs| > |sim.runs| ==> r == |sim.runs|)
    requires forall q :: 0 <= q < |sim.runs| && q != r ==> t.runs[q] == sim.runs[q]
    requires forall q :: 0 <= q < |sim.runs| && q != r && StepLeaves(q, Script(sim.runs[q], sim.orders)) ==>
      StepLeaves(q, Script(sim.runs[q], t.orders))
    requires StepLeaves(r, Script(t.runs[r], t.orders))
    ensures RunsInv(t)
  {
    forall q | 0 <= q < |t.runs| ensures StepLeaves(q, Script(t.runs[q], t.orders)) {
      if q != r { assert StepLeaves(q, Script(sim.runs[q], sim.orders)); }
    }
  }

  lemma CreateKeys(sim: Sim, c: Command)
    requires KeysInv(sim) && c.body.Create? && CommandValid(c)
    ensures KeysInv(CreateRun(sim, c).0)
  {
  }

  lemma CreateRuns(sim: Sim, c: Command)
    requires SimInv(sim) && c.body.Create? && CommandValid(c)
    ensures RunsInv(CreateRun(sim, c).0)
  {
    var t := CreateRun(sim, c).0;
    if |t.runs| > |sim.runs| {
      NewRun(|sim.runs|, c, sim.orders);
      OneRun(sim, t, |sim.runs|);
    }
  }

  /** A run starts with its seed as its world. */
  lemma NewRun(n: nat, c: Command, orders: seq<Order>)
    requires c.body.Create? && CommandValid(c) && OrdersInv(orders)
    requires forall i :: 0 <= i < |orders| ==> orders[i].request.run < n
    ensures var seed := InitialSnapshot(n, c.body.create, c.ticks[0].now);
      StepLeaves(n, Script(Run(c.key, c.body.create, seed, seed.world, 0, [], 0), orders))
  {
    SumZero(RemainingIn(n), orders);
    SumZero(AcceptedIn(n), orders);
    SumZero(SpentIn(n), orders);
  }

  lemma {:induction false} SumZero<A>(f: A -> int, s: seq<A>)
    requires forall i :: 0 <= i < |s| ==> f(s[i]) == 0
    ensures Sum(f, s) == 0
  {
    if s != [] { SumZero(f, s[..|s| - 1]); }
  }

  // ---------------------------------------------------------------- purchases

  lemma EtasInsert(orders: seq<Order>, o: Order, q: nat, bound: int)
    requires EtasWithin(orders, q, bound) && (Pending(o, q) ==> o.eta.Some? && o.eta.value <= bound)
    ensures EtasWithin(Insert(orders, o), q, bound)
  {
    var t := Insert(orders, o);
    forall i | 0 <= i < |t| && Pending(t[i], q) ensures t[i].eta.Some? && t[i].eta.value <= bound {
      InsertMembers(orders, o, t[i]);
      if t[i] != o { assert t[i] in orders; }
    }
  }

  lemma InsertLeaves(q: nat, s: Script, o: Order)
    requires StepLeaves(q, s) && OrderSound(o) && Find(s.orders, o.request.action) == |s.orders|
    requires o.request.run != q || (o.accepted == 0 && o.received == 0 && o.receipt.total == 0 && o.eta.None?)
    ensures StepLeaves(q, s.(orders := Insert(s.orders, o)))
  {
    InsertOther(q, s, o);
    InsertOrders(s.orders, o);
    if s.run.configuration.scenario == SC01 { EtasInsert(s.orders, o, q, s.run.world.time + DAY); }
  }

  lemma AcceptLeaves(r: nat, s: Script, request: PurchaseRequest, now: int, order: Id, total: int, eta: int)
    requires StepLeaves(r, s) && request.run == r && BodyValid(Purchase(request))
    requires Find(s.orders, request.action) == |s.orders| && PurchaseTerms(s.run, request, now) == Agreed(total, eta)
    ensures StepLeaves(r, Accept(s, request, now, order, total, eta))
  {
    AcceptKeeps(r, s, request, now, order, total, eta);
    AcceptSchedule(r, s, request, now, order, total, eta);
  }

  lemma AcceptSchedule(r: nat, s: Script, request: PurchaseRequest, now: int, order: Id, total: int, eta: int)
    requires ScheduleInv(r, s) && SeedInv(r, s.run) && request.run == r
    requires PurchaseTerms(s.run, request, now) == Agreed(total, eta)
    ensures ScheduleInv(r, Accept(s, request, now, order, total, eta))
  {
    if s.run.configuration.scenario == SC01 {
      var o := AcceptedOrder(request, now, order, total, eta);
      EtasInsert(s.orders, o, r, s.run.world.time + DAY);
    }
  }

  predicate Fresh(sim: Sim, c: Command) {
    c.body.Purchase? && CommandValid(c) && c.body.purchase.run < |sim.runs|
    && sim.runs[c.body.purchase.run].seed.store == c.body.purchase.store
    && Replay(sim, c).None? && Find(sim.orders, c.body.purchase.action) == |sim.orders|
  }

  lemma RefusedRuns(sim: Sim, c: Command)
    requires SimInv(sim) && Fresh(sim, c)
      && PurchaseTerms(sim.runs[c.body.purchase.run], c.body.purchase, c.ticks[0].now).Refused?
    ensures var t := SubmitPurchase(sim, c).0; RunsInv(t) && OrdersInv(t.orders)
  {
    var r, request, t := c.body.purchase.run, c.body.purchase, SubmitPurchase(sim, c).0;
    var o := Rejected(request, c.ticks[0].now, PurchaseTerms(sim.runs[r], request, c.ticks[0].now).reason);
    assert t.runs == sim.runs && t.orders == Insert(sim.orders, o);
    InsertOrders(sim.orders, o);
    forall q | 0 <= q < |sim.runs| ensures StepLeaves(q, Script(t.runs[q], t.orders)) {
      InsertLeaves(q, Script(sim.runs[q], sim.orders), o);
    }
  }

  lemma AcceptedOrderSound(r: nat, s: Script, request: PurchaseRequest, now: int, order: Id, total: int, eta: int)
    requires SeedInv(r, s.run) && BodyValid(Purchase(request))
      && PurchaseTerms(s.run, request, now) == Agreed(total, eta)
    ensures OrderSound(AcceptedOrder(request, now, order, total, eta))
  {
    AgreedSound(r, s, request, now, order, total, eta);
  }

  lemma AgreedRuns(sim: Sim, c: Command, total: int, eta: int)
    requires SimInv(sim) && Fresh(sim, c)
    requires PurchaseTerms(sim.runs[c.body.purchase.run], c.body.purchase, c.ticks[0].now) == Agreed(total, eta)
    ensures var t := SubmitPurchase(sim, c).0; RunsInv(t) && OrdersInv(t.orders)
  {
    var request, now, order := c.body.purchase, c.ticks[0].now, c.ticks[0].version;
    var r, t, o := request.run, SubmitPurchase(sim, c).0, AcceptedOrder(request, now, order, total, eta);
    var s := Script(sim.runs[r], sim.orders);
    assert Script(t.runs[r], t.orders) == Accept(s, request, now, order, total, eta)
      && t.orders == Insert(sim.orders, o);
    assert StepLeaves(r, s);
    AcceptLeaves(r, s, request, now, order, total, eta);
    AcceptedOrderSound(r, s, request, now, order, total, eta);
    InsertOrders(sim.orders, o);
    forall q | 0 <= q < |sim.runs| && q != r && StepLeaves(q, Script(sim.runs[q], sim.orders))
      ensures StepLeaves(q, Script(sim.runs[q], t.orders)) {
      InsertLeaves(q, Script(sim.runs[q], sim.orders), o);
    }
    OneRun(sim, t, r);
  }

  lemma {:induction false} InsertRuns(orders: seq<Order>, o: Order, n: nat)
    requires o.request.run < n && forall i :: 0 <= i < |orders| ==> orders[i].request.run < n
    ensures forall i :: 0 <= i < |Insert(orders, o)| ==> Insert(orders, o)[i].request.run < n
  {
    forall i | 0 <= i < |Insert(orders, o)| ensures Insert(orders, o)[i].request.run < n {
      InsertMembers(orders, o, Insert(orders, o)[i]);
    }
  }

  lemma PurchaseTable(sim: Sim, c: Command)
    requires KeysInv(sim) && c.body.Purchase? && CommandValid(c)
    requires forall i :: 0 <= i < |sim.orders| ==> sim.orders[i].request.run < |sim.runs|
    ensures var t := SubmitPurchase(sim, c).0;
      KeysInv(t) && forall i :: 0 <= i < |t.orders| ==> t.orders[i].request.run < |t.runs|
  {
    if Fresh(sim, c) {
      var r, request, now := c.body.purchase.run, c.body.purchase, c.ticks[0].now;
      match PurchaseTerms(sim.runs[r], request, now)
      case Refused(reason) => InsertRuns(sim.orders, Rejected(request, now, reason), |sim.runs|);
      case Agreed(total, eta) =>
        InsertRuns(sim.orders, AcceptedOrder(request, now, c.ticks[0].version, total, eta), |sim.runs|);
    }
  }

  lemma PurchaseKeeps(sim: Sim, c: Command)
    requires SimInv(sim) && c.body.Purchase? && CommandValid(c)
    ensures SimInv(SubmitPurchase(sim, c).0)
  {
    PurchaseTable(sim, c);
    if Fresh(sim, c) {
      match PurchaseTerms(sim.runs[c.body.purchase.run], c.body.purchase, c.ticks[0].now)
      case Refused(_) => RefusedRuns(sim, c);
      case Agreed(total, eta) => AgreedRuns(sim, c, total, eta);
    } else {
      assert SubmitPurchase(sim, c).0 == sim.(commands := SubmitPurchase(sim, c).0.commands);
    }
  }

  // ---------------------------------------------------------------- scripts and triggers

  lemma TouchedLeaves(r: nat, q: nat, s: Script, after: seq<Order>)
    requires StepLeaves(q, s) && q != r && Touches(r, s.orders, after) && OrdersInv(after)
    ensures StepLeaves(q, s.(orders := after))
  {
    TouchedOther(r, q, s, after);
    if s.run.configuration.scenario == SC01 {
      assert EtasWithin(after, q, s.run.world.time + DAY);
    }
  }

  /** Replacing run r and touching only its rows keeps the invariant. */
  lemma ReplaceKeeps(sim: Sim, c: Command, r: nat, s: Script, response: Response)
    requires SimInv(sim) && r < |sim.runs| && Replay(sim, c).None?
    requires Fixed(r, Script(sim.runs[r], sim.orders), s) && StepLeaves(r, s)
    ensures SimInv(Record(sim.(runs := sim.runs[r := s.run], orders := s.orders), c, response).0)
  {
    var t := Record(sim.(runs := sim.runs[r := s.run], orders := s.orders), c, response).0;
    ReplaceRuns(sim, t, r, s);
    ReplaceKeys(sim, c, r, s, response);
  }

  lemma ReplaceRuns(sim: Sim, t: Sim, r: nat, s: Script)
    requires RunsInv(sim) && r < |sim.runs| && t.runs == sim.runs[r := s.run] && t.orders == s.orders
    requires Touches(r, sim.orders, s.orders) && StepLeaves(r, s)
    ensures RunsInv(t)
  {
    assert Script(t.runs[r], t.orders) == s;
    forall q | 0 <= q < |sim.runs| && q != r && StepLeaves(q, Script(sim.runs[q], sim.orders))
      ensures StepLeaves(q, Script(sim.runs[q], t.orders)) {
      TouchedLeaves(r, q, Script(sim.runs[q], sim.orders), t.orders);
    }
    OneRun(sim, t, r);
  }

  lemma ReplaceKeys(sim: Sim, c: Command, r: nat, s: Script, response: Response)
    requires KeysInv(sim) && r < |sim.runs| && Replay(sim, c).None?
    requires s.run.configuration == sim.runs[r].configuration && s.run.commandKey == sim.runs[r].commandKey
    ensures KeysInv(Record(sim.(runs := sim.runs[r := s.run], orders := s.orders), c, response).0)
  {
  }

  lemma AdvanceKeeps(sim: Sim, c: Command)
    requires SimInv(sim) && c.body.Advance? && CommandValid(c)
    ensures SimInv(AdvanceRun(sim, c).0)
  {
    var t := AdvanceRun(sim, c).0;
    if t != sim {
      var r, skip := c.body.target, c.body.advance.skipEmptyDelivery;
      var before := Script(sim.runs[r], sim.orders);
      assert StepLeaves(r, before);
      StepsKeep(r, before, skip, c.ticks);
      StepsFixed(before, r, skip, c.ticks);
      var s := ScriptSteps(before, r, skip, c.ticks).value;
      ReplaceKeeps(sim, c, r, s, Advanced(r, s.run.world.time, s.run.lastSequence));
    }
  }

  lemma TriggerKeeps(sim: Sim, c: Command)
    requires SimInv(sim) && c.body.Trigger? && CommandValid(c)
    ensures SimInv(TriggerRun(sim, c).0)
  {
    var t := TriggerRun(sim, c).0;
    if t != sim {
      var r, kind := c.body.target, c.body.trigger.kind;
      var before := Script(sim.runs[r], sim.orders);
      assert StepLeaves(r, before);
      TriggersKeep(r, before, kind, c.ticks[0]);
      TriggersFixed(before, r, kind, c.ticks[0]);
      var s := Triggers(before, r, kind, c.ticks[0]).value;
      ReplaceKeeps(sim, c, r, s, TriggerRun(sim, c).1.value);
    }
  }

  lemma HandleKeeps(sim: Sim, c: Command)
    requires SimInv(sim)
    ensures SimInv(Handle(sim, c).0)
  {
    if CommandValid(c) {
      match c.body
      case Create(_) => CreateKeeps(sim, c);
      case Purchase(_) => PurchaseKeeps(sim, c);
      case Advance(_, _) => AdvanceKeeps(sim, c);
      case Trigger(_, _) => TriggerKeeps(sim, c);
    }
  }

  lemma CreateKeeps(sim: Sim, c: Command)
    requires SimInv(sim) && c.body.Create? && CommandValid(c)
    ensures SimInv(CreateRun(sim, c).0)
  {
    CreateKeys(sim, c);
    CreateRuns(sim, c);
  }

  /** The state after a sequence of commands, whatever each of them answered. */
  function Served(sim: Sim, commands: seq<Command>): Sim {
    if commands == [] then sim else Handle(Served(sim, commands[..|commands| - 1]), commands[|commands| - 1]).0
  }

  lemma {:induction false} Reachable(commands: seq<Command>)
    ensures SimInv(Served(EMPTY_SIM, commands))
  {
    if commands != [] {
      Reachable(commands[..|commands| - 1]);
      HandleKeeps(Served(EMPTY_SIM, commands[..|commands| - 1]), commands[|commands| - 1]);
    }
  }
}
