/** The guarantees of the simulator, for every sequence of commands. */
module SimulatorTheorems {
  import opened Prelude
  import opened SimulatorModel
  import opened SimulatorProofs
  import opened SimulatorReachable

  // ---------------------------------------------------------------- the log explains the world

  /** Reading the log from the initial snapshot gives exactly the current balances, and the log is
      numbered 1, 2, ... up to the last sequence. */
  lemma WorldIsFoldOfLog(commands: seq<Command>, r: nat)
    requires r < |Served(EMPTY_SIM, commands).runs|
    ensures var run := Served(EMPTY_SIM, commands).runs[r];
      && Fold(BalanceOf(run.seed.world), run.events) == BalanceOf(run.world)
      && run.lastSequence == |run.events|
      && forall i :: 0 <= i < |run.events| ==> run.events[i].sequence == i + 1
  {
    Reachable(commands);
    assert StepLeaves(r, Script(Served(EMPTY_SIM, commands).runs[r], Served(EMPTY_SIM, commands).orders));
  }

  /** Every piece and every fen is accounted for. */
  lemma GoodsAndMoneyConserved(commands: seq<Command>, r: nat)
    requires r < |Served(EMPTY_SIM, commands).runs|
    ensures var sim := Served(EMPTY_SIM, commands); var run := sim.runs[r]; var w := run.world;
      && w.inTransit == Sum(RemainingIn(r), sim.orders)
      && run.seed.world.onHand + Sum(AcceptedIn(r), sim.orders) == w.onHand + w.inTransit + Sum(SoldBy, run.events)
      && w.cash == run.seed.world.cash - Sum(SpentIn(r), sim.orders) && w.cash >= 0 && w.onHand >= 0 && w.inTransit >= 0
      && w.available == w.cash
  {
    var sim := Served(EMPTY_SIM, commands);
    Reachable(commands);
    assert StepLeaves(r, Script(sim.runs[r], sim.orders));
    SumNonnegative(RemainingIn(r), sim.orders);
  }

  /** Simulated time stays inside the scenario, events are in time order, and no goods arrive before
      the ETA of their order. */
  lemma EventsInTime(commands: seq<Command>, r: nat, i: nat)
    requires r < |Served(EMPTY_SIM, commands).runs| && i < |Served(EMPTY_SIM, commands).runs[r].events|
    ensures var sim := Served(EMPTY_SIM, commands); var run := sim.runs[r]; var e := run.events[i];
      && run.seed.world.time <= e.time <= run.world.time <= run.seed.horizon
      && (forall j :: 0 <= j < i ==> run.events[j].time <= e.time)
      && (e.payload.GoodsReceived? ==>
            exists k :: 0 <= k < |sim.orders| && sim.orders[k].request.run == r
              && sim.orders[k].request.action == e.payload.action
                        && sim.orders[k].eta.Some? && sim.orders[k].eta.value <= e.time)
  {
    var sim := Served(EMPTY_SIM, commands);
    Reachable(commands);
    assert StepLeaves(r, Script(sim.runs[r], sim.orders));
    assert OnTime(sim.orders, r, sim.runs[r].events[i]);
  }

  /** Every event payload and every purchase receipt satisfies its schema. */
  lemma DocumentsValid(commands: seq<Command>, r: nat)
    requires r < |Served(EMPTY_SIM, commands).runs|
    ensures var sim := Served(EMPTY_SIM, commands);
      && (forall i :: 0 <= i < |sim.runs[r].events| ==> PayloadValid(sim.runs[r].events[i].payload))
      && (forall i :: 0 <= i < |sim.orders| ==> ReceiptValid(sim.orders[i].receipt))
      && var w := sim.runs[r].world;
         && (forall x :: x in [w.cash, w.reserved, w.available, w.receivables, w.onHand, w.inTransit, w.demand] ==>
               0 <= x <= MAX_INT)
         && w.available == w.cash - w.reserved
  {
    var sim := Served(EMPTY_SIM, commands);
    Reachable(commands);
    assert StepLeaves(r, Script(sim.runs[r], sim.orders));
    WorldLimits(r, Script(sim.runs[r], sim.orders));
  }

  // ---------------------------------------------------------------- unreachable refusals

  /** A new key never meets a run that was created under it: the insert conflict cannot happen. */
  lemma CreateNeverConflicts(commands: seq<Command>, c: Command)
    requires c.body.Create? && CommandValid(c) && Replay(Served(EMPTY_SIM, commands), c).None?
    ensures FindRun(Served(EMPTY_SIM, commands).runs, c.key) == |Served(EMPTY_SIM, commands).runs|
    ensures Handle(Served(EMPTY_SIM, commands), c).1.Ok?
  {
    Reachable(commands);
  }

  /** A script step is refused only for its position or for want of something to deliver: the ETA,
      horizon, stock and in-transit guards never fire. */
  lemma StepSucceedsExactly(commands: seq<Command>, r: nat, skip: bool, tick: Tick)
    requires r < |Served(EMPTY_SIM, commands).runs|
      && Served(EMPTY_SIM, commands).runs[r].configuration.scenario == SC01
    ensures var sim := Served(EMPTY_SIM, commands);
      ScriptStep(Script(sim.runs[r], sim.orders), r, skip, tick).Ok?
      <==> (sim.runs[r].stepIndex < 4
            && (sim.runs[r].stepIndex in {0, 3} && !AnyPending(sim.orders, r) ==> sim.runs[r].stepIndex == 0 && skip))
  {
    var sim := Served(EMPTY_SIM, commands);
    Reachable(commands);
    assert StepLeaves(r, Script(sim.runs[r], sim.orders));
    StepExactly(r, Script(sim.runs[r], sim.orders), skip, tick);
  }

  lemma ArrivalFacts(commands: seq<Command>, r: nat, i: nat)
    requires var sim := Served(EMPTY_SIM, commands);
      r < |sim.runs| && i < |sim.orders| && sim.orders[i].request.run == r
    ensures var sim := Served(EMPTY_SIM, commands); var o, run := sim.orders[i], sim.runs[r];
      && 0 <= o.accepted - o.received <= run.world.inTransit && run.world.time <= run.seed.horizon
      && (o.received < o.accepted ==> o.eta.Some? && o.eta.value <= run.seed.horizon)
  {
    var sim := Served(EMPTY_SIM, commands);
    Reachable(commands);
    assert StepLeaves(r, Script(sim.runs[r], sim.orders));
    OpenIsInTransit(r, Script(sim.runs[r], sim.orders), i);
  }

  /** An arrival is refused for its quantity exactly when that is not between 1 and what the order
      still has outstanding; the ETA is always known and inside the scenario. */
  lemma ArrivalSucceedsExactly(commands: seq<Command>, r: nat, action: Id, amount: Option<nat>, tick: Tick)
    requires var sim := Served(EMPTY_SIM, commands);
      r < |sim.runs| && Find(sim.orders, action) < |sim.orders| && sim.orders[Find(sim.orders, action)].request.run == r
    ensures var sim := Served(EMPTY_SIM, commands);
      var o := sim.orders[Find(sim.orders, action)];
      var quantity := if amount.None? then o.accepted - o.received else amount.value;
      var answer := Triggers(Script(sim.runs[r], sim.orders), r, Arrival(action, amount), tick);
      (answer.Ok? <==> 1 <= quantity <= o.accepted - o.received)
        && (answer.Err? ==> answer.error == ReceiptQuantityInvalid)
  {
    ArrivalFacts(commands, r, Find(Served(EMPTY_SIM, commands).orders, action));
  }

  /** The world-limit error can only come from receivables, and does come when a sale overflows them. */
  lemma WorldLimitIsReceivables(commands: seq<Command>, c: Command)
    requires var sim := Served(EMPTY_SIM, commands);
      c.body.Trigger? && CommandValid(c) && c.body.target < |sim.runs| && Replay(sim, c).None?
      && sim.runs[c.body.target].configuration.scenario == Sandbox
      && sim.runs[c.body.target].lastSequence == c.body.trigger.expectedSequence
      && Triggers(Script(sim.runs[c.body.target], sim.orders), c.body.target, c.body.trigger.kind, c.ticks[0]).Ok?
    ensures var sim := Served(EMPTY_SIM, commands); var kind := c.body.trigger.kind;
      Handle(sim, c).1 == Err(WorldLimitExceeded)
      <==> kind.Sale? && sim.runs[c.body.target].world.receivables + kind.quantity * kind.unitPrice > MAX_INT
  {
    var sim, r := Served(EMPTY_SIM, commands), c.body.target;
    var s := Script(sim.runs[r], sim.orders);
    Reachable(commands);
    assert StepLeaves(r, s);
    TriggersKeep(r, s, c.body.trigger.kind, c.ticks[0]);
    WorldLimits(r, Triggers(s, r, c.body.trigger.kind, c.ticks[0]).value);
    WorldLimits(r, s);
  }

  // ---------------------------------------------------------------- retries

  lemma FailureChangesNothing(sim: Sim, c: Command)
    requires Handle(sim, c).1.Err?
    ensures Handle(sim, c).0 == sim
  {
  }

  /** Rows, events and recorded answers are never taken back, and simulated time never runs backwards. */
  ghost predicate Extends(a: Sim, b: Sim) {
    && |a.runs| <= |b.runs|
    && (forall r :: 0 <= r < |a.runs| ==>
         b.runs[r].seed == a.runs[r].seed && a.runs[r].events <= b.runs[r].events
         && a.runs[r].world.time <= b.runs[r].world.time)
    && (forall k :: k in a.commands ==> k in b.commands && b.commands[k] == a.commands[k])
  }

  lemma ReplaceExtends(sim: Sim, t: Sim, r: nat, s: Script)
    requires r < |sim.runs| && t.runs == sim.runs[r := s.run] && Fixed(r, Script(sim.runs[r], sim.orders), s)
    requires forall k :: k in sim.commands ==> k in t.commands && t.commands[k] == sim.commands[k]
    ensures Extends(sim, t)
  {
  }

  lemma AdvanceExtends(sim: Sim, c: Command)
    requires c.body.Advance? && CommandValid(c)
    ensures Extends(sim, AdvanceRun(sim, c).0)
  {
    if AdvanceRun(sim, c).0 != sim {
      var r, s := c.body.target, Script(sim.runs[c.body.target], sim.orders);
      StepsFixed(s, r, c.body.advance.skipEmptyDelivery, c.ticks);
      ReplaceExtends(sim, AdvanceRun(sim, c).0, r, ScriptSteps(s, r, c.body.advance.skipEmptyDelivery, c.ticks).value);
    }
  }

  lemma TriggerExtends(sim: Sim, c: Command)
    requires c.body.Trigger? && CommandValid(c)
    ensures Extends(sim, TriggerRun(sim, c).0)
  {
    if TriggerRun(sim, c).0 != sim {
      var r, s := c.body.target, Script(sim.runs[c.body.target], sim.orders);
      TriggersFixed(s, r, c.body.trigger.kind, c.ticks[0]);
      ReplaceExtends(sim, TriggerRun(sim, c).0, r, Triggers(s, r, c.body.trigger.kind, c.ticks[0]).value);
    }
  }

  lemma PurchaseExtends(sim: Sim, c: Command)
    requires c.body.Purchase? && CommandValid(c)
    ensures Extends(sim, SubmitPurchase(sim, c).0)
  {
  }

  lemma HandleExtends(sim: Sim, c: Command)
    ensures Extends(sim, Handle(sim, c).0)
  {
    if CommandValid(c) {
      match c.body
      case Create(_) => assert Extends(sim, CreateRun(sim, c).0);
      case Purchase(_) => PurchaseExtends(sim, c);
      case Advance(_, _) => AdvanceExtends(sim, c);
      case Trigger(_, _) => TriggerExtends(sim, c);
    }
  }

  lemma {:induction false} ServedExtends(sim: Sim, commands: seq<Command>)
    ensures Extends(sim, Served(sim, commands))
  {
    if commands != [] {
      ServedExtends(sim, commands[..|commands| - 1]);
      HandleExtends(Served(sim, commands[..|commands| - 1]), commands[|commands| - 1]);
    }
  }

  /** A command that succeeded is on record and keeps meeting the checks made before the record is read. */
  lemma SuccessRecorded(sim: Sim, c: Command)
    requires Handle(sim, c).1.Ok?
    ensures var (t, answer) := Handle(sim, c);
      && (OperationOf(c.body), c.key) in t.commands
      && t.commands[(OperationOf(c.body), c.key)] == Recorded(c.body, answer.value)
      && (c.body.Purchase? ==>
            c.body.purchase.run < |t.runs| && t.runs[c.body.purchase.run].seed.store == c.body.purchase.store)
      && (c.body.Advance? || c.body.Trigger? ==> c.body.target < |t.runs|)
  {
    HandleExtends(sim, c);
  }

  /** Every retry of a successful command returns the original answer and changes nothing, whatever
      happened in between and whatever the clock says now. */
  lemma RetryReturnsOriginal(sim: Sim, c: Command, later: seq<Command>, retry: Command)
    requires Handle(sim, c).1.Ok? && CommandValid(retry) && retry.key == c.key && retry.body == c.body
    ensures var t := Served(Handle(sim, c).0, later); Handle(t, retry) == (t, Handle(sim, c).1)
  {
    SuccessRecorded(sim, c);
    ServedExtends(Handle(sim, c).0, later);
  }

  // ---------------------------------------------------------------- exactly once

  /** Answered from the record, refused because its key is taken, or an action already decided. */
  predicate Redundant(sim: Sim, c: Command) {
    || (OperationOf(c.body), c.key) in sim.commands
    || (c.body.Purchase? && Find(sim.orders, c.body.purchase.action) < |sim.orders|
        && sim.orders[Find(sim.orders, c.body.purchase.action)].request == c.body.purchase)
  }

  function Kept(sim: Sim, commands: seq<Command>): seq<Command> {
    if commands == [] then []
    else
      var before, last := commands[..|commands| - 1], commands[|commands| - 1];
      Kept(sim, before) + if Redundant(Served(sim, before), last) then [] else [last]
  }

  ghost predicate SameWorld(a: Sim, b: Sim) {
    a.runs == b.runs && a.orders == b.orders && forall k :: k in a.commands ==>
      k in b.commands && b.commands[k] == a.commands[k]
  }

  lemma RedundantAddsNothing(sim: Sim, c: Command)
    requires Redundant(sim, c)
    ensures Handle(sim, c).0.runs == sim.runs && Handle(sim, c).0.orders == sim.orders
  {
  }

  lemma SameStep(a: Sim, b: Sim, c: Command)
    requires SameWorld(a, b) && !Redundant(b, c)
    ensures SameWorld(Handle(a, c).0, Handle(b, c).0)
  {
  }

  /** Deleting every retry, every reuse of a taken key and every resubmission of a decided action
      leaves the same runs, orders and event logs. */
  lemma {:induction false} DuplicatesAddNothing(sim: Sim, commands: seq<Command>)
    ensures SameWorld(Served(sim, Kept(sim, commands)), Served(sim, commands))
  {
    if commands != [] {
      var before, last := commands[..|commands| - 1], commands[|commands| - 1];
      var kept, full := Served(sim, Kept(sim, before)), Served(sim, before);
      DuplicatesAddNothing(sim, before);
      if Redundant(full, last) {
        RedundantAddsNothing(full, last);
        HandleExtends(full, last);
        assert Kept(sim, commands) == Kept(sim, before);
      } else {
        SameStep(kept, full, last);
        assert Kept(sim, commands)[..|Kept(sim, before)|] == Kept(sim, before);
      }
    }
  }

  // ---------------------------------------------------------------- verdicts

  /** GET of a purchase. */
  function GetPurchase(sim: Sim, action: Id): Result<Receipt, Failure> {
    var i := Find(sim.orders, action);
    if i == |sim.orders| then Err(ResourceNotFound) else Ok(sim.orders[i].receipt)
  }

  lemma {:induction false} FindInsert(orders: seq<Order>, o: Order, action: Id)
    requires o.request.action != action
    ensures var t := Insert(orders, o); var i, j := Find(orders, action), Find(t, action);
      (i < |orders| <==> j < |t|) && (i < |orders| ==> t[j] == orders[i])
  {
    if !(orders == [] || o.request.action < orders[0].request.action) && orders[0].request.action != action {
      FindInsert(orders[1..], o, action);
    }
  }

  lemma {:induction false} FindTouched(r: nat, before: seq<Order>, after: seq<Order>, action: Id)
    requires Touches(r, before, after)
    ensures Find(after, action) == Find(before, action)
  {
    if before != [] && before[0].request.action != action { FindTouched(r, before[1..], after[1..], action); }
  }

  lemma VerdictStays(sim: Sim, c: Command, action: Id)
    requires GetPurchase(sim, action).Ok?
    ensures GetPurchase(Handle(sim, c).0, action) == GetPurchase(sim, action)
  {
    var t := Handle(sim, c).0;
    if t.orders != sim.orders {
      if c.body.Purchase? {
        var o: Order :| t.orders == Insert(sim.orders, o) && o.request.action == c.body.purchase.action;
        FindInsert(sim.orders, o, action);
      } else {
        TouchedByHandle(sim, c);
        FindTouched(c.body.target, sim.orders, t.orders, action);
      }
    }
  }

  lemma TouchedByHandle(sim: Sim, c: Command)
    requires c.body.Advance? || c.body.Trigger?
    ensures Touches(c.body.target, sim.orders, Handle(sim, c).0.orders)
  {
    if Handle(sim, c).0 != sim {
      var s := Script(sim.runs[c.body.target], sim.orders);
      if c.body.Advance? {
        StepsFixed(s, c.body.target, c.body.advance.skipEmptyDelivery, c.ticks);
      } else {
        TriggersFixed(s, c.body.target, c.body.trigger.kind, c.ticks[0]);
      }
    }
  }

  /** An action's accept/reject verdict never changes. */
  lemma {:induction false} VerdictIsFinal(sim: Sim, later: seq<Command>, action: Id)
    requires GetPurchase(sim, action).Ok?
    ensures GetPurchase(Served(sim, later), action) == GetPurchase(sim, action)
  {
    if later != [] {
      VerdictIsFinal(sim, later[..|later| - 1], action);
      VerdictStays(Served(sim, later[..|later| - 1]), later[|later| - 1], action);
    }
  }

  // ---------------------------------------------------------------- advancing by n

  function SingleStep(r: nat, skip: bool, key: Id, tick: Tick): Command {
    Command(key, Advance(r, AdvanceRequest(1, skip)), [tick])
  }

  /** One advance after the other, each with its own key; None as soon as one is refused. */
  function Singles(sim: Sim, r: nat, skip: bool, keys: seq<Id>, ticks: seq<Tick>): Option<Sim>
    requires |keys| == |ticks|
  {
    var n := |ticks|;
    if n == 0 then Some(sim)
    else
      match Singles(sim, r, skip, keys[..n - 1], ticks[..n - 1])
      case None => None
      case Some(t) =>
        var (u, answer) := Handle(t, SingleStep(r, skip, keys[n - 1], ticks[n - 1]));
        if answer.Ok? then Some(u) else None
  }

  ghost predicate Unused(sim: Sim, keys: seq<Id>) {
    Distinct(keys) && forall i :: 0 <= i < |keys| ==> (AdvanceOp, keys[i]) !in sim.commands
  }

  /** What the singles have done so far is what the script steps do. */
  ghost predicate Follows(sim: Sim, r: nat, skip: bool, keys: seq<Id>, ticks: seq<Tick>, singles: Option<Sim>) {
    && r < |sim.runs|
    && match ScriptSteps(Script(sim.runs[r], sim.orders), r, skip, ticks)
       case Err(_) => singles.None?
       case Ok(s) => singles.Some? && singles.value.runs == sim.runs[r := s.run] && singles.value.orders == s.orders
                     && s.run.configuration == sim.runs[r].configuration
                     && s.run.stepIndex >= sim.runs[r].stepIndex + |ticks|
                     && forall k :: k in singles.value.commands ==>
                        k in sim.commands || (k.0 == AdvanceOp && k.1 in keys)
  }

  lemma HandleSingle(t: Sim, r: nat, skip: bool, key: Id, tick: Tick)
    requires r < |t.runs| && t.runs[r].configuration.scenario == SC01 && (AdvanceOp, key) !in t.commands
    ensures var (u, answer) := Handle(t, SingleStep(r, skip, key, tick));
      match ScriptStep(Script(t.runs[r], t.orders), r, skip, tick)
      case Err(_) => answer.Err?
      case Ok(s) => answer.Ok? && u.runs == t.runs[r := s.run] && u.orders == s.orders
                    && u.commands == t.commands[(AdvanceOp, key) := u.commands[(AdvanceOp, key)]]
                    && (AdvanceOp, key) in u.commands
  {
    OneStep(Script(t.runs[r], t.orders), r, skip, tick);
  }

  lemma SingleFollows(sim: Sim, r: nat, skip: bool, keys: seq<Id>, ticks: seq<Tick>)
    requires r < |sim.runs| && sim.runs[r].configuration.scenario == SC01 && |keys| == |ticks| > 0 && Unused(sim, keys)
    requires var n := |ticks| - 1;
      Follows(sim, r, skip, keys[..n], ticks[..n], Singles(sim, r, skip, keys[..n], ticks[..n]))
    ensures Follows(sim, r, skip, keys, ticks, Singles(sim, r, skip, keys, ticks))
  {
    var n := |ticks| - 1;
    var singles := Singles(sim, r, skip, keys[..n], ticks[..n]);
    if singles.Some? {
      var t, s := singles.value, ScriptSteps(Script(sim.runs[r], sim.orders), r, skip, ticks[..n]).value;
      assert Script(t.runs[r], t.orders) == s;
      assert keys[n] !in keys[..n] && (AdvanceOp, keys[n]) !in t.commands;
      HandleSingle(t, r, skip, keys[n], ticks[n]);
      OneStep(s, r, skip, ticks[n]);
      KeysGrow(sim, t, Handle(t, SingleStep(r, skip, keys[n], ticks[n])).0, keys);
    }
  }

  /** Only the keys used so far have been added. */
  lemma KeysGrow(sim: Sim, t: Sim, u: Sim, keys: seq<Id>)
    requires keys != [] && forall k :: k in t.commands ==>
      k in sim.commands || (k.0 == AdvanceOp && k.1 in keys[..|keys| - 1])
    ensures forall k :: k in u.commands && (k in t.commands || k == (AdvanceOp, keys[|keys| - 1])) ==>
      k in sim.commands || (k.0 == AdvanceOp && k.1 in keys)
  {
  }

  lemma OneStep(s: Script, r: nat, skip: bool, tick: Tick)
    ensures ScriptSteps(s, r, skip, [tick]) == ScriptStep(s, r, skip, tick)
    ensures ScriptStep(s, r, skip, tick).Ok? ==> s.run.stepIndex < ScriptStep(s, r, skip, tick).value.run.stepIndex
    ensures ScriptStep(s, r, skip, tick).Ok? ==>
      ScriptStep(s, r, skip, tick).value.run.configuration == s.run.configuration
  {
    assert [tick][..0] == [];
    assert ScriptSteps(s, r, skip, []) == Ok(s);
    if ScriptStep(s, r, skip, tick).Ok? {
      StepFixed(s, r, skip, tick);
      if s.run.stepIndex in {0, 3} && !(s.run.stepIndex == 0 && skip && !AnyPending(s.orders, r)) {
        var time := LatestEta(s.orders, r, s.run.world.time, |s.orders|);
        DeliveriesRows(r, s.(run := Stamp(s.run, time, tick.now)), tick.now, |s.orders|);
      }
    }
  }

  lemma {:induction false} SinglesFollow(sim: Sim, r: nat, skip: bool, keys: seq<Id>, ticks: seq<Tick>)
    requires r < |sim.runs| && sim.runs[r].configuration.scenario == SC01 && |keys| == |ticks| && Unused(sim, keys)
    ensures Follows(sim, r, skip, keys, ticks, Singles(sim, r, skip, keys, ticks))
  {
    if ticks == [] {
      assert sim.runs[r := sim.runs[r]] == sim.runs;
    } else {
      var n := |ticks| - 1;
      SinglesFollow(sim, r, skip, keys[..n], ticks[..n]);
      SingleFollows(sim, r, skip, keys, ticks);
    }
  }

  /** Advancing by n succeeds exactly when n single advances do, and then with the same runs, orders and
      event logs for the same clock readings; the step that skips an empty delivery included. */
  lemma AdvanceIsSingles(sim: Sim, r: nat, skip: bool, key: Id, keys: seq<Id>, ticks: seq<Tick>)
    requires 1 <= |ticks| == |keys| <= 100 && Unused(sim, keys) && (AdvanceOp, key) !in sim.commands
    ensures var (t, answer) := Handle(sim, Command(key, Advance(r, AdvanceRequest(|ticks|, skip)), ticks));
      var singles := Singles(sim, r, skip, keys, ticks);
      (answer.Ok? <==> singles.Some?)
      && (if answer.Ok? then t.runs == singles.value.runs && t.orders == singles.value.orders else t == sim)
  {
    if r < |sim.runs| && sim.runs[r].configuration.scenario == SC01 {
      SinglesFollow(sim, r, skip, keys, ticks);
      if ScriptSteps(Script(sim.runs[r], sim.orders), r, skip, ticks).Ok? {
        StepsWithin(Script(sim.runs[r], sim.orders), r, skip, ticks);
      }
    } else {
      NoSingles(sim, r, skip, keys, ticks);
    }
  }

  lemma StepsWithin(s: Script, r: nat, skip: bool, ticks: seq<Tick>)
    requires ticks != [] && ScriptSteps(s, r, skip, ticks).Ok?
    ensures s.run.stepIndex + |ticks| <= 4
  {
    StepsCount(s, r, skip, ticks[..|ticks| - 1]);
  }

  lemma {:induction false} StepsCount(s: Script, r: nat, skip: bool, ticks: seq<Tick>)
    requires ScriptSteps(s, r, skip, ticks).Ok?
    ensures ScriptSteps(s, r, skip, ticks).value.run.stepIndex >= s.run.stepIndex + |ticks|
  {
    if ticks != [] {
      var before := ticks[..|ticks| - 1];
      StepsCount(s, r, skip, before);
      OneStep(ScriptSteps(s, r, skip, before).value, r, skip, ticks[|ticks| - 1]);
    }
  }

  lemma {:induction false} NoSingles(sim: Sim, r: nat, skip: bool, keys: seq<Id>, ticks: seq<Tick>)
    requires 1 <= |ticks| == |keys| && Unused(sim, keys)
    requires r >= |sim.runs| || sim.runs[r].configuration.scenario != SC01
    ensures Singles(sim, r, skip, keys, ticks).None?
  {
    var n := |ticks| - 1;
    if n > 0 { NoSingles(sim, r, skip, keys[..n], ticks[..n]); }
  }
}
