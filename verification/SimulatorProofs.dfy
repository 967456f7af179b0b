/** What every command keeps: the log explains the world, goods and money are conserved, time runs
    forward inside the horizon, and every document satisfies its schema. */
module SimulatorProofs {
  import opened Prelude
  import opened SimulatorModel

  // ---------------------------------------------------------------- sums over rows

  function Sum<A>(f: A -> int, s: seq<A>): int {
    if s == [] then 0 else Sum(f, s[..|s| - 1]) + f(s[|s| - 1])
  }

  lemma {:induction false} SumCons<A>(f: A -> int, x: A, s: seq<A>)
    ensures Sum(f, [x] + s) == f(x) + Sum(f, s)
  {
    if s == [] {
      assert [x] + s == [x] && [x][..0] == [];
    } else {
      assert ([x] + s)[..|s|] == [x] + s[..|s| - 1];
      SumCons(f, x, s[..|s| - 1]);
    }
  }

  lemma {:induction false} SumUpdate<A>(f: A -> int, s: seq<A>, i: nat, x: A)
    requires i < |s|
    ensures Sum(f, s[i := x]) == Sum(f, s) - f(s[i]) + f(x)
  {
    if i == |s| - 1 {
      assert s[i := x][..|s| - 1] == s[..|s| - 1];
    } else {
      assert s[i := x][..|s| - 1] == s[..|s| - 1][i := x];
      SumUpdate(f, s[..|s| - 1], i, x);
    }
  }

  lemma {:induction false} SumInsert(f: Order -> int, orders: seq<Order>, o: Order)
    ensures Sum(f, Insert(orders, o)) == Sum(f, orders) + f(o)
  {
    if orders == [] || o.request.action < orders[0].request.action {
      SumCons(f, o, orders);
    } else {
      SumInsert(f, orders[1..], o);
      SumCons(f, orders[0], Insert(orders[1..], o));
      SumCons(f, orders[0], orders[1..]);
      assert orders == [orders[0]] + orders[1..];
    }
  }

  lemma {:induction false} SumAtLeast<A>(f: A -> int, s: seq<A>, i: nat)
    requires i < |s| && forall j :: 0 <= j < |s| ==> f(s[j]) >= 0
    ensures Sum(f, s) >= f(s[i])
  {
    SumNonnegative(f, s[..|s| - 1]);
    if i < |s| - 1 { SumAtLeast(f, s[..|s| - 1], i); }
  }

  lemma {:induction false} SumNonnegative<A>(f: A -> int, s: seq<A>)
    requires forall j :: 0 <= j < |s| ==> f(s[j]) >= 0
    ensures Sum(f, s) >= 0
  {
    if s != [] { SumNonnegative(f, s[..|s| - 1]); }
  }

  lemma {:induction false} SumBelow<A>(f: A -> int, g: A -> int, s: seq<A>)
    requires forall j :: 0 <= j < |s| ==> f(s[j]) <= g(s[j])
    ensures Sum(f, s) <= Sum(g, s)
  {
    if s != [] { SumBelow(f, g, s[..|s| - 1]); }
  }

  lemma SumAppend<A>(f: A -> int, s: seq<A>, x: A)
    ensures Sum(f, s + [x]) == Sum(f, s) + f(x)
  {
    assert (s + [x])[..|s|] == s;
  }

  // ---------------------------------------------------------------- the table of orders

  lemma {:induction false} InsertMembers(orders: seq<Order>, o: Order, x: Order)
    ensures x in Insert(orders, o) <==> x == o || x in orders
  {
    if !(orders == [] || o.request.action < orders[0].request.action) {
      InsertMembers(orders[1..], o, x);
      assert orders == [orders[0]] + orders[1..];
    }
  }

  ghost predicate Sorted(orders: seq<Order>) {
    forall i, j :: 0 <= i < j < |orders| ==> orders[i].request.action < orders[j].request.action
  }

  lemma {:induction false} InsertSorted(orders: seq<Order>, o: Order)
    requires Sorted(orders) && Find(orders, o.request.action) == |orders|
    ensures Sorted(Insert(orders, o))
  {
    if orders != [] && orders[0].request.action < o.request.action {
      var rest := orders[1..];
      InsertSorted(rest, o);
      var t := Insert(rest, o);
      forall j | 0 <= j < |t| ensures orders[0].request.action < t[j].request.action {
        InsertMembers(rest, o, t[j]);
        if t[j] != o { assert t[j] in rest; }
      }
    } else if orders != [] {
      assert orders[0].request.action != o.request.action;
    }
  }

  // ---------------------------------------------------------------- the log

  datatype Balance = Balance(cash: int, receivables: int, onHand: int, inTransit: int, demand: int)

  function BalanceOf(w: World): Balance {
    Balance(w.cash, w.receivables, w.onHand, w.inTransit, w.demand)
  }

  /** What a reader of the log makes of one event. */
  function Apply(b: Balance, p: Payload): Balance {
    match p
    case PurchaseAccepted(_, _, _, quantity, total) => b.(cash := b.cash - total, inTransit := b.inTransit + quantity)
    case GoodsReceived(_, _, quantity) => b.(inTransit := b.inTransit - quantity, onHand := b.onHand + quantity)
    case SaleRecorded(_, quantity, unitPrice) =>
      b.(onHand := b.onHand - quantity, demand := if b.demand < quantity then 0 else b.demand - quantity,
         receivables := b.receivables + quantity * unitPrice)
    case DemandRevised(_, demand, _, _, _, _, _) => b.(demand := demand)
  }

  function Fold(b: Balance, events: seq<Event>): Balance {
    if events == [] then b else Apply(Fold(b, events[..|events| - 1]), events[|events| - 1].payload)
  }

  lemma FoldAppend(b: Balance, events: seq<Event>, e: Event)
    ensures Fold(b, events + [e]) == Apply(Fold(b, events), e.payload)
  {
    assert (events + [e])[..|events|] == events;
  }

  ghost predicate LogInv(run: Run) {
    && run.lastSequence == |run.events|
    && (forall i :: 0 <= i < |run.events| ==> run.events[i].sequence == i + 1 && run.events[i].store == run.seed.store)
    && Fold(BalanceOf(run.seed.world), run.events) == BalanceOf(run.world)
  }

  lemma EmitLog(before: Run, run: Run, payload: Payload, now: int)
    requires LogInv(before) && run == before.(world := run.world)
    requires Apply(BalanceOf(before.world), payload) == BalanceOf(run.world)
    ensures LogInv(Emit(run, payload, now))
  {
    FoldAppend(BalanceOf(run.seed.world), run.events, Emit(run, payload, now).events[|run.events|]);
  }

  // ---------------------------------------------------------------- documents

  predicate PayloadValid(p: Payload) {
    match p
    case PurchaseAccepted(_, _, _, quantity, total) => 1 <= quantity <= MAX_INT && 0 <= total <= MAX_INT
    case GoodsReceived(_, _, quantity) => 1 <= quantity <= MAX_INT
    case SaleRecorded(_, quantity, unitPrice) => 1 <= quantity <= MAX_INT && 1 <= unitPrice <= MAX_INT
    case DemandRevised(_, demand, _, dataAsOf, validUntil, horizonStart, horizonEnd) =>
      0 <= demand <= MAX_INT && horizonEnd > horizonStart && validUntil > dataAsOf
  }

  predicate ReceiptValid(r: Receipt) {
    && 0 <= r.quantity <= MAX_INT && 0 <= r.total <= MAX_INT
    && (r.accepted ==> r.order.Some? && r.quantity != 0 && r.total != 0)
    && (!r.accepted ==> r.reason.Some?)
  }

  ghost predicate DocumentsInv(run: Run) {
    forall i :: 0 <= i < |run.events| ==> PayloadValid(run.events[i].payload)
  }

  // ---------------------------------------------------------------- books

  function RemainingIn(run: nat): Order -> int {
    (o: Order) => if o.request.run == run then o.accepted - o.received else 0
  }

  function AcceptedIn(run: nat): Order -> int {
    (o: Order) => if o.request.run == run then o.accepted else 0
  }

  function SpentIn(run: nat): Order -> int {
    (o: Order) => if o.request.run == run then o.receipt.total else 0
  }

  function SoldBy(e: Event): int {
    if e.payload.SaleRecorded? then e.payload.quantity else 0
  }

  /** Goods on the way are exactly what is still open on the run's orders; every piece is accounted
      for; the cash spent is exactly what the accepted orders cost. */
  ghost predicate BooksInv(r: nat, s: Script) {
    var w, start := s.run.world, s.run.seed.world;
    && w.inTransit == Sum(RemainingIn(r), s.orders)
    && start.onHand + Sum(AcceptedIn(r), s.orders) == w.onHand + w.inTransit + Sum(SoldBy, s.run.events)
    && w.cash == start.cash - Sum(SpentIn(r), s.orders)
    && w.cash >= 0 && w.onHand >= 0 && 0 <= w.demand <= MAX_INT && w.receivables >= 0
    && w.reserved == 0 && w.available == w.cash
  }

  predicate OrderSound(o: Order) {
    && ReceiptValid(o.receipt) && o.receipt.action == o.request.action
    && 0 <= o.received <= o.accepted && o.accepted == o.receipt.quantity && o.accepted <= o.receipt.total
    && (o.accepted > 0 <==> o.receipt.accepted) && (o.accepted > 0 ==> o.accepted == o.request.quantity && o.eta.Some?)
  }

  ghost predicate OrdersInv(orders: seq<Order>) {
    Sorted(orders) && forall i :: 0 <= i < |orders| ==> OrderSound(orders[i])
  }

  lemma BooksOther(r: nat, s: Script, orders: seq<Order>)
    requires BooksInv(r, s)
    requires Sum(RemainingIn(r), orders) == Sum(RemainingIn(r), s.orders)
    requires Sum(AcceptedIn(r), orders) == Sum(AcceptedIn(r), s.orders)
    requires Sum(SpentIn(r), orders) == Sum(SpentIn(r), s.orders)
    ensures BooksInv(r, s.(orders := orders))
  {
  }

  // ---------------------------------------------------------------- time

  /** The delivery is for an order of this run and not before its ETA. */
  ghost predicate OnTime(orders: seq<Order>, r: nat, e: Event) {
    e.payload.GoodsReceived? ==>
      exists i :: 0 <= i < |orders| && orders[i].request.run == r && orders[i].request.action == e.payload.action
                  && orders[i].eta.Some? && orders[i].eta.value <= e.time
  }

  ghost predicate TimesInv(r: nat, s: Script) {
    var run := s.run;
    && run.seed.world.time <= run.world.time <= run.seed.horizon
    && (forall i :: 0 <= i < |run.events| ==> run.seed.world.time <= run.events[i].time <= run.world.time)
    && (forall i, j :: 0 <= i < j < |run.events| ==> run.events[i].time <= run.events[j].time)
    && (forall i :: 0 <= i < |run.events| ==> OnTime(s.orders, r, run.events[i]))
    && (forall i :: 0 <= i < |s.orders| && s.orders[i].request.run == r && s.orders[i].eta.Some? ==>
          s.orders[i].eta.value <= run.seed.horizon)
  }

  lemma OnTimeInsert(orders: seq<Order>, o: Order, r: nat, e: Event)
    requires OnTime(orders, r, e)
    ensures OnTime(Insert(orders, o), r, e)
  {
    if e.payload.GoodsReceived? {
      var i :| 0 <= i < |orders| && orders[i].request.run == r && orders[i].request.action == e.payload.action
               && orders[i].eta.Some? && orders[i].eta.value <= e.time;
      InsertMembers(orders, o, orders[i]);
      assert orders[i] in Insert(orders, o);
    }
  }

  lemma OnTimeUpdate(orders: seq<Order>, k: nat, received: int, r: nat, e: Event)
    requires k < |orders| && OnTime(orders, r, e)
    ensures OnTime(orders[k := orders[k].(received := received)], r, e)
  {
    if e.payload.GoodsReceived? {
      var i :| 0 <= i < |orders| && orders[i].request.run == r && orders[i].request.action == e.payload.action
               && orders[i].eta.Some? && orders[i].eta.value <= e.time;
      assert orders[k := orders[k].(received := received)][i].eta == orders[i].eta;
    }
  }

  // ---------------------------------------------------------------- one run

  predicate SeedInv(r: nat, run: Run) {
    BodyValid(Create(run.configuration)) && run.seed == InitialSnapshot(r, run.configuration, run.seed.world.time)
  }

  ghost predicate RunInv(r: nat, s: Script) {
    SeedInv(r, s.run) && LogInv(s.run) && DocumentsInv(s.run) && BooksInv(r, s) && TimesInv(r, s)
  }

  ghost predicate ScriptInv(r: nat, s: Script) {
    RunInv(r, s) && OrdersInv(s.orders)
  }

  lemma StampKeeps(r: nat, s: Script, time: int, now: int)
    requires ScriptInv(r, s) && s.run.world.time <= time <= s.run.seed.horizon
    ensures ScriptInv(r, s.(run := Stamp(s.run, time, now)))
  {
  }

  lemma SellBooks(r: nat, s: Script, quantity: nat, unitPrice: nat, now: int)
    requires BooksInv(r, s) && 1 <= quantity <= s.run.world.onHand
    ensures BooksInv(r, s.(run := Sell(s.run, quantity, unitPrice, now)))
  {
    SumAppend(SoldBy, s.run.events, Sell(s.run, quantity, unitPrice, now).events[|s.run.events|]);
    ProductPositive(quantity, unitPrice);
  }

  lemma ProductPositive(q: nat, price: nat)
    ensures q * price >= 0
  {
  }

  lemma SellKeeps(r: nat, s: Script, quantity: nat, unitPrice: nat, now: int)
    requires ScriptInv(r, s) && 1 <= quantity <= s.run.world.onHand && quantity <= MAX_INT && 1 <= unitPrice <= MAX_INT
    ensures ScriptInv(r, s.(run := Sell(s.run, quantity, unitPrice, now)))
  {
    var run, w, amount := s.run, s.run.world, quantity * unitPrice;
    var sold := run.(world := w.(onHand := w.onHand - quantity, demand := Max(0, w.demand - quantity),
                                 receivables := w.receivables + amount));
    EmitLog(run, sold, SaleRecorded(SKU, quantity, unitPrice), now);
    SellBooks(r, s, quantity, unitPrice, now);
  }

  lemma ReviseKeeps(r: nat, s: Script, demand: nat, version: Id, now: int)
    requires ScriptInv(r, s) && demand <= MAX_INT && s.run.world.time < s.run.seed.horizon
    ensures ScriptInv(r, s.(run := Revise(s.run, demand, version, now)))
  {
    var run := s.run;
    var revised := run.(world := run.world.(demand := demand, version := version));
    EmitLog(run, revised, DemandRevised(SKU, demand, version, now, now + HOUR, run.world.time, run.seed.horizon), now);
    SumAppend(SoldBy, run.events, Revise(run, demand, version, now).events[|run.events|]);
  }

  // ---------------------------------------------------------------- receiving

  lemma ReceiveBooks(r: nat, s: Script, i: nat, quantity: nat, now: int)
    requires ScriptInv(r, s) && i < |s.orders| && s.orders[i].request.run == r
    ensures BooksInv(r, ReceiveRow(s, i, quantity, now))
  {
    var o := s.orders[i].(received := s.orders[i].received + quantity);
    SumUpdate(RemainingIn(r), s.orders, i, o);
    SumUpdate(AcceptedIn(r), s.orders, i, o);
    SumUpdate(SpentIn(r), s.orders, i, o);
    SumAppend(SoldBy, s.run.events, ReceiveRow(s, i, quantity, now).run.events[|s.run.events|]);
  }

  lemma ReceiveTimes(r: nat, s: Script, i: nat, quantity: nat, now: int)
    requires ScriptInv(r, s) && i < |s.orders| && s.orders[i].request.run == r
    requires s.orders[i].eta.Some? && s.orders[i].eta.value <= s.run.world.time
    ensures TimesInv(r, ReceiveRow(s, i, quantity, now))
  {
    var t := ReceiveRow(s, i, quantity, now);
    forall k | 0 <= k < |t.run.events| ensures OnTime(t.orders, r, t.run.events[k]) {
      if k < |s.run.events| {
        OnTimeUpdate(s.orders, i, s.orders[i].received + quantity, r, s.run.events[k]);
      } else {
        assert t.orders[i].request.action == t.run.events[k].payload.action;
      }
    }
  }

  lemma ReceiveKeeps(r: nat, s: Script, i: nat, quantity: nat, now: int)
    requires ScriptInv(r, s) && i < |s.orders| && s.orders[i].request.run == r
    requires 1 <= quantity <= s.orders[i].accepted - s.orders[i].received
    requires s.orders[i].eta.Some? && s.orders[i].eta.value <= s.run.world.time
    ensures ScriptInv(r, ReceiveRow(s, i, quantity, now))
  {
    var w := s.run.world;
    EmitLog(s.run, s.run.(world := w.(inTransit := w.inTransit - quantity, onHand := w.onHand + quantity)),
            GoodsReceived(s.orders[i].request.action, SKU, quantity), now);
    ReceiveBooks(r, s, i, quantity, now);
    ReceiveTimes(r, s, i, quantity, now);
  }

  /** What is open on one order is on its way: the guards on in-transit goods cannot fire. */
  lemma OpenIsInTransit(r: nat, s: Script, i: nat)
    requires ScriptInv(r, s) && i < |s.orders| && s.orders[i].request.run == r
    ensures s.orders[i].accepted - s.orders[i].received <= s.run.world.inTransit
  {
    SumAtLeast(RemainingIn(r), s.orders, i);
  }

  // ---------------------------------------------------------------- purchases

  lemma ProductAtLeast(q: nat, price: nat)
    requires price >= 1
    ensures q <= q * price
  {
  }

  lemma AgreedSound(r: nat, s: Script, request: PurchaseRequest, now: int, order: Id, total: int, eta: int)
    requires SeedInv(r, s.run) && BodyValid(Purchase(request))
    requires PurchaseTerms(s.run, request, now) == Agreed(total, eta)
    ensures request.quantity <= total <= MAX_INT && total <= s.run.world.cash && request.sku == SKU
    ensures eta <= s.run.seed.horizon && eta == s.run.world.time + s.run.seed.offer.lead * SECOND
  {
    ProductAtLeast(request.quantity, s.run.seed.offer.unitPrice);
  }

  lemma AcceptBooks(r: nat, s: Script, request: PurchaseRequest, now: int, order: Id, total: int, eta: int)
    requires ScriptInv(r, s) && request.run == r && 0 <= total <= s.run.world.cash
    ensures BooksInv(r, Accept(s, request, now, order, total, eta))
  {
    var t := Accept(s, request, now, order, total, eta);
    var o := AcceptedOrder(request, now, order, total, eta);
    SumInsert(RemainingIn(r), s.orders, o);
    SumInsert(AcceptedIn(r), s.orders, o);
    SumInsert(SpentIn(r), s.orders, o);
    SumAppend(SoldBy, s.run.events, t.run.events[|s.run.events|]);
  }

  lemma InsertOrders(orders: seq<Order>, o: Order)
    requires OrdersInv(orders) && OrderSound(o) && Find(orders, o.request.action) == |orders|
    ensures OrdersInv(Insert(orders, o))
  {
    InsertSorted(orders, o);
    var t := Insert(orders, o);
    forall i | 0 <= i < |t| ensures OrderSound(t[i]) {
      InsertMembers(orders, o, t[i]);
    }
  }

  lemma AcceptTimes(r: nat, s: Script, request: PurchaseRequest, now: int, order: Id, total: int, eta: int)
    requires ScriptInv(r, s) && request.run == r && eta <= s.run.seed.horizon
    ensures TimesInv(r, Accept(s, request, now, order, total, eta))
  {
    var t := Accept(s, request, now, order, total, eta);
    var o := AcceptedOrder(request, now, order, total, eta);
    forall k | 0 <= k < |t.run.events| ensures OnTime(t.orders, r, t.run.events[k]) {
      if k < |s.run.events| { OnTimeInsert(s.orders, o, r, s.run.events[k]); }
    }
    forall i | 0 <= i < |t.orders| && t.orders[i].request.run == r && t.orders[i].eta.Some?
      ensures t.orders[i].eta.value <= s.run.seed.horizon {
      InsertMembers(s.orders, o, t.orders[i]);
      if t.orders[i] != o { assert t.orders[i] in s.orders; }
    }
  }

  lemma AcceptKeeps(r: nat, s: Script, request: PurchaseRequest, now: int, order: Id, total: int, eta: int)
    requires ScriptInv(r, s) && request.run == r && BodyValid(Purchase(request))
    requires Find(s.orders, request.action) == |s.orders| && PurchaseTerms(s.run, request, now) == Agreed(total, eta)
    ensures ScriptInv(r, Accept(s, request, now, order, total, eta))
  {
    var w := s.run.world;
    AgreedSound(r, s, request, now, order, total, eta);
    var after := w.(cash := w.cash - total, available := w.cash - total,
                    inTransit := w.inTransit + request.quantity, dataAsOf := now);
    EmitLog(s.run, s.run.(world := after),
            PurchaseAccepted(request.action, order, request.sku, request.quantity, total), now);
    AcceptBooks(r, s, request, now, order, total, eta);
    AcceptTimes(r, s, request, now, order, total, eta);
    InsertOrders(s.orders, AcceptedOrder(request, now, order, total, eta));
  }

  // ---------------------------------------------------------------- rows of other runs

  /** A new row that is not an accepted order of run r changes nothing run r relies on. */
  lemma InsertOther(r: nat, s: Script, o: Order)
    requires RunInv(r, s)
      && (o.request.run != r || (o.accepted == 0 && o.received == 0 && o.receipt.total == 0 && o.eta.None?))
    ensures RunInv(r, s.(orders := Insert(s.orders, o)))
  {
    var t := Insert(s.orders, o);
    SumInsert(RemainingIn(r), s.orders, o);
    SumInsert(AcceptedIn(r), s.orders, o);
    SumInsert(SpentIn(r), s.orders, o);
    BooksOther(r, s, t);
    forall k | 0 <= k < |s.run.events| ensures OnTime(t, r, s.run.events[k]) {
      OnTimeInsert(s.orders, o, r, s.run.events[k]);
    }
    forall i | 0 <= i < |t| && t[i].request.run == r && t[i].eta.Some? ensures t[i].eta.value <= s.run.seed.horizon {
      InsertMembers(s.orders, o, t[i]);
      if t[i] != o { assert t[i] in s.orders; }
    }
  }

  /** Only the received quantities of run r's own rows may differ. */
  ghost predicate Touches(r: nat, before: seq<Order>, after: seq<Order>) {
    && |before| == |after|
    && forall i :: 0 <= i < |before| ==>
         after[i] == before[i] || (before[i].request.run == r && after[i] == before[i].(received := after[i].received))
  }

  lemma {:induction false} SumAgree<A>(f: A -> int, s: seq<A>, t: seq<A>)
    requires |s| == |t| && forall i :: 0 <= i < |s| ==> f(s[i]) == f(t[i])
    ensures Sum(f, s) == Sum(f, t)
  {
    if s != [] { SumAgree(f, s[..|s| - 1], t[..|t| - 1]); }
  }

  lemma OnTimeTouched(before: seq<Order>, after: seq<Order>, r: nat, own: nat, e: Event)
    requires Touches(r, before, after) && OnTime(before, own, e)
    ensures OnTime(after, own, e)
  {
    if e.payload.GoodsReceived? {
      var i :| 0 <= i < |before| && before[i].request.run == own && before[i].request.action == e.payload.action
               && before[i].eta.Some? && before[i].eta.value <= e.time;
      assert after[i].eta == before[i].eta;
    }
  }

  lemma TouchedBooks(r: nat, own: nat, s: Script, after: seq<Order>)
    requires BooksInv(own, s) && own != r && Touches(r, s.orders, after)
    ensures BooksInv(own, s.(orders := after))
  {
    SumAgree(RemainingIn(own), s.orders, after);
    SumAgree(AcceptedIn(own), s.orders, after);
    SumAgree(SpentIn(own), s.orders, after);
    BooksOther(own, s, after);
  }

  lemma TouchedOther(r: nat, own: nat, s: Script, after: seq<Order>)
    requires RunInv(own, s) && own != r && Touches(r, s.orders, after)
    ensures RunInv(own, s.(orders := after))
  {
    TouchedBooks(r, own, s, after);
    forall k | 0 <= k < |s.run.events| ensures OnTime(after, own, s.run.events[k]) {
      OnTimeTouched(s.orders, after, r, own, s.run.events[k]);
    }
  }

  // ---------------------------------------------------------------- deliveries

  ghost predicate EtasWithin(orders: seq<Order>, r: nat, bound: int) {
    forall i :: 0 <= i < |orders| && Pending(orders[i], r) ==> orders[i].eta.Some? && orders[i].eta.value <= bound
  }

  lemma {:induction false} LatestEtaBounds(orders: seq<Order>, r: nat, time: int, k: nat, bound: int)
    requires k <= |orders| && EtasKnown(orders, r) && time <= bound && EtasWithin(orders, r, bound)
    ensures time <= LatestEta(orders, r, time, k) <= bound
    ensures forall i :: 0 <= i < k && Pending(orders[i], r) ==> orders[i].eta.value <= LatestEta(orders, r, time, k)
  {
    if k > 0 { LatestEtaBounds(orders, r, time, k - 1, bound); }
  }

  function Delivery(o: Order): Payload {
    GoodsReceived(o.request.action, SKU, o.accepted - o.received)
  }

  function PayloadOf(e: Event): Payload {
    e.payload
  }

  function PendingIn(r: nat): Order -> bool {
    (o: Order) => Pending(o, r)
  }

  /** The first k rows are dealt with: what was pending there is fully received, nothing else has moved. */
  ghost predicate DeliveredRows(r: nat, s: Script, t: Script, k: nat) {
    && k <= |s.orders| == |t.orders|
    && (forall i :: 0 <= i < |s.orders| ==>
          t.orders[i] == if i < k && Pending(s.orders[i], r) then s.orders[i].(received := s.orders[i].accepted)
            else s.orders[i])
    && t.run == s.run.(world := s.run.world.(onHand := t.run.world.onHand, inTransit := t.run.world.inTransit),
                       events := t.run.events, lastSequence := t.run.lastSequence)
    && t.run.world.onHand >= s.run.world.onHand
  }

  /** One event for each order that was pending, in the order of the table. */
  ghost predicate DeliveredEvents(r: nat, s: Script, t: Script, k: nat) {
    && k <= |s.orders|
    && Map(PayloadOf, t.run.events) == Map(PayloadOf, s.run.events) + Map(Delivery, Filter(PendingIn(r), s.orders[..k]))
  }

  lemma {:induction false} DeliveriesRows(r: nat, s: Script, now: int, k: nat)
    requires k <= |s.orders| && Deliveries(s, r, now, k).Ok?
    ensures DeliveredRows(r, s, Deliveries(s, r, now, k).value, k)
  {
    if k > 0 { DeliveriesRows(r, s, now, k - 1); }
  }

  /** A row that is not pending adds no event. */
  lemma EventsSkip(r: nat, s: Script, t: Script, k: nat)
    requires k < |s.orders| && DeliveredEvents(r, s, t, k) && !Pending(s.orders[k], r)
    ensures DeliveredEvents(r, s, t, k + 1)
  {
    var o, before := s.orders[k], s.orders[..k];
    assert s.orders[..k + 1] == before + [o];
    FilterConcat(PendingIn(r), before, [o]);
    assert Filter(PendingIn(r), [o]) == [];
  }

  /** A pending row adds the event of its delivery. */
  lemma EventsAdd(r: nat, s: Script, t: Script, k: nat, e: Event)
    requires k < |s.orders| && DeliveredEvents(r, s, t, k) && Pending(s.orders[k], r)
    requires PayloadOf(e) == Delivery(s.orders[k])
    ensures DeliveredEvents(r, s, t.(run := t.run.(events := t.run.events + [e])), k + 1)
  {
    var o, before := s.orders[k], s.orders[..k];
    assert s.orders[..k + 1] == before + [o];
    FilterConcat(PendingIn(r), before, [o]);
    MapConcat(PayloadOf, t.run.events, [e]);
    assert Filter(PendingIn(r), [o]) == [o];
    MapConcat(Delivery, Filter(PendingIn(r), before), [o]);
  }

  lemma EventsNext(r: nat, s: Script, t: Script, k: nat, now: int)
    requires k < |s.orders| == |t.orders| && DeliveredEvents(r, s, t, k) && t.orders[k] == s.orders[k]
    requires DeliverAt(t, r, now, k).Ok?
    ensures DeliveredEvents(r, s, DeliverAt(t, r, now, k).value, k + 1)
  {
    if Pending(s.orders[k], r) {
      var u := DeliverAt(t, r, now, k).value;
      EventsAdd(r, s, t, k, u.run.events[|t.run.events|]);
    } else {
      EventsSkip(r, s, t, k);
    }
  }

  lemma {:induction false} DeliveriesEvents(r: nat, s: Script, now: int, k: nat)
    requires k <= |s.orders| && Deliveries(s, r, now, k).Ok?
    ensures DeliveredEvents(r, s, Deliveries(s, r, now, k).value, k)
  {
    if k == 0 {
      assert Map(Delivery, Filter(PendingIn(r), s.orders[..0])) == [];
    } else {
      DeliveriesEvents(r, s, now, k - 1);
      EventsNext(r, s, Deliveries(s, r, now, k - 1).value, k - 1, now);
    }
  }

  ghost predicate Sound(r: nat, result: Result<Script, Failure>) {
    match result
    case Ok(t) => ScriptInv(r, t)
    case Err(_) => false
  }

  lemma DeliverAtKeeps(r: nat, s: Script, now: int, i: nat)
    requires ScriptInv(r, s) && i < |s.orders|
    requires Pending(s.orders[i], r) ==> s.orders[i].eta.Some? && s.orders[i].eta.value <= s.run.world.time
    ensures Sound(r, DeliverAt(s, r, now, i))
  {
    if Pending(s.orders[i], r) {
      var quantity := s.orders[i].accepted - s.orders[i].received;
      assert DeliverAt(s, r, now, i) == Ok(ReceiveRow(s, i, quantity, now)) by { OpenIsInTransit(r, s, i); }
      ReceiveKeeps(r, s, i, quantity, now);
    } else {
      assert DeliverAt(s, r, now, i) == Ok(s);
    }
  }

  lemma NextRowIsDue(r: nat, s: Script, now: int, k: nat)
    requires k < |s.orders| && EtasWithin(s.orders, r, s.run.world.time) && Deliveries(s, r, now, k).Ok?
    ensures var t := Deliveries(s, r, now, k).value;
      k < |t.orders|
      && (Pending(t.orders[k], r) ==> t.orders[k].eta.Some? && t.orders[k].eta.value <= t.run.world.time)
  {
    DeliveriesRows(r, s, now, k);
  }

  /** From a sound state deliveries never stop halfway. */
  lemma {:induction false} DeliveriesKeep(r: nat, s: Script, now: int, k: nat)
    requires ScriptInv(r, s) && k <= |s.orders| && EtasWithin(s.orders, r, s.run.world.time)
    ensures Sound(r, Deliveries(s, r, now, k))
  {
    if k > 0 {
      DeliveriesKeep(r, s, now, k - 1);
      NextRowIsDue(r, s, now, k - 1);
      DeliverAtKeeps(r, Deliveries(s, r, now, k - 1).value, now, k - 1);
    }
  }

  // ---------------------------------------------------------------- the SC01 schedule

  function LatestStart(stepIndex: nat): int {
    match stepIndex
    case 0 => 0
    case 1 => DAY
    case 2 => DAY + HOUR
    case 3 => DAY + 2 * HOUR
    case _ => 2 * DAY + 2 * HOUR
  }

  /** Where the script can be in time and stock at each of its positions. */
  ghost predicate ScheduleInv(r: nat, s: Script) {
    var run := s.run;
    if run.configuration.scenario == SC01 then
      && run.stepIndex <= 4 && run.world.time <= run.seed.world.time + LatestStart(run.stepIndex)
      && EtasWithin(s.orders, r, run.world.time + DAY)
      && (run.stepIndex <= 1 ==> run.world.onHand >= 20)
      && run.world.receivables == if run.stepIndex >= 2 then 20000 else 0
    else
      run.stepIndex == 0 && run.world.receivables <= MAX_INT
  }

  lemma NextStepKeeps(r: nat, s: Script)
    requires ScriptInv(r, s)
    ensures ScriptInv(r, s.(run := NextStep(s.run)))
  {
  }

  lemma DeliveryStepSucceeds(r: nat, s: Script, now: int)
    requires ScriptInv(r, s) && AnyPending(s.orders, r)
    requires EtasWithin(s.orders, r, s.run.world.time + DAY) && s.run.world.time + DAY <= s.run.seed.horizon
    ensures DeliveryStep(s, r, now).Ok?
    ensures var t := DeliveryStep(s, r, now).value;
      && ScriptInv(r, t) && t.run.stepIndex == s.run.stepIndex && t.run.configuration == s.run.configuration
      && s.run.world.time <= t.run.world.time <= s.run.world.time + DAY && t.run.seed == s.run.seed
      && t.run.world.onHand >= s.run.world.onHand && t.run.world.receivables == s.run.world.receivables
      && !AnyPending(t.orders, r)
  {
    var bound := s.run.world.time + DAY;
    LatestEtaBounds(s.orders, r, s.run.world.time, |s.orders|, bound);
    var time := LatestEta(s.orders, r, s.run.world.time, |s.orders|);
    var u := s.(run := Stamp(s.run, time, now));
    StampKeeps(r, s, time, now);
    DeliveriesKeep(r, u, now, |s.orders|);
    DeliveriesRows(r, u, now, |s.orders|);
  }

  /** What a script step leaves behind: a sound state at the next position of the schedule. */
  ghost predicate StepLeaves(r: nat, t: Script) {
    ScriptInv(r, t) && ScheduleInv(r, t)
  }

  lemma DeliveryStepKeeps(r: nat, s: Script, now: int)
    requires ScriptInv(r, s) && ScheduleInv(r, s) && s.run.configuration.scenario == SC01 && s.run.stepIndex in {0, 3}
    requires AnyPending(s.orders, r)
    ensures DeliveryStep(s, r, now).Ok?
    ensures var t := DeliveryStep(s, r, now).value; StepLeaves(r, t.(run := NextStep(t.run)))
  {
    DeliveryStepSucceeds(r, s, now);
    NextStepKeeps(r, DeliveryStep(s, r, now).value);
  }

  lemma SaleStepKeeps(r: nat, s: Script, time: int, tick: Tick)
    requires ScriptInv(r, s) && s.run.stepIndex == 1 && s.run.world.onHand >= 20
    requires s.run.world.time <= time && time + HOUR < s.run.seed.horizon
    ensures var result := HourStep(s.run, time, tick);
      && result.Ok? && ScriptInv(r, s.(run := result.value))
      && result.value == s.run.(world := result.value.world, events := result.value.events,
                                lastSequence := result.value.lastSequence)
      && result.value.world.time == time + HOUR && result.value.world.receivables == s.run.world.receivables + 20000
  {
    StampKeeps(r, s, time + HOUR, tick.now);
    SellKeeps(r, s.(run := Stamp(s.run, time + HOUR, tick.now)), 10, 2000, tick.now);
  }

  lemma DemandStepKeeps(r: nat, s: Script, time: int, tick: Tick)
    requires ScriptInv(r, s) && s.run.stepIndex != 1
    requires s.run.world.time <= time && time + HOUR < s.run.seed.horizon
    ensures var result := HourStep(s.run, time, tick);
      && result.Ok? && ScriptInv(r, s.(run := result.value))
      && result.value == s.run.(world := result.value.world, events := result.value.events,
                                lastSequence := result.value.lastSequence)
      && result.value.world.time == time + HOUR && result.value.world.receivables == s.run.world.receivables
  {
    StampKeeps(r, s, time + HOUR, tick.now);
    ReviseKeeps(r, s.(run := Stamp(s.run, time + HOUR, tick.now)), 70, tick.version, tick.now);
  }

  lemma SkipStepKeeps(r: nat, s: Script, tick: Tick)
    requires ScriptInv(r, s) && ScheduleInv(r, s) && s.run.configuration.scenario == SC01
    requires s.run.stepIndex == 0 && !AnyPending(s.orders, r)
    ensures var result := HourStep(NextStep(s.run), s.run.world.time + DAY, tick);
      result.Ok? && StepLeaves(r, s.(run := NextStep(result.value)))
  {
    NextStepKeeps(r, s);
    SaleStepKeeps(r, s.(run := NextStep(s.run)), s.run.world.time + DAY, tick);
    NextStepKeeps(r, s.(run := HourStep(NextStep(s.run), s.run.world.time + DAY, tick).value));
  }

  lemma HourStepKeeps(r: nat, s: Script, tick: Tick)
    requires ScriptInv(r, s) && ScheduleInv(r, s) && s.run.configuration.scenario == SC01 && s.run.stepIndex in {1, 2}
    ensures var result := HourStep(s.run, s.run.world.time, tick);
      result.Ok? && StepLeaves(r, s.(run := NextStep(result.value)))
  {
    if s.run.stepIndex == 1 {
      SaleStepKeeps(r, s, s.run.world.time, tick);
    } else {
      DemandStepKeeps(r, s, s.run.world.time, tick);
    }
    NextStepKeeps(r, s.(run := HourStep(s.run, s.run.world.time, tick).value));
  }

  /** Exactly when a script step succeeds; all its other refusals are unreachable. */
  predicate StepReady(s: Script, r: nat, skip: bool) {
    s.run.stepIndex < 4 && (s.run.stepIndex in {0, 3} && !AnyPending(s.orders, r) ==> s.run.stepIndex == 0 && skip)
  }

  /** A step succeeds exactly when it is ready, and then leaves a sound state. */
  ghost predicate StepMeets(r: nat, s: Script, skip: bool, tick: Tick) {
    var result := ScriptStep(s, r, skip, tick);
    (result.Ok? <==> StepReady(s, r, skip)) && (result.Ok? ==> StepLeaves(r, result.value))
  }

  lemma DeliveryExactly(r: nat, s: Script, skip: bool, tick: Tick)
    requires StepLeaves(r, s) && s.run.configuration.scenario == SC01 && s.run.stepIndex in {0, 3}
    requires AnyPending(s.orders, r)
    ensures StepMeets(r, s, skip, tick)
  {
    DeliveryStepKeeps(r, s, tick.now);
  }

  lemma SkipExactly(r: nat, s: Script, skip: bool, tick: Tick)
    requires StepLeaves(r, s) && s.run.configuration.scenario == SC01 && s.run.stepIndex == 0
    requires !AnyPending(s.orders, r)
    ensures StepMeets(r, s, skip, tick)
  {
    SkipStepKeeps(r, s, tick);
  }

  lemma HourExactly(r: nat, s: Script, skip: bool, tick: Tick)
    requires StepLeaves(r, s) && s.run.configuration.scenario == SC01 && s.run.stepIndex in {1, 2}
    ensures StepMeets(r, s, skip, tick)
  {
    HourStepKeeps(r, s, tick);
  }

  lemma StepExactly(r: nat, s: Script, skip: bool, tick: Tick)
    requires StepLeaves(r, s) && s.run.configuration.scenario == SC01
    ensures StepMeets(r, s, skip, tick)
  {
    if s.run.stepIndex in {1, 2} {
      HourExactly(r, s, skip, tick);
    } else if s.run.stepIndex in {0, 3} {
      if AnyPending(s.orders, r) {
        DeliveryExactly(r, s, skip, tick);
      } else if s.run.stepIndex == 0 {
        SkipExactly(r, s, skip, tick);
      }
    }
  }

  lemma {:induction false} StepsKeep(r: nat, s: Script, skip: bool, ticks: seq<Tick>)
    requires StepLeaves(r, s) && s.run.configuration.scenario == SC01
    requires ScriptSteps(s, r, skip, ticks).Ok?
    ensures StepLeaves(r, ScriptSteps(s, r, skip, ticks).value)
    ensures ScriptSteps(s, r, skip, ticks).value.run.configuration == s.run.configuration
  {
    if ticks != [] {
      var before := ticks[..|ticks| - 1];
      StepsKeep(r, s, skip, before);
      StepExactly(r, ScriptSteps(s, r, skip, before).value, skip, ticks[|ticks| - 1]);
      StepFixed(ScriptSteps(s, r, skip, before).value, r, skip, ticks[|ticks| - 1]);
    }
  }

  /** What no script step changes. */
  ghost predicate Fixed(r: nat, s: Script, t: Script) {
    && t.run.configuration == s.run.configuration && t.run.commandKey == s.run.commandKey && t.run.seed == s.run.seed
    && s.run.events <= t.run.events && s.run.world.time <= t.run.world.time && Touches(r, s.orders, t.orders)
  }

  lemma {:induction false} DeliveriesFixed(s: Script, r: nat, now: int, k: nat)
    requires k <= |s.orders| && Deliveries(s, r, now, k).Ok?
    ensures Fixed(r, s, Deliveries(s, r, now, k).value)
  {
    if k > 0 { DeliveriesFixed(s, r, now, k - 1); }
  }

  lemma {:induction false} LatestEtaAtLeast(orders: seq<Order>, r: nat, time: int, k: nat)
    requires k <= |orders| && EtasKnown(orders, r)
    ensures time <= LatestEta(orders, r, time, k)
  {
    if k > 0 { LatestEtaAtLeast(orders, r, time, k - 1); }
  }

  lemma StepFixed(s: Script, r: nat, skip: bool, tick: Tick)
    requires ScriptStep(s, r, skip, tick).Ok?
    ensures Fixed(r, s, ScriptStep(s, r, skip, tick).value)
  {
    if s.run.stepIndex in {0, 3} && !(s.run.stepIndex == 0 && skip && !AnyPending(s.orders, r)) {
      var time := LatestEta(s.orders, r, s.run.world.time, |s.orders|);
      LatestEtaAtLeast(s.orders, r, s.run.world.time, |s.orders|);
      DeliveriesFixed(s.(run := Stamp(s.run, time, tick.now)), r, tick.now, |s.orders|);
    }
  }

  lemma {:induction false} StepsFixed(s: Script, r: nat, skip: bool, ticks: seq<Tick>)
    requires ScriptSteps(s, r, skip, ticks).Ok?
    ensures Fixed(r, s, ScriptSteps(s, r, skip, ticks).value)
  {
    if ticks != [] {
      var t := ScriptSteps(s, r, skip, ticks[..|ticks| - 1]).value;
      StepsFixed(s, r, skip, ticks[..|ticks| - 1]);
      StepFixed(t, r, skip, ticks[|ticks| - 1]);
      FixedTransitive(r, s, t, ScriptSteps(s, r, skip, ticks).value);
    }
  }

  lemma FixedTransitive(r: nat, s: Script, t: Script, u: Script)
    requires Fixed(r, s, t) && Fixed(r, t, u)
    ensures Fixed(r, s, u)
  {
  }

  // ---------------------------------------------------------------- manual triggers

  /** Everything but receivables is bounded by how the run was set up. */
  lemma WorldLimits(r: nat, s: Script)
    requires ScriptInv(r, s)
    ensures WorldValid(s.run.world) <==> s.run.world.receivables <= MAX_INT
  {
    SumBelow(AcceptedIn(r), SpentIn(r), s.orders);
    SumNonnegative(AcceptedIn(r), s.orders);
    SumNonnegative(RemainingIn(r), s.orders);
    SumNonnegative(SoldBy, s.run.events);
  }

  lemma ArrivalKeeps(r: nat, s: Script, kind: Kind, tick: Tick)
    requires ScriptInv(r, s) && kind.Arrival? && Triggers(s, r, kind, tick).Ok?
    ensures ScriptInv(r, Triggers(s, r, kind, tick).value)
  {
    var i := Find(s.orders, kind.action);
    var time := Max(s.run.world.time, s.orders[i].eta.value);
    var quantity := if kind.amount.None? then s.orders[i].accepted - s.orders[i].received else kind.amount.value;
    var u := s.(run := Stamp(s.run, time, tick.now));
    assert Triggers(s, r, kind, tick) == Ok(ReceiveRow(u, i, quantity, tick.now));
    StampKeeps(r, s, time, tick.now);
    ReceiveKeeps(r, u, i, quantity, tick.now);
  }

  lemma SaleKeeps(r: nat, s: Script, kind: Kind, tick: Tick)
    requires ScriptInv(r, s) && kind.Sale? && KindValid(kind) && Triggers(s, r, kind, tick).Ok?
    ensures ScriptInv(r, Triggers(s, r, kind, tick).value)
  {
    var time := s.run.world.time + kind.advanceSeconds * SECOND;
    var u := s.(run := Stamp(s.run, time, tick.now));
    assert Triggers(s, r, kind, tick) == Ok(u.(run := Sell(u.run, kind.quantity, kind.unitPrice, tick.now)));
    StampKeeps(r, s, time, tick.now);
    SellKeeps(r, u, kind.quantity, kind.unitPrice, tick.now);
  }

  lemma DemandKeeps(r: nat, s: Script, kind: Kind, tick: Tick)
    requires ScriptInv(r, s) && kind.Demand? && KindValid(kind) && Triggers(s, r, kind, tick).Ok?
    ensures ScriptInv(r, Triggers(s, r, kind, tick).value)
  {
    var time := s.run.world.time + kind.advanceSeconds * SECOND;
    var u := s.(run := Stamp(s.run, time, tick.now));
    assert Triggers(s, r, kind, tick) == Ok(u.(run := Revise(u.run, kind.remaining, tick.version, tick.now)));
    StampKeeps(r, s, time, tick.now);
    ReviseKeeps(r, u, kind.remaining, tick.version, tick.now);
  }

  lemma TriggersKeep(r: nat, s: Script, kind: Kind, tick: Tick)
    requires ScriptInv(r, s) && KindValid(kind) && Triggers(s, r, kind, tick).Ok?
    ensures ScriptInv(r, Triggers(s, r, kind, tick).value)
  {
    match kind
    case Arrival(_, _) => ArrivalKeeps(r, s, kind, tick);
    case Sale(_, _, _) => SaleKeeps(r, s, kind, tick);
    case Demand(_, _) => DemandKeeps(r, s, kind, tick);
  }

  lemma TriggersFixed(s: Script, r: nat, kind: Kind, tick: Tick)
    requires Triggers(s, r, kind, tick).Ok?
    ensures Fixed(r, s, Triggers(s, r, kind, tick).value)
      && Triggers(s, r, kind, tick).value.run.stepIndex == s.run.stepIndex
  {
  }
}
