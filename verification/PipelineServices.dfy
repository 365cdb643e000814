/** The actions of the two services keep the invariant: a statement of the inventory database, an order
    transaction. Reservations and orders are only ever added. */
module PipelineServices {
  import opened Text
  import opened StreamMessages
  import opened RedisSlot
  import OrderEvents
  import Inventory
  import Orders
  import opened Pipeline
  import opened PipelineInvariant
  import opened PipelineSteps

  // ---------------------------------------------------------------- inventory statements

  lemma StockSame(db: Inventory.Db, db': Inventory.Db, sales: map<nat, Sale>)
    requires StockOk(db.items, sales) && Inventory.Grows(db, db')
    ensures StockOk(db'.items, sales) && db.reservations.Keys <= db'.reservations.Keys
  {
  }

  /** A service that only added sound reservations and moved its calls on keeps the invariant. */
  lemma InventoryMoves(w: World, inv: Inventory.Service)
    requires CoreInv(w) && Inventory.ServiceInv(inv) && Inventory.Grows(w.inv.db, inv.db)
    requires ReservationsOk(inv.db.reservations, w.admitted) && CallsOk(inv.calls, w.admitted)
    ensures CoreInv(w.(inv := inv))
  {
    hide *;
    Open(w);
    StockSame(w.inv.db, inv.db, w.sales);
    Close(w.(inv := inv));
  }

  lemma CallInput(calls: map<nat, Inventory.Call>, c: nat, a: Admissions)
    requires CallsOk(calls, a) && c in calls
    ensures CallOk(calls[c], a)
  {
  }

  lemma PutCall(calls: map<nat, Inventory.Call>, c: nat, call: Inventory.Call, a: Admissions)
    requires CallsOk(calls, a) && CallOk(call, a)
    ensures CallsOk(calls[c := call], a)
  {
    hide CallOk;
  }

  /** The stock row of an admitted request exists and belongs to the request's activity. */
  lemma ItemKnown(o: string, w: World)
    requires o in w.admitted && AdmissionsOk(w.admitted, w.sales, w.clock) && StockOk(w.inv.db.items, w.sales)
    ensures var t := w.admitted[o];
            t.orderNo == o && t.item in w.inv.db.items && w.inv.db.items[t.item].activity == t.activity
  {
    assert AdmissionOk(o, w.admitted[o], w.sales, w.clock);
    hide Admissible;
    hide OrderEvents.SourceOf;
  }

  /** A reservation under an admitted number is the admitted request, so replaying it never conflicts. */
  lemma ReplayGrants(rs: map<string, Inventory.Reservation>, a: Admissions, i: Inventory.Input)
    requires ReservationsOk(rs, a) && i.orderNo in a && i == InputOf(a[i.orderNo]) && i.orderNo in rs
    ensures Inventory.ReplayOrder(rs[i.orderNo], i).Granted?
  {
    assert ReservationOk(i.orderNo, rs[i.orderNo], a);
  }

  lemma NextPhaseOk(db: Inventory.Db, c: Inventory.Call, a: Admissions)
    requires CallOk(c, a) && ReservationsOk(db.reservations, a)
    requires c.input.item in db.items && db.items[c.input.item].activity == c.input.activity
    ensures CallOk(c.(phase := Inventory.NextPhase(db, c.input, c.phase)), a)
  {
    if c.input.orderNo in db.reservations {
      ReplayGrants(db.reservations, a, c.input);
    }
    hide ReservationsOk;
    hide Inventory.Insert;
    hide Inventory.ReplayOrder;
  }

  lemma NextDbOk(db: Inventory.Db, c: Inventory.Call, a: Admissions)
    requires CallOk(c, a) && ReservationsOk(db.reservations, a) && a[c.input.orderNo].orderNo == c.input.orderNo
    ensures ReservationsOk(Inventory.NextDb(db, c.input, c.phase).reservations, a)
  {
    var db' := Inventory.NextDb(db, c.input, c.phase);
    forall o | o in db'.reservations
      ensures ReservationOk(o, db'.reservations[o], a)
    {
      assert o in db.reservations ==> ReservationOk(o, db.reservations[o], a);
    }
  }

  lemma AdvanceEffect(s: Inventory.Service, c: nat, fault: Inventory.Fault)
    ensures var s' := Inventory.Advance(s, c, fault);
            || s' == s
            || (&& c in s.calls
                && (s'.db == s.db || s'.db == Inventory.NextDb(s.db, s.calls[c].input, s.calls[c].phase))
                && (|| s'.calls == s.calls[c := s.calls[c].(phase := Inventory.Answered(Inventory.Refused(Inventory.Unknown)))]
                    || s'.calls == s.calls[c := s.calls[c].(phase := Inventory.NextPhase(s.db, s.calls[c].input, s.calls[c].phase))]))
  {
    hide Inventory.NextDb;
    hide Inventory.NextPhase;
  }

  lemma UnknownCallOk(c: Inventory.Call, a: Admissions)
    requires CallOk(c, a)
    ensures CallOk(c.(phase := Inventory.Answered(Inventory.Refused(Inventory.Unknown))), a)
    ensures c.input.orderNo in a && c.input == InputOf(a[c.input.orderNo])
    ensures c.input.item == a[c.input.orderNo].item && c.input.activity == a[c.input.orderNo].activity
  {
  }

  lemma StatementKeepsCore(w: World, call: nat, fault: Inventory.Fault)
    requires CoreInv(w)
    ensures CoreInv(w.(inv := Inventory.Advance(w.inv, call, fault)))
  {
    hide *;
    Open(w);
    AdvanceEffect(w.inv, call, fault);
    Inventory.AdvanceKeepsInv(w.inv, call, fault);
    var inv := Inventory.Advance(w.inv, call, fault);
    if inv != w.inv {
      var c := w.inv.calls[call];
      CallInput(w.inv.calls, call, w.admitted);
      UnknownCallOk(c, w.admitted);
      ItemKnown(c.input.orderNo, w);
      NextPhaseOk(w.inv.db, c, w.admitted);
      NextDbOk(w.inv.db, c, w.admitted);
      PutCall(w.inv.calls, call, c.(phase := Inventory.Answered(Inventory.Refused(Inventory.Unknown))), w.admitted);
      PutCall(w.inv.calls, call, c.(phase := Inventory.NextPhase(w.inv.db, c.input, c.phase)), w.admitted);
    }
    InventoryMoves(w, inv);
  }

  lemma BeginKeepsService(s: Inventory.Service, c: nat, i: Inventory.Input)
    requires Inventory.ServiceInv(s)
    ensures Inventory.ServiceInv(Inventory.Begin(s, c, i)) && Inventory.Grows(s.db, Inventory.Begin(s, c, i).db)
    ensures var s' := Inventory.Begin(s, c, i); s'.db == s.db && (s'.calls == s.calls || s'.calls == s.calls[c := Inventory.Call(i, Inventory.Lookup)])
  {
    hide Inventory.ServiceInv;
    Inventory.ExecKeepsInv(s, Inventory.BeginCall(c, i));
  }

  lemma NewCallOk(k: Worker, w: World)
    requires k.Reserving? && WorkerOk(k, w.sales, w.admitted, w.ord.orders.Keys)
    ensures CallOk(Inventory.Call(InputOf(k.task), Inventory.Lookup), w.admitted)
  {
  }

  lemma CallEffect(w: World, worker: nat, call: nat)
    ensures DoCallInventory(w, worker, call) ==
            if worker in w.workers && w.workers[worker].Reserving?
            then w.(inv := Inventory.Begin(w.inv, call, InputOf(w.workers[worker].task))) else w
  {
    hide Inventory.Begin;
  }

  lemma CallKeepsCore(w: World, worker: nat, call: nat)
    requires CoreInv(w)
    ensures CoreInv(DoCallInventory(w, worker, call))
  {
    hide *;
    CallEffect(w, worker, call);
    if worker in w.workers && w.workers[worker].Reserving? {
      Open(w);
      WorkerFacts(w, worker);
      var k := w.workers[worker];
      NewCallOk(k, w);
      BeginKeepsService(w.inv, call, InputOf(k.task));
      PutCall(w.inv.calls, call, Inventory.Call(InputOf(k.task), Inventory.Lookup), w.admitted);
      InventoryMoves(w, Inventory.Begin(w.inv, call, InputOf(k.task)));
    }
  }

  // ---------------------------------------------------------------- more orders

  lemma ResultsOrders(item: nat, results: map<string, string>, a: Admissions, orders: set<string>, more: set<string>)
    requires ResultsOk(item, results, a, orders) && orders <= more
    ensures ResultsOk(item, results, a, more)
  {
    hide ResultValue;
    forall o | o in results
      ensures ResultOk(item, o, results[o], a, more)
    {
      assert ResultOk(item, o, results[o], a, orders);
    }
  }

  lemma SlotOrders(item: nat, s: Slot, sale: Sale, a: Admissions, orders: set<string>, more: set<string>, maxDeliveries: nat)
    requires SlotOk(item, s, sale, a, orders, maxDeliveries) && orders <= more
    ensures SlotOk(item, s, sale, a, more, maxDeliveries)
  {
    hide HashOk;
    hide StreamOk;
    hide RetriesOk;
    hide ResultsOk;
    hide LedgerOk;
    ResultsOrders(item, s.results, a, orders, more);
  }

  lemma SlotsOrders(slots: map<nat, Slot>, sales: map<nat, Sale>, a: Admissions, orders: set<string>, more: set<string>, maxDeliveries: nat)
    requires SlotsOk(slots, sales, a, orders, maxDeliveries) && orders <= more
    ensures SlotsOk(slots, sales, a, more, maxDeliveries)
  {
    hide SlotOk;
    forall item | item in slots
      ensures SlotOk(item, slots[item], sales[item], a, more, maxDeliveries)
    {
      SlotOrders(item, slots[item], sales[item], a, orders, more, maxDeliveries);
    }
  }

  lemma NoneLostOrders(a: Admissions, slots: map<nat, Slot>, orders: set<string>, more: set<string>)
    requires NoneLost(a, slots, orders) && orders <= more
    ensures NoneLost(a, slots, more)
  {
    hide InStream;
    hide InDlq;
    forall o | o in a
      ensures Accounted(o, a[o], slots, more)
    {
      assert Accounted(o, a[o], slots, orders);
    }
  }

  lemma WorkersOrders(workers: map<nat, Worker>, sales: map<nat, Sale>, a: Admissions, orders: set<string>, more: set<string>)
    requires WorkersOk(workers, sales, a, orders) && orders <= more
    ensures WorkersOk(workers, sales, a, more)
  {
    hide TaskOk;
    hide SnapshotOk;
    forall k | k in workers
      ensures WorkerOk(workers[k], sales, a, more)
    {
      assert WorkerOk(workers[k], sales, a, orders);
    }
  }

  /** An order database that only gained sound orders keeps the invariant. */
  lemma OrdersGrow(w: World, ord: Orders.Db)
    requires CoreInv(w) && Orders.OutboxMatches(ord) && w.ord.orders.Keys <= ord.orders.Keys
    requires StreamOrdersOk(ord.orders, w.sales, w.admitted)
    ensures CoreInv(w.(ord := ord))
  {
    hide *;
    Open(w);
    var orders, more := w.ord.orders.Keys, ord.orders.Keys;
    SlotsOrders(w.slots, w.sales, w.admitted, orders, more, w.maxDeliveries);
    NoneLostOrders(w.admitted, w.slots, orders, more);
    WorkersOrders(w.workers, w.sales, w.admitted, orders, more);
    Close(w.(ord := ord));
  }

  // ---------------------------------------------------------------- order transactions

  /** A create adds its own order at most. */
  lemma CreateEffect(db: Orders.Db, user: nat, rawOrderNo: string, inputs: seq<Orders.ItemInput>, createdAt: int)
    ensures var (db', outcome) := Orders.CreateIdempotent(db, user, rawOrderNo, inputs, createdAt); var o := TrimSpace(rawOrderNo);
            || (db' == db && !outcome.Created?)
            || (&& outcome.Created? && o !in db.orders && db'.orders == db.orders[o := outcome.order]
                && outcome.order.user == user
                && Orders.NormalizeItems(user, o, inputs) == Orders.Normal(outcome.order.items, outcome.order.total))
  {
    hide TrimSpace;
    hide Orders.NormalizeItems;
    hide Orders.EventOf;
    hide Orders.NewRow;
  }

  lemma PutOrder(orders: map<string, Orders.Order>, o: string, order: Orders.Order, sales: map<nat, Sale>, a: Admissions)
    requires StreamOrdersOk(orders, sales, a) && StreamOrderOk(o, order, sales, a)
    ensures StreamOrdersOk(orders[o := order], sales, a) && orders.Keys <= orders[o := order].Keys
  {
    hide StreamOrderOk;
  }

  lemma NormalOrderOk(o: string, order: Orders.Order, w: World)
    requires OrderEvents.SourceOf(o) != OrderEvents.SOURCE_SECKILL
    ensures StreamOrderOk(o, order, w.sales, w.admitted)
  {
    hide OrderEvents.SourceOf;
  }

  lemma PlaceEffect(w: World, user: nat, orderNo: string, inputs: seq<Orders.ItemInput>, createdAt: int)
    ensures DoPlaceNormalOrder(w, user, orderNo, inputs, createdAt) ==
            if OrderEvents.SourceOf(TrimSpace(orderNo)) == OrderEvents.SOURCE_SECKILL then w
            else w.(ord := Orders.CreateIdempotent(w.ord, user, orderNo, inputs, createdAt).0)
  {
    hide Orders.CreateIdempotent;
    hide OrderEvents.SourceOf;
    hide TrimSpace;
  }

  lemma PlaceKeepsCore(w: World, user: nat, orderNo: string, inputs: seq<Orders.ItemInput>, createdAt: int)
    requires CoreInv(w)
    ensures CoreInv(DoPlaceNormalOrder(w, user, orderNo, inputs, createdAt))
  {
    hide *;
    Open(w);
    PlaceEffect(w, user, orderNo, inputs, createdAt);
    var o := TrimSpace(orderNo);
    if OrderEvents.SourceOf(o) != OrderEvents.SOURCE_SECKILL {
      var (ord, outcome) := Orders.CreateIdempotent(w.ord, user, orderNo, inputs, createdAt);
      CreateEffect(w.ord, user, orderNo, inputs, createdAt);
      Orders.CreateKeepsOutbox(w.ord, user, orderNo, inputs, createdAt);
      if outcome.Created? {
        NormalOrderOk(o, outcome.order, w);
        PutOrder(w.ord.orders, o, outcome.order, w.sales, w.admitted);
      }
      OrdersGrow(w, ord);
    }
  }

  /** A request the pipeline sends passes every check of the order service, whatever the database holds. */
  lemma RequestIsNormal(q: OrderRequest, w: World)
    requires TaskOk(q.task.item, q.task, w.admitted) && SnapshotOk(q.task, q.snapshot, w.sales)
    requires SalesOk(w.sales) && AdmissionsOk(w.admitted, w.sales, w.clock)
    ensures var t := q.task;
            && TrimSpace(t.orderNo) == t.orderNo && t.orderNo != "" && 0 < t.user
            && ValidSale(t.item, w.sales[t.item]) && 0 < t.reservedAt && 0 < t.activity && 0 < t.item
  {
    assert AdmissionOk(q.task.orderNo, q.task, w.sales, w.clock);
    Trims(q.task.orderNo);
    hide Trimmed;
    hide TrimSpace;
    hide OrderEvents.SourceOf;
  }

  lemma OneItemIsNormal(user: nat, orderNo: string, s: Inventory.Snapshot)
    requires user != 0 && orderNo != "" && s.sku != 0 && 0 <= s.price
    requires TrimSpace(s.productName) != "" && TrimSpace(s.skuCode) != "" && TrimSpace(s.skuName) != ""
    ensures Orders.NormalizeItems(user, orderNo, [OrderInput(s)]).Normal?
  {
    hide TrimSpace;
    var inputs := [OrderInput(s)];
    assert Orders.ValidInput(inputs[0]);
    var amounts := Orders.Amounts(inputs);
    assert amounts == [s.price];
    assert amounts[..0] == [];
    assert Orders.Sum(amounts) == s.price;
  }

  lemma SeckillIsCreate(db: Orders.Db, q: OrderRequest, createdAt: int, sale: Sale)
    requires q.snapshot == sale.snapshot && ValidSale(q.task.item, sale)
    requires TrimSpace(q.task.orderNo) == q.task.orderNo && q.task.orderNo != "" && 0 < q.task.user
    requires 0 < q.task.reservedAt && 0 < q.task.activity && 0 < q.task.item
    ensures CreateSeckill(db, q.task, q.snapshot, createdAt)
         == Orders.CreateIdempotent(db, q.task.user, q.task.orderNo, [OrderInput(sale.snapshot)], createdAt)
    ensures Orders.NormalizeItems(q.task.user, q.task.orderNo, [OrderInput(sale.snapshot)]).Normal?
  {
    hide TrimSpace;
    hide Orders.NormalizeItems;
    hide Orders.CreateIdempotent;
    OneItemIsNormal(q.task.user, q.task.orderNo, sale.snapshot);
  }

  /** A known order under the request's number is the request's own: the create is a replay. */
  lemma KnownOrderReplays(db: Orders.Db, t: Task, createdAt: int, sales: map<nat, Sale>)
    requires t.orderNo in db.orders && OrderMatches(db.orders[t.orderNo], t, sales) && TrimSpace(t.orderNo) == t.orderNo
    ensures Orders.CreateIdempotent(db, t.user, t.orderNo, [OrderInput(sales[t.item].snapshot)], createdAt)
         == (db, Orders.Replayed(db.orders[t.orderNo]))
  {
    hide TrimSpace;
    hide Orders.NormalizeItems;
  }

  lemma FreshOrderOutcome(db: Orders.Db, user: nat, o: string, inputs: seq<Orders.ItemInput>, createdAt: int)
    requires o !in db.orders && TrimSpace(o) == o && Orders.NormalizeItems(user, o, inputs).Normal?
    ensures var outcome := Orders.CreateIdempotent(db, user, o, inputs, createdAt).1; outcome.Created? || outcome.EventRefused?
  {
    hide TrimSpace;
    hide Orders.NormalizeItems;
    hide Orders.EventOf;
    hide Orders.Insert;
  }

  lemma StreamOrderFacts(w: World, t: Task)
    requires StreamOrdersOk(w.ord.orders, w.sales, w.admitted) && t.orderNo in w.ord.orders
    requires TaskOk(t.item, t, w.admitted) && AdmissionsOk(w.admitted, w.sales, w.clock)
    ensures OrderMatches(w.ord.orders[t.orderNo], t, w.sales)
  {
    assert StreamOrderOk(t.orderNo, w.ord.orders[t.orderNo], w.sales, w.admitted);
    assert AdmissionOk(t.orderNo, t, w.sales, w.clock);
    hide OrderMatches;
    hide OrderEvents.SourceOf;
    hide Admissible;
  }

  lemma RequestFacts(w: World, q: OrderRequest)
    requires RequestsOk(w.requests, w.sales, w.admitted) && q in w.requests
    ensures TaskOk(q.task.item, q.task, w.admitted) && SnapshotOk(q.task, q.snapshot, w.sales)
    ensures q.task.item in w.sales && q.snapshot == w.sales[q.task.item].snapshot
  {
    hide TaskOk;
  }

  /** However often a request is executed, the answer is the one order of that request, or, when the
      server's clock is before 1970, a refusal of its event; never a conflict. */
  lemma RequestNeverConflicts(w: World, q: OrderRequest, createdAt: int)
    requires CoreInv(w) && q in w.requests
    ensures var (db', outcome) := CreateSeckill(w.ord, q.task, q.snapshot, createdAt);
            && q.task.item in w.sales
            && (q.task.orderNo in w.ord.orders ==> db' == w.ord && outcome == Orders.Replayed(w.ord.orders[q.task.orderNo]))
            && (q.task.orderNo !in w.ord.orders ==> outcome.Created? || outcome.EventRefused?)
            && (db', outcome) == Orders.CreateIdempotent(w.ord, q.task.user, q.task.orderNo, [OrderInput(w.sales[q.task.item].snapshot)], createdAt)
            && TrimSpace(q.task.orderNo) == q.task.orderNo
  {
    hide *;
    Open(w);
    RequestFacts(w, q);
    RequestIsNormal(q, w);
    SeckillIsCreate(w.ord, q, createdAt, w.sales[q.task.item]);
    if q.task.orderNo in w.ord.orders {
      StreamOrderFacts(w, q.task);
      KnownOrderReplays(w.ord, q.task, createdAt, w.sales);
    } else {
      FreshOrderOutcome(w.ord, q.task.user, q.task.orderNo, [OrderInput(w.sales[q.task.item].snapshot)], createdAt);
    }
  }

  lemma NewStreamOrderOk(w: World, q: OrderRequest, order: Orders.Order)
    requires TaskOk(q.task.item, q.task, w.admitted) && SnapshotOk(q.task, q.snapshot, w.sales)
    requires order.user == q.task.user
    requires q.task.item in w.sales && Orders.NormalizeItems(q.task.user, q.task.orderNo, [OrderInput(w.sales[q.task.item].snapshot)]) == Orders.Normal(order.items, order.total)
    ensures StreamOrderOk(q.task.orderNo, order, w.sales, w.admitted)
  {
    hide Orders.NormalizeItems;
    hide OrderEvents.SourceOf;
  }

  lemma ExecuteKeepsStore(w: World, q: OrderRequest, createdAt: int)
    requires CoreInv(w) && q in w.requests
    ensures var (db', outcome) := CreateSeckill(w.ord, q.task, q.snapshot, createdAt);
            CoreInv(w.(ord := db')) && (outcome.Created? || outcome.Replayed? ==> q.task.orderNo in db'.orders)
  {
    hide *;
    Open(w);
    RequestFacts(w, q);
    RequestNeverConflicts(w, q, createdAt);
    var inputs := [OrderInput(w.sales[q.task.item].snapshot)];
    var (db', outcome) := Orders.CreateIdempotent(w.ord, q.task.user, q.task.orderNo, inputs, createdAt);
    CreateEffect(w.ord, q.task.user, q.task.orderNo, inputs, createdAt);
    Orders.CreateKeepsOutbox(w.ord, q.task.user, q.task.orderNo, inputs, createdAt);
    if outcome.Created? {
      NewStreamOrderOk(w, q, outcome.order);
      PutOrder(w.ord.orders, q.task.orderNo, outcome.order, w.sales, w.admitted);
    }
    OrdersGrow(w, db');
  }

  lemma ExecuteEffect(w: World, q: OrderRequest, createdAt: int, answerTo: Option<nat>)
    requires q in w.requests
    ensures var (db', outcome) := CreateSeckill(w.ord, q.task, q.snapshot, createdAt);
            var w' := DoExecuteOrder(w, q, createdAt, answerTo);
            if !Awaits(w.workers, answerTo, q) then w' == w.(ord := db')
            else && answerTo.Some? && answerTo.value in w.workers && w.workers[answerTo.value].Ordering?
                 && w.workers[answerTo.value].task == q.task
                 && w' == w.(ord := db', workers := w.workers[answerTo.value := AfterOrder(w.workers[answerTo.value], outcome)])
  {
    hide CreateSeckill;
    hide AfterOrder;
  }

  lemma UnsentIsIgnored(w: World, q: OrderRequest, createdAt: int, answerTo: Option<nat>)
    requires q !in w.requests
    ensures DoExecuteOrder(w, q, createdAt, answerTo) == w
  {
    hide CreateSeckill;
  }

  lemma AnsweredOk(k: Worker, o: Orders.Outcome, w: World)
    requires k.Ordering? && WorkerOk(k, w.sales, w.admitted, w.ord.orders.Keys) && HoldsMessage(k, w.slots)
    requires o.Created? || o.Replayed? ==> k.task.orderNo in w.ord.orders
    ensures WorkerOk(AfterOrder(k, o), w.sales, w.admitted, w.ord.orders.Keys) && HoldsMessage(AfterOrder(k, o), w.slots)
  {
  }

  lemma ExecuteKeepsCore(w: World, q: OrderRequest, createdAt: int, answerTo: Option<nat>)
    requires CoreInv(w)
    ensures CoreInv(DoExecuteOrder(w, q, createdAt, answerTo))
  {
    hide *;
    if q !in w.requests {
      UnsentIsIgnored(w, q, createdAt, answerTo);
    } else {
      ExecuteEffect(w, q, createdAt, answerTo);
      ExecuteKeepsStore(w, q, createdAt);
      var (db', outcome) := CreateSeckill(w.ord, q.task, q.snapshot, createdAt);
      var w1 := w.(ord := db');
      if Awaits(w.workers, answerTo, q) {
        Open(w1);
        WorkerFacts(w1, answerTo.value);
        AnsweredOk(w1.workers[answerTo.value], outcome, w1);
        OneWorker(w1, answerTo.value, AfterOrder(w1.workers[answerTo.value], outcome));
      }
    }
  }

  lemma MoreRequests(w: World, k: Worker)
    requires RequestsOk(w.requests, w.sales, w.admitted) && k.Ordering?
    requires WorkerOk(k, w.sales, w.admitted, w.ord.orders.Keys)
    ensures RequestsOk(w.requests + {OrderRequest(k.task, k.snapshot)}, w.sales, w.admitted)
  {
  }

  lemma SendKeepsCore(w: World, worker: nat)
    requires CoreInv(w)
    ensures CoreInv(DoSendOrder(w, worker))
  {
    hide *;
    SendEffect(w, worker);
    if worker in w.workers && w.workers[worker].Ordering? {
      Open(w);
      WorkerFacts(w, worker);
      MoreRequests(w, w.workers[worker]);
      Close(DoSendOrder(w, worker));
    }
  }

  lemma SendEffect(w: World, worker: nat)
    ensures DoSendOrder(w, worker) ==
            if worker in w.workers && w.workers[worker].Ordering?
            then w.(requests := w.requests + {OrderRequest(w.workers[worker].task, w.workers[worker].snapshot)}) else w
  {
  }

  lemma AdmissionsLater(a: Admissions, sales: map<nat, Sale>, clock: int, later: int)
    requires AdmissionsOk(a, sales, clock) && clock <= later
    ensures AdmissionsOk(a, sales, later)
  {
    hide Admissible;
    hide OrderEvents.SourceOf;
    forall o | o in a
      ensures AdmissionOk(o, a[o], sales, later)
    {
      assert AdmissionOk(o, a[o], sales, clock);
    }
  }

  lemma TickKeepsCore(w: World, to: int)
    requires CoreInv(w) && w.clock <= to
    ensures CoreInv(w.(clock := to))
  {
    hide *;
    Open(w);
    AdmissionsLater(w.admitted, w.sales, w.clock, to);
    Close(w.(clock := to));
  }
}
