/** What timely runs keep beyond the core: an open gate accounts for every unit, a user has one number per item,
    and every stream order rests on its own reservation. The one assumption is that a publish executes before its
    sale starts. */
module PipelineTimed {
  import opened Text
  import opened OrderNumbers
  import opened StreamMessages
  import opened RedisSlot
  import OrderEvents
  import Inventory
  import Orders
  import opened Pipeline
  import opened PipelineInvariant
  import opened PipelineSteps
  import opened PipelineAdmission
  import opened PipelineServices
  import opened PipelineRuns

  lemma OpenTimed(w: World)
    requires TimedInv(w)
    ensures GatesOk(w.slots, w.sales, w.admitted) && OneEach(w.admitted) && Capped(w.admitted, w.sales)
    ensures OrdersReserved(w.ord.orders.Keys, w.inv.db.reservations.Keys)
    ensures RequestsReserved(w.requests, w.inv.db.reservations.Keys) && WorkersReserved(w.workers, w.inv.db.reservations.Keys)
  {
  }

  lemma CloseTimed(w: World)
    requires GatesOk(w.slots, w.sales, w.admitted) && OneEach(w.admitted) && Capped(w.admitted, w.sales)
    requires OrdersReserved(w.ord.orders.Keys, w.inv.db.reservations.Keys)
    requires RequestsReserved(w.requests, w.inv.db.reservations.Keys) && WorkersReserved(w.workers, w.inv.db.reservations.Keys)
    ensures TimedInv(w)
  {
  }

  lemma InvParts(w: World)
    ensures Inv(w) <==> CoreInv(w) && TimedInv(w)
  {
  }

  // ---------------------------------------------------------------- gates

  lemma PutGate(slots: map<nat, Slot>, sales: map<nat, Sale>, a: Admissions, item: nat, s: Slot)
    requires GatesOk(slots, sales, a) && item in sales && GateOk(item, s.state, s.buyers, sales[item], a)
    ensures GatesOk(slots[item := s], sales, a)
  {
    hide GateOk;
  }

  lemma ClosedGateOk(item: nat, sale: Sale, a: Admissions)
    ensures GateOk(item, NO_STATE, map[], sale, a)
  {
  }

  lemma CurrentGateOk(w: World, item: nat)
    requires GatesOk(w.slots, w.sales, w.admitted) && item in w.sales
    ensures GateOk(item, SlotOf(w, item).state, SlotOf(w, item).buyers, w.sales[item], w.admitted)
  {
    ClosedGateOk(item, w.sales[item], w.admitted);
    hide GateOk;
  }

  lemma GateSwap(w: World, item: nat, s: Slot)
    requires TimedInv(w) && item in w.sales && GateOk(item, s.state, s.buyers, w.sales[item], w.admitted)
    ensures TimedInv(w.(slots := w.slots[item := s]))
  {
    hide *;
    OpenTimed(w);
    PutGate(w.slots, w.sales, w.admitted, item, s);
    CloseTimed(w.(slots := w.slots[item := s]));
  }

  /** A script that touches neither state nor buyers. */
  lemma SameGate(w: World, item: nat, s: Slot)
    requires TimedInv(w) && item in w.sales && s.state == SlotOf(w, item).state && s.buyers == SlotOf(w, item).buyers
    ensures TimedInv(w.(slots := w.slots[item := s]))
  {
    hide *;
    OpenTimed(w);
    CurrentGateOk(w, item);
    GateSwap(w, item, s);
  }

  lemma FreshGateOk(w: World, read: Preheat, generation: string)
    requires AdmissionsOk(w.admitted, w.sales, w.clock) && PreheatsOk(w.preheats, w.sales)
    requires read in w.preheats && read.item in w.sales && w.clock < w.sales[read.item].startAt
    ensures GateOk(read.item, HashOf(read.item, w.sales[read.item], read.stock, generation), map[], w.sales[read.item], w.admitted)
  {
    UnsoldBeforeStart(w, read.item);
    hide AdmissionsOk;
  }

  lemma PublishKeepsTimed(w: World, read: Preheat)
    requires Inv(w) && (read.item in w.sales ==> w.clock < w.sales[read.item].startAt)
    ensures TimedInv(DoPublish(w, read))
  {
    hide *;
    InvParts(w);
    PublishEffect(w, read);
    if read in w.preheats && read.item in w.sales {
      Open(w);
      var sale := w.sales[read.item];
      var h := HashOf(read.item, sale, read.stock, Generation(sale, read.version));
      FreshGateOk(w, read, Generation(sale, read.version));
      GateSwap(w, read.item, SlotOf(w, read.item).(state := h, buyers := map[]));
    }
  }

  lemma InvalidateKeepsTimed(w: World, item: nat)
    requires TimedInv(w)
    ensures TimedInv(DoInvalidate(w, item))
  {
    hide *;
    InvalidateEffect(w, item);
    if item in w.sales {
      ClosedGateOk(item, w.sales[item], w.admitted);
      GateSwap(w, item, SlotOf(w, item).(state := NO_STATE, buyers := map[]));
    }
  }

  // ---------------------------------------------------------------- admissions

  lemma CappedKeep(a: Admissions, sales: map<nat, Sale>, o: string, t: Task)
    requires Capped(a, sales) && o !in a && t.item in sales && |AdmittedOf(a, t.item)| < sales[t.item].initial
    ensures Capped(a[o := t], sales)
  {
    hide AdmittedOf;
    forall item | item in sales
      ensures |AdmittedOf(a[o := t], item)| <= sales[item].initial
    {
      AdmittedOfGrows(a, o, t, item);
    }
  }

  lemma OneEachKeep(a: Admissions, o: string, t: Task, buyers: map<nat, string>)
    requires OneEach(a) && o !in a && BuyersOk(buyers, a, t.item) && t.user !in buyers
    ensures OneEach(a[o := t])
  {
    assert forall p :: p in a && a[p].item == t.item ==> a[p].user != t.user;
  }

  lemma OtherGateKeeps(item: nat, h: StateHash, buyers: map<nat, string>, sale: Sale, a: Admissions, o: string, t: Task)
    requires GateOk(item, h, buyers, sale, a) && o !in a && item != t.item
    ensures GateOk(item, h, buyers, sale, a[o := t])
  {
    AdmittedOfGrows(a, o, t, item);
    hide AdmittedOf;
    hide HashOf;
  }

  lemma OpenGateFacts(item: nat, s: Slot, sale: Sale, a: Admissions, t: Task)
    requires GateOk(item, s.state, s.buyers, sale, a) && Admits(s, t) && t.item == item
    ensures t.activity == sale.activity && sale.startAt <= t.reservedAt < sale.endAt && |AdmittedOf(a, item)| < sale.initial && BuyersOk(s.buyers, a, item)
  {
    hide AdmittedOf;
    hide BuyersOk;
  }

  lemma BuyersCount(buyers: map<nat, string>, user: nat, o: string)
    requires user !in buyers
    ensures |buyers[user := o]| == |buyers| + 1
  {
    assert buyers[user := o].Keys == buyers.Keys + {user};
    assert |buyers[user := o].Keys| == |buyers.Keys| + 1;
  }

  lemma BuyersGrow(buyers: map<nat, string>, a: Admissions, t: Task)
    requires BuyersOk(buyers, a, t.item) && t.user !in buyers && t.orderNo !in a
    ensures BuyersOk(buyers[t.user := t.orderNo], a[t.orderNo := t], t.item)
  {
    var b', a' := buyers[t.user := t.orderNo], a[t.orderNo := t];
    forall u | u in b'
      ensures b'[u] in a' && a'[b'[u]].user == u && a'[b'[u]].item == t.item
    {
      assert u in buyers || u == t.user;
    }
  }

  lemma AdmitGateOk(item: nat, s: Slot, sale: Sale, a: Admissions, t: Task)
    requires GateOk(item, s.state, s.buyers, sale, a) && Admits(s, t) && t.item == item && t.orderNo !in a
    ensures GateOk(item, Admit(s, t).state, Admit(s, t).buyers, sale, a[t.orderNo := t])
  {
    OpenGateFacts(item, s, sale, a, t);
    AdmittedOfGrows(a, t.orderNo, t, item);
    BuyersGrow(s.buyers, a, t);
    BuyersCount(s.buyers, t.user, t.orderNo);
    AdmitGate(s, t);
    hide AdmittedOf;
    hide BuyersOk;
    hide OnSale;
    hide Admit;
  }

  lemma GatesAfterAdmission(w: World, t: Task)
    requires GatesOk(w.slots, w.sales, w.admitted) && t.item in w.sales && t.orderNo !in w.admitted && Admits(SlotOf(w, t.item), t)
    ensures SlotOf(w, t.item).state.stock.Some?
    ensures GatesOk(w.slots[t.item := Admit(SlotOf(w, t.item), t)], w.sales, w.admitted[t.orderNo := t])
  {
    AdmitRest(SlotOf(w, t.item), t);
    CurrentGateOk(w, t.item);
    AdmitGateOk(t.item, SlotOf(w, t.item), w.sales[t.item], w.admitted, t);
    hide GateOk;
    hide Admit;
    hide Admits;
    var s := Admit(SlotOf(w, t.item), t);
    var slots := w.slots[t.item := s];
    forall item | item in slots
      ensures item in w.sales && GateOk(item, slots[item].state, slots[item].buyers, w.sales[item], w.admitted[t.orderNo := t])
    {
      if item != t.item {
        OtherGateKeeps(item, w.slots[item].state, w.slots[item].buyers, w.sales[item], w.admitted, t.orderNo, t);
      }
    }
  }

  lemma AdmissionKeepsTimed(w: World, t: Task)
    requires TimedInv(w) && t.item in w.sales && t.orderNo !in w.admitted && Admits(SlotOf(w, t.item), t)
    ensures SlotOf(w, t.item).state.stock.Some?
    ensures TimedInv(w.(slots := w.slots[t.item := Admit(SlotOf(w, t.item), t)], admitted := w.admitted[t.orderNo := t]))
  {
    hide *;
    OpenTimed(w);
    var s := SlotOf(w, t.item);
    GatesAfterAdmission(w, t);
    CurrentGateOk(w, t.item);
    OpenGateFacts(t.item, s, w.sales[t.item], w.admitted, t);
    AdmitUser(s, t);
    CappedKeep(w.admitted, w.sales, t.orderNo, t);
    OneEachKeep(w.admitted, t.orderNo, t, s.buyers);
    CloseTimed(w.(slots := w.slots[t.item := Admit(s, t)], admitted := w.admitted[t.orderNo := t]));
  }

  lemma AdmitUser(s: Slot, t: Task)
    requires Admits(s, t)
    ensures t.user !in s.buyers
  {
  }

  /** An admission takes one unit for one new buyer. */
  lemma EnqueueKeepsTimed(w: World, item: nat, user: nat, now: int, random: Random)
    requires TimedInv(w)
    ensures TimedInv(DoEnqueue(w, item, user, now, random))
  {
    hide *;
    EnqueueEffect(w, item, user, now, random);
    if DoEnqueue(w, item, user, now, random) != w {
      var t := RequestOf(SlotOf(w, item), item, user, now, random);
      EnqueueGuard(w, t, random);
      AdmissionKeepsTimed(w, t);
    }
  }

  // ---------------------------------------------------------------- reports and projection

  lemma ReportsKeepGate(s: Slot, k: Worker, maxDeliveries: nat, failedAt: int)
    ensures Complete(s, k.id).state == s.state && Complete(s, k.id).buyers == s.buyers
    ensures k.Failing? ==> var s' := Fail(s, k.id, k.orderNo, k.user, k.code, k.terminal, maxDeliveries, failedAt); s'.state == s.state && s'.buyers == s.buyers
  {
    hide ResultValue;
  }

  lemma FewerReserved(w: World, worker: nat)
    requires TimedInv(w)
    ensures TimedInv(w.(workers := w.workers - {worker}))
  {
    hide GatesOk;
    hide OneEach;
    hide Capped;
    hide OrdersReserved;
    hide RequestsReserved;
  }

  lemma ReportsKeepTimed(w: World, worker: nat, failedAt: int)
    requires Inv(w)
    ensures TimedInv(DoReportSuccess(w, worker)) && TimedInv(DoReportFailure(w, worker, failedAt))
  {
    hide *;
    InvParts(w);
    SuccessEffect(w, worker);
    FailureEffect(w, worker, failedAt);
    if worker in w.workers {
      Open(w);
      var k := w.workers[worker];
      WorkerFacts(w, worker);
      HeldSlot(k, w.slots);
      SlotHasSale(w, k.item);
      var s := SlotOf(w, k.item);
      ReportsKeepGate(s, k, w.maxDeliveries, failedAt);
      if k.Completing? {
        SameGate(w, k.item, Complete(s, k.id));
        FewerReserved(w.(slots := w.slots[k.item := Complete(s, k.id)]), worker);
      }
      if k.Failing? {
        var s' := Fail(s, k.id, k.orderNo, k.user, k.code, k.terminal, w.maxDeliveries, failedAt);
        SameGate(w, k.item, s');
        FewerReserved(w.(slots := w.slots[k.item := s']), worker);
      }
    }
  }

  lemma HeldSlot(k: Worker, slots: map<nat, Slot>)
    requires HoldsMessage(k, slots)
    ensures k.item in slots
  {
  }

  lemma ProjectKeepsTimed(w: World, orderNo: string)
    requires Inv(w)
    ensures TimedInv(DoProject(w, orderNo))
  {
    hide *;
    InvParts(w);
    Open(w);
    ProjectEffect(w, orderNo);
    if orderNo in w.ord.orders && OrderEvents.SourceOf(orderNo) == OrderEvents.SOURCE_SECKILL && StreamOrderItemId(orderNo).Some? {
      SeckillOrderFacts(w, orderNo);
      var item := w.admitted[orderNo].item;
      var e, u := OrderEvents.StableEventId(orderNo), w.admitted[orderNo].user;
      ProjectParts(SlotOf(w, item), e, orderNo, u);
      SameGate(w, item, Project(SlotOf(w, item), e, orderNo, u).0);
    }
  }

  // ---------------------------------------------------------------- reservations

  /** Workers may come and go; one that is ordering speaks for a reservation. */
  lemma WorkersChange(w: World, workers: map<nat, Worker>)
    requires TimedInv(w) && WorkersReserved(workers, w.inv.db.reservations.Keys)
    ensures TimedInv(w.(workers := workers))
  {
    hide GatesOk;
    hide OneEach;
    hide Capped;
    hide OrdersReserved;
    hide RequestsReserved;
    hide WorkersReserved;
  }

  lemma PutWorkerReserved(workers: map<nat, Worker>, reserved: set<string>, worker: nat, k: Worker)
    requires WorkersReserved(workers, reserved) && (k.Ordering? ==> k.task.orderNo in reserved)
    ensures WorkersReserved(workers[worker := k], reserved)
  {
  }

  lemma PutWorkerTimed(w: World, worker: nat, k: Worker)
    requires TimedInv(w) && (k.Ordering? ==> k.task.orderNo in w.inv.db.reservations)
    ensures TimedInv(w.(workers := w.workers[worker := k]))
  {
    hide *;
    OpenTimed(w);
    PutWorkerReserved(w.workers, w.inv.db.reservations.Keys, worker, k);
    WorkersChange(w, w.workers[worker := k]);
  }

  /** A granted answer to an admitted request is that request's own reservation: the gate gives one order
      number per user and item, so the winner by user and item is no other. */
  lemma GrantIsOwn(w: World, call: nat)
    requires Inventory.ServiceInv(w.inv) && call in w.inv.calls && CallsOk(w.inv.calls, w.admitted)
    requires w.inv.calls[call].phase.Answered? && w.inv.calls[call].phase.answer.Granted?
    requires ReservationsOk(w.inv.db.reservations, w.admitted) && OneEach(w.admitted) && StockOk(w.inv.db.items, w.sales)
    ensures var r, i := w.inv.calls[call].phase.answer.reservation, w.inv.calls[call].input;
            r.orderNo == i.orderNo && i.orderNo in w.inv.db.reservations && r == w.inv.db.reservations[i.orderNo]
            && i.item in w.sales && r.snapshot == w.sales[i.item].snapshot
  {
    var r, i := w.inv.calls[call].phase.answer.reservation, w.inv.calls[call].input;
    GrantStored(w.inv, call);
    assert CallOk(w.inv.calls[call], w.admitted);
    assert ReservationOk(r.orderNo, r, w.admitted);
    hide Inventory.ServiceInv;
    hide CallsOk;
    hide ReservationsOk;
  }

  lemma ReceiveKeepsTimed(w: World, worker: nat, call: nat)
    requires Inv(w)
    ensures TimedInv(DoReceiveReservation(w, worker, call))
  {
    hide *;
    InvParts(w);
    ReceiveEffect(w, worker, call);
    if Receives(w, worker, call) {
      var k, answer := w.workers[worker], w.inv.calls[call].phase.answer;
      if answer.Refused? {
        RefusalEffect(k, answer.error);
        PutWorkerTimed(w, worker, RefusedWorker(k.item, k.id, k.task, answer.error));
      } else {
        Open(w);
        OpenTimed(w);
        GrantIsOwn(w, call);
        PutWorkerTimed(w, worker, Ordering(k.item, k.id, k.task, answer.reservation.snapshot));
      }
    }
  }

  lemma FetchKeepsTimed(w: World, worker: nat, item: nat, id: nat)
    requires TimedInv(w)
    ensures TimedInv(DoFetch(w, worker, item, id))
  {
    hide *;
    FetchEffect(w, worker, item, id);
    if !(worker in w.workers || item !in w.slots || id !in w.slots[item].stream) {
      FetchedNotOrdering(item, id, w.slots[item].stream[id]);
      PutWorkerTimed(w, worker, FetchedBy(item, id, w.slots[item].stream[id]));
    }
  }

  lemma FetchedNotOrdering(item: nat, id: nat, f: Fields)
    ensures !FetchedBy(item, id, f).Ordering?
  {
    hide Decode;
  }

  lemma AbandonKeepsTimed(w: World, worker: nat, why: GiveUp)
    requires TimedInv(w)
    ensures TimedInv(DoAbandonInventory(w, worker, why)) && TimedInv(DoAbandonOrder(w, worker))
  {
    hide TimedInv;
    if worker in w.workers && w.workers[worker].Reserving? {
      var k := w.workers[worker];
      PutWorkerTimed(w, worker, Failing(k.item, k.id, k.task.orderNo, k.task.user, GiveUpCode(why), false));
    }
    if worker in w.workers && w.workers[worker].Ordering? {
      var k := w.workers[worker];
      PutWorkerTimed(w, worker, Failing(k.item, k.id, k.task.orderNo, k.task.user, "reserved_without_order", false));
    }
  }

  lemma SendKeepsTimed(w: World, worker: nat)
    requires TimedInv(w)
    ensures TimedInv(DoSendOrder(w, worker))
  {
    hide GatesOk;
    hide OneEach;
    hide Capped;
    hide OrdersReserved;
  }

  /** Reservations only grow in number, and what rests on them stays. */
  lemma InventoryKeepsTimed(w: World, inv: Inventory.Service)
    requires TimedInv(w) && w.inv.db.reservations.Keys <= inv.db.reservations.Keys
    ensures TimedInv(w.(inv := inv))
  {
    hide GatesOk;
    hide OneEach;
    hide Capped;
    hide OrderEvents.SourceOf;
  }

  lemma StatementKeepsTimed(w: World, call: nat, fault: Inventory.Fault)
    requires Inv(w)
    ensures TimedInv(w.(inv := Inventory.Advance(w.inv, call, fault)))
  {
    hide *;
    InvParts(w);
    Open(w);
    Inventory.AdvanceKeepsInv(w.inv, call, fault);
    StockSame(w.inv.db, Inventory.Advance(w.inv, call, fault).db, w.sales);
    InventoryKeepsTimed(w, Inventory.Advance(w.inv, call, fault));
  }

  lemma CallKeepsTimed(w: World, worker: nat, call: nat)
    requires TimedInv(w)
    ensures TimedInv(DoCallInventory(w, worker, call))
  {
    hide *;
    CallEffect(w, worker, call);
    if worker in w.workers && w.workers[worker].Reserving? {
      BeginKeepsDb(w.inv, call, InputOf(w.workers[worker].task));
      InventoryKeepsTimed(w, Inventory.Begin(w.inv, call, InputOf(w.workers[worker].task)));
    }
  }

  lemma BeginKeepsDb(s: Inventory.Service, c: nat, i: Inventory.Input)
    ensures Inventory.Begin(s, c, i).db == s.db
  {
  }

  // ---------------------------------------------------------------- orders

  lemma OrdersKeepTimed(w: World, ord: Orders.Db)
    requires TimedInv(w) && OrdersReserved(ord.orders.Keys, w.inv.db.reservations.Keys)
    ensures TimedInv(w.(ord := ord))
  {
    hide GatesOk;
    hide OneEach;
    hide Capped;
    hide OrdersReserved;
    hide RequestsReserved;
    hide WorkersReserved;
  }

  lemma PutOrderReserved(orders: map<string, Orders.Order>, o: string, order: Orders.Order, reserved: set<string>)
    requires OrdersReserved(orders.Keys, reserved) && (OrderEvents.SourceOf(o) == OrderEvents.SOURCE_SECKILL ==> o in reserved)
    ensures OrdersReserved(orders[o := order].Keys, reserved)
  {
    hide OrderEvents.SourceOf;
  }

  lemma RequestReserved(w: World, q: OrderRequest)
    requires RequestsReserved(w.requests, w.inv.db.reservations.Keys) && q in w.requests
    ensures q.task.orderNo in w.inv.db.reservations.Keys
  {
  }

  lemma ExecuteKeepsTimed(w: World, q: OrderRequest, createdAt: int, answerTo: Option<nat>)
    requires Inv(w)
    ensures TimedInv(DoExecuteOrder(w, q, createdAt, answerTo))
  {
    hide *;
    InvParts(w);
    if q !in w.requests {
      UnsentIsIgnored(w, q, createdAt, answerTo);
    } else {
      OpenTimed(w);
      ExecuteEffect(w, q, createdAt, answerTo);
      RequestNeverConflicts(w, q, createdAt);
      RequestReserved(w, q);
      var inputs := [OrderInput(w.sales[q.task.item].snapshot)];
      CreateEffect(w.ord, q.task.user, q.task.orderNo, inputs, createdAt);
      var (db', outcome) := Orders.CreateIdempotent(w.ord, q.task.user, q.task.orderNo, inputs, createdAt);
      if outcome.Created? {
        PutOrderReserved(w.ord.orders, q.task.orderNo, outcome.order, w.inv.db.reservations.Keys);
      }
      OrdersKeepTimed(w, db');
      if Awaits(w.workers, answerTo, q) {
        AfterOrderIs(w.workers[answerTo.value], outcome);
        PutWorkerTimed(w.(ord := db'), answerTo.value, AfterOrder(w.workers[answerTo.value], outcome));
      }
    }
  }

  lemma AfterOrderIs(k: Worker, o: Orders.Outcome)
    requires k.Ordering?
    ensures !AfterOrder(k, o).Ordering?
  {
  }

  lemma PlaceKeepsTimed(w: World, user: nat, orderNo: string, inputs: seq<Orders.ItemInput>, createdAt: int)
    requires TimedInv(w)
    ensures TimedInv(DoPlaceNormalOrder(w, user, orderNo, inputs, createdAt))
  {
    hide *;
    OpenTimed(w);
    PlaceEffect(w, user, orderNo, inputs, createdAt);
    var o := TrimSpace(orderNo);
    if OrderEvents.SourceOf(o) != OrderEvents.SOURCE_SECKILL {
      var (ord, outcome) := Orders.CreateIdempotent(w.ord, user, orderNo, inputs, createdAt);
      CreateEffect(w.ord, user, orderNo, inputs, createdAt);
      if outcome.Created? {
        PutOrderReserved(w.ord.orders, o, outcome.order, w.inv.db.reservations.Keys);
      }
      OrdersKeepTimed(w, ord);
    }
  }

  // ---------------------------------------------------------------- runs

  lemma ClockAndPreheats(w: World, w': World)
    requires TimedInv(w) && w' == w.(clock := w'.clock, preheats := w'.preheats)
    ensures TimedInv(w')
  {
    hide GatesOk;
    hide OneEach;
    hide Capped;
    hide OrdersReserved;
    hide RequestsReserved;
    hide WorkersReserved;
  }

  lemma ExecKeepsTimed(w: World, e: Event)
    requires Inv(w) && Timely(w, e)
    ensures TimedInv(Exec(w, e))
  {
    InvParts(w);
    hide Inv;
    hide CoreInv;
    hide TimedInv;
    hide DoPublish;
    hide DoInvalidate;
    hide DoEnqueue;
    hide DoFetch;
    hide DoCallInventory;
    hide Inventory.Advance;
    hide DoReceiveReservation;
    hide DoAbandonInventory;
    hide DoSendOrder;
    hide DoExecuteOrder;
    hide DoAbandonOrder;
    hide DoReportSuccess;
    hide DoReportFailure;
    hide DoPlaceNormalOrder;
    hide DoProject;
    match e
    case Tick(to) => ClockAndPreheats(w, Exec(w, e));
    case LoadPreheat(item) => ClockAndPreheats(w, Exec(w, e));
    case PublishItem(read) => PublishKeepsTimed(w, read);
    case InvalidateItem(item) => InvalidateKeepsTimed(w, item);
    case Enqueue(item, user, now, random) => EnqueueKeepsTimed(w, item, user, now, random);
    case Fetch(worker, item, id) => FetchKeepsTimed(w, worker, item, id);
    case CallInventory(worker, call) => CallKeepsTimed(w, worker, call);
    case InventoryStatement(call, fault) => StatementKeepsTimed(w, call, fault);
    case ReceiveReservation(worker, call) => ReceiveKeepsTimed(w, worker, call);
    case AbandonInventory(worker, why) => AbandonKeepsTimed(w, worker, why);
    case SendOrder(worker) => SendKeepsTimed(w, worker);
    case ExecuteOrder(request, createdAt, answerTo) => ExecuteKeepsTimed(w, request, createdAt, answerTo);
    case AbandonOrder(worker) => AbandonKeepsTimed(w, worker, Timeout);
    case ReportSuccess(worker) => ReportsKeepTimed(w, worker, 0);
    case ReportFailure(worker, failedAt) => ReportsKeepTimed(w, worker, failedAt);
    case Crash(worker) => FewerReserved(w, worker);
    case PlaceNormalOrder(user, orderNo, inputs, createdAt) => PlaceKeepsTimed(w, user, orderNo, inputs, createdAt);
    case ProjectOrder(orderNo) => ProjectKeepsTimed(w, orderNo);
  }

  lemma ExecKeepsInv(w: World, e: Event)
    requires Inv(w) && Timely(w, e)
    ensures Inv(Exec(w, e))
  {
    hide *;
    InvParts(w);
    InvParts(Exec(w, e));
    ExecKeepsCore(w, e);
    ExecKeepsTimed(w, e);
  }

  /** Every state of every timely run satisfies the whole invariant. */
  lemma {:induction false} RunKeepsInv(w: World, events: seq<Event>)
    requires Inv(w) && TimelyRun(w, events)
    ensures Inv(Run(w, events))
    decreases |events|
  {
    hide Inv;
    hide Exec;
    hide Timely;
    if events != [] {
      ExecKeepsInv(w, events[0]);
      RunKeepsInv(Exec(w, events[0]), events[1..]);
    }
  }

  lemma InitialTimed(w: World)
    requires Initial(w)
    ensures TimedInv(w)
  {
    hide ValidSale;
    forall item | item in w.sales
      ensures AdmittedOf(w.admitted, item) == {}
    {
    }
    hide AdmittedOf;
  }

  lemma InitialInv(w: World)
    requires Initial(w)
    ensures Inv(w)
  {
    hide *;
    InitialCore(w);
    InitialTimed(w);
    InvParts(w);
  }

  /** Reachable by a timely run from a fresh start. */
  ghost predicate Reached(start: World, events: seq<Event>, w: World) {
    Initial(start) && TimelyRun(start, events) && w == Run(start, events)
  }

  lemma ReachedInv(start: World, events: seq<Event>, w: World)
    requires Reached(start, events, w)
    ensures Inv(w) && CoreInv(w) && TimedInv(w) && Reachable(start, events, w)
  {
    hide Inv;
    hide CoreInv;
    hide TimedInv;
    hide Run;
    hide TimelyRun;
    InitialInv(start);
    RunKeepsInv(start, events);
    InvParts(w);
  }
}
