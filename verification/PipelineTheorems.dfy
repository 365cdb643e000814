/** The promises of the flash-sale pipeline. Those about stock, buyers and own reservations are for timely runs;
    all others are for every run from a fresh start, however late a publish comes. */
module PipelineTheorems {
  import opened Text
  import opened OrderNumbers
  import opened StreamMessages
  import opened RedisSlot
  import OrderEvents
  import Inventory
  import Orders
  import opened Pipeline
  import opened PipelineInvariant
  import opened PipelineSteps
  import opened PipelineAdmission
  import opened PipelineServices
  import opened PipelineRuns
  import opened PipelineTimed

  // ---------------------------------------------------------------- orders rest on reservations

  predicate IsStreamOrder(o: string) { OrderEvents.SourceOf(o) == OrderEvents.SOURCE_SECKILL }

  lemma SourceIs(o: string)
    requires IsStreamOrder(o)
    ensures OrderEvents.SourceOf(o) == OrderEvents.SOURCE_SECKILL
  {
  }

  /** The only line of a stream order: one unit of the item at its frozen price. */
  function LineOf(s: Inventory.Snapshot): (l: Orders.Item) {
    Orders.Item(s.sku, TrimSpace(s.productName), TrimSpace(s.skuCode), TrimSpace(s.skuName), s.price, 1, s.price)
  }

  lemma OneLine(user: nat, o: string, s: Inventory.Snapshot, items: seq<Orders.Item>, total: int)
    requires Orders.NormalizeItems(user, o, [OrderInput(s)]) == Orders.Normal(items, total)
    ensures items == [LineOf(s)] && total == s.price
  {
    hide TrimSpace;
    var inputs := [OrderInput(s)];
    var amounts := Orders.Amounts(inputs);
    assert amounts == [s.price];
    assert amounts[..0] == [];
    assert Orders.Sum(amounts) == s.price;
    assert Orders.NormalizeAll(inputs)[0] == Orders.Normalize(inputs[0]) == LineOf(s);
  }

  lemma OrderOfAdmission(w: World, o: string)
    requires StreamOrdersOk(w.ord.orders, w.sales, w.admitted) && o in w.ord.orders && IsStreamOrder(o)
    ensures o in w.admitted && OrderMatches(w.ord.orders[o], w.admitted[o], w.sales)
  {
    hide OrderMatches;
    hide OrderEvents.SourceOf;
    assert StreamOrderOk(o, w.ord.orders[o], w.sales, w.admitted);
  }

  lemma LineOfOrder(order: Orders.Order, t: Task, sales: map<nat, Sale>)
    requires OrderMatches(order, t, sales)
    ensures t.item in sales && order.user == t.user
    ensures order.items == [LineOf(sales[t.item].snapshot)] && order.total == sales[t.item].snapshot.price
  {
    hide Orders.NormalizeItems;
    hide LineOf;
    OneLine(t.user, t.orderNo, sales[t.item].snapshot, order.items, order.total);
  }

  lemma ReservationOfAdmission(w: World, o: string)
    requires ReservationsOk(w.inv.db.reservations, w.admitted) && o in w.inv.db.reservations
    ensures var r := w.inv.db.reservations[o];
            o in w.admitted && r.orderNo == o && r.item == w.admitted[o].item && r.user == w.admitted[o].user
            && r.activity == w.admitted[o].activity && r.reservedAt == w.admitted[o].reservedAt
  {
    assert ReservationOk(o, w.inv.db.reservations[o], w.admitted);
  }

  lemma SnapshotOfReservation(w: World, o: string)
    requires Inventory.DbInv(w.inv.db) && StockOk(w.inv.db.items, w.sales) && o in w.inv.db.reservations
    ensures var r := w.inv.db.reservations[o]; r.item in w.sales && r.snapshot == w.sales[r.item].snapshot
  {
    hide Inventory.Conserved;
    hide Inventory.Indexed;
  }

  lemma OwnReservation(w: World, o: string)
    requires OrdersReserved(w.ord.orders.Keys, w.inv.db.reservations.Keys) && o in w.ord.orders && IsStreamOrder(o)
    ensures o in w.inv.db.reservations
  {
    hide OrderEvents.SourceOf;
  }

  /** Each stream order has a reservation with the same number and user, for the item its number names, and
      consists of one unit at the snapshot that reservation froze. */
  lemma StreamOrderIsReserved(start: World, events: seq<Event>, w: World, o: string)
    requires Reached(start, events, w) && o in w.ord.orders && IsStreamOrder(o)
    ensures o in w.inv.db.reservations
    ensures var r, order := w.inv.db.reservations[o], w.ord.orders[o];
            && r.orderNo == o && r.user == order.user && StreamOrderItemId(o) == Some(r.item)
            && order.items == [LineOf(r.snapshot)] && order.total == r.snapshot.price
  {
    hide *;
    SourceIs(o);
    ReachedInv(start, events, w);
    Open(w);
    SeckillOrderFacts(w, o);
    OpenTimed(w);
    OwnReservation(w, o);
    OrderOfAdmission(w, o);
    LineOfOrder(w.ord.orders[o], w.admitted[o], w.sales);
    ReservationOfAdmission(w, o);
    Inventory.ServiceInvDb(w.inv);
    SnapshotOfReservation(w, o);
  }

  lemma OneAdmissionEach(admitted: Admissions, o: string, p: string)
    requires OneEach(admitted) && o in admitted && p in admitted
    requires admitted[o].item == admitted[p].item && admitted[o].user == admitted[p].user
    ensures o == p
  {
  }

  /** A user has at most one order per item. */
  lemma OneOrderPerUser(start: World, events: seq<Event>, w: World, o: string, p: string)
    requires Reached(start, events, w) && o in w.ord.orders && p in w.ord.orders && IsStreamOrder(o) && IsStreamOrder(p)
    requires w.ord.orders[o].user == w.ord.orders[p].user && StreamOrderItemId(o) == StreamOrderItemId(p)
    ensures o == p
  {
    hide *;
    SourceIs(o);
    SourceIs(p);
    ReachedInv(start, events, w);
    Open(w);
    SeckillOrderFacts(w, o);
    SeckillOrderFacts(w, p);
    OpenTimed(w);
    OneAdmissionEach(w.admitted, o, p);
  }

  ghost function StreamOrdersOf(w: World, item: nat): (r: set<string>) {
    set o | o in w.ord.orders && IsStreamOrder(o) && StreamOrderItemId(o) == Some(item)
  }

  lemma SubsetCounts(a: set<string>, b: set<string>)
    requires a <= b
    ensures |a| <= |b|
  {
    Inventory.SubsetCount(a, b);
  }

  lemma StockBounds(w: World, item: nat)
    requires Inventory.DbInv(w.inv.db) && StockOk(w.inv.db.items, w.sales) && item in w.sales
    ensures |Inventory.ReservedOf(w.inv.db, item)| <= w.sales[item].initial
  {
    hide Inventory.ReservedOf;
    hide Inventory.Genuine;
    hide Inventory.Indexed;
  }

  lemma OrderedIsReserved(start: World, events: seq<Event>, w: World, item: nat)
    requires Reached(start, events, w)
    ensures StreamOrdersOf(w, item) <= Inventory.ReservedOf(w.inv.db, item)
  {
    hide Reached;
    hide IsStreamOrder;
    hide StreamOrderItemId;
    hide LineOf;
    forall o | o in StreamOrdersOf(w, item)
      ensures o in Inventory.ReservedOf(w.inv.db, item)
    {
      StreamOrderIsReserved(start, events, w, o);
    }
  }

  /** Orders never outnumber reservations, and reservations never outnumber the units on sale. */
  lemma OrdersWithinStock(start: World, events: seq<Event>, w: World, item: nat)
    requires Reached(start, events, w) && item in w.sales
    ensures |StreamOrdersOf(w, item)| <= |Inventory.ReservedOf(w.inv.db, item)| <= w.sales[item].initial
  {
    hide *;
    ReachedInv(start, events, w);
    Open(w);
    Inventory.ServiceInvDb(w.inv);
    StockBounds(w, item);
    OrderedIsReserved(start, events, w, item);
    SubsetCounts(StreamOrdersOf(w, item), Inventory.ReservedOf(w.inv.db, item));
  }

  lemma ExecKeepsService(w: World, e: Event)
    requires Inventory.ServiceInv(w.inv)
    ensures Inventory.ServiceInv(Exec(w, e).inv) && Inventory.Grows(w.inv.db, Exec(w, e).inv.db)
  {
    Inventory.GrowsReflexive(w.inv.db);
    hide Inventory.ServiceInv;
    hide Inventory.Grows;
    if e.InventoryStatement? {
      hide Inventory.Advance;
      Inventory.AdvanceKeepsInv(w.inv, e.call, e.fault);
    } else if e.CallInventory? {
      hide Inventory.Begin;
      if e.worker in w.workers && w.workers[e.worker].Reserving? {
        BeginKeepsService(w.inv, e.call, InputOf(w.workers[e.worker].task));
      }
    } else {
      QuietService(w, e);
    }
  }

  lemma QuietService(w: World, e: Event)
    requires !e.InventoryStatement? && !e.CallInventory?
    ensures Exec(w, e).inv == w.inv
  {
    hide Decode;
    hide Fail;
    hide Complete;
    hide Project;
    hide ProjectionOfEvent;
    hide AfterReservation;
    hide AfterOrder;
    hide Awaits;
    hide CreateSeckill;
    hide Orders.CreateIdempotent;
    hide CanEnqueue;
    hide ReserveAndEnqueue;
    hide StreamOrderText;
    hide Generation;
    hide HashOf;
    hide SlotOf;
    hide GiveUpCode;
    hide TrimSpace;
    hide OrderEvents.SourceOf;
  }

  lemma {:induction false} RunKeepsService(w: World, events: seq<Event>)
    requires Inventory.ServiceInv(w.inv)
    ensures Inventory.ServiceInv(Run(w, events).inv) && Inventory.Grows(w.inv.db, Run(w, events).inv.db)
    decreases |events|
  {
    hide Exec;
    hide Inventory.Grows;
    hide Inventory.ServiceInv;
    Inventory.GrowsReflexive(w.inv.db);
    if events != [] {
      ExecKeepsService(w, events[0]);
      var w1 := Exec(w, events[0]);
      Inventory.ServiceInvDb(w1.inv);
      RunKeepsService(w1, events[1..]);
      Inventory.GrowsTransitive(w.inv.db, w1.inv.db, Run(w1, events[1..]).inv.db);
    }
  }

  lemma StockEquation(db: Inventory.Db, sales: map<nat, Sale>, item: nat)
    requires Inventory.DbInv(db) && StockOk(db.items, sales) && item in sales
    ensures item in db.items && db.items[item].initial == sales[item].initial && 0 <= db.items[item].available
    ensures db.items[item].available + |Inventory.ReservedOf(db, item)| == sales[item].initial
  {
    hide Inventory.ReservedOf;
    hide Inventory.Genuine;
    hide Inventory.Indexed;
  }

  lemma OneReservationEach(db: Inventory.Db, o: string, p: string)
    requires Inventory.DbInv(db) && o in db.reservations && p in db.reservations
    requires Inventory.KeyOf(db.reservations[o]) == Inventory.KeyOf(db.reservations[p])
    ensures o == p
  {
    hide Inventory.Conserved;
    hide Inventory.Genuine;
  }

  /** The stock bound needs nothing of Redis: in every run, timely or not, each unit of an item is either
      available or reserved, and a user holds at most one reservation of it. */
  lemma ReservedWithinStock(start: World, events: seq<Event>, item: nat, o: string, p: string)
    requires Initial(start) && item in start.sales
    ensures var db := Run(start, events).inv.db;
            && item in db.items && db.items[item].initial == start.sales[item].initial && 0 <= db.items[item].available
            && db.items[item].available + |Inventory.ReservedOf(db, item)| == start.sales[item].initial
            && (o in db.reservations && p in db.reservations && o != p ==>
                  Inventory.KeyOf(db.reservations[o]) != Inventory.KeyOf(db.reservations[p]))
  {
    hide *;
    InitialStock(start);
    InitialService(start);
    RunKeepsService(start, events);
    var db := Run(start, events).inv.db;
    Inventory.ServiceInvDb(Run(start, events).inv);
    StockSame(start.inv.db, db, start.sales);
    StockEquation(db, start.sales, item);
    if o in db.reservations && p in db.reservations && Inventory.KeyOf(db.reservations[o]) == Inventory.KeyOf(db.reservations[p]) {
      OneReservationEach(db, o, p);
    }
  }

  // ---------------------------------------------------------------- nothing is lost

  lemma AcceptedIsAdmitted(w: World, item: nat, user: nat, now: int, random: Random)
    requires CanEnqueue(w, item, user, now, random) && ReserveAndEnqueue(SlotOf(w, item), user, now, StreamOrderText(now, item, random), item).1.Reserved?
    ensures var t := RequestOf(SlotOf(w, item), item, user, now, random); var w' := Exec(w, Enqueue(item, user, now, random));
            t.orderNo in w'.admitted && w'.admitted[t.orderNo] == t
  {
    hide StreamOrderText;
    hide CanEnqueue;
    hide Admit;
  }

  lemma AccountedFor(w: World, o: string)
    requires NoneLost(w.admitted, w.slots, w.ord.orders.Keys) && o in w.admitted
    ensures var s := SlotOf(w, w.admitted[o].item); o in w.ord.orders || InStream(s, o) || InDlq(s, o)
  {
    hide InStream;
    hide InDlq;
    assert Accounted(o, w.admitted[o], w.slots, w.ord.orders.Keys);
  }

  /** A request the gate accepted is never lost: in every later state its number is a committed order, or in
      the item's stream, or in the item's DLQ. */
  lemma AcceptedIsNeverLost(start: World, before: seq<Event>, w: World, item: nat, user: nat, now: int, random: Random, after: seq<Event>, later: World)
    requires Reachable(start, before, w) && CanEnqueue(w, item, user, now, random)
    requires ReserveAndEnqueue(SlotOf(w, item), user, now, StreamOrderText(now, item, random), item).1.Reserved?
    requires later == Run(Exec(w, Enqueue(item, user, now, random)), after)
    ensures var o, s := StreamOrderText(now, item, random), SlotOf(later, item); o in later.ord.orders || InStream(s, o) || InDlq(s, o)
  {
    hide *;
    ReachableCore(start, before, w);
    var w1 := Exec(w, Enqueue(item, user, now, random));
    ExecKeepsCore(w, Enqueue(item, user, now, random));
    RunKeepsCore(w1, after);
    Open(later);
    AcceptedIsAdmitted(w, item, user, now, random);
    RunLater(w1, after);
    StaysAdmitted(w1, later, RequestOf(SlotOf(w, item), item, user, now, random).orderNo);
    AccountedFor(later, StreamOrderText(now, item, random));
  }

  lemma StaysAdmitted(w: World, later: World, o: string)
    requires Later(w, later) && o in w.admitted
    ensures o in later.admitted && later.admitted[o] == w.admitted[o]
  {
    hide Orders.Grows;
  }

  /** A message that is still in a stream has fewer recorded failures than deliveries are allowed, and reads
      back as a request the gate admitted for that item. */
  lemma QueuedIsGenuine(start: World, events: seq<Event>, w: World, item: nat, id: nat)
    requires Reachable(start, events, w) && item in w.slots && id in w.slots[item].stream
    ensures id in w.slots[item].retries ==> w.slots[item].retries[id] < w.maxDeliveries
    ensures exists o :: o in w.admitted && w.admitted[o].item == item && w.slots[item].stream[id] == Encode(w.admitted[o])
  {
    hide *;
    ReachableCore(start, events, w);
    Open(w);
    StreamMessageOk(w, item, id);
    RetryCount(w, item, id);
    MessageSource(item, w.slots[item].stream[id], w.admitted);
  }

  lemma RetryCount(w: World, item: nat, id: nat)
    requires SlotsOk(w.slots, w.sales, w.admitted, w.ord.orders.Keys, w.maxDeliveries) && item in w.slots
    ensures id in w.slots[item].retries ==> w.slots[item].retries[id] < w.maxDeliveries
  {
    assert SlotOk(item, w.slots[item], w.sales[item], w.admitted, w.ord.orders.Keys, w.maxDeliveries);
    hide GateOk;
    hide StreamOk;
    hide ResultsOk;
    hide LedgerOk;
    hide SlotsOk;
  }

  lemma MessageSource(item: nat, f: Fields, a: Admissions)
    requires MessageOk(item, f, a)
    ensures exists o :: o in a && a[o].item == item && f == Encode(a[o])
  {
    hide Encode;
  }

  // ---------------------------------------------------------------- the cache promises no more than the stock

  /** An open gate accounts for every unit: what is not in stock is with a buyer, and the buyers with their order
      numbers are exactly the requests admitted for the item. */
  lemma GateConserves(start: World, events: seq<Event>, w: World, item: nat)
    requires Reached(start, events, w) && item in w.slots && w.slots[item].state.ready
    ensures var s := w.slots[item];
            && item in w.sales && s.state.stock.Some? && 0 <= s.state.stock.value
            && s.state.stock.value + |s.buyers| == w.sales[item].initial
            && |s.buyers| == |AdmittedOf(w.admitted, item)| && BuyersOk(s.buyers, w.admitted, item)
  {
    hide *;
    ReachedInv(start, events, w);
    Open(w);
    OpenTimed(w);
    SlotHasSale(w, item);
    CurrentSlotOk(w, item);
    CurrentGateOk(w, item);
    OpenGate(item, w.slots[item], w.sales[item], w.admitted);
  }

  lemma OpenGate(item: nat, s: Slot, sale: Sale, a: Admissions)
    requires GateOk(item, s.state, s.buyers, sale, a) && s.state.ready
    ensures s.state.stock.Some? && 0 <= s.state.stock.value && s.state.stock.value + |s.buyers| == sale.initial
    ensures |s.buyers| == |AdmittedOf(a, item)| && BuyersOk(s.buyers, a, item)
  {
    hide AdmittedOf;
    hide BuyersOk;
  }

  lemma ReservedIsAdmitted(w: World, item: nat)
    requires ReservationsOk(w.inv.db.reservations, w.admitted)
    ensures Inventory.ReservedOf(w.inv.db, item) <= AdmittedOf(w.admitted, item)
  {
    forall o | o in w.inv.db.reservations && w.inv.db.reservations[o].item == item
      ensures o in w.admitted && w.admitted[o].item == item
    {
      ReservationOfAdmission(w, o);
    }
  }

  lemma SoldOutCall(s: Inventory.Service, c: nat)
    requires Inventory.ServiceInv(s) && c in s.calls && s.calls[c].phase == Inventory.Answered(Inventory.Refused(Inventory.OutOfStock))
    ensures var i := s.calls[c].input;
            && i.item in s.db.items && i.orderNo !in Inventory.ReservedOf(s.db, i.item)
            && |Inventory.ReservedOf(s.db, i.item)| == s.db.items[i.item].initial
  {
    assert Inventory.PhaseInv(s.db, s.calls[c].input, s.calls[c].phase);
    hide Inventory.Genuine;
    hide Inventory.Indexed;
  }

  lemma StrictSubset(a: set<string>, b: set<string>, x: string)
    requires a <= b && x in b && x !in a
    ensures |a| < |b|
  {
    SubsetCounts(a + {x}, b);
  }

  lemma InitialOf(w: World, item: nat)
    requires StockOk(w.inv.db.items, w.sales) && Capped(w.admitted, w.sales) && item in w.inv.db.items
    ensures item in w.sales && |AdmittedOf(w.admitted, item)| <= w.inv.db.items[item].initial
  {
    hide AdmittedOf;
  }

  lemma NeverSoldOut(w: World, call: nat)
    requires Inv(w) && call in w.inv.calls
    requires w.inv.calls[call].input.orderNo in AdmittedOf(w.admitted, w.inv.calls[call].input.item)
    ensures w.inv.calls[call].phase != Inventory.Answered(Inventory.Refused(Inventory.OutOfStock))
  {
    hide *;
    InvParts(w);
    Open(w);
    OpenTimed(w);
    var i := w.inv.calls[call].input;
    if w.inv.calls[call].phase == Inventory.Answered(Inventory.Refused(Inventory.OutOfStock)) {
      SoldOutCall(w.inv, call);
      ReservedIsAdmitted(w, i.item);
      InitialOf(w, i.item);
      StrictSubset(Inventory.ReservedOf(w.inv.db, i.item), AdmittedOf(w.admitted, i.item), i.orderNo);
    }
  }

  lemma GrantedOrFaulty(w: World, call: nat)
    requires Inv(w) && call in w.inv.calls && w.inv.calls[call].phase.Answered?
    ensures w.inv.calls[call].phase.answer.Granted? || w.inv.calls[call].phase.answer.error.Unknown?
  {
    hide *;
    InvParts(w);
    Open(w);
    CallInput(w.inv.calls, call, w.admitted);
    RefusalKinds(w.inv, call, w.admitted);
    NeverSoldOut(w, call);
    assert w.inv.calls[call].phase.answer.Refused? ==>
      w.inv.calls[call].phase == Inventory.Answered(Inventory.Refused(w.inv.calls[call].phase.answer.error));
  }

  /** In every run, however late a publish comes, the inventory never answers a request of the pipeline with a
      conflict or a missing item: it grants, reports a fault, or is out of stock. */
  lemma InventoryNeverConflicts(start: World, events: seq<Event>, w: World, call: nat)
    requires Reachable(start, events, w) && call in w.inv.calls && w.inv.calls[call].phase.Answered?
    ensures var a := w.inv.calls[call].phase.answer; a.Granted? || a.error.Unknown? || a.error.OutOfStock?
  {
    hide *;
    ReachableCore(start, events, w);
    Open(w);
    CallInput(w.inv.calls, call, w.admitted);
    RefusalKinds(w.inv, call, w.admitted);
  }

  /** The inventory never refuses an admitted request for stock, for a conflict or for a missing item: an
      answered call was granted, or its answer was lost to a fault. */
  lemma NeverRefused(start: World, events: seq<Event>, w: World, call: nat)
    requires Reached(start, events, w) && call in w.inv.calls && w.inv.calls[call].phase.Answered?
    ensures w.inv.calls[call].phase.answer.Granted? || w.inv.calls[call].phase.answer.error.Unknown?
  {
    hide *;
    ReachedInv(start, events, w);
    GrantedOrFaulty(w, call);
  }

  lemma RefusalKinds(s: Inventory.Service, c: nat, a: Admissions)
    requires Inventory.ServiceInv(s) && c in s.calls && s.calls[c].phase.Answered? && CallOk(s.calls[c], a)
    ensures var answer := s.calls[c].phase.answer; answer.Granted? || answer.error.Unknown? || answer.error.OutOfStock?
    ensures s.calls[c].input.orderNo in AdmittedOf(a, s.calls[c].input.item)
  {
    assert Inventory.PhaseInv(s.db, s.calls[c].input, s.calls[c].phase);
    hide Inventory.DbInv;
  }

  // ---------------------------------------------------------------- results

  /** In every run, the event of a committed stream order is not skipped by the projector: it goes to the item the
      request was admitted for, and never meets another owner or another order under the same event. */
  lemma ProjectorNeverConflicts(start: World, events: seq<Event>, w: World, o: string)
    requires Reachable(start, events, w) && o in w.ord.orders && IsStreamOrder(o)
    ensures Orders.EventOf(w.ord.orders[o]).Some?
    ensures var p := ProjectionOfEvent(w, Orders.EventOf(w.ord.orders[o]).value);
            && p.Into? && o in w.admitted && p.item == w.admitted[o].item
            && (p.result.Projected? || p.result.Repeated? || p.result.Expired?)
  {
    hide *;
    SourceIs(o);
    ReachableCore(start, events, w);
    Open(w);
    SeckillOrderFacts(w, o);
    OrderEvent(w.ord, o);
    var item := w.admitted[o].item;
    CurrentSlotOk(w, item);
    SlotParts(item, SlotOf(w, item), w.sales[item], w.admitted, w.ord.orders.Keys, w.maxDeliveries);
    ProjectAgrees(item, SlotOf(w, item), o, w.admitted, w.ord.orders.Keys);
    ProjectionIs(w, Orders.EventOf(w.ord.orders[o]).value, item);
  }

  lemma ProjectionIs(w: World, e: OrderEvents.OrderCreated, item: nat)
    requires e.source == OrderEvents.SOURCE_SECKILL && StreamOrderItemId(e.orderNo) == Some(item) && TrimSpace(e.orderNo) == e.orderNo
    ensures ProjectionOfEvent(w, e) == Into(item, Project(SlotOf(w, item), e.eventId, e.orderNo, e.user).1)
  {
    hide Project;
    hide StreamOrderItemId;
    hide TrimSpace;
    hide SlotOf;
  }

  lemma LedgerAgrees(ledger: map<string, string>, o: string)
    requires LedgerOk(ledger) && Trimmed(o) && OrderEvents.StableEventId(o) in ledger
    ensures ledger[OrderEvents.StableEventId(o)] == o
  {
    var p := ledger[OrderEvents.StableEventId(o)];
    OrderEvents.EventIdNamesOrder(o, p);
    Trims(o);
    Trims(p);
    hide TrimSpace;
    hide Trimmed;
    hide OrderEvents.StableEventId;
  }

  lemma OwnResult(item: nat, results: map<string, string>, a: Admissions, orders: set<string>, o: string)
    requires ResultsOk(item, results, a, orders) && o in results && o in a && 0 < a[o].user <= MAX_UINT64
    ensures OwnedBy(results[o], a[o].user)
  {
    assert ResultOk(item, o, results[o], a, orders);
    OwnerTestIsExact(a[o].user, a[o].user, QUEUED);
    OwnerTestIsExact(a[o].user, a[o].user, FAILED);
    OwnerTestIsExact(a[o].user, a[o].user, SUCCEEDED);
    hide OwnedBy;
    hide ResultValue;
  }

  lemma ProjectAgrees(item: nat, s: Slot, o: string, a: Admissions, orders: set<string>)
    requires LedgerOk(s.ledger) && ResultsOk(item, s.results, a, orders)
    requires o in a && Trimmed(o) && 0 < a[o].user <= MAX_UINT64
    ensures var p := Project(s, OrderEvents.StableEventId(o), o, a[o].user).1; p.Projected? || p.Repeated? || p.Expired?
  {
    hide LedgerOk;
    hide ResultsOk;
    hide Trimmed;
    hide OwnedBy;
    hide ResultValue;
    hide OrderEvents.StableEventId;
    if OrderEvents.StableEventId(o) in s.ledger {
      LedgerAgrees(s.ledger, o);
    } else if o in s.results {
      OwnResult(item, s.results, a, orders, o);
    }
  }

  /** Success read from Redis is the success of the reader's own committed order. */
  lemma FoundSucceeded(item: nat, s: Slot, a: Admissions, orders: set<string>, user: nat, o: string)
    requires ResultsOk(item, s.results, a, orders) && user <= MAX_UINT64 && FindResult(s, user, o) == Status(SUCCEEDED)
    requires o in a ==> 0 < a[o].user <= MAX_UINT64
    ensures o in orders && o in a && a[o].user == user
  {
    assert o in s.results;
    assert ResultOk(item, o, s.results[o], a, orders);
    var owner := a[o].user;
    hide FindResult;
    hide ResultsOk;
    hide ResultValue;
    if s.results[o] == ResultValue(owner, QUEUED) {
      ResultRoundTrip(s, owner, user, o, QUEUED);
    } else if s.results[o] == ResultValue(owner, FAILED) {
      ResultRoundTrip(s, owner, user, o, FAILED);
    } else {
      ResultRoundTrip(s, owner, user, o, SUCCEEDED);
    }
  }

  ghost predicate Owns(w: World, user: nat, o: string) { o in w.ord.orders && w.ord.orders[o].user == user }

  lemma OwnsLater(w: World, later: World, user: nat, o: string)
    requires Later(w, later) && Owns(w, user, o)
    ensures Owns(later, user, o)
  {
  }

  lemma AdmittedUser(w: World, o: string)
    requires AdmissionsOk(w.admitted, w.sales, w.clock)
    ensures o in w.admitted ==> 0 < w.admitted[o].user <= MAX_UINT64 && IsStreamOrder(o)
  {
    if o in w.admitted {
      assert AdmissionOk(o, w.admitted[o], w.sales, w.clock);
    }
    hide OrderEvents.SourceOf;
    hide Trimmed;
  }

  lemma RedisSucceeded(w: World, item: nat, user: nat, o: string)
    requires CoreInv(w) && user <= MAX_UINT64 && FindResult(SlotOf(w, item), user, o) == Status(SUCCEEDED)
    ensures Owns(w, user, o)
  {
    hide *;
    Open(w);
    SlotOrEmpty(w, item, user, o);
    SlotHasSale(w, item);
    CurrentSlotOk(w, item);
    SlotParts(item, SlotOf(w, item), w.sales[item], w.admitted, w.ord.orders.Keys, w.maxDeliveries);
    AdmittedUser(w, o);
    FoundSucceeded(item, SlotOf(w, item), w.admitted, w.ord.orders.Keys, user, o);
    OrderOfAdmission(w, o);
    LineOfOrder(w.ord.orders[o], w.admitted[o], w.sales);
    OwnsIt(w, user, o);
  }

  lemma OwnsIt(w: World, user: nat, o: string)
    requires o in w.ord.orders && w.ord.orders[o].user == user
    ensures Owns(w, user, o)
  {
  }

  lemma SlotOrEmpty(w: World, item: nat, user: nat, o: string)
    requires FindResult(SlotOf(w, item), user, o).Status?
    ensures item in w.slots
  {
    hide Split;
  }

  lemma AsyncCases(w1: World, w2: World, user: nat, raw: string)
    requires AsyncResult(w1, w2, user, raw) == Status(SUCCEEDED)
    ensures var o := TrimSpace(raw);
            user != 0 && o != "" && (Owns(w1, user, o) || exists item: nat :: FindResult(SlotOf(w2, item), user, o) == Status(SUCCEEDED))
  {
    hide FindResult;
    hide StreamOrderItemId;
    hide TrimSpace;
  }

  lemma OwnerSees(w1: World, w2: World, user: nat, raw: string)
    requires user != 0 && TrimSpace(raw) != "" && Owns(w1, user, TrimSpace(raw))
    ensures AsyncResult(w1, w2, user, raw) == Status(SUCCEEDED)
  {
    hide FindResult;
    hide StreamOrderItemId;
    hide TrimSpace;
  }

  /** A query reads the order table first and Redis some events later. When it answers SUCCEEDED, the order is
      committed and belongs to the asking user, and every query that starts later answers SUCCEEDED again,
      whatever failures have been written into the results in the meantime. */
  lemma SucceededIsFinal(start: World, events: seq<Event>, w1: World, between: seq<Event>, w2: World, user: nat, raw: string,
                         after: seq<Event>, w3: World, w4: World)
    requires Reachable(start, events, w1) && w2 == Run(w1, between) && user <= MAX_UINT64
    requires AsyncResult(w1, w2, user, raw) == Status(SUCCEEDED) && w3 == Run(w2, after)
    ensures var o := TrimSpace(raw); o in w2.ord.orders && w2.ord.orders[o].user == user
    ensures AsyncResult(w3, w4, user, raw) == Status(SUCCEEDED)
  {
    hide *;
    ReachableCore(start, events, w1);
    RunKeepsCore(w1, between);
    RunLater(w1, between);
    RunLater(w2, after);
    AsyncCases(w1, w2, user, raw);
    var o := TrimSpace(raw);
    if Owns(w1, user, o) {
      OwnsLater(w1, w2, user, o);
    } else {
      var item: nat :| FindResult(SlotOf(w2, item), user, o) == Status(SUCCEEDED);
      RedisSucceeded(w2, item, user, o);
    }
    OwnsLater(w2, w3, user, o);
    OwnerSees(w3, w4, user, raw);
    Owned(w2, user, o);
  }

  lemma Owned(w: World, user: nat, o: string)
    requires Owns(w, user, o)
    ensures o in w.ord.orders && w.ord.orders[o].user == user
  {
  }

  // ---------------------------------------------------------------- a request processed many times equals one clean run

  /** In every run, an order request executed once more meets its own order or none: it is created, replayed with
      the order it made before, or, on a clock before 1970, refused for its event; never a payload conflict. */
  lemma OrderServiceNeverConflicts(start: World, events: seq<Event>, w: World, q: OrderRequest, createdAt: int)
    requires Reachable(start, events, w) && q in w.requests
    ensures var (db', outcome) := CreateSeckill(w.ord, q.task, q.snapshot, createdAt);
            if q.task.orderNo in w.ord.orders then db' == w.ord && outcome == Orders.Replayed(w.ord.orders[q.task.orderNo])
            else outcome.Created? || outcome.EventRefused?
  {
    hide *;
    ReachableCore(start, events, w);
    RequestNeverConflicts(w, q, createdAt);
  }

  /** What one undisturbed processing of a task leaves behind in fresh databases. */
  function CleanReservation(start: World, t: Task): (a: Inventory.Answer) {
    Inventory.ReserveSeckillStock(start.inv.db, InputOf(t)).1
  }

  function CleanOrder(empty: Orders.Db, t: Task, s: Inventory.Snapshot, createdAt: int): (r: (Orders.Db, Orders.Outcome)) {
    CreateSeckill(empty, t, s, createdAt)
  }

  lemma CleanReservationIs(start: World, t: Task)
    requires Initial(start) && t.item in start.sales && start.sales[t.item].activity == t.activity && start.sales[t.item].initial > 0
    ensures CleanReservation(start, t)
         == Inventory.Granted(Inventory.Reservation(1, t.orderNo, t.activity, t.item, t.user, start.sales[t.item].snapshot, t.reservedAt), false)
  {
    hide ValidSale;
  }

  lemma SameSales(start: World, events: seq<Event>, w: World)
    requires Reachable(start, events, w)
    ensures w.sales == start.sales && Initial(start)
  {
    hide Initial;
    hide Orders.Grows;
    RunLater(start, events);
  }

  lemma ReservationIs(w: World, o: string)
    requires ReservationsOk(w.inv.db.reservations, w.admitted) && o in w.inv.db.reservations
    requires Inventory.DbInv(w.inv.db) && StockOk(w.inv.db.items, w.sales) && AdmissionsOk(w.admitted, w.sales, w.clock)
    ensures o in w.admitted && w.admitted[o].item in w.sales && w.sales[w.admitted[o].item].initial > 0
    ensures var t, r := w.admitted[o], w.inv.db.reservations[o];
            && t.orderNo == o && t.activity == w.sales[t.item].activity && 0 < t.reservedAt
            && r == Inventory.Reservation(r.id, o, t.activity, t.item, t.user, w.sales[t.item].snapshot, t.reservedAt)
  {
    ReservationOfAdmission(w, o);
    SnapshotOfReservation(w, o);
    StockBounds(w, w.admitted[o].item);
    assert o in Inventory.ReservedOf(w.inv.db, w.admitted[o].item);
    PositiveCount(Inventory.ReservedOf(w.inv.db, w.admitted[o].item), o);
    assert AdmissionOk(o, w.admitted[o], w.sales, w.clock);
    assert ReservationOk(o, w.inv.db.reservations[o], w.admitted);
    hide Inventory.DbInv;
    hide Inventory.ReservedOf;
    hide AdmissionsOk;
    hide ReservationsOk;
    hide Admissible;
    hide OrderEvents.SourceOf;
  }

  lemma PositiveCount(s: set<string>, x: string)
    requires x in s
    ensures |s| > 0
  {
  }

  /** However often and in whatever order a task was processed, its reservation is the one a single clean
      processing makes; only the row number differs. */
  lemma ReservationAsIfOnce(start: World, events: seq<Event>, w: World, o: string)
    requires Reachable(start, events, w) && o in w.inv.db.reservations
    ensures o in w.admitted
    ensures CleanReservation(start, w.admitted[o]) == Inventory.Granted(w.inv.db.reservations[o].(id := 1), false)
  {
    hide *;
    ReachableCore(start, events, w);
    SameSales(start, events, w);
    Open(w);
    Inventory.ServiceInvDb(w.inv);
    ReservationIs(w, o);
    CleanReservationIs(start, w.admitted[o]);
  }

  lemma RowOfOrder(db: Orders.Db, o: string)
    requires Orders.OutboxMatches(db) && o in db.orders
    ensures Orders.HasRow(db.outbox, o) && db.orders[o].orderNo == o && Orders.EventOf(db.orders[o]).Some?
    ensures forall i :: 0 <= i < |db.outbox| && db.outbox[i].orderNo == o ==>
              Some(db.outbox[i].payload) == Orders.EventOf(db.orders[o]) && db.outbox[i].eventId == OrderEvents.StableEventId(o)
  {
    hide Orders.EventOf;
    hide Trimmed;
    hide Orders.RowsDistinct;
    hide OrderEvents.StableEventId;
  }

  lemma CleanCreate(db: Orders.Db, order: Orders.Order, inputs: seq<Orders.ItemInput>)
    requires db == Orders.Db(map[], [], 1) && TrimSpace(order.orderNo) == order.orderNo && Orders.EventOf(order).Some?
    requires Orders.NormalizeItems(order.user, order.orderNo, inputs) == Orders.Normal(order.items, order.total)
    ensures Orders.EventOf(order.(id := 1)) == Orders.EventOf(order)
    ensures Orders.CreateIdempotent(db, order.user, order.orderNo, inputs, order.createdAt)
         == (Orders.Db(map[order.orderNo := order.(id := 1)],
                       [Orders.NewRow(Orders.EventOf(order).value, order.orderNo, order.createdAt)], 2),
             Orders.Created(order.(id := 1)))
  {
    SameEvent(order, order.(id := 1));
    hide TrimSpace;
    hide Orders.NormalizeItems;
    hide Orders.EventOf;
    var row := Orders.NewRow(Orders.EventOf(order).value, order.orderNo, order.createdAt);
    hide Orders.NewRow;
    assert db.orders[order.orderNo := order.(id := 1)] == map[order.orderNo := order.(id := 1)];
    assert db.outbox + [row] == [row];
    assert Orders.Order(db.nextId, order.orderNo, order.user, order.total, order.items, order.createdAt) == order.(id := 1);
  }

  lemma SameEvent(a: Orders.Order, b: Orders.Order)
    requires b == a.(id := b.id)
    ensures Orders.EventOf(a) == Orders.EventOf(b)
  {
    hide OrderEvents.NewOrderCreated;
    hide OrderEvents.SourceOf;
  }

  lemma ExecKeepsFresh(w: World, e: Event)
    requires Orders.RowsFresh(w.ord)
    ensures Orders.RowsFresh(Exec(w, e).ord)
  {
    hide Orders.RowsFresh;
    hide Orders.CreateIdempotent;
    hide TrimSpace;
    hide DoEnqueue;
    if e.ExecuteOrder? {
      Orders.CreateKeepsFresh(w.ord, e.request.task.user, TrimSpace(e.request.task.orderNo), [OrderInput(e.request.snapshot)], e.createdAt);
    } else if e.PlaceNormalOrder? {
      Orders.CreateKeepsFresh(w.ord, e.user, e.orderNo, e.inputs, e.createdAt);
    } else if e.Enqueue? {
      EnqueueOrders(w, e.item, e.user, e.now, e.random);
    } else {
      hide Exec;
      QuietLater(w, e);
    }
  }

  lemma EnqueueOrders(w: World, item: nat, user: nat, now: int, random: Random)
    ensures DoEnqueue(w, item, user, now, random).ord == w.ord
  {
    hide StreamOrderText;
    hide ReserveAndEnqueue;
  }

  lemma {:induction false} RunKeepsFresh(w: World, events: seq<Event>)
    requires Orders.RowsFresh(w.ord)
    ensures Orders.RowsFresh(Run(w, events).ord)
    decreases |events|
  {
    hide Orders.RowsFresh;
    hide Exec;
    if events != [] {
      ExecKeepsFresh(w, events[0]);
      RunKeepsFresh(Exec(w, events[0]), events[1..]);
    }
  }

  lemma RowsStayFresh(start: World, events: seq<Event>, w: World)
    requires Reachable(start, events, w)
    ensures Orders.RowsFresh(w.ord)
  {
    FreshOrders(start);
    hide Initial;
    hide TimelyRun;
    RunKeepsFresh(start, events);
  }

  /** The same of the order: its lines, its total and its whole outbox row are those of a single clean
      processing at the moment the order was created. */
  lemma OrderAsIfOnce(start: World, events: seq<Event>, w: World, o: string)
    requires Reachable(start, events, w) && o in w.ord.orders && IsStreamOrder(o)
    ensures o in w.admitted && w.admitted[o].item in w.sales
    ensures var order := w.ord.orders[o];
            var (db, outcome) := CleanOrder(start.ord, w.admitted[o], w.sales[w.admitted[o].item].snapshot, order.createdAt);
            && outcome == Orders.Created(order.(id := 1)) && db.orders == map[o := order.(id := 1)]
            && |db.outbox| == 1
            && db.outbox[0] in w.ord.outbox
  {
    hide *;
    SourceIs(o);
    ReachableCore(start, events, w);
    SameSales(start, events, w);
    FreshOrders(start);
    Open(w);
    SeckillOrderFacts(w, o);
    ReservationTime(w, o);
    OrderOfAdmission(w, o);
    RowOfOrder(w.ord, o);
    RowsStayFresh(start, events, w);
    CleanOrderIs(w, start.ord, o);
  }

  lemma FreshOrders(start: World)
    requires Initial(start)
    ensures start.ord == Orders.Db(map[], [], 1)
  {
    hide ValidSale;
  }

  lemma ReservationTime(w: World, o: string)
    requires o in w.admitted && 0 < w.admitted[o].reservedAt && AdmissionsOk(w.admitted, w.sales, w.clock)
    ensures w.admitted[o].orderNo == o && TaskOk(w.admitted[o].item, w.admitted[o], w.admitted) && w.admitted[o].item in w.sales
  {
    assert AdmissionOk(o, w.admitted[o], w.sales, w.clock);
    hide Admissible;
    hide OrderEvents.SourceOf;
  }

  lemma CleanOrderIs(w: World, empty: Orders.Db, o: string)
    requires empty == Orders.Db(map[], [], 1) && o in w.ord.orders && o in w.admitted
    requires SalesOk(w.sales) && AdmissionsOk(w.admitted, w.sales, w.clock)
    requires OrderMatches(w.ord.orders[o], w.admitted[o], w.sales) && TaskOk(w.admitted[o].item, w.admitted[o], w.admitted) && w.admitted[o].orderNo == o
    requires Orders.HasRow(w.ord.outbox, o) && w.ord.orders[o].orderNo == o && Orders.EventOf(w.ord.orders[o]).Some?
    requires forall i :: 0 <= i < |w.ord.outbox| && w.ord.outbox[i].orderNo == o ==>
               Some(w.ord.outbox[i].payload) == Orders.EventOf(w.ord.orders[o]) && w.ord.outbox[i].eventId == OrderEvents.StableEventId(o)
    requires Orders.RowsFresh(w.ord)
    ensures w.admitted[o].item in w.sales
    ensures var order := w.ord.orders[o];
            var (db, outcome) := CleanOrder(empty, w.admitted[o], w.sales[w.admitted[o].item].snapshot, order.createdAt);
            && outcome == Orders.Created(order.(id := 1)) && db.orders == map[o := order.(id := 1)]
            && |db.outbox| == 1
            && db.outbox[0] in w.ord.outbox
  {
    var t, order := w.admitted[o], w.ord.orders[o];
    var q := OrderRequest(t, w.sales[t.item].snapshot);
    var i :| 0 <= i < |w.ord.outbox| && w.ord.outbox[i].orderNo == o;
    assert w.ord.outbox[i] == Orders.NewRow(Orders.EventOf(order).value, o, order.createdAt);
    hide Orders.RowsFresh;
    hide Orders.NewRow;
    hide TrimSpace;
    hide Orders.NormalizeItems;
    hide Orders.EventOf;
    hide Orders.CreateIdempotent;
    hide CreateSeckill;
    hide OrderEvents.StableEventId;
    hide AdmissionsOk;
    hide SalesOk;
    RequestIsNormal(q, w);
    SeckillIsCreate(empty, q, order.createdAt, w.sales[t.item]);
    CleanCreate(empty, order, [OrderInput(w.sales[t.item].snapshot)]);
  }
}
