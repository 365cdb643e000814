/** What every action of the pipeline keeps, store by store and across the stores. Each predicate speaks
    of the components it depends on, so an action only has to answer for the components it changes. The core
    holds in every run; the timed part needs publishing to come before the start. */
module PipelineInvariant {
  import opened Text
  import opened OrderNumbers
  import opened StreamMessages
  import opened RedisSlot
  import OrderEvents
  import Inventory
  import Orders
  import opened Pipeline

  type Admissions = map<string, Task>

  ghost predicate SalesOk(sales: map<nat, Sale>) {
    forall item :: item in sales ==> ValidSale(item, sales[item])
  }

  // ---------------------------------------------------------------- admissions

  /** An admitted request is well formed, belongs to an item on sale and fell into its sale. */
  ghost predicate AdmissionOk(o: string, t: Task, sales: map<nat, Sale>, clock: int) {
    && t.orderNo == o && Admissible(t) && OrderEvents.SourceOf(o) == OrderEvents.SOURCE_SECKILL
    && t.item in sales && t.activity == sales[t.item].activity && sales[t.item].startAt <= t.reservedAt <= clock
    && t.reservedAt < sales[t.item].endAt && t.reservedAt != ZERO_TIME
    && StreamOrderItemId(o) == (if 0 <= t.reservedAt then Some(t.item) else None)
  }

  ghost predicate AdmissionsOk(admitted: Admissions, sales: map<nat, Sale>, clock: int) {
    forall o :: o in admitted ==> AdmissionOk(o, admitted[o], sales, clock)
  }

  /** The gate gives a user one order number per item. */
  ghost predicate OneEach(admitted: Admissions) {
    forall o, p :: o in admitted && p in admitted && admitted[o].item == admitted[p].item && admitted[o].user == admitted[p].user ==> o == p
  }

  ghost function AdmittedOf(admitted: Admissions, item: nat): (r: set<string>) {
    set o | o in admitted && admitted[o].item == item
  }

  /** The gate never promises more units than the item has. */
  ghost predicate Capped(admitted: Admissions, sales: map<nat, Sale>) {
    forall item :: item in sales ==> |AdmittedOf(admitted, item)| <= sales[item].initial
  }

  // ---------------------------------------------------------------- Redis

  ghost predicate BuyersOk(buyers: map<nat, string>, admitted: Admissions, item: nat) {
    && (forall u :: u in buyers ==> buyers[u] in admitted && admitted[buyers[u]].user == u && admitted[buyers[u]].item == item)
    && (forall o :: o in admitted && admitted[o].item == item ==> admitted[o].user in buyers && buyers[admitted[o].user] == o)
  }

  /** A gate is closed and empty, or open with every unit either in stock or with a buyer. */
  ghost predicate GateOk(item: nat, h: StateHash, buyers: map<nat, string>, sale: Sale, admitted: Admissions) {
    || (h == NO_STATE && buyers == map[])
    || (&& h.stock.Some? && h.generation.Some? && h == HashOf(item, sale, h.stock.value, h.generation.value)
        && 0 <= h.stock.value && h.stock.value + |buyers| == sale.initial
        && h.stock.value + |AdmittedOf(admitted, item)| == sale.initial
        && BuyersOk(buyers, admitted, item))
  }

  /** A stream message is the encoding of an admitted request of its item. */
  ghost predicate MessageOk(item: nat, f: Fields, admitted: Admissions) {
    && OrderNo in f && f[OrderNo] in admitted && admitted[f[OrderNo]].item == item && f == Encode(admitted[f[OrderNo]])
  }

  ghost predicate StreamOk(item: nat, s: Slot, admitted: Admissions) {
    forall id :: id in s.stream ==> id <= s.lastId && MessageOk(item, s.stream[id], admitted)
  }

  ghost predicate RetriesOk(retries: map<nat, nat>, maxDeliveries: nat) {
    forall id :: id in retries ==> retries[id] < maxDeliveries
  }

  /** A result belongs to the user the request was admitted for, and success means a committed order. */
  ghost predicate ResultOk(item: nat, o: string, value: string, admitted: Admissions, orders: set<string>) {
    && o in admitted && admitted[o].item == item
    && (|| value == ResultValue(admitted[o].user, QUEUED)
        || value == ResultValue(admitted[o].user, FAILED)
        || (value == ResultValue(admitted[o].user, SUCCEEDED) && o in orders))
  }

  ghost predicate ResultsOk(item: nat, results: map<string, string>, admitted: Admissions, orders: set<string>) {
    forall o :: o in results ==> ResultOk(item, o, results[o], admitted, orders)
  }

  /** The projection ledger files an event under the order the event is named after. */
  ghost predicate LedgerOk(ledger: map<string, string>) {
    forall e :: e in ledger ==> e == OrderEvents.StableEventId(ledger[e]) && Trimmed(ledger[e])
  }

  /** The state hash is absent or the one of the item's sale, with some stock. */
  ghost predicate HashOk(item: nat, h: StateHash, sale: Sale) {
    h == NO_STATE || (h.stock.Some? && h.generation.Some? && h == HashOf(item, sale, h.stock.value, h.generation.value))
  }

  ghost predicate SlotOk(item: nat, s: Slot, sale: Sale, admitted: Admissions, orders: set<string>, maxDeliveries: nat) {
    && HashOk(item, s.state, sale)
    && StreamOk(item, s, admitted)
    && RetriesOk(s.retries, maxDeliveries)
    && ResultsOk(item, s.results, admitted, orders)
    && LedgerOk(s.ledger)
  }

  ghost predicate SlotsOk(slots: map<nat, Slot>, sales: map<nat, Sale>, admitted: Admissions, orders: set<string>, maxDeliveries: nat) {
    forall item :: item in slots ==> item in sales && SlotOk(item, slots[item], sales[item], admitted, orders, maxDeliveries)
  }

  ghost predicate InStream(s: Slot, o: string) {
    exists id :: id in s.stream && OrderNo in s.stream[id] && s.stream[id][OrderNo] == o
  }

  ghost predicate InDlq(s: Slot, o: string) {
    exists i :: 0 <= i < |s.dlq| && s.dlq[i].orderNo == o
  }

  ghost predicate Accounted(o: string, t: Task, slots: map<nat, Slot>, orders: set<string>) {
    o in orders || (t.item in slots && (InStream(slots[t.item], o) || InDlq(slots[t.item], o)))
  }

  /** No admitted request is lost: it waits in the stream, is an order, or lies in the DLQ. */
  ghost predicate NoneLost(admitted: Admissions, slots: map<nat, Slot>, orders: set<string>) {
    forall o :: o in admitted ==> Accounted(o, admitted[o], slots, orders)
  }

  // ---------------------------------------------------------------- inventory

  /** The stock rows are the items on sale. */
  ghost predicate StockOk(items: map<nat, Inventory.ItemRow>, sales: map<nat, Sale>) {
    && items.Keys == sales.Keys
    && forall item :: item in sales ==>
         items[item].activity == sales[item].activity && items[item].snapshot == sales[item].snapshot && items[item].initial == sales[item].initial
  }

  ghost predicate ReservationOk(o: string, r: Inventory.Reservation, admitted: Admissions) {
    && o in admitted && 0 < admitted[o].reservedAt
    && r == Inventory.Reservation(r.id, o, admitted[o].activity, admitted[o].item, admitted[o].user, r.snapshot, admitted[o].reservedAt)
  }

  ghost predicate ReservationsOk(reservations: map<string, Inventory.Reservation>, admitted: Admissions) {
    forall o :: o in reservations ==> ReservationOk(o, reservations[o], admitted)
  }

  /** A call speaks for an admitted request, and is never refused for a conflict or a missing item. */
  ghost predicate CallOk(c: Inventory.Call, admitted: Admissions) {
    && c.input.orderNo in admitted && 0 < admitted[c.input.orderNo].reservedAt && c.input == InputOf(admitted[c.input.orderNo])
    && c.phase != Inventory.Answered(Inventory.Refused(Inventory.Conflict))
    && c.phase != Inventory.Answered(Inventory.Refused(Inventory.ItemNotFound))
  }

  ghost predicate CallsOk(calls: map<nat, Inventory.Call>, admitted: Admissions) {
    forall c :: c in calls ==> CallOk(calls[c], admitted)
  }

  // ---------------------------------------------------------------- orders, requests, workers

  /** The order a clean run makes of a request: its user and the frozen snapshot of its item. */
  ghost predicate OrderMatches(order: Orders.Order, t: Task, sales: map<nat, Sale>) {
    && order.user == t.user && t.item in sales
    && Orders.NormalizeItems(t.user, t.orderNo, [OrderInput(sales[t.item].snapshot)]) == Orders.Normal(order.items, order.total)
  }

  ghost predicate StreamOrderOk(o: string, order: Orders.Order, sales: map<nat, Sale>, admitted: Admissions) {
    OrderEvents.SourceOf(o) == OrderEvents.SOURCE_SECKILL ==> o in admitted && 0 < admitted[o].reservedAt && OrderMatches(order, admitted[o], sales)
  }

  ghost predicate StreamOrdersOk(orders: map<string, Orders.Order>, sales: map<nat, Sale>, admitted: Admissions) {
    forall o :: o in orders ==> StreamOrderOk(o, orders[o], sales, admitted)
  }

  /** The worker's task is an admitted one, of the item whose stream it came from. */
  ghost predicate TaskOk(item: nat, t: Task, admitted: Admissions) {
    t.orderNo in admitted && admitted[t.orderNo] == t && t.item == item && 0 < t.reservedAt
  }

  ghost predicate SnapshotOk(t: Task, s: Inventory.Snapshot, sales: map<nat, Sale>) {
    t.item in sales && s == sales[t.item].snapshot
  }

  ghost predicate RequestsOk(requests: set<OrderRequest>, sales: map<nat, Sale>, admitted: Admissions) {
    forall q :: q in requests ==> TaskOk(q.task.item, q.task, admitted) && SnapshotOk(q.task, q.snapshot, sales)
  }

  ghost function OrderNoOf(k: Worker): (r: string) {
    if k.Failing? then k.orderNo else k.task.orderNo
  }

  /** The worker's message, if still in the stream, is the one it fetched. */
  ghost predicate HoldsMessage(k: Worker, slots: map<nat, Slot>) {
    && k.item in slots && k.id <= slots[k.item].lastId
    && (k.id in slots[k.item].stream ==> OrderNo in slots[k.item].stream[k.id] && slots[k.item].stream[k.id][OrderNo] == OrderNoOf(k))
  }

  ghost predicate WorkerOk(k: Worker, sales: map<nat, Sale>, admitted: Admissions, orders: set<string>) {
    match k
    case Reserving(item, _, t) => TaskOk(item, t, admitted)
    case Ordering(item, _, t, s) => TaskOk(item, t, admitted) && SnapshotOk(t, s, sales)
    case Completing(item, _, t) => TaskOk(item, t, admitted) && t.orderNo in orders
    case Failing(item, _, o, u, _, _) => o in admitted && admitted[o].item == item && admitted[o].user == u
  }

  ghost predicate WorkersOk(workers: map<nat, Worker>, sales: map<nat, Sale>, admitted: Admissions, orders: set<string>) {
    forall k :: k in workers ==> WorkerOk(workers[k], sales, admitted, orders)
  }

  ghost predicate MessagesHeld(workers: map<nat, Worker>, slots: map<nat, Slot>) {
    forall k :: k in workers ==> HoldsMessage(workers[k], slots)
  }

  ghost predicate PreheatsOk(preheats: set<Preheat>, sales: map<nat, Sale>) {
    forall p :: p in preheats && p.item in sales ==> p.stock == sales[p.item].initial
  }

  // ---------------------------------------------------------------- the core, kept in every run

  ghost predicate RedisInv(w: World) {
    && SlotsOk(w.slots, w.sales, w.admitted, w.ord.orders.Keys, w.maxDeliveries)
    && NoneLost(w.admitted, w.slots, w.ord.orders.Keys)
  }

  ghost predicate StoreInv(w: World) {
    && Inventory.ServiceInv(w.inv)
    && StockOk(w.inv.db.items, w.sales)
    && ReservationsOk(w.inv.db.reservations, w.admitted)
    && CallsOk(w.inv.calls, w.admitted)
    && Orders.OutboxMatches(w.ord)
    && StreamOrdersOk(w.ord.orders, w.sales, w.admitted)
  }

  ghost predicate FlowInv(w: World) {
    && SalesOk(w.sales) && w.maxDeliveries > 0
    && AdmissionsOk(w.admitted, w.sales, w.clock)
    && RequestsOk(w.requests, w.sales, w.admitted)
    && WorkersOk(w.workers, w.sales, w.admitted, w.ord.orders.Keys)
    && MessagesHeld(w.workers, w.slots)
    && PreheatsOk(w.preheats, w.sales)
  }

  /** What holds in every run. Proofs hide everything else and look at one conjunct at a time. */
  ghost predicate CoreInv(w: World) { RedisInv(w) && StoreInv(w) && FlowInv(w) }

  // ---------------------------------------------------------------- the timed part

  ghost predicate GatesOk(slots: map<nat, Slot>, sales: map<nat, Sale>, admitted: Admissions) {
    forall item :: item in slots ==> item in sales && GateOk(item, slots[item].state, slots[item].buyers, sales[item], admitted)
  }

  /** A stream order has its own reservation. */
  ghost predicate OrdersReserved(orders: set<string>, reserved: set<string>) {
    forall o :: o in orders && OrderEvents.SourceOf(o) == OrderEvents.SOURCE_SECKILL ==> o in reserved
  }

  ghost predicate RequestsReserved(requests: set<OrderRequest>, reserved: set<string>) {
    forall q :: q in requests ==> q.task.orderNo in reserved
  }

  ghost predicate WorkersReserved(workers: map<nat, Worker>, reserved: set<string>) {
    forall k :: k in workers && workers[k].Ordering? ==> workers[k].task.orderNo in reserved
  }

  /** What holds when publishing comes before the start. */
  ghost predicate TimedInv(w: World) {
    && GatesOk(w.slots, w.sales, w.admitted)
    && OneEach(w.admitted)
    && Capped(w.admitted, w.sales)
    && OrdersReserved(w.ord.orders.Keys, w.inv.db.reservations.Keys)
    && RequestsReserved(w.requests, w.inv.db.reservations.Keys)
    && WorkersReserved(w.workers, w.inv.db.reservations.Keys)
  }

  /** The invariant of timely runs. */
  ghost predicate Inv(w: World) { CoreInv(w) && TimedInv(w) }
}
