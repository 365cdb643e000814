/** The flash-sale pipeline from admission to result, as one machine over its stores. An event is one atomic
    action: a Redis script, a database transaction, a message delivery, a crash. An event whose guard does not
    hold changes nothing, so every sequence of events is a run. Times are Unix milliseconds unless a store
    says otherwise, on one common clock. */
module Pipeline {
  import opened Text
  import opened OrderNumbers
  import opened StreamMessages
  import opened RedisSlot
  import OrderEvents
  import Inventory
  import Orders

  /** One item on sale: fixed when the item is created. */
  datatype Sale = Sale(activity: nat, startAt: int, endAt: int, snapshot: Inventory.Snapshot, initial: nat)

  /** A stock figure a preheat has read and not yet published. */
  datatype Preheat = Preheat(item: nat, stock: int, version: nat)

  datatype OrderRequest = OrderRequest(task: Task, snapshot: Inventory.Snapshot)

  /** A stream consumer between fetching a message and reporting on it. */
  datatype Worker =
    | Reserving(item: nat, id: nat, task: Task)
    | Ordering(item: nat, id: nat, task: Task, snapshot: Inventory.Snapshot)
    | Completing(item: nat, id: nat, task: Task)
    | Failing(item: nat, id: nat, orderNo: string, user: nat, code: string, terminal: bool)

  datatype World = World(
    clock: int,
    sales: map<nat, Sale>,
    maxDeliveries: nat,
    slots: map<nat, Slot>,              // Redis, one slot per item
    preheats: set<Preheat>,
    inv: Inventory.Service,             // inventory database and calls in progress
    ord: Orders.Db,                     // order database
    requests: set<OrderRequest>,        // order requests sent; each may take effect at any later time, or never
    workers: map<nat, Worker>,
    admitted: map<string, Task>)        // history: every request the gate ever admitted

  datatype GiveUp = Timeout | DependencyDown | OtherFailure

  datatype Event =
    | Tick(to: int)
    | LoadPreheat(item: nat)
    | PublishItem(read: Preheat)
    | InvalidateItem(item: nat)
    | Enqueue(item: nat, user: nat, now: int, random: Random)
    | Fetch(worker: nat, item: nat, id: nat)
    | CallInventory(worker: nat, call: nat)
    | InventoryStatement(call: nat, fault: Inventory.Fault)
    | ReceiveReservation(worker: nat, call: nat)
    | AbandonInventory(worker: nat, why: GiveUp)
    | SendOrder(worker: nat)
    | ExecuteOrder(request: OrderRequest, createdAt: int, answerTo: Option<nat>)
    | AbandonOrder(worker: nat)
    | ReportSuccess(worker: nat)
    | ReportFailure(worker: nat, failedAt: int)
    | Crash(worker: nat)
    | PlaceNormalOrder(user: nat, orderNo: string, inputs: seq<Orders.ItemInput>, createdAt: int)
    | ProjectOrder(orderNo: string)

  function SlotOf(w: World, item: nat): (s: Slot) {
    if item in w.slots then w.slots[item] else EMPTY_SLOT
  }

  // ---------------------------------------------------------------- activity side

  /** The hash a preheat publishes. Expiry is the end plus five minutes plus an item-specific jitter. */
  function HashOf(item: nat, sale: Sale, stock: int, generation: string): (h: StateHash) {
    StateHash(true, Some(sale.activity), Some(sale.snapshot.sku), Some(ENABLED), Some(sale.startAt), Some(sale.endAt),
              Some(stock), Some(generation), Some(sale.endAt + 300_000 + (item % 31) * 1_000))
  }

  function Generation(sale: Sale, version: nat): (r: string) {
    FormatUint(sale.activity) + ":" + FormatUint(version) + ":" + FormatInt(sale.endAt * 1_000)
  }

  /** A published hash sells exactly within the sale's window, and outlives the window by five minutes to five and a half. */
  lemma PublishedSells(item: nat, sale: Sale, stock: int, generation: string, now: int)
    ensures var h := HashOf(item, sale, stock, generation);
            && (Selling(h, now) <==> sale.startAt <= now < sale.endAt) && h.stock == Some(stock) && h.activity == Some(sale.activity)
            && h.expireAt.Some? && sale.endAt + 300_000 <= h.expireAt.value <= sale.endAt + 330_000
  {
  }

  lemma DigitsOnly(n: nat, i: int)
    ensures ':' !in FormatUint(n) && ':' !in FormatInt(i)
  {
    assert AllDigits(FormatUint(n)) && AllDigits(FormatUint(if i < 0 then -i else i));
    hide FormatUint;
  }

  /** A generation names what was published: activity, stock version and end. */
  lemma GenerationNames(a: Sale, version: nat, b: Sale, other: nat)
    requires a.activity <= MAX_UINT64 && b.activity <= MAX_UINT64 && version <= MAX_UINT64 && other <= MAX_UINT64
    requires FitsInt64(a.endAt * 1_000) && FitsInt64(b.endAt * 1_000) && Generation(a, version) == Generation(b, other)
    ensures a.activity == b.activity && version == other && a.endAt == b.endAt
  {
    GenerationReads(a, version);
    GenerationReads(b, other);
  }

  lemma GenerationReads(a: Sale, version: nat)
    requires a.activity <= MAX_UINT64 && version <= MAX_UINT64 && FitsInt64(a.endAt * 1_000)
    ensures var parts := Split(Generation(a, version), ':');
            && |parts| == 3 && ParseUint(parts[0]).value == a.activity && ParseUint(parts[1]).value == version && ParseInt(parts[2]).value == a.endAt * 1_000
  {
    DigitsOnly(a.activity, a.endAt * 1_000);
    DigitsOnly(version, 0);
    SplitThree(FormatUint(a.activity), ':', FormatUint(version), FormatInt(a.endAt * 1_000));
    ParseFormatUint(a.activity);
    ParseFormatUint(version);
    ParseFormatInt(a.endAt * 1_000);
    hide FormatUint;
    hide FormatInt;
    hide Split;
    hide ParseUint;
    hide ParseInt;
  }

  function DoLoadPreheat(w: World, item: nat): (r: World) {
    if item in w.sales && item in w.inv.db.items && w.clock < w.sales[item].startAt
    then w.(preheats := w.preheats + {Preheat(item, w.inv.db.items[item].available, w.inv.db.items[item].version)})
    else w
  }

  function DoPublish(w: World, read: Preheat): (r: World) {
    if read in w.preheats && read.item in w.sales then
      var sale := w.sales[read.item];
      w.(slots := w.slots[read.item :=
           Publish(SlotOf(w, read.item), HashOf(read.item, sale, read.stock, Generation(sale, read.version)))])
    else w
  }

  function DoInvalidate(w: World, item: nat): (r: World) {
    if item in w.sales then w.(slots := w.slots[item := Invalidate(SlotOf(w, item))]) else w
  }

  // ---------------------------------------------------------------- admission

  /** The request reads the clock, draws a fresh order number and runs the script some time later. */
  predicate CanEnqueue(w: World, item: nat, user: nat, now: int, random: Random) {
    && 0 < user <= MAX_UINT64 && item in w.sales && now <= w.clock && FitsInt64(now) && now != ZERO_TIME
    && StreamOrderText(now, item, random) !in w.admitted
  }

  function DoEnqueue(w: World, item: nat, user: nat, now: int, random: Random): (r: World) {
    if !CanEnqueue(w, item, user, now, random) then w
    else
      var orderNo := StreamOrderText(now, item, random);
      var s := SlotOf(w, item);
      var (s', d) := ReserveAndEnqueue(s, user, now, orderNo, item);
      if d.Reserved? && s.state.activity.Some? then
        w.(slots := w.slots[item := s'],
           admitted := w.admitted[orderNo := Task(orderNo, user, s.state.activity.value, item, now)])
      else w
  }

  // ---------------------------------------------------------------- stream consumers

  function IdText(id: nat): (r: string)
    ensures r != ""
  {
    FormatUint(id) + "-0"
  }

  /** A message in the stream may be handed out any number of times, to any number of workers. */
  function DoFetch(w: World, worker: nat, item: nat, id: nat): (r: World) {
    if worker in w.workers || id !in SlotOf(w, item).stream then w
    else
      match Decode(item, IdText(id), SlotOf(w, item).stream[id])
      case Decoded(t) => w.(workers := w.workers[worker := Reserving(item, id, t)])
      case Undecodable(orderNo, user, error) =>
        var code := if error.UnsupportedMessage? then "unsupported_message" else "invalid_message";
        w.(workers := w.workers[worker := Failing(item, id, orderNo, user, code, true)])
  }

  function InputOf(t: Task): (i: Inventory.Input) {
    Inventory.Input(t.orderNo, t.activity, t.item, t.user, t.reservedAt)
  }

  function DoCallInventory(w: World, worker: nat, call: nat): (r: World) {
    if worker in w.workers && w.workers[worker].Reserving?
    then w.(inv := Inventory.Begin(w.inv, call, InputOf(w.workers[worker].task)))
    else w
  }

  /** Permanent refusals end a request at once; anything else is counted and retried. */
  function RefusedWorker(item: nat, id: nat, t: Task, e: Inventory.Error): (r: Worker) {
    if e.ItemNotFound? || e.OutOfStock? || e.Conflict?
    then Failing(item, id, t.orderNo, t.user, "rpc_request_rejected", true)
    else Failing(item, id, t.orderNo, t.user, "temporary_failure", false)
  }

  function AfterReservation(k: Worker, a: Inventory.Answer): (r: Worker)
    requires k.Reserving?
  {
    match a
    case Granted(r, _) => Ordering(k.item, k.id, k.task, r.snapshot)
    case Refused(e) => RefusedWorker(k.item, k.id, k.task, e)
  }

  predicate CanReceive(w: World, worker: nat, call: nat) {
    && worker in w.workers && w.workers[worker].Reserving? && call in w.inv.calls
    && w.inv.calls[call].input == InputOf(w.workers[worker].task) && w.inv.calls[call].phase.Answered?
  }

  function DoReceiveReservation(w: World, worker: nat, call: nat): (r: World) {
    if CanReceive(w, worker, call)
    then w.(workers := w.workers[worker := AfterReservation(w.workers[worker], w.inv.calls[call].phase.answer)])
    else w
  }

  function GiveUpCode(why: GiveUp): (r: string) {
    match why
    case Timeout => "dependency_timeout"
    case DependencyDown => "dependency_unavailable"
    case OtherFailure => "temporary_failure"
  }

  function DoAbandonInventory(w: World, worker: nat, why: GiveUp): (r: World) {
    if worker in w.workers && w.workers[worker].Reserving? then
      var k := w.workers[worker];
      w.(workers := w.workers[worker := Failing(k.item, k.id, k.task.orderNo, k.task.user, GiveUpCode(why), false)])
    else w
  }

  // ---------------------------------------------------------------- orders

  function OrderInput(s: Inventory.Snapshot): (i: Orders.ItemInput) {
    Orders.ItemInput(s.sku, s.productName, s.skuCode, s.skuName, s.price, 1)
  }

  /** The checks of the order service's server and service layers. */
  predicate Rejects(t: Task, s: Inventory.Snapshot) {
    || t.activity == 0 || t.item == 0 || t.reservedAt <= 0 || t.user == 0 || TrimSpace(t.orderNo) == "" || s.sku == 0
    || TrimSpace(s.productName) == "" || TrimSpace(s.skuCode) == "" || TrimSpace(s.skuName) == "" || s.price < 0
  }

  /** The seckill create of the order service. */
  function CreateSeckill(db: Orders.Db, t: Task, s: Inventory.Snapshot, createdAt: int): (r: (Orders.Db, Orders.Outcome)) {
    if Rejects(t, s) then (db, Orders.InvalidOrder)
    else Orders.CreateIdempotent(db, t.user, TrimSpace(t.orderNo), [OrderInput(s)], createdAt)
  }

  function DoSendOrder(w: World, worker: nat): (r: World) {
    if worker in w.workers && w.workers[worker].Ordering?
    then w.(requests := w.requests + {OrderRequest(w.workers[worker].task, w.workers[worker].snapshot)})
    else w
  }

  /** A failed order leaves the reservation standing and is never terminal. */
  function AfterOrder(k: Worker, o: Orders.Outcome): (r: Worker)
    requires k.Ordering?
  {
    if o.Created? || o.Replayed? then Completing(k.item, k.id, k.task)
    else Failing(k.item, k.id, k.task.orderNo, k.task.user, "reserved_without_order", false)
  }

  predicate Awaits(workers: map<nat, Worker>, answerTo: Option<nat>, request: OrderRequest) {
    && answerTo.Some? && answerTo.value in workers && workers[answerTo.value].Ordering?
    && OrderRequest(workers[answerTo.value].task, workers[answerTo.value].snapshot) == request
  }

  /** A request already sent takes effect; its answer reaches a waiting worker or is lost. */
  function DoExecuteOrder(w: World, request: OrderRequest, createdAt: int, answerTo: Option<nat>): (r: World) {
    if request !in w.requests then w
    else
      var (ord', outcome) := CreateSeckill(w.ord, request.task, request.snapshot, createdAt);
      w.(ord := ord',
         workers := if Awaits(w.workers, answerTo, request)
                    then w.workers[answerTo.value := AfterOrder(w.workers[answerTo.value], outcome)] else w.workers)
  }

  function DoAbandonOrder(w: World, worker: nat): (r: World) {
    if worker in w.workers && w.workers[worker].Ordering? then
      var k := w.workers[worker];
      w.(workers := w.workers[worker := Failing(k.item, k.id, k.task.orderNo, k.task.user, "reserved_without_order", false)])
    else w
  }

  /** Orders of the normal path carry numbers that do not start with T. */
  function DoPlaceNormalOrder(w: World, user: nat, orderNo: string, inputs: seq<Orders.ItemInput>, createdAt: int): (r: World) {
    if OrderEvents.SourceOf(TrimSpace(orderNo)) == OrderEvents.SOURCE_SECKILL then w
    else w.(ord := Orders.CreateIdempotent(w.ord, user, orderNo, inputs, createdAt).0)
  }

  // ---------------------------------------------------------------- reports and projection

  function DoReportSuccess(w: World, worker: nat): (r: World) {
    if worker in w.workers && w.workers[worker].Completing? then
      var k := w.workers[worker];
      w.(slots := w.slots[k.item := Complete(SlotOf(w, k.item), k.id)], workers := w.workers - {worker})
    else w
  }

  function DoReportFailure(w: World, worker: nat, failedAt: int): (r: World) {
    if worker in w.workers && w.workers[worker].Failing? then
      var k := w.workers[worker];
      w.(slots := w.slots[k.item := Fail(SlotOf(w, k.item), k.id, k.orderNo, k.user, k.code, k.terminal, w.maxDeliveries, failedAt)],
         workers := w.workers - {worker})
    else w
  }

  datatype Projecting = NotSeckill | BadOrderNo | Into(item: nat, result: Projection)

  /** What the projector does with a valid event: it looks at the event alone. */
  function ProjectionOfEvent(w: World, e: OrderEvents.OrderCreated): (r: Projecting) {
    if e.source != OrderEvents.SOURCE_SECKILL then NotSeckill
    else
      match StreamOrderItemId(e.orderNo)
      case None => BadOrderNo
      case Some(item) => Into(item, Project(SlotOf(w, item), e.eventId, TrimSpace(e.orderNo), e.user).1)
  }

  function ProjectEvent(w: World, e: OrderEvents.OrderCreated): (r: World) {
    match ProjectionOfEvent(w, e)
    case Into(item, _) => w.(slots := w.slots[item := Project(SlotOf(w, item), e.eventId, TrimSpace(e.orderNo), e.user).0])
    case _ => w
  }

  /** The event of a committed order reaches the projector, any number of times. */
  function DoProject(w: World, orderNo: string): (r: World) {
    if orderNo in w.ord.orders && Orders.EventOf(w.ord.orders[orderNo]).Some?
    then ProjectEvent(w, Orders.EventOf(w.ord.orders[orderNo]).value) else w
  }

  /** The result query: the order table is read first, in state w1, the Redis projection later, in state w2. */
  function AsyncResult(w1: World, w2: World, user: nat, rawOrderNo: string): (r: Found) {
    var orderNo := TrimSpace(rawOrderNo);
    if user == 0 || orderNo == "" then NotFound
    else if orderNo in w1.ord.orders && w1.ord.orders[orderNo].user == user then Status(SUCCEEDED)
    else
      match StreamOrderItemId(orderNo)
      case None => NotFound
      case Some(item) => FindResult(SlotOf(w2, item), user, orderNo)
  }

  // ---------------------------------------------------------------- runs

  function Exec(w: World, e: Event): (r: World) {
    match e
    case Tick(to) => if w.clock <= to then w.(clock := to) else w
    case LoadPreheat(item) => DoLoadPreheat(w, item)
    case PublishItem(read) => DoPublish(w, read)
    case InvalidateItem(item) => DoInvalidate(w, item)
    case Enqueue(item, user, now, random) => DoEnqueue(w, item, user, now, random)
    case Fetch(worker, item, id) => DoFetch(w, worker, item, id)
    case CallInventory(worker, call) => DoCallInventory(w, worker, call)
    case InventoryStatement(call, fault) => w.(inv := Inventory.Advance(w.inv, call, fault))
    case ReceiveReservation(worker, call) => DoReceiveReservation(w, worker, call)
    case AbandonInventory(worker, why) => DoAbandonInventory(w, worker, why)
    case SendOrder(worker) => DoSendOrder(w, worker)
    case ExecuteOrder(request, createdAt, answerTo) => DoExecuteOrder(w, request, createdAt, answerTo)
    case AbandonOrder(worker) => DoAbandonOrder(w, worker)
    case ReportSuccess(worker) => DoReportSuccess(w, worker)
    case ReportFailure(worker, failedAt) => DoReportFailure(w, worker, failedAt)
    case Crash(worker) => w.(workers := w.workers - {worker})
    case PlaceNormalOrder(user, orderNo, inputs, createdAt) => DoPlaceNormalOrder(w, user, orderNo, inputs, createdAt)
    case ProjectOrder(orderNo) => DoProject(w, orderNo)
  }

  function Run(w: World, events: seq<Event>): (r: World)
    decreases |events|
  {
    if events == [] then w else Run(Exec(w, events[0]), events[1..])
  }

  /** The one assumption on the environment: a publish executes before its sale starts. The preheat checks
      the clock, but the publish is a separate action and may be delayed past the start. */
  predicate Timely(w: World, e: Event) {
    e.PublishItem? && e.read.item in w.sales ==> w.clock < w.sales[e.read.item].startAt
  }

  predicate TimelyRun(w: World, events: seq<Event>)
    decreases |events|
  {
    events == [] || (Timely(w, events[0]) && TimelyRun(Exec(w, events[0]), events[1..]))
  }

  // ---------------------------------------------------------------- initial states

  /** An item as the inventory accepts it. */
  predicate ValidSale(item: nat, s: Sale) {
    && 0 < item <= MAX_UINT64 && 0 < s.activity <= MAX_UINT64
    && s.snapshot.sku != 0 && 0 <= s.snapshot.price && s.initial <= MAX_INT64
    && TrimSpace(s.snapshot.productName) != "" && TrimSpace(s.snapshot.skuCode) != "" && TrimSpace(s.snapshot.skuName) != ""
  }

  function StockRow(s: Sale): (r: Inventory.ItemRow) {
    Inventory.ItemRow(s.activity, s.snapshot, s.initial, s.initial, 0)
  }

  /** Nothing sold, nothing published, nothing under way. */
  ghost predicate Initial(w: World) {
    && (forall item :: item in w.sales ==> ValidSale(item, w.sales[item]))
    && w.maxDeliveries > 0
    && w.slots == map[] && w.preheats == {} && w.requests == {} && w.workers == map[] && w.admitted == map[]
    && w.inv == Inventory.Service(Inventory.Db(map item | item in w.sales :: StockRow(w.sales[item]), map[], map[], 1), map[])
    && w.ord == Orders.Db(map[], [], 1)
  }
}
