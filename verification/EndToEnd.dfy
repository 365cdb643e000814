/** The two machines on one order table: every order the shop commits is, in the same transaction, an order of the
    delivery side with its outbox row. */
module EndToEnd {
  import opened Text
  import opened OrderEvents
  import Inventory
  import Orders
  import Notifications
  import Pipeline
  import PipelineInvariant
  import PipelineSteps
  import PipelineRuns
  import PipelineTimed
  import PipelineTheorems
  import OutboxRelay
  import Consumers
  import Delivery
  import DeliveryContent

  datatype World = World(shop: Pipeline.World, mail: Delivery.World)

  datatype Event = Shop(e: Pipeline.Event) | Mail(d: Delivery.Event)

  /** The create a shop event performs on the order table, as an event of the delivery side. */
  function CreateOf(shop: Pipeline.World, e: Pipeline.Event): (c: Option<OutboxRelay.Event>) {
    match e
    case ExecuteOrder(q, createdAt, _) =>
      if q in shop.requests && !Pipeline.Rejects(q.task, q.snapshot)
      then Some(OutboxRelay.Create(q.task.user, TrimSpace(q.task.orderNo), [Pipeline.OrderInput(q.snapshot)], createdAt)) else None
    case PlaceNormalOrder(user, orderNo, inputs, createdAt) =>
      if SourceOf(TrimSpace(orderNo)) == SOURCE_SECKILL then None else Some(OutboxRelay.Create(user, orderNo, inputs, createdAt))
    case _ => None
  }

  function MailOf(shop: Pipeline.World, e: Pipeline.Event): (ds: seq<Delivery.Event>) {
    if CreateOf(shop, e).Some? then [Delivery.RelayStep(CreateOf(shop, e).value)] else []
  }

  /** Orders come from the shop alone. */
  predicate CreatesOrder(d: Delivery.Event) { d.RelayStep? && d.e.Create? }

  function Exec(w: World, e: Event): (w': World) {
    match e
    case Shop(p) => World(Pipeline.Exec(w.shop, p), Delivery.Run(w.mail, MailOf(w.shop, p)))
    case Mail(d) => if CreatesOrder(d) then w else w.(mail := Delivery.Exec(w.mail, d))
  }

  function Run(w: World, events: seq<Event>): (w': World)
    decreases |events|
  {
    if events == [] then w else Run(Exec(w, events[0]), events[1..])
  }

  // ---------------------------------------------------------------- the two sides of a run

  function ShopEvents(events: seq<Event>): (es: seq<Pipeline.Event>) {
    if events == [] then [] else (if events[0].Shop? then [events[0].e] else []) + ShopEvents(events[1..])
  }

  function MailStep(w: World, e: Event): (ds: seq<Delivery.Event>) {
    match e
    case Shop(p) => MailOf(w.shop, p)
    case Mail(d) => if CreatesOrder(d) then [] else [d]
  }

  function MailEvents(w: World, events: seq<Event>): (ds: seq<Delivery.Event>)
    decreases |events|
  {
    if events == [] then [] else MailStep(w, events[0]) + MailEvents(Exec(w, events[0]), events[1..])
  }

  lemma {:induction false} MailAppend(m: Delivery.World, a: seq<Delivery.Event>, b: seq<Delivery.Event>)
    ensures Delivery.Run(m, a + b) == Delivery.Run(Delivery.Run(m, a), b)
    decreases |a|
  {
    hide Delivery.Exec;
    if a == [] {
      assert a + b == b;
    } else {
      assert (a + b)[1..] == a[1..] + b;
      MailAppend(Delivery.Exec(m, a[0]), a[1..], b);
    }
  }

  lemma MailOne(m: Delivery.World, d: Delivery.Event)
    ensures Delivery.Run(m, [d]) == Delivery.Exec(m, d) && Delivery.Run(m, []) == m
  {
    hide Delivery.Exec;
    assert [d][1..] == [];
  }

  lemma StepSides(w: World, e: Event)
    ensures Exec(w, e).mail == Delivery.Run(w.mail, MailStep(w, e))
    ensures Exec(w, e).shop == if e.Shop? then Pipeline.Exec(w.shop, e.e) else w.shop
  {
    hide Delivery.Exec;
    hide Delivery.Run;
    hide Pipeline.Exec;
    hide MailOf;
    if e.Mail? {
      MailOne(w.mail, e.d);
    }
  }

  lemma ShopCons(w: Pipeline.World, e: Pipeline.Event, es: seq<Pipeline.Event>)
    ensures Pipeline.Run(w, [e] + es) == Pipeline.Run(Pipeline.Exec(w, e), es)
  {
    hide Pipeline.Exec;
    assert ([e] + es)[1..] == es;
  }

  /** Each side of a joint run is a run of that side's machine. */
  lemma {:induction false} RunSides(w: World, events: seq<Event>)
    ensures Run(w, events).shop == Pipeline.Run(w.shop, ShopEvents(events))
    ensures Run(w, events).mail == Delivery.Run(w.mail, MailEvents(w, events))
    decreases |events|
  {
    hide Exec;
    hide Delivery.Run;
    hide Pipeline.Run;
    hide Pipeline.Exec;
    if events == [] {
      MailNone(w.mail);
      ShopNone(w.shop);
    } else {
      var w1 := Exec(w, events[0]);
      StepSides(w, events[0]);
      RunSides(w1, events[1..]);
      MailAppend(w.mail, MailStep(w, events[0]), MailEvents(w1, events[1..]));
      if events[0].Shop? {
        ShopCons(w.shop, events[0].e, ShopEvents(events[1..]));
      } else {
        assert ShopEvents(events) == ShopEvents(events[1..]);
      }
    }
  }

  lemma MailNone(m: Delivery.World)
    ensures Delivery.Run(m, []) == m
  {
    hide Delivery.Exec;
  }

  lemma ShopNone(w: Pipeline.World)
    ensures Pipeline.Run(w, []) == w
  {
    hide Pipeline.Exec;
  }

  // ---------------------------------------------------------------- one order table

  ghost predicate SameTable(a: Orders.Db, b: Orders.Db) { a.orders == b.orders && a.nextId == b.nextId }

  ghost predicate Agree(w: World) { SameTable(w.shop.ord, w.mail.relay.db) }

  /** The create looks only at orders and row numbers, so on the same table it does the same. */
  lemma CreateAgrees(a: Orders.Db, b: Orders.Db, user: nat, orderNo: string, inputs: seq<Orders.ItemInput>, createdAt: int)
    requires SameTable(a, b)
    ensures SameTable(Orders.CreateIdempotent(a, user, orderNo, inputs, createdAt).0, Orders.CreateIdempotent(b, user, orderNo, inputs, createdAt).0)
  {
    hide TrimSpace;
    hide Orders.NormalizeItems;
    hide Orders.EventOf;
    hide Orders.NewRow;
  }

  lemma RelayCreate(m: Delivery.World, c: OutboxRelay.Event)
    requires c.Create?
    ensures Delivery.Run(m, [Delivery.RelayStep(c)]).relay.db == Orders.CreateIdempotent(m.relay.db, c.user, c.orderNo, c.inputs, c.createdAt).0
  {
    MailOne(m, Delivery.RelayStep(c));
    hide Delivery.Run;
    hide Orders.CreateIdempotent;
  }

  lemma ShopOrders(w: Pipeline.World, e: Pipeline.Event)
    ensures var c := CreateOf(w, e);
            Pipeline.Exec(w, e).ord == if c.None? then w.ord
              else if c.value.Create? then Orders.CreateIdempotent(w.ord, c.value.user, c.value.orderNo, c.value.inputs, c.value.createdAt).0 else w.ord
    ensures CreateOf(w, e).Some? ==> CreateOf(w, e).value.Create?
  {
    hide Orders.CreateIdempotent;
    hide TrimSpace;
    hide SourceOf;
    hide Pipeline.Rejects;
    hide Pipeline.DoEnqueue;
    if e.Enqueue? {
      PipelineTheorems.EnqueueOrders(w, e.item, e.user, e.now, e.random);
    } else if !PipelineRuns.AddsFacts(e) {
      hide Pipeline.Exec;
      PipelineRuns.QuietLater(w, e);
    }
  }

  lemma RelayKeepsTable(s: OutboxRelay.State, e: OutboxRelay.Event)
    requires !e.Create?
    ensures SameTable(OutboxRelay.Exec(s, e).db, s.db)
  {
    hide OutboxRelay.ClaimedIds;
    hide OutboxRelay.MarkPublished;
    hide OutboxRelay.MarkFailed;
    hide OutboxRelay.ValidClaim;
    hide OutboxRelay.RetryAt;
    hide OutboxRelay.RecordOf;
    hide TrimSpace;
  }

  lemma MailKeepsTable(m: Delivery.World, d: Delivery.Event)
    requires !CreatesOrder(d)
    ensures SameTable(Delivery.Exec(m, d).relay.db, m.relay.db)
  {
    hide OutboxRelay.Exec;
    hide Consumers.Exec;
    hide Consumers.DoAppend;
    hide OutboxRelay.RecordOf;
    match d
    case RelayStep(r) => RelayKeepsTable(m.relay, r);
    case PublishStep(b, outcome, index) => DeliveryContent.PublishRows(m.relay, b, outcome);
    case BusStep(b) =>
  }

  lemma ExecAgrees(w: World, e: Event)
    requires Agree(w)
    ensures Agree(Exec(w, e))
  {
    hide Pipeline.Exec;
    hide Delivery.Exec;
    hide Delivery.Run;
    hide CreateOf;
    hide Orders.CreateIdempotent;
    match e
    case Shop(p) =>
      ShopOrders(w.shop, p);
      var c := CreateOf(w.shop, p);
      if c.Some? {
        RelayCreate(w.mail, c.value);
        CreateAgrees(w.shop.ord, w.mail.relay.db, c.value.user, c.value.orderNo, c.value.inputs, c.value.createdAt);
      } else {
        MailNone(w.mail);
      }
    case Mail(d) =>
      if !CreatesOrder(d) {
        MailKeepsTable(w.mail, d);
      }
  }

  lemma {:induction false} RunAgrees(w: World, events: seq<Event>)
    requires Agree(w)
    ensures Agree(Run(w, events))
    decreases |events|
  {
    hide Agree;
    hide Exec;
    if events != [] {
      ExecAgrees(w, events[0]);
      RunAgrees(Exec(w, events[0]), events[1..]);
    }
  }

  // ---------------------------------------------------------------- from admission to notification

  /** Both sides fresh. */
  ghost predicate Initial(w: World) { Pipeline.Initial(w.shop) && Delivery.Initial(w.mail) }

  lemma InitialAgrees(w: World)
    requires Initial(w)
    ensures Agree(w)
  {
    hide Pipeline.ValidSale;
    hide Consumers.Initial;
  }

  /** No other producer on the topics. */
  predicate OwnTraffic(events: seq<Event>) { forall e :: e in events ==> !(e.Mail? && e.d.BusStep? && e.d.b.Append?) }

  lemma {:induction false} OwnMail(w: World, events: seq<Event>)
    requires OwnTraffic(events)
    ensures DeliveryContent.OwnTraffic(MailEvents(w, events))
    decreases |events|
  {
    hide Exec;
    hide CreateOf;
    if events != [] {
      assert forall e :: e in events[1..] ==> e in events;
      OwnMail(Exec(w, events[0]), events[1..]);
    }
  }

  lemma EventContent(order: Orders.Order, o: string)
    requires Orders.EventOf(order).Some? && order.orderNo == o
    ensures var e := Orders.EventOf(order).value;
            e.user == order.user && e.total == order.total && e.orderNo == TrimSpace(o) && e.createdAtMs == order.createdAt / 1_000_000
  {
    hide TrimSpace;
    hide Validate;
    hide SourceOf;
  }

  lemma KeyedOrder(w: Pipeline.World, o: string)
    requires PipelineInvariant.CoreInv(w) && o in w.ord.orders
    ensures w.ord.orders[o].orderNo == o && TrimSpace(o) == o
  {
    PipelineSteps.Open(w);
    Delivery.OrderKey(w.ord, o);
    Trims(o);
    hide PipelineInvariant.CoreInv;
    hide TrimSpace;
    assert Trimmed(o) by { hide Orders.RowsSound; hide Orders.RowsDistinct; hide Orders.HasRow; hide Orders.EventOf; hide Trimmed; }
    hide Trimmed;
  }

  /** The committed order a notification tells of, in the shop's table. */
  lemma NotificationOrder(start: World, events: seq<Event>, w: World, id: nat) returns (o: string)
    requires Initial(start) && OwnTraffic(events) && w == Run(start, events) && id in w.mail.bus.notif.rows
    ensures PipelineRuns.Reachable(start.shop, ShopEvents(events), w.shop) && o in w.shop.ord.orders
    ensures var n, order := w.mail.bus.notif.rows[id], w.shop.ord.orders[o];
            n == Notifications.Notification(order.user, o, order.total, order.createdAt / 1_000_000)
  {
    hide *;
    RunSides(start, events);
    InitialParts(start);
    InitialAgrees(start);
    RunAgrees(start, events);
    AgreedOrders(w);
    OwnMail(start, events);
    ReachableIs(start.shop, ShopEvents(events), w.shop);
    PipelineRuns.ReachableCore(start.shop, ShopEvents(events), w.shop);
    DeliveryContent.NotificationsTellOrders(start.mail, MailEvents(start, events), id);
    o :| o in w.mail.relay.db.orders && Orders.EventOf(w.mail.relay.db.orders[o]).Some?
         && w.mail.bus.notif.rows[id] == Notifications.FromEvent(Orders.EventOf(w.mail.relay.db.orders[o]).value);
    KeyedOrder(w.shop, o);
    EventContent(w.shop.ord.orders[o], o);
    FromEventIs(Orders.EventOf(w.shop.ord.orders[o]).value);
  }

  lemma InitialParts(w: World)
    requires Initial(w)
    ensures Pipeline.Initial(w.shop) && Delivery.Initial(w.mail)
  {
    hide Pipeline.Initial;
    hide Delivery.Initial;
  }

  lemma AgreedOrders(w: World)
    requires Agree(w)
    ensures w.shop.ord.orders == w.mail.relay.db.orders
  {
  }

  lemma ReachableIs(start: Pipeline.World, events: seq<Pipeline.Event>, w: Pipeline.World)
    requires Pipeline.Initial(start) && w == Pipeline.Run(start, events)
    ensures PipelineRuns.Reachable(start, events, w)
  {
    hide Pipeline.Initial;
    hide Pipeline.Run;
  }

  lemma FromEventIs(e: OrderCreated)
    ensures Notifications.FromEvent(e) == Notifications.Notification(e.user, e.orderNo, e.total, e.createdAtMs)
  {
  }

  /** In every joint run, however late a publish comes: a notification of a stream order goes to the user the gate
      admitted under that number, over the price of the item that was admitted. */
  lemma NotificationTellsAdmission(start: World, events: seq<Event>, w: World, id: nat)
    requires Initial(start) && OwnTraffic(events) && w == Run(start, events) && id in w.mail.bus.notif.rows
    requires PipelineTheorems.IsStreamOrder(w.mail.bus.notif.rows[id].orderNo)
    ensures var n := w.mail.bus.notif.rows[id];
            && n.orderNo in w.shop.admitted && w.shop.admitted[n.orderNo].item in w.shop.sales
            && n.user == w.shop.admitted[n.orderNo].user && n.total == w.shop.sales[w.shop.admitted[n.orderNo].item].snapshot.price
  {
    hide *;
    var o := NotificationOrder(start, events, w, id);
    PipelineRuns.ReachableCore(start.shop, ShopEvents(events), w.shop);
    PipelineSteps.Open(w.shop);
    PipelineTheorems.OrderOfAdmission(w.shop, o);
    PipelineTheorems.LineOfOrder(w.shop.ord.orders[o], w.shop.admitted[o], w.shop.sales);
  }

  /** With publishing before the start, that user holds the reservation of this number, and the price is the one it
      froze. */
  lemma NotificationRestsOnReservation(start: World, events: seq<Event>, w: World, id: nat)
    requires Initial(start) && OwnTraffic(events) && w == Run(start, events) && id in w.mail.bus.notif.rows
    requires Pipeline.TimelyRun(start.shop, ShopEvents(events)) && PipelineTheorems.IsStreamOrder(w.mail.bus.notif.rows[id].orderNo)
    ensures var n, db := w.mail.bus.notif.rows[id], w.shop.inv.db;
            && n.orderNo in db.reservations && n.user == db.reservations[n.orderNo].user && n.total == db.reservations[n.orderNo].snapshot.price
            && n.orderNo in w.shop.admitted && n.user == w.shop.admitted[n.orderNo].user
  {
    hide *;
    NotificationTellsAdmission(start, events, w, id);
    var o := NotificationOrder(start, events, w, id);
    RunSides(start, events);
    InitialParts(start);
    ReachedIs(start.shop, ShopEvents(events), w.shop);
    PipelineTheorems.StreamOrderIsReserved(start.shop, ShopEvents(events), w.shop, o);
  }

  lemma ReachedIs(start: Pipeline.World, events: seq<Pipeline.Event>, w: Pipeline.World)
    requires Pipeline.Initial(start) && Pipeline.TimelyRun(start, events) && w == Pipeline.Run(start, events)
    ensures PipelineTimed.Reached(start, events, w)
  {
    hide Pipeline.Initial;
    hide Pipeline.TimelyRun;
    hide Pipeline.Run;
  }

  /** Nothing is lost from admission to notification: in every state of every joint run each admitted number is in its
      item's stream, in its DLQ, or a committed order whose event is pending in the outbox, waiting in a topic or
      its DLQ, or consumed. */
  lemma NothingLostEndToEnd(start: World, events: seq<Event>, w: World, o: string) returns (row: nat)
    requires Initial(start) && w == Run(start, events) && o in w.shop.admitted
    ensures var s := Pipeline.SlotOf(w.shop, w.shop.admitted[o].item);
            || PipelineInvariant.InStream(s, o) || PipelineInvariant.InDlq(s, o)
            || (&& o in w.shop.ord.orders && Delivery.IsRowOf(w.mail.relay.db.outbox, row, o)
                && row < |w.mail.relay.db.outbox| && Delivery.EventAccounted(w.mail, o, row))
  {
    hide *;
    row := 0;
    RunSides(start, events);
    InitialParts(start);
    InitialAgrees(start);
    RunAgrees(start, events);
    AgreedOrders(w);
    ReachableIs(start.shop, ShopEvents(events), w.shop);
    PipelineRuns.ReachableCore(start.shop, ShopEvents(events), w.shop);
    PipelineSteps.Open(w.shop);
    PipelineTheorems.AccountedFor(w.shop, o);
    if o in w.shop.ord.orders {
      row := Delivery.OrderEventNeverLost(start.mail, MailEvents(start, events), w.mail, o);
      Delivery.RowBounds(w.mail.relay.db.outbox, row, o);
    }
  }
}
