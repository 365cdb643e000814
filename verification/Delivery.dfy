/** Orders, outbox relays, Kafka and the notification consumers as one machine: from a committed order to its
    notification, at least once on the way and once in effect. */
module Delivery {
  import opened Text
  import opened OrderEvents
  import opened Messages
  import Orders
  import Notifications
  import OutboxRelay
  import OutboxLeases
  import OutboxTheorems
  import Consumers

  datatype World = World(relay: OutboxRelay.State, bus: Consumers.State)

  /** A relay's publish and the broker's append are one event; everything else belongs to one side. Other
      producers may append any record to any topic. */
  datatype Event =
    | RelayStep(e: OutboxRelay.Event)
    | PublishStep(batch: nat, outcome: OutboxRelay.Ack, index: nat)
    | BusStep(b: Consumers.Event)

  function DoPublish(w: World, b: nat, outcome: OutboxRelay.Ack, index: nat): (w': World) {
    if !OutboxRelay.CanPublish(w.relay, b) then w
    else
      World(OutboxRelay.DoPublish(w.relay, b, outcome),
            if outcome.NotDelivered? then w.bus
            else Consumers.DoAppend(w.bus, Consumers.Part(Main, index), OutboxRelay.RecordOf(w.relay.batches[b].jobs[0])))
  }

  function Exec(w: World, e: Event): (w': World) {
    match e
    case RelayStep(r) => if r.Publish? then w else w.(relay := OutboxRelay.Exec(w.relay, r))
    case PublishStep(b, outcome, index) => DoPublish(w, b, outcome, index)
    case BusStep(b) => w.(bus := Consumers.Exec(w.bus, b))
  }

  function Run(w: World, events: seq<Event>): (w': World)
    decreases |events|
  {
    if events == [] then w else Run(Exec(w, events[0]), events[1..])
  }

  // ---------------------------------------------------------------- what every step keeps

  ghost predicate InMain(bus: Consumers.State, r: Record) {
    exists index: nat, i: nat :: i < |Consumers.LogOf(bus, Consumers.Part(Main, index))| && Consumers.LogOf(bus, Consumers.Part(Main, index))[i] == r
  }

  /** What the broker acknowledged is in the topic. */
  ghost predicate AckedOk(acked: set<Record>, bus: Consumers.State) { forall r :: r in acked ==> InMain(bus, r) }

  ghost predicate Inv(w: World) {
    OutboxLeases.Inv(w.relay) && Consumers.Inv(w.bus) && AckedOk(w.relay.acked, w.bus)
  }

  lemma InMainStays(bus: Consumers.State, bus': Consumers.State, r: Record)
    requires Consumers.Later(bus, bus') && InMain(bus, r)
    ensures InMain(bus', r)
  {
    hide Consumers.LogOf;
    hide Consumers.Later;
    var index: nat, i: nat :| i < |Consumers.LogOf(bus, Consumers.Part(Main, index))| && Consumers.LogOf(bus, Consumers.Part(Main, index))[i] == r;
    Consumers.LogLater(bus, bus', Consumers.Part(Main, index), i);
  }

  lemma AckedStays(acked: set<Record>, bus: Consumers.State, bus': Consumers.State)
    requires AckedOk(acked, bus) && Consumers.Later(bus, bus')
    ensures AckedOk(acked, bus')
  {
    hide InMain;
    hide Consumers.Later;
    forall r | r in acked
      ensures InMain(bus', r)
    {
      InMainStays(bus, bus', r);
    }
  }

  lemma AppendedInMain(bus: Consumers.State, index: nat, r: Record)
    ensures InMain(Consumers.DoAppend(bus, Consumers.Part(Main, index), r), r)
  {
    var p := Consumers.Part(Main, index);
    Consumers.AppendLater(bus, p, r);
    var bus' := Consumers.DoAppend(bus, p, r);
    hide Consumers.DoAppend;
    hide Consumers.Later;
    assert Consumers.LogOf(bus', Consumers.Part(Main, index))[|Consumers.LogOf(bus, p)|] == r;
  }

  lemma OneMoreAcked(acked: set<Record>, r: Record, bus: Consumers.State)
    requires AckedOk(acked, bus) && InMain(bus, r)
    ensures AckedOk(acked + {r}, bus)
  {
    hide InMain;
  }

  lemma RelayAcked(s: OutboxRelay.State, e: OutboxRelay.Event)
    requires !e.Publish?
    ensures OutboxRelay.Exec(s, e).acked == s.acked
  {
    hide OutboxRelay.ClaimedIds;
    hide OutboxRelay.MarkPublished;
    hide OutboxRelay.MarkFailed;
    hide OutboxRelay.ValidClaim;
    hide OutboxRelay.RetryAt;
    hide Orders.CreateIdempotent;
    hide TrimSpace;
  }

  lemma Parts(w: World)
    ensures Inv(w) <==> OutboxLeases.Inv(w.relay) && Consumers.Inv(w.bus) && AckedOk(w.relay.acked, w.bus)
  {
  }

  lemma PublishCases(w: World, b: nat, outcome: OutboxRelay.Ack, index: nat)
    ensures var w' := DoPublish(w, b, outcome, index);
            || w' == w
            || (&& b in w.relay.batches && w.relay.batches[b].jobs != []
                && var r := OutboxRelay.RecordOf(w.relay.batches[b].jobs[0]);
                   && w'.relay == OutboxRelay.DoPublish(w.relay, b, outcome)
                   && (|| (w'.bus == w.bus && w'.relay.acked == w.relay.acked)
                       || (&& w'.bus == Consumers.DoAppend(w.bus, Consumers.Part(Main, index), r)
                           && (w'.relay.acked == w.relay.acked || w'.relay.acked == w.relay.acked + {r}))))
  {
    hide OutboxRelay.RecordOf;
    hide Consumers.DoAppend;
  }

  lemma PublishKeepsInv(w: World, b: nat, outcome: OutboxRelay.Ack, index: nat)
    requires Inv(w)
    ensures Inv(DoPublish(w, b, outcome, index))
  {
    hide *;
    PublishCases(w, b, outcome, index);
    Parts(w);
    var w' := DoPublish(w, b, outcome, index);
    if w' != w {
      var r := OutboxRelay.RecordOf(w.relay.batches[b].jobs[0]);
      OutboxLeases.PublishKeepsInv(w.relay, b, outcome);
      if w'.bus != w.bus {
        Consumers.AppendKeepsInv(w.bus, Consumers.Part(Main, index), r);
        Consumers.AppendLater(w.bus, Consumers.Part(Main, index), r);
        AckedStays(w.relay.acked, w.bus, w'.bus);
        AppendedInMain(w.bus, index, r);
        OneMoreAcked(w.relay.acked, r, w'.bus);
      } else if w'.relay.acked != w.relay.acked {
        SameBus(w.bus, index, r);
      }
      Parts(w');
    }
  }

  lemma SameBus(bus: Consumers.State, index: nat, r: Record)
    ensures Consumers.DoAppend(bus, Consumers.Part(Main, index), r) != bus
  {
    Consumers.AppendLater(bus, Consumers.Part(Main, index), r);
    hide Consumers.Later;
  }

  lemma ExecKeepsInv(w: World, e: Event)
    requires Inv(w)
    ensures Inv(Exec(w, e))
  {
    hide OutboxRelay.Exec;
    hide Consumers.Exec;
    hide DoPublish;
    hide Inv;
    Parts(w);
    Parts(Exec(w, e));
    hide AckedOk;
    match e
    case RelayStep(r) =>
      if !r.Publish? {
        OutboxLeases.ExecKeepsInv(w.relay, r);
        RelayAcked(w.relay, r);
      }
    case PublishStep(b, outcome, index) => PublishKeepsInv(w, b, outcome, index);
    case BusStep(b) =>
      Consumers.ExecKeepsInv(w.bus, b);
      AckedStays(w.relay.acked, w.bus, Consumers.Exec(w.bus, b));
  }

  lemma {:induction false} RunKeepsInv(w: World, events: seq<Event>)
    requires Inv(w)
    ensures Inv(Run(w, events))
    decreases |events|
  {
    hide Inv;
    hide Exec;
    if events != [] {
      ExecKeepsInv(w, events[0]);
      RunKeepsInv(Exec(w, events[0]), events[1..]);
    }
  }

  ghost predicate Initial(w: World) { OutboxTheorems.Initial(w.relay) && Consumers.Initial(w.bus) }

  lemma ReachedInv(start: World, events: seq<Event>)
    requires Initial(start)
    ensures Inv(Run(start, events))
  {
    OutboxTheorems.InitialInv(start.relay);
    Consumers.InitialInv(start.bus);
    hide OutboxLeases.Inv;
    hide Consumers.Inv;
    hide Run;
    RunKeepsInv(start, events);
  }

  // ---------------------------------------------------------------- effectively once

  ghost predicate IsRowOf(rows: seq<Orders.Row>, i: nat, o: string) { i < |rows| && rows[i].orderNo == o }

  lemma RowExists(db: Orders.Db, o: string) returns (i: nat)
    requires Orders.OutboxMatches(db) && o in db.orders
    ensures IsRowOf(db.outbox, i, o) && Some(db.outbox[i].payload) == Orders.EventOf(db.orders[o]) && db.outbox[i].eventId == StableEventId(o)
    ensures forall j: nat :: IsRowOf(db.outbox, j, o) ==> j == i
  {
    hide Orders.EventOf;
    hide Trimmed;
    hide StableEventId;
    assert Orders.HasRow(db.outbox, o);
    i :| 0 <= i < |db.outbox| && db.outbox[i].orderNo == o;
    assert Orders.RowOf(db.outbox[i], db.orders[o]);
  }

  lemma PublishedInMain(w: World, i: nat)
    requires Inv(w) && i < |w.relay.db.outbox| && w.relay.db.outbox[i].status.Published?
    ensures InMain(w.bus, OutboxRelay.RowRecord(w.relay.db.outbox[i]))
  {
    hide OutboxRelay.RowRecord;
    hide Consumers.Inv;
    hide InMain;
    OutboxLeases.Open(w.relay);
    hide OutboxLeases.Inv;
    hide Orders.OutboxMatches;
    hide OutboxLeases.Disjoint;
    hide OutboxLeases.Shown;
    hide OutboxLeases.BatchesOk;
  }

  /** A row marked published stands for a record the broker acknowledged: the topic holds it, with the order
      number as key, the row's payload as value and no attempt header. */
  lemma PublishedIsDelivered(start: World, events: seq<Event>, i: nat)
    requires Initial(start)
    requires var rows := Run(start, events).relay.db.outbox; i < |rows| && rows[i].status.Published?
    ensures var w := Run(start, events); InMain(w.bus, Record(w.relay.db.outbox[i].orderNo, Encoded(w.relay.db.outbox[i].payload), NO_HEADERS))
  {
    ReachedInv(start, events);
    hide Run;
    hide Inv;
    hide InMain;
    PublishedInMain(Run(start, events), i);
  }

  lemma TrackedEvent(bus: Consumers.State, r: Record)
    requires Consumers.Inv(bus) && InMain(bus, r)
    ensures Consumers.Tracked(bus, r)
  {
    hide Consumers.Inv;
    hide Consumers.LogOf;
    hide Consumers.Tracked;
    var index: nat, i: nat :| i < |Consumers.LogOf(bus, Consumers.Part(Main, index))| && Consumers.LogOf(bus, Consumers.Part(Main, index))[i] == r;
    Consumers.RecordIsTracked(bus, Consumers.Part(Main, index), i);
  }

  lemma TrackedMeans(bus: Consumers.State, row: Orders.Row, o: string)
    requires Consumers.Tracked(bus, OutboxRelay.RowRecord(row)) && row.orderNo == o && row.payload.eventId == StableEventId(o)
    ensures StableEventId(o) in bus.notif.ledger || Consumers.Waits(bus, o, Encoded(row.payload))
  {
    hide StableEventId;
    hide Validate;
    hide Consumers.Waits;
  }

  lemma EventIdOf(order: Orders.Order, e: OrderCreated)
    requires Orders.EventOf(order) == Some(e)
    ensures e.eventId == StableEventId(order.orderNo)
  {
  }

  lemma OrderKey(db: Orders.Db, o: string)
    requires Orders.OutboxMatches(db) && o in db.orders
    ensures db.orders[o].orderNo == o
  {
    hide Orders.EventOf;
    hide Trimmed;
    hide Orders.RowsSound;
    hide Orders.RowsDistinct;
    hide Orders.HasRow;
  }

  /** Where the event of a committed order is: still to be published, consumed, or waiting in a topic. */
  ghost predicate EventAccounted(w: World, o: string, i: nat)
    requires i < |w.relay.db.outbox|
  {
    || w.relay.db.outbox[i].status.Pending?
    || StableEventId(o) in w.bus.notif.ledger
    || Consumers.Waits(w.bus, o, Encoded(w.relay.db.outbox[i].payload))
  }

  lemma AccountedIf(w: World, o: string, i: nat)
    requires i < |w.relay.db.outbox|
    requires w.relay.db.outbox[i].status.Published? ==>
               StableEventId(o) in w.bus.notif.ledger || Consumers.Waits(w.bus, o, Encoded(w.relay.db.outbox[i].payload))
    ensures EventAccounted(w, o, i)
  {
    hide StableEventId;
    hide Consumers.Waits;
  }

  /** Every committed order has exactly one outbox row, which carries its event, and that event is never lost:
      it is pending in the outbox, uncommitted in a topic, in the DLQ, or in the consumption ledger. */
  lemma OrderEventNeverLost(start: World, events: seq<Event>, w: World, o: string) returns (i: nat)
    requires Initial(start) && w == Run(start, events) && o in w.relay.db.orders
    ensures IsRowOf(w.relay.db.outbox, i, o) && forall j: nat :: IsRowOf(w.relay.db.outbox, j, o) ==> j == i
    ensures Some(w.relay.db.outbox[i].payload) == Orders.EventOf(w.relay.db.orders[o])
    ensures EventAccounted(w, o, i)
  {
    hide *;
    ReachedInv(start, events);
    Parts(w);
    OutboxLeases.Open(w.relay);
    i := RowExists(w.relay.db, o);
    RowBounds(w.relay.db.outbox, i, o);
    OrderKey(w.relay.db, o);
    EventIdOf(w.relay.db.orders[o], w.relay.db.outbox[i].payload);
    if w.relay.db.outbox[i].status.Published? {
      PublishedInMain(w, i);
      TrackedEvent(w.bus, OutboxRelay.RowRecord(w.relay.db.outbox[i]));
      TrackedMeans(w.bus, w.relay.db.outbox[i], o);
    }
    AccountedIf(w, o, i);
  }

  lemma RowBounds(rows: seq<Orders.Row>, i: nat, o: string)
    requires IsRowOf(rows, i, o)
    ensures i < |rows| && rows[i].orderNo == o
  {
  }

  /** Notifications and ledger rows match one to one, and no order number has two notifications, whatever was
      delivered how often and whatever else was put on the topics. */
  lemma NotifiedOnce(start: World, events: seq<Event>, a: nat, b: nat)
    requires Initial(start)
    ensures var db := Run(start, events).bus.notif;
            && Notifications.Matched(db)
            && (a in db.rows && b in db.rows && TrimSpace(db.rows[a].orderNo) == TrimSpace(db.rows[b].orderNo) ==> a == b)
  {
    ReachedInv(start, events);
    var w := Run(start, events);
    hide Run;
    Consumers.InvMatched(w.bus);
    hide Inv;
    hide TrimSpace;
    hide Notifications.Matched;
    var db := w.bus.notif;
    if a in db.rows && b in db.rows && TrimSpace(db.rows[a].orderNo) == TrimSpace(db.rows[b].orderNo) {
      Notifications.OnePerOrder(db, a, b);
    }
  }
}
