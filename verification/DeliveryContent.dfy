/** What the notifications say. As long as the relays and the consumers are the only producers, every
    notification is that of a committed order, with its user, amount and time. */
module DeliveryContent {
  import opened Text
  import opened OrderEvents
  import opened Messages
  import Orders
  import Notifications
  import OutboxRelay
  import OutboxLeases
  import OutboxTheorems
  import Consumers
  import opened Delivery

  /** Nobody else writes to the topics. */
  predicate OwnTraffic(events: seq<Event>) { forall e :: e in events ==> !(e.BusStep? && e.b.Append?) }

  ghost predicate FromRow(rows: seq<Orders.Row>, e: OrderCreated) { exists i :: 0 <= i < |rows| && rows[i].payload == e }

  ghost predicate RecordOk(r: Record, rows: seq<Orders.Row>) { r.value.Encoded? && FromRow(rows, r.value.event) }

  ghost predicate LogOk(log: seq<Record>, rows: seq<Orders.Row>) { forall i :: 0 <= i < |log| ==> RecordOk(log[i], rows) }

  ghost predicate LogsOk(logs: map<Consumers.Part, seq<Record>>, rows: seq<Orders.Row>) { forall p :: p in logs ==> LogOk(logs[p], rows) }

  ghost predicate NotesOk(notes: map<nat, Notifications.Notification>, rows: seq<Orders.Row>) {
    forall id :: id in notes ==> exists i :: 0 <= i < |rows| && notes[id] == Notifications.FromEvent(rows[i].payload)
  }

  ghost predicate Genuine(w: World) {
    LogsOk(w.bus.logs, w.relay.db.outbox) && NotesOk(w.bus.notif.rows, w.relay.db.outbox)
  }

  // ---------------------------------------------------------------- rows keep their payloads

  lemma FromRowStays(rows: seq<Orders.Row>, rows': seq<Orders.Row>, e: OrderCreated)
    requires FromRow(rows, e) && OutboxRelay.RowsLater(rows, rows')
    ensures FromRow(rows', e)
  {
    var i :| 0 <= i < |rows| && rows[i].payload == e;
    assert OutboxRelay.RowLater(rows[i], rows'[i]);
  }

  lemma LogsStay(logs: map<Consumers.Part, seq<Record>>, rows: seq<Orders.Row>, rows': seq<Orders.Row>)
    requires LogsOk(logs, rows) && OutboxRelay.RowsLater(rows, rows')
    ensures LogsOk(logs, rows')
  {
    hide FromRow;
    hide OutboxRelay.RowsLater;
    forall p, i | p in logs && 0 <= i < |logs[p]|
      ensures RecordOk(logs[p][i], rows')
    {
      assert LogOk(logs[p], rows);
      FromRowStays(rows, rows', logs[p][i].value.event);
    }
  }

  lemma NotesStay(notes: map<nat, Notifications.Notification>, rows: seq<Orders.Row>, rows': seq<Orders.Row>)
    requires NotesOk(notes, rows) && OutboxRelay.RowsLater(rows, rows')
    ensures NotesOk(notes, rows')
  {
    forall id | id in notes
      ensures exists i :: 0 <= i < |rows'| && notes[id] == Notifications.FromEvent(rows'[i].payload)
    {
      var i :| 0 <= i < |rows| && notes[id] == Notifications.FromEvent(rows[i].payload);
      assert OutboxRelay.RowLater(rows[i], rows'[i]);
    }
  }

  lemma RelayKeepsGenuine(w: World, relay: OutboxRelay.State)
    requires Genuine(w) && OutboxRelay.RowsLater(w.relay.db.outbox, relay.db.outbox)
    ensures Genuine(w.(relay := relay))
  {
    hide LogsOk;
    hide NotesOk;
    hide OutboxRelay.RowsLater;
    LogsStay(w.bus.logs, w.relay.db.outbox, relay.db.outbox);
    NotesStay(w.bus.notif.rows, w.relay.db.outbox, relay.db.outbox);
  }

  // ---------------------------------------------------------------- steps

  lemma AppendKeepsLogs(bus: Consumers.State, p: Consumers.Part, r: Record, rows: seq<Orders.Row>)
    requires LogsOk(bus.logs, rows) && RecordOk(r, rows)
    ensures LogsOk(Consumers.DoAppend(bus, p, r).logs, rows)
  {
    hide RecordOk;
  }

  lemma PublishedRecordOk(relay: OutboxRelay.State, b: nat)
    requires OutboxLeases.BatchesOk(relay.batches, relay.db.outbox, relay.acked) && b in relay.batches && relay.batches[b].jobs != []
    ensures RecordOk(OutboxRelay.RecordOf(relay.batches[b].jobs[0]), relay.db.outbox)
  {
    assert OutboxLeases.BatchOk(relay.batches[b], relay.db.outbox, relay.acked);
    assert OutboxLeases.JobOk(relay.batches[b].jobs[0], relay.db.outbox);
  }

  lemma PublishRows(relay: OutboxRelay.State, b: nat, outcome: OutboxRelay.Ack)
    ensures OutboxRelay.DoPublish(relay, b, outcome).db == relay.db
  {
    hide OutboxRelay.RecordOf;
  }

  lemma PublishKeepsGenuine(w: World, b: nat, outcome: OutboxRelay.Ack, index: nat)
    requires Inv(w) && Genuine(w)
    ensures Genuine(DoPublish(w, b, outcome, index))
  {
    PublishCases(w, b, outcome, index);
    PublishRows(w.relay, b, outcome);
    hide DoPublish;
    hide OutboxRelay.DoPublish;
    hide LogsOk;
    hide NotesOk;
    hide RecordOk;
    hide OutboxRelay.RecordOf;
    OutboxLeases.Open(w.relay);
    hide Inv;
    hide OutboxLeases.BatchesOk;
    var w' := DoPublish(w, b, outcome, index);
    if w' != w && w'.bus != w.bus {
      PublishedRecordOk(w.relay, b);
      AppendKeepsLogs(w.bus, Consumers.Part(Main, index), OutboxRelay.RecordOf(w.relay.batches[b].jobs[0]), w.relay.db.outbox);
    }
  }

  lemma RecordIn(bus: Consumers.State, p: Consumers.Part, i: nat, rows: seq<Orders.Row>)
    requires LogsOk(bus.logs, rows) && i < |Consumers.LogOf(bus, p)|
    ensures RecordOk(Consumers.LogOf(bus, p)[i], rows)
  {
    hide RecordOk;
    assert LogOk(bus.logs[p], rows);
  }

  lemma ConsumeKeepsNotes(db: Notifications.Db, e: OrderCreated, rows: seq<Orders.Row>)
    requires NotesOk(db.rows, rows) && FromRow(rows, e)
    ensures NotesOk(Notifications.Consume(db, e).0.rows, rows)
  {
    hide Notifications.FromEvent;
  }

  lemma HandleKeepsGenuine(w: World, id: nat, fault: Consumers.Fault)
    requires Genuine(w)
    ensures Genuine(w.(bus := Consumers.DoHandle(w.bus, id, fault)))
  {
    Consumers.HandleEffect(w.bus, id, fault);
    hide Consumers.DoHandle;
    hide LogsOk;
    hide NotesOk;
    hide Poison;
    hide Notifications.Consume;
    hide FromRow;
    var rows := w.relay.db.outbox;
    if id in w.bus.sessions && Consumers.HasRecord(w.bus, w.bus.sessions[id]) {
      var k := w.bus.sessions[id];
      RecordIn(w.bus, k.part, k.offset, rows);
      var r := Consumers.LogOf(w.bus, k.part)[k.offset];
      if !Poison(r) {
        AcceptedValue(r);
        ConsumeKeepsNotes(w.bus.notif, Decode(r.value).event, rows);
      }
    }
  }

  lemma AcceptedValue(r: Record)
    requires !Poison(r)
    ensures Decode(r.value).Accepted? && r.value == Encoded(Decode(r.value).event)
  {
    hide AttemptOf;
    hide Validate;
  }

  lemma ForwardKeepsGenuine(w: World, id: nat, index: nat, acked: bool)
    requires Genuine(w)
    ensures Genuine(w.(bus := Consumers.DoForward(w.bus, id, index, acked)))
  {
    Consumers.ForwardEffect(w.bus, id, index, acked);
    var bus' := Consumers.DoForward(w.bus, id, index, acked);
    hide Consumers.DoForward;
    hide LogsOk;
    hide NotesOk;
    hide Target;
    hide FromRow;
    hide WithAttempt;
    var rows := w.relay.db.outbox;
    if bus' != w.bus {
      var k := w.bus.sessions[id];
      RecordIn(w.bus, k.part, k.offset, rows);
      var r := Consumers.LogOf(w.bus, k.part)[k.offset];
      AppendKeepsLogs(w.bus, Consumers.Part(Target(r, w.bus.maxAttempts), index), Copy(r), rows);
    }
  }

  lemma BusKeepsGenuine(w: World, e: Consumers.Event)
    requires Genuine(w) && !e.Append?
    ensures Genuine(w.(bus := Consumers.Exec(w.bus, e)))
  {
    hide LogsOk;
    hide NotesOk;
    hide Consumers.DoHandle;
    hide Consumers.DoForward;
    match e
    case Handle(id, fault) => HandleKeepsGenuine(w, id, fault);
    case Forward(id, index, acked) => ForwardKeepsGenuine(w, id, index, acked);
    case _ =>
  }

  lemma ExecKeepsGenuine(w: World, e: Event)
    requires Inv(w) && Genuine(w) && !(e.BusStep? && e.b.Append?)
    ensures Genuine(Exec(w, e))
  {
    hide Inv;
    hide Genuine;
    hide Consumers.Exec;
    hide OutboxRelay.Exec;
    hide DoPublish;
    match e
    case RelayStep(r) =>
      if !r.Publish? {
        OutboxTheorems.ExecMoves(w.relay, r);
        MovedRows(w.relay, OutboxRelay.Exec(w.relay, r));
        RelayKeepsGenuine(w, OutboxRelay.Exec(w.relay, r));
      }
    case PublishStep(b, outcome, index) => PublishKeepsGenuine(w, b, outcome, index);
    case BusStep(b) => BusKeepsGenuine(w, b);
  }

  lemma MovedRows(s: OutboxRelay.State, s': OutboxRelay.State)
    requires OutboxTheorems.Moves(s, s')
    ensures OutboxRelay.RowsLater(s.db.outbox, s'.db.outbox)
  {
    hide OutboxRelay.RowsLater;
  }

  lemma {:induction false} RunKeepsGenuine(w: World, events: seq<Event>)
    requires Inv(w) && Genuine(w) && OwnTraffic(events)
    ensures Inv(Run(w, events)) && Genuine(Run(w, events))
    decreases |events|
  {
    hide Inv;
    hide Genuine;
    hide Exec;
    if events != [] {
      ExecKeepsInv(w, events[0]);
      ExecKeepsGenuine(w, events[0]);
      assert forall e :: e in events[1..] ==> e in events;
      RunKeepsGenuine(Exec(w, events[0]), events[1..]);
    }
  }

  lemma InitialGenuine(w: World)
    requires Initial(w)
    ensures Inv(w) && Genuine(w)
  {
    OutboxTheorems.InitialInv(w.relay);
    Consumers.InitialInv(w.bus);
    hide OutboxLeases.Inv;
    hide Consumers.Inv;
  }

  lemma RowsOrder(db: Orders.Db, i: nat)
    requires Orders.OutboxMatches(db) && i < |db.outbox|
    ensures var o := db.outbox[i].orderNo; o in db.orders && Orders.EventOf(db.orders[o]) == Some(db.outbox[i].payload)
  {
    hide Orders.EventOf;
    hide Orders.HasRow;
    hide Orders.RowsDistinct;
    hide Trimmed;
    hide StableEventId;
  }

  /** In every run with no other producer, each notification tells of a committed order: its number, user,
      total and time are those of that order's event. */
  lemma NotificationsTellOrders(start: World, events: seq<Event>, id: nat)
    requires Initial(start) && OwnTraffic(events) && id in Run(start, events).bus.notif.rows
    ensures var w := Run(start, events);
            exists o :: o in w.relay.db.orders && Orders.EventOf(w.relay.db.orders[o]).Some?
                        && w.bus.notif.rows[id] == Notifications.FromEvent(Orders.EventOf(w.relay.db.orders[o]).value)
  {
    hide *;
    InitialGenuine(start);
    RunKeepsGenuine(start, events);
    var w := Run(start, events);
    Parts(w);
    OutboxLeases.Open(w.relay);
    var i := NoteRow(w, id);
    RowsOrder(w.relay.db, i);
  }

  lemma NoteRow(w: World, id: nat) returns (i: nat)
    requires Genuine(w) && id in w.bus.notif.rows
    ensures i < |w.relay.db.outbox| && w.bus.notif.rows[id] == Notifications.FromEvent(w.relay.db.outbox[i].payload)
  {
    hide LogsOk;
    i :| 0 <= i < |w.relay.db.outbox| && w.bus.notif.rows[id] == Notifications.FromEvent(w.relay.db.outbox[i].payload);
  }
}
