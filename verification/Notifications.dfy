/** The notification service: a notification and its consumption ledger row in one transaction, once per event. */
module Notifications {
  import opened Text
  import opened OrderEvents

  datatype Notification = Notification(user: nat, orderNo: string, total: int, createdAtMs: int)

  datatype Db = Db(rows: map<nat, Notification>, ledger: map<string, nat>, nextId: nat)

  function FromEvent(e: OrderCreated): (n: Notification) { Notification(e.user, e.orderNo, e.total, e.createdAtMs) }

  /** The transaction as one step. A duplicate event leaves both tables alone and only uses up a row number. */
  function Consume(db: Db, e: OrderCreated): (r: (Db, bool)) {
    if e.eventId in db.ledger then (db.(nextId := db.nextId + 1), false)
    else (Db(db.rows[db.nextId := FromEvent(e)], db.ledger[e.eventId := db.nextId], db.nextId + 1), true)
  }

  /** Notifications and ledger rows match one to one, each under the event its order has. */
  ghost predicate Matched(db: Db) {
    && (forall id :: id in db.rows ==>
          id < db.nextId && StableEventId(db.rows[id].orderNo) in db.ledger && db.ledger[StableEventId(db.rows[id].orderNo)] == id)
    && (forall e :: e in db.ledger ==> db.ledger[e] in db.rows && StableEventId(db.rows[db.ledger[e]].orderNo) == e)
  }

  lemma ConsumeKeepsMatch(db: Db, e: OrderCreated)
    requires Matched(db) && Validate(e).None?
    ensures Matched(Consume(db, e).0)
  {
    assert e.eventId == StableEventId(e.orderNo);
    hide Validate;
    hide StableEventId;
  }

  /** Consuming records the event, keeps all that was recorded and, when repeated, adds nothing. */
  lemma ConsumeOnce(db: Db, e: OrderCreated, later: Db)
    requires Keeps(Consume(db, e).0, later)
    ensures e.eventId in Consume(db, e).0.ledger && Keeps(db, Consume(db, e).0)
    ensures Consume(later, e) == (later.(nextId := later.nextId + 1), false)
  {
  }

  ghost predicate Keeps(db: Db, db': Db) {
    forall e :: e in db.ledger ==> e in db'.ledger && db'.ledger[e] == db.ledger[e]
  }

  lemma KeepsTransitive(a: Db, b: Db, c: Db)
    requires Keeps(a, b) && Keeps(b, c)
    ensures Keeps(a, c)
  {
  }

  /** An order has at most one notification. */
  lemma OnePerOrder(db: Db, a: nat, b: nat)
    requires Matched(db) && a in db.rows && b in db.rows && TrimSpace(db.rows[a].orderNo) == TrimSpace(db.rows[b].orderNo)
    ensures a == b
  {
    hide TrimSpace;
  }

  /** The two tables, changed statement by statement. */
  class NotificationStore {
    var rows: map<nat, Notification>
    var ledger: map<string, nat>
    var nextId: nat

    ghost function View(): (db: Db)
      reads this
    {
      Db(rows, ledger, nextId)
    }

    constructor ()
      ensures View() == Db(map[], map[], 1)
    {
      rows, ledger, nextId := map[], map[], 1;
    }

    /** The notification goes in first; the ledger's unique key then decides, and the loser's insert is undone. */
    method ConsumeOrderCreated(e: OrderCreated) returns (created: bool)
      modifies this
      ensures (View(), created) == Consume(old(View()), e)
    {
      var savepoint := rows;
      var id := nextId;
      nextId := nextId + 1;
      rows := rows[id := FromEvent(e)];
      if e.eventId in ledger {
        rows := savepoint;
        return false;
      }
      ledger := ledger[e.eventId := id];
      return true;
    }
  }
}
