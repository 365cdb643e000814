/** The outbox and the relays that publish it. A relay leases a batch of due rows, publishes each outside any
    transaction and marks it. Relays crash, answers get lost, leases run out. Times are Unix nanoseconds on one
    common clock; the rows hold whole milliseconds. */
module OutboxRelay {
  import opened Text
  import opened OrderEvents
  import opened Orders
  import opened Messages
  import Backoff

  // ---------------------------------------------------------------- statements on the outbox table

  predicate Due(r: Row, now: int) {
    r.status.Pending? && r.nextAttempt <= now && (r.claimUntil.None? || r.claimUntil.value <= now)
  }

  /** The first rows, at most limit of them, that are due and not locked by another transaction; n rows looked at. */
  function Select(rows: seq<Row>, now: int, limit: nat, locked: set<nat>, n: nat): (ids: seq<nat>)
    requires n <= |rows|
    ensures |ids| <= limit
    ensures forall k :: 0 <= k < |ids| ==> ids[k] < n
  {
    if n == 0 then []
    else
      var ids := Select(rows, now, limit, locked, n - 1);
      if |ids| < limit && n - 1 !in locked && Due(rows[n - 1], now) then ids + [n - 1] else ids
  }

  function LeaseRows(rows: seq<Row>, ids: seq<nat>, worker: string, until: int): (r: seq<Row>)
    ensures |r| == |rows|
    ensures forall i :: 0 <= i < |rows| ==>
              r[i] == if i in ids then rows[i].(claimedBy := Some(worker), claimUntil := Some(until)) else rows[i]
  {
    seq(|rows|, i requires 0 <= i < |rows| =>
      if i in ids then rows[i].(claimedBy := Some(worker), claimUntil := Some(until)) else rows[i])
  }

  /** A leased row as the relay remembers it. */
  datatype Job = Job(row: nat, key: string, payload: OrderCreated, attempts: nat)

  function Jobs(rows: seq<Row>, ids: seq<nat>): (jobs: seq<Job>)
    requires forall k :: 0 <= k < |ids| ==> ids[k] < |rows|
    ensures |jobs| == |ids|
    ensures forall k :: 0 <= k < |ids| ==> jobs[k] == Job(ids[k], rows[ids[k]].orderNo, rows[ids[k]].payload, rows[ids[k]].attempts)
  {
    seq(|ids|, k requires 0 <= k < |ids| => Job(ids[k], rows[ids[k]].orderNo, rows[ids[k]].payload, rows[ids[k]].attempts))
  }

  const ZERO_NANOS: int := -62_135_596_800_000_000_000

  predicate ValidClaim(worker: string, now: int, lease: int, limit: int) {
    TrimSpace(worker) != "" && now != ZERO_NANOS && lease > 0 && 0 < limit <= 1_000
  }

  function ClaimedIds(rows: seq<Row>, now: int, limit: nat, locked: set<nat>): (ids: seq<nat>)
    ensures forall k :: 0 <= k < |ids| ==> ids[k] < |rows|
  {
    Select(rows, TruncMs(now), limit, locked, |rows|)
  }

  function MayMark(rows: seq<Row>, id: nat, worker: string): (ok: bool)
    ensures ok ==> id < |rows|
  {
    id < |rows| && rows[id].status.Pending? && rows[id].claimedBy == Some(TrimSpace(worker))
  }

  function MarkPublished(rows: seq<Row>, id: nat, worker: string): (r: (seq<Row>, bool)) {
    if MayMark(rows, id, worker)
    then (rows[id := rows[id].(status := Published, claimedBy := None, claimUntil := None)], true)
    else (rows, false)
  }

  function MarkFailed(rows: seq<Row>, id: nat, worker: string, next: int): (r: (seq<Row>, bool)) {
    if MayMark(rows, id, worker)
    then (rows[id := rows[id].(attempts := rows[id].attempts + 1, nextAttempt := TruncMs(next), claimedBy := None, claimUntil := None)], true)
    else (rows, false)
  }

  // ---------------------------------------------------------------- relays

  /** Where a relay stands with the first job of its batch. */
  datatype Sending = ToSend | Acked | Refused

  datatype Batch = Batch(worker: string, now: int, jobs: seq<Job>, phase: Sending)

  datatype Entry = Leased(row: nat, worker: string, at: int, until: int) | Released(row: nat, worker: string, at: int)

  datatype State = State(
    clock: int,
    db: Orders.Db,
    batches: map<nat, Batch>,
    retryBase: nat, retryMax: nat,
    history: seq<Entry>,                // every lease taken and given back
    acked: set<Record>)                 // every record the broker acknowledged

  datatype Ack = Delivered | AnswerLost | NotDelivered

  datatype Event =
    | Tick(to: int)
    | Create(user: nat, orderNo: string, inputs: seq<ItemInput>, createdAt: int)
    | Claim(batch: nat, worker: string, now: int, lease: int, limit: int, locked: set<nat>)
    | Publish(batch: nat, outcome: Ack)
    | MarkSent(batch: nat)
    | MarkRefused(batch: nat)
    | Crash(batch: nat)

  function RecordOf(j: Job): (r: Record) { Record(j.key, Encoded(j.payload), NO_HEADERS) }

  function RowRecord(r: Row): (x: Record) { Record(r.orderNo, Encoded(r.payload), NO_HEADERS) }

  function Leases(ids: seq<nat>, worker: string, at: int, until: int): (h: seq<Entry>)
    ensures |h| == |ids| && forall k :: 0 <= k < |ids| ==> h[k] == Leased(ids[k], worker, at, until)
  {
    seq(|ids|, k requires 0 <= k < |ids| => Leased(ids[k], worker, at, until))
  }

  /** The relay read its clock at or before the moment the claim executes. */
  function DoClaim(s: State, b: nat, worker: string, now: int, lease: int, limit: int, locked: set<nat>): (s': State) {
    if b in s.batches || now > s.clock || !ValidClaim(worker, now, lease, limit) then s
    else
      var ids := ClaimedIds(s.db.outbox, now, limit, locked);
      var until := TruncMs(TruncMs(now) + lease);
      s.(db := s.db.(outbox := LeaseRows(s.db.outbox, ids, TrimSpace(worker), until)),
         batches := s.batches[b := Batch(TrimSpace(worker), now, Jobs(s.db.outbox, ids), ToSend)],
         history := s.history + Leases(ids, TrimSpace(worker), s.clock, until))
  }

  predicate CanPublish(s: State, b: nat) { b in s.batches && s.batches[b].jobs != [] && s.batches[b].phase.ToSend? }

  function DoPublish(s: State, b: nat, outcome: Ack): (s': State) {
    if !CanPublish(s, b) then s
    else if outcome.Delivered? then
      s.(batches := s.batches[b := s.batches[b].(phase := Acked)], acked := s.acked + {RecordOf(s.batches[b].jobs[0])})
    else s.(batches := s.batches[b := s.batches[b].(phase := Refused)])
  }

  /** After a mark the batch goes on with its next job; when the lease was lost the relay gives up the batch. */
  function AfterMark(s: State, b: nat, marked: (seq<Row>, bool)): (s': State)
    requires b in s.batches && s.batches[b].jobs != []
  {
    var k := s.batches[b];
    if marked.1 then
      s.(db := s.db.(outbox := marked.0),
         batches := s.batches[b := k.(jobs := k.jobs[1..], phase := ToSend)],
         history := s.history + [Released(k.jobs[0].row, TrimSpace(k.worker), s.clock)])
    else s.(batches := s.batches - {b})
  }

  function DoMarkSent(s: State, b: nat): (s': State) {
    if b !in s.batches || s.batches[b].jobs == [] || !s.batches[b].phase.Acked? then s
    else AfterMark(s, b, MarkPublished(s.db.outbox, s.batches[b].jobs[0].row, s.batches[b].worker))
  }

  /** The retry delay counts from the moment the batch was claimed. */
  function RetryAt(s: State, b: nat): (t: int)
    requires b in s.batches && s.batches[b].jobs != []
  {
    s.batches[b].now + Backoff.Capped(s.retryBase, s.retryMax, s.batches[b].jobs[0].attempts)
  }

  function DoMarkRefused(s: State, b: nat): (s': State) {
    if b !in s.batches || s.batches[b].jobs == [] || !s.batches[b].phase.Refused? then s
    else AfterMark(s, b, MarkFailed(s.db.outbox, s.batches[b].jobs[0].row, s.batches[b].worker, RetryAt(s, b)))
  }

  function Exec(s: State, e: Event): (s': State) {
    match e
    case Tick(to) => if s.clock <= to then s.(clock := to) else s
    case Create(user, orderNo, inputs, createdAt) => s.(db := CreateIdempotent(s.db, user, orderNo, inputs, createdAt).0)
    case Claim(b, worker, now, lease, limit, locked) => DoClaim(s, b, worker, now, lease, limit, locked)
    case Publish(b, outcome) => DoPublish(s, b, outcome)
    case MarkSent(b) => DoMarkSent(s, b)
    case MarkRefused(b) => DoMarkRefused(s, b)
    case Crash(b) => s.(batches := s.batches - {b})
  }

  function Run(s: State, events: seq<Event>): (s': State)
    decreases |events|
  {
    if events == [] then s else Run(Exec(s, events[0]), events[1..])
  }

  // ---------------------------------------------------------------- what a claim selects

  ghost predicate Ascending(ids: seq<nat>) { forall a, b :: 0 <= a < b < |ids| ==> ids[a] < ids[b] }

  /** A claim takes due unlocked rows only, in primary key order, and leaves none behind that comes before a
      taken one, nor any at all unless the batch is full. */
  lemma {:induction false} SelectExactly(rows: seq<Row>, now: int, limit: nat, locked: set<nat>, n: nat)
    requires n <= |rows|
    ensures var ids := Select(rows, now, limit, locked, n);
            && Ascending(ids)
            && (forall k :: 0 <= k < |ids| ==> Due(rows[ids[k]], now) && ids[k] !in locked)
            && (forall i :: 0 <= i < n && Due(rows[i], now) && i !in locked && i !in ids ==>
                  |ids| == limit && forall k :: 0 <= k < |ids| ==> ids[k] < i)
  {
    hide Due;
    if n > 0 {
      SelectExactly(rows, now, limit, locked, n - 1);
    }
  }

  /** A fresh outbox row is due at once, with no attempt behind it and claimed by nobody: any relay whose clock has
      reached the order's creation can claim it. */
  lemma FreshRowIsDue(event: OrderCreated, orderNo: string, createdAt: int, now: int)
    requires createdAt <= now
    ensures var r := NewRow(event, orderNo, createdAt); Due(r, TruncMs(now)) && r.attempts == 0 && r.claimedBy.None?
  {
    TruncMonotone(createdAt, now);
  }

  lemma TruncMonotone(a: int, b: int)
    requires a <= b
    ensures TruncMs(a) <= TruncMs(b)
  {
  }

  /** A lease holds for its length, down to the two roundings to whole milliseconds: until it ends the row is not due
      for anybody, and from then on it is again. */
  lemma LeaseLasts(r: Row, worker: string, now: int, lease: int, later: int)
    requires r.status.Pending? && r.nextAttempt <= TruncMs(now) && lease > 0 && now <= later
    ensures var until := TruncMs(TruncMs(now) + lease); var leased := r.(claimedBy := Some(worker), claimUntil := Some(until));
            && now + lease - 2_000_000 < until <= now + lease
            && (Due(leased, TruncMs(later)) <==> until <= TruncMs(later))
  {
    TruncMonotone(now, later);
  }

  /** A refused row is put off: one attempt more, the claim given up, and due again at the retry delay after the
      moment its batch was claimed, to the millisecond. */
  lemma RefusedIsPutOff(s: State, b: nat)
    requires b in s.batches && s.batches[b].jobs != [] && s.batches[b].phase.Refused?
    requires MayMark(s.db.outbox, s.batches[b].jobs[0].row, s.batches[b].worker)
    ensures var j := s.batches[b].jobs[0]; var r, r' := s.db.outbox[j.row], Exec(s, MarkRefused(b)).db.outbox[j.row];
            var at := s.batches[b].now + Backoff.Capped(s.retryBase, s.retryMax, j.attempts);
            && r' == r.(attempts := r.attempts + 1, nextAttempt := r'.nextAttempt, claimedBy := None, claimUntil := None)
            && at - 1_000_000 < r'.nextAttempt <= at
            && (forall now :: Due(r', TruncMs(now)) <==> r'.nextAttempt <= TruncMs(now))
  {
    hide TrimSpace;
    hide Backoff.Capped;
  }

  // ---------------------------------------------------------------- what rows keep

  /** A row keeps its identity, and once published it never changes again. */
  ghost predicate RowLater(r: Row, r': Row) {
    && r'.orderNo == r.orderNo && r'.payload == r.payload && r'.eventId == r.eventId && r.attempts <= r'.attempts
    && (r.status.Published? ==> r' == r)
  }

  ghost predicate RowsLater(rows: seq<Row>, rows': seq<Row>) {
    |rows| <= |rows'| && forall i :: 0 <= i < |rows| ==> RowLater(rows[i], rows'[i])
  }

  lemma RowsLaterReflexive(rows: seq<Row>)
    ensures RowsLater(rows, rows)
  {
  }

  lemma LeaseLater(rows: seq<Row>, ids: seq<nat>, worker: string, until: int, now: int)
    requires forall k :: 0 <= k < |ids| ==> ids[k] < |rows| && Due(rows[ids[k]], now)
    ensures RowsLater(rows, LeaseRows(rows, ids, worker, until))
  {
    var rows' := LeaseRows(rows, ids, worker, until);
    forall i | 0 <= i < |rows|
      ensures RowLater(rows[i], rows'[i])
    {
      if i in ids {
        var k :| 0 <= k < |ids| && ids[k] == i;
        assert Due(rows[ids[k]], now);
      }
    }
  }

  lemma PutRowLater(rows: seq<Row>, id: nat, r: Row)
    requires id < |rows| && RowLater(rows[id], r)
    ensures RowsLater(rows, rows[id := r])
  {
  }

  lemma MarkLater(rows: seq<Row>, id: nat, worker: string, next: int)
    ensures RowsLater(rows, MarkPublished(rows, id, worker).0) && RowsLater(rows, MarkFailed(rows, id, worker, next).0)
  {
    hide TrimSpace;
    RowsLaterReflexive(rows);
    hide RowsLater;
    if MayMark(rows, id, worker) {
      PutRowLater(rows, id, MarkPublished(rows, id, worker).0[id]);
      PutRowLater(rows, id, MarkFailed(rows, id, worker, next).0[id]);
    }
  }

  /** Marking and leasing leave orders and rows in one-to-one correspondence. */
  lemma OutboxStays(db: Orders.Db, rows: seq<Row>)
    requires OutboxMatches(db) && |rows| == |db.outbox| && RowsLater(db.outbox, rows)
    ensures OutboxMatches(db.(outbox := rows))
  {
    var db' := db.(outbox := rows);
    assert RowsSound(db') by { SoundStays(db, rows); }
    assert RowsDistinct(rows) by { DistinctStays(db.outbox, rows); }
    forall o | o in db.orders
      ensures HasRow(rows, o)
    {
      CoverStays(db.outbox, rows, o);
    }
    hide RowsSound;
    hide RowsDistinct;
    hide HasRow;
    hide OrdersKeyed;
  }

  lemma SoundStays(db: Orders.Db, rows: seq<Row>)
    requires RowsSound(db) && |rows| == |db.outbox| && RowsLater(db.outbox, rows)
    ensures RowsSound(db.(outbox := rows))
  {
    hide EventOf;
    hide StableEventId;
    forall i | 0 <= i < |rows|
      ensures rows[i].orderNo in db.orders && RowOf(rows[i], db.orders[rows[i].orderNo])
    {
      assert RowLater(db.outbox[i], rows[i]);
    }
  }

  lemma DistinctStays(before: seq<Row>, rows: seq<Row>)
    requires RowsDistinct(before) && |rows| == |before| && RowsLater(before, rows)
    ensures RowsDistinct(rows)
  {
    forall i, j | 0 <= i < j < |rows|
      ensures rows[i].orderNo != rows[j].orderNo
    {
      assert RowLater(before[i], rows[i]) && RowLater(before[j], rows[j]);
    }
  }

  lemma CoverStays(before: seq<Row>, rows: seq<Row>, o: string)
    requires HasRow(before, o) && |rows| == |before| && RowsLater(before, rows)
    ensures HasRow(rows, o)
  {
    var i :| 0 <= i < |before| && before[i].orderNo == o;
    assert RowLater(before[i], rows[i]);
  }
}
