/** What every action of the relays keeps: leases on a row follow one another, a published row is frozen and
    stands for a record the broker has acknowledged. */
module OutboxLeases {
  import opened Text
  import opened OrderEvents
  import opened Orders
  import opened Messages
  import opened OutboxRelay

  // ---------------------------------------------------------------- leases

  ghost predicate GivenBack(h: seq<Entry>, i: nat, end: nat)
    requires i < end <= |h|
  {
    exists k :: i < k < end && h[k].Released? && h[k].row == h[i].row && h[k].worker == h[i].worker
  }

  /** Of two leases on one row, the earlier had run out or been given back when the later was taken. */
  ghost predicate Disjoint(h: seq<Entry>) {
    forall i: nat, j: nat :: i < j < |h| && h[i].Leased? && h[j].Leased? && h[i].row == h[j].row ==>
      h[i].until <= h[j].at || GivenBack(h, i, j)
  }

  ghost predicate Holds(rows: seq<Row>, e: Entry) {
    e.Leased? && e.row < |rows| && rows[e.row].claimedBy == Some(e.worker) && rows[e.row].claimUntil == Some(e.until)
  }

  /** A lease that has neither run out nor been given back is the one its row shows. */
  ghost predicate Shown(h: seq<Entry>, rows: seq<Row>, clock: int) {
    forall i: nat :: i < |h| && h[i].Leased? ==> GivenBack(h, i, |h|) || h[i].until <= clock || Holds(rows, h[i])
  }

  ghost predicate LeasesOk(s: State) { Disjoint(s.history) && Shown(s.history, s.db.outbox, s.clock) }

  lemma GivenBackStays(h: seq<Entry>, more: seq<Entry>, i: nat, end: nat)
    requires i < end <= |h| && GivenBack(h, i, end)
    ensures forall n: nat :: end <= n <= |h + more| ==> GivenBack(h + more, i, n)
  {
    var k :| i < k < end && h[k].Released? && h[k].row == h[i].row && h[k].worker == h[i].worker;
    assert (h + more)[k] == h[k] && (h + more)[i] == h[i];
  }

  lemma ShownLater(h: seq<Entry>, rows: seq<Row>, clock: int, rows': seq<Row>, clock': int)
    requires Shown(h, rows, clock) && clock <= clock'
    requires |rows| <= |rows'| && forall i :: 0 <= i < |rows| ==> rows'[i] == rows[i]
    ensures Shown(h, rows', clock')
  {
    forall i: nat | i < |h| && h[i].Leased?
      ensures GivenBack(h, i, |h|) || h[i].until <= clock' || Holds(rows', h[i])
    {
      assert GivenBack(h, i, |h|) || h[i].until <= clock || Holds(rows, h[i]);
    }
    hide GivenBack;
  }

  /** Giving a lease back. */
  lemma ReleaseKeepsDisjoint(h: seq<Entry>, e: Entry)
    requires Disjoint(h) && e.Released?
    ensures Disjoint(h + [e])
  {
    var h' := h + [e];
    forall i: nat, j: nat | i < j < |h'| && h'[i].Leased? && h'[j].Leased? && h'[i].row == h'[j].row
      ensures h'[i].until <= h'[j].at || GivenBack(h', i, j)
    {
      assert h[i] == h'[i] && h[j] == h'[j];
      if GivenBack(h, i, j) {
        GivenBackStays(h, [e], i, j);
      }
    }
  }

  lemma ReleaseKeepsShown(h: seq<Entry>, rows: seq<Row>, clock: int, id: nat, worker: string, r: Row, at: int)
    requires Shown(h, rows, clock) && id < |rows| && rows[id].claimedBy == Some(worker)
    ensures Shown(h + [Released(id, worker, at)], rows[id := r], clock)
  {
    var e := Released(id, worker, at);
    var h' := h + [e];
    forall i: nat | i < |h'| && h'[i].Leased?
      ensures GivenBack(h', i, |h'|) || h'[i].until <= clock || Holds(rows[id := r], h'[i])
    {
      assert h'[i] == h[i];
      if GivenBack(h, i, |h|) {
        GivenBackStays(h, [e], i, |h|);
      } else if Holds(rows, h[i]) && h[i].row == id {
        assert h'[|h|] == e;
      }
    }
  }

  lemma Entries(h: seq<Entry>, ids: seq<nat>, worker: string, at: int, until: int, i: nat)
    requires i < |h| + |ids|
    ensures var h' := h + Leases(ids, worker, at, until);
            && |h'| == |h| + |ids|
            && h'[i] == if i < |h| then h[i] else Leased(ids[i - |h|], worker, at, until)
  {
  }

  ghost predicate AllFree(rows: seq<Row>, ids: seq<nat>, clock: int) {
    forall k :: 0 <= k < |ids| ==> ids[k] < |rows| && (rows[ids[k]].claimUntil.None? || rows[ids[k]].claimUntil.value <= clock)
  }

  lemma LeaseKeepsDisjoint(h: seq<Entry>, rows: seq<Row>, clock: int, ids: seq<nat>, worker: string, until: int)
    requires Disjoint(h) && Shown(h, rows, clock) && Ascending(ids) && AllFree(rows, ids, clock)
    ensures Disjoint(h + Leases(ids, worker, clock, until))
  {
    var more := Leases(ids, worker, clock, until);
    var h' := h + more;
    forall i: nat, j: nat | i < j < |h'| && h'[i].Leased? && h'[j].Leased? && h'[i].row == h'[j].row
      ensures h'[i].until <= h'[j].at || GivenBack(h', i, j)
    {
      Entries(h, ids, worker, clock, until, i);
      Entries(h, ids, worker, clock, until, j);
      if j < |h| {
        if GivenBack(h, i, j) {
          GivenBackStays(h, more, i, j);
        }
      } else if i < |h| {
        if GivenBack(h, i, |h|) {
          GivenBackStays(h, more, i, |h|);
        } else {
          assert h[i].until <= clock || Holds(rows, h[i]);
        }
      }
    }
  }

  lemma LeaseKeepsShown(h: seq<Entry>, rows: seq<Row>, clock: int, ids: seq<nat>, worker: string, until: int)
    requires Shown(h, rows, clock) && AllFree(rows, ids, clock)
    ensures Shown(h + Leases(ids, worker, clock, until), LeaseRows(rows, ids, worker, until), clock)
  {
    var more := Leases(ids, worker, clock, until);
    var h', rows' := h + more, LeaseRows(rows, ids, worker, until);
    forall i: nat | i < |h'| && h'[i].Leased?
      ensures GivenBack(h', i, |h'|) || h'[i].until <= clock || Holds(rows', h'[i])
    {
      Entries(h, ids, worker, clock, until, i);
      if i < |h| {
        OldLease(h, rows, clock, ids, worker, until, i);
      } else {
        assert ids[i - |h|] in ids;
      }
    }
  }

  lemma OldLease(h: seq<Entry>, rows: seq<Row>, clock: int, ids: seq<nat>, worker: string, until: int, i: nat)
    requires Shown(h, rows, clock) && AllFree(rows, ids, clock) && i < |h| && h[i].Leased?
    ensures var h' := h + Leases(ids, worker, clock, until);
            GivenBack(h', i, |h'|) || h[i].until <= clock || Holds(LeaseRows(rows, ids, worker, until), h[i])
  {
    if GivenBack(h, i, |h|) {
      GivenBackStays(h, Leases(ids, worker, clock, until), i, |h|);
    } else if Holds(rows, h[i]) && h[i].row in ids {
      var k :| 0 <= k < |ids| && ids[k] == h[i].row;
      assert rows[ids[k]].claimUntil.None? || rows[ids[k]].claimUntil.value <= clock;
    }
    hide GivenBack;
  }

  // ---------------------------------------------------------------- published rows and batches

  ghost predicate PublishedOk(rows: seq<Row>, acked: set<Record>) {
    forall i :: 0 <= i < |rows| && rows[i].status.Published? ==> RowRecord(rows[i]) in acked
  }

  ghost predicate JobOk(j: Job, rows: seq<Row>) {
    j.row < |rows| && j.key == rows[j.row].orderNo && j.payload == rows[j.row].payload
  }

  ghost predicate BatchOk(b: Batch, rows: seq<Row>, acked: set<Record>) {
    && (forall k :: 0 <= k < |b.jobs| ==> JobOk(b.jobs[k], rows))
    && (b.phase.Acked? ==> b.jobs != [] && RecordOf(b.jobs[0]) in acked)
  }

  ghost predicate BatchesOk(batches: map<nat, Batch>, rows: seq<Row>, acked: set<Record>) {
    forall b :: b in batches ==> BatchOk(batches[b], rows, acked)
  }

  ghost predicate Inv(s: State) {
    OutboxMatches(s.db) && LeasesOk(s) && PublishedOk(s.db.outbox, s.acked) && BatchesOk(s.batches, s.db.outbox, s.acked)
  }

  lemma BatchStays(b: Batch, rows: seq<Row>, rows': seq<Row>, acked: set<Record>, acked': set<Record>)
    requires BatchOk(b, rows, acked) && RowsLater(rows, rows') && acked <= acked'
    ensures BatchOk(b, rows', acked')
  {
    forall k | 0 <= k < |b.jobs|
      ensures JobOk(b.jobs[k], rows')
    {
      assert JobOk(b.jobs[k], rows) && RowLater(rows[b.jobs[k].row], rows'[b.jobs[k].row]);
    }
  }

  lemma BatchesStay(batches: map<nat, Batch>, rows: seq<Row>, rows': seq<Row>, acked: set<Record>, acked': set<Record>)
    requires BatchesOk(batches, rows, acked) && RowsLater(rows, rows') && acked <= acked'
    ensures BatchesOk(batches, rows', acked')
  {
    hide BatchOk;
    hide RowsLater;
    forall b | b in batches
      ensures BatchOk(batches[b], rows', acked')
    {
      BatchStays(batches[b], rows, rows', acked, acked');
    }
  }

  lemma PutBatch(batches: map<nat, Batch>, b: nat, k: Batch, rows: seq<Row>, acked: set<Record>)
    requires BatchesOk(batches, rows, acked) && BatchOk(k, rows, acked)
    ensures BatchesOk(batches[b := k], rows, acked)
  {
    hide BatchOk;
  }

  lemma FewerBatches(batches: map<nat, Batch>, b: nat, rows: seq<Row>, acked: set<Record>)
    requires BatchesOk(batches, rows, acked)
    ensures BatchesOk(batches - {b}, rows, acked)
  {
    hide BatchOk;
  }

  lemma Open(s: State)
    requires Inv(s)
    ensures OutboxMatches(s.db) && Disjoint(s.history) && Shown(s.history, s.db.outbox, s.clock)
    ensures PublishedOk(s.db.outbox, s.acked) && BatchesOk(s.batches, s.db.outbox, s.acked)
  {
  }

  lemma Close(s: State)
    requires OutboxMatches(s.db) && Disjoint(s.history) && Shown(s.history, s.db.outbox, s.clock)
    requires PublishedOk(s.db.outbox, s.acked) && BatchesOk(s.batches, s.db.outbox, s.acked)
    ensures Inv(s)
  {
  }

  // ---------------------------------------------------------------- actions

  lemma TickKeepsInv(s: State, to: int)
    requires Inv(s) && s.clock <= to
    ensures Inv(s.(clock := to))
  {
    hide *;
    Open(s);
    ShownLater(s.history, s.db.outbox, s.clock, s.db.outbox, to);
    Close(s.(clock := to));
  }

  lemma CreateAppends(db: Orders.Db, user: nat, orderNo: string, inputs: seq<ItemInput>, createdAt: int)
    ensures var rows, rows' := db.outbox, CreateIdempotent(db, user, orderNo, inputs, createdAt).0.outbox;
            && |rows| <= |rows'| && (forall i :: 0 <= i < |rows| ==> rows'[i] == rows[i])
            && (forall i :: |rows| <= i < |rows'| ==> rows'[i].status.Pending?)
            && RowsLater(rows, rows')
  {
    hide TrimSpace;
    hide NormalizeItems;
    hide EventOf;
  }

  lemma PublishedGrows(rows: seq<Row>, rows': seq<Row>, acked: set<Record>)
    requires PublishedOk(rows, acked) && |rows| <= |rows'| && forall i :: 0 <= i < |rows| ==> rows'[i] == rows[i]
    requires forall i :: |rows| <= i < |rows'| ==> rows'[i].status.Pending?
    ensures PublishedOk(rows', acked)
  {
    hide RowRecord;
  }

  lemma CreateKeepsInv(s: State, user: nat, orderNo: string, inputs: seq<ItemInput>, createdAt: int)
    requires Inv(s)
    ensures Inv(s.(db := CreateIdempotent(s.db, user, orderNo, inputs, createdAt).0))
  {
    hide *;
    Open(s);
    var db := CreateIdempotent(s.db, user, orderNo, inputs, createdAt).0;
    CreateKeepsOutbox(s.db, user, orderNo, inputs, createdAt);
    CreateAppends(s.db, user, orderNo, inputs, createdAt);
    ShownLater(s.history, s.db.outbox, s.clock, db.outbox, s.clock);
    PublishedGrows(s.db.outbox, db.outbox, s.acked);
    BatchesStay(s.batches, s.db.outbox, db.outbox, s.acked, s.acked);
    Close(s.(db := db));
  }

  lemma ClaimedRows(rows: seq<Row>, now: int, limit: nat, locked: set<nat>, clock: int)
    requires now <= clock
    ensures var ids := ClaimedIds(rows, now, limit, locked);
            && Ascending(ids) && AllFree(rows, ids, clock)
            && (forall k :: 0 <= k < |ids| ==> ids[k] < |rows| && Due(rows[ids[k]], TruncMs(now)))
  {
    SelectExactly(rows, TruncMs(now), limit, locked, |rows|);
    hide Select;
    var ids := ClaimedIds(rows, now, limit, locked);
    forall k | 0 <= k < |ids|
      ensures ids[k] < |rows| && (rows[ids[k]].claimUntil.None? || rows[ids[k]].claimUntil.value <= clock)
    {
      assert Due(rows[ids[k]], TruncMs(now));
    }
  }

  lemma PublishedLease(rows: seq<Row>, ids: seq<nat>, worker: string, until: int, acked: set<Record>)
    requires PublishedOk(rows, acked)
    ensures PublishedOk(LeaseRows(rows, ids, worker, until), acked)
  {
    var rows' := LeaseRows(rows, ids, worker, until);
    forall i | 0 <= i < |rows'| && rows'[i].status.Published?
      ensures RowRecord(rows'[i]) in acked
    {
      assert rows[i].status.Published? && RowRecord(rows'[i]) == RowRecord(rows[i]);
    }
  }

  lemma JobsOk(rows: seq<Row>, ids: seq<nat>, worker: string, until: int, now: int, acked: set<Record>)
    requires forall k :: 0 <= k < |ids| ==> ids[k] < |rows|
    ensures BatchOk(Batch(worker, now, Jobs(rows, ids), ToSend), LeaseRows(rows, ids, worker, until), acked)
  {
  }

  lemma ClaimEffect(s: State, b: nat, worker: string, now: int, lease: int, limit: int, locked: set<nat>)
    ensures var s' := DoClaim(s, b, worker, now, lease, limit, locked);
            || s' == s
            || (&& now <= s.clock && 0 <= limit
                && var ids, until, w := ClaimedIds(s.db.outbox, now, limit, locked), TruncMs(TruncMs(now) + lease), TrimSpace(worker);
                   s' == s.(db := s.db.(outbox := LeaseRows(s.db.outbox, ids, w, until)),
                            batches := s.batches[b := Batch(w, now, Jobs(s.db.outbox, ids), ToSend)],
                            history := s.history + Leases(ids, w, s.clock, until)))
  {
    hide TrimSpace;
    hide ClaimedIds;
    hide LeaseRows;
    hide Jobs;
    hide Leases;
    hide TruncMs;
  }

  lemma LeasedRows(rows: seq<Row>, ids: seq<nat>, worker: string, until: int)
    ensures |LeaseRows(rows, ids, worker, until)| == |rows|
  {
  }

  lemma ClaimKeepsInv(s: State, b: nat, worker: string, now: int, lease: int, limit: int, locked: set<nat>)
    requires Inv(s)
    ensures Inv(DoClaim(s, b, worker, now, lease, limit, locked))
  {
    hide *;
    ClaimEffect(s, b, worker, now, lease, limit, locked);
    var s' := DoClaim(s, b, worker, now, lease, limit, locked);
    if s' != s {
      Open(s);
      var rows := s.db.outbox;
      var ids, until, w := ClaimedIds(rows, now, limit, locked), TruncMs(TruncMs(now) + lease), TrimSpace(worker);
      ClaimedRows(rows, now, limit, locked, s.clock);
      LeaseLater(rows, ids, w, until, TruncMs(now));
      LeasedRows(rows, ids, w, until);
      OutboxStays(s.db, LeaseRows(rows, ids, w, until));
      LeaseKeepsDisjoint(s.history, rows, s.clock, ids, w, until);
      LeaseKeepsShown(s.history, rows, s.clock, ids, w, until);
      PublishedLease(rows, ids, w, until, s.acked);
      BatchesStay(s.batches, rows, LeaseRows(rows, ids, w, until), s.acked, s.acked);
      JobsOk(rows, ids, w, until, now, s.acked);
      PutBatch(s.batches, b, Batch(w, now, Jobs(rows, ids), ToSend), LeaseRows(rows, ids, w, until), s.acked);
      Close(s');
    }
  }

  lemma BatchFacts(s: State, b: nat)
    requires BatchesOk(s.batches, s.db.outbox, s.acked) && b in s.batches
    ensures BatchOk(s.batches[b], s.db.outbox, s.acked)
  {
  }

  lemma PublishedMore(rows: seq<Row>, acked: set<Record>, more: set<Record>)
    requires PublishedOk(rows, acked) && acked <= more
    ensures PublishedOk(rows, more)
  {
    hide RowRecord;
  }

  lemma PhaseOk(b: Batch, phase: Sending, rows: seq<Row>, acked: set<Record>)
    requires BatchOk(b, rows, acked) && b.jobs != [] && (phase.Acked? ==> RecordOf(b.jobs[0]) in acked)
    ensures BatchOk(b.(phase := phase), rows, acked)
  {
    hide JobOk;
    hide RecordOf;
  }

  lemma PublishEffect(s: State, b: nat, outcome: Ack)
    ensures var s' := DoPublish(s, b, outcome);
            || s' == s
            || (&& CanPublish(s, b) && b in s.batches && s.batches[b].jobs != []
                && (|| s' == s.(batches := s.batches[b := s.batches[b].(phase := Refused)])
                    || s' == s.(batches := s.batches[b := s.batches[b].(phase := Acked)], acked := s.acked + {RecordOf(s.batches[b].jobs[0])})))
  {
    hide RecordOf;
  }

  lemma PublishKeepsInv(s: State, b: nat, outcome: Ack)
    requires Inv(s)
    ensures Inv(DoPublish(s, b, outcome))
  {
    hide *;
    PublishEffect(s, b, outcome);
    var s' := DoPublish(s, b, outcome);
    if s' != s {
      Open(s);
      BatchFacts(s, b);
      RowsLaterReflexive(s.db.outbox);
      PublishedMore(s.db.outbox, s.acked, s'.acked);
      BatchesStay(s.batches, s.db.outbox, s.db.outbox, s.acked, s'.acked);
      BatchStays(s.batches[b], s.db.outbox, s.db.outbox, s.acked, s'.acked);
      PhaseOk(s.batches[b], s'.batches[b].phase, s.db.outbox, s'.acked);
      PutBatch(s.batches, b, s.batches[b].(phase := s'.batches[b].phase), s.db.outbox, s'.acked);
      Close(s');
    }
  }

  lemma CrashKeepsInv(s: State, b: nat)
    requires Inv(s)
    ensures Inv(s.(batches := s.batches - {b}))
  {
    hide *;
    Open(s);
    FewerBatches(s.batches, b, s.db.outbox, s.acked);
    Close(s.(batches := s.batches - {b}));
  }

  lemma NextJobOk(b: Batch, rows: seq<Row>, acked: set<Record>)
    requires BatchOk(b, rows, acked) && b.jobs != []
    ensures BatchOk(b.(jobs := b.jobs[1..], phase := ToSend), rows, acked)
  {
    hide JobOk;
    hide RecordOf;
  }

  lemma PutRowPublished(rows: seq<Row>, id: nat, r: Row, acked: set<Record>)
    requires PublishedOk(rows, acked) && id < |rows| && (r.status.Published? ==> RowRecord(r) in acked)
    ensures PublishedOk(rows[id := r], acked)
  {
    hide RowRecord;
  }

  /** Marking the row of a batch's first job keeps the invariant, provided a published row was acknowledged. */
  lemma MarkKeepsInv(s: State, b: nat, r: Row)
    requires Inv(s) && b in s.batches && s.batches[b].jobs != []
    requires MayMark(s.db.outbox, s.batches[b].jobs[0].row, s.batches[b].worker)
    requires RowLater(s.db.outbox[s.batches[b].jobs[0].row], r) && (r.status.Published? ==> RowRecord(r) in s.acked)
    ensures Inv(AfterMark(s, b, (s.db.outbox[s.batches[b].jobs[0].row := r], true)))
  {
    hide *;
    var k, rows := s.batches[b], s.db.outbox;
    var id := k.jobs[0].row;
    MarkHolder(rows, id, k.worker);
    AfterMarkIs(s, b, (rows[id := r], true));
    var s' := AfterMark(s, b, (rows[id := r], true));
    Open(s);
    BatchFacts(s, b);
    PutRowLater(rows, id, r);
    OutboxStays(s.db, rows[id := r]);
    ReleaseKeepsDisjoint(s.history, Released(id, TrimSpace(k.worker), s.clock));
    ReleaseKeepsShown(s.history, rows, s.clock, id, TrimSpace(k.worker), r, s.clock);
    PutRowPublished(rows, id, r, s.acked);
    BatchesStay(s.batches, rows, rows[id := r], s.acked, s.acked);
    BatchStays(k, rows, rows[id := r], s.acked, s.acked);
    NextJobOk(k, rows[id := r], s.acked);
    PutBatch(s.batches, b, k.(jobs := k.jobs[1..], phase := ToSend), rows[id := r], s.acked);
    Close(s');
  }

  lemma MarkHolder(rows: seq<Row>, id: nat, worker: string)
    requires MayMark(rows, id, worker)
    ensures id < |rows| && rows[id].status.Pending? && rows[id].claimedBy == Some(TrimSpace(worker))
  {
    hide TrimSpace;
  }

  lemma AfterMarkIs(s: State, b: nat, marked: (seq<Row>, bool))
    requires b in s.batches && s.batches[b].jobs != []
    ensures AfterMark(s, b, marked) ==
      if marked.1 then
        s.(db := s.db.(outbox := marked.0),
           batches := s.batches[b := s.batches[b].(jobs := s.batches[b].jobs[1..], phase := ToSend)],
           history := s.history + [Released(s.batches[b].jobs[0].row, TrimSpace(s.batches[b].worker), s.clock)])
      else s.(batches := s.batches - {b})
  {
    hide TrimSpace;
  }

  lemma MarkEffects(rows: seq<Row>, id: nat, worker: string, next: int)
    ensures if !MayMark(rows, id, worker) then MarkPublished(rows, id, worker) == (rows, false) == MarkFailed(rows, id, worker, next)
            else && MarkPublished(rows, id, worker) == (rows[id := MarkPublished(rows, id, worker).0[id]], true)
                 && MarkFailed(rows, id, worker, next) == (rows[id := MarkFailed(rows, id, worker, next).0[id]], true)
                 && RowLater(rows[id], MarkPublished(rows, id, worker).0[id]) && RowLater(rows[id], MarkFailed(rows, id, worker, next).0[id])
                 && MarkFailed(rows, id, worker, next).0[id].status.Pending?
                 && RowRecord(MarkPublished(rows, id, worker).0[id]) == RowRecord(rows[id])
  {
    hide TrimSpace;
  }

  lemma AckedRow(b: Batch, rows: seq<Row>, acked: set<Record>)
    requires BatchOk(b, rows, acked) && b.phase.Acked?
    ensures b.jobs != [] && b.jobs[0].row < |rows| && RowRecord(rows[b.jobs[0].row]) in acked
  {
    assert JobOk(b.jobs[0], rows);
  }

  lemma SentEffect(s: State, b: nat)
    ensures DoMarkSent(s, b) ==
            if b !in s.batches || s.batches[b].jobs == [] || !s.batches[b].phase.Acked? then s
            else AfterMark(s, b, MarkPublished(s.db.outbox, s.batches[b].jobs[0].row, s.batches[b].worker))
  {
    hide AfterMark;
    hide MarkPublished;
  }

  lemma MarkSentKeepsInv(s: State, b: nat)
    requires Inv(s)
    ensures Inv(DoMarkSent(s, b))
  {
    hide *;
    SentEffect(s, b);
    if b in s.batches && s.batches[b].jobs != [] && s.batches[b].phase.Acked? {
      var k, rows := s.batches[b], s.db.outbox;
      var id := k.jobs[0].row;
      MarkEffects(rows, id, k.worker, 0);
      AfterMarkIs(s, b, MarkPublished(rows, id, k.worker));
      if MayMark(rows, id, k.worker) {
        Open(s);
        BatchFacts(s, b);
        AckedRow(k, rows, s.acked);
        MarkKeepsInv(s, b, MarkPublished(rows, id, k.worker).0[id]);
      } else {
        CrashKeepsInv(s, b);
      }
    }
  }

  lemma RefusedEffect(s: State, b: nat)
    ensures if b !in s.batches || s.batches[b].jobs == [] || !s.batches[b].phase.Refused? then DoMarkRefused(s, b) == s
            else DoMarkRefused(s, b) == AfterMark(s, b, MarkFailed(s.db.outbox, s.batches[b].jobs[0].row, s.batches[b].worker, RetryAt(s, b)))
  {
    hide AfterMark;
    hide MarkFailed;
    hide RetryAt;
  }

  lemma MarkRefusedKeepsInv(s: State, b: nat)
    requires Inv(s)
    ensures Inv(DoMarkRefused(s, b))
  {
    hide *;
    RefusedEffect(s, b);
    if b in s.batches && s.batches[b].jobs != [] && s.batches[b].phase.Refused? {
      var k, rows := s.batches[b], s.db.outbox;
      var id := k.jobs[0].row;
      var next := RetryAt(s, b);
      MarkEffects(rows, id, k.worker, next);
      AfterMarkIs(s, b, MarkFailed(rows, id, k.worker, next));
      if MayMark(rows, id, k.worker) {
        MarkKeepsInv(s, b, MarkFailed(rows, id, k.worker, next).0[id]);
      } else {
        CrashKeepsInv(s, b);
      }
    }
  }

  lemma ExecKeepsInv(s: State, e: Event)
    requires Inv(s)
    ensures Inv(Exec(s, e))
  {
    hide Inv;
    hide DoClaim;
    hide DoPublish;
    hide DoMarkSent;
    hide DoMarkRefused;
    hide CreateIdempotent;
    match e
    case Tick(to) => if s.clock <= to { TickKeepsInv(s, to); }
    case Create(user, orderNo, inputs, createdAt) => CreateKeepsInv(s, user, orderNo, inputs, createdAt);
    case Claim(b, worker, now, lease, limit, locked) => ClaimKeepsInv(s, b, worker, now, lease, limit, locked);
    case Publish(b, outcome) => PublishKeepsInv(s, b, outcome);
    case MarkSent(b) => MarkSentKeepsInv(s, b);
    case MarkRefused(b) => MarkRefusedKeepsInv(s, b);
    case Crash(b) => CrashKeepsInv(s, b);
  }

  lemma {:induction false} RunKeepsInv(s: State, events: seq<Event>)
    requires Inv(s)
    ensures Inv(Run(s, events))
    decreases |events|
  {
    hide Inv;
    hide Exec;
    if events != [] {
      ExecKeepsInv(s, events[0]);
      RunKeepsInv(Exec(s, events[0]), events[1..]);
    }
  }
}
