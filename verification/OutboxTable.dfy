/** The outbox table as its statements change it, and one relay's pass over a batch while nothing else runs. */
module OutboxTable {
  import opened Text
  import opened Orders
  import opened Messages
  import opened OutboxRelay
  import Backoff

  /** What becomes of a leased row once the broker has answered for it. */
  function AfterOutcome(r: Row, outcome: Ack, now: int, retryBase: int, retryMax: int): (r': Row) {
    var released := r.(claimedBy := None, claimUntil := None);
    if outcome.Delivered? then released.(status := Published)
    else released.(attempts := r.attempts + 1, nextAttempt := TruncMs(now + Backoff.Capped(retryBase, retryMax, r.attempts)))
  }

  /** The records that reach the topic, in the order of the batch: all but those not delivered. */
  function Appended(jobs: seq<Job>, broker: nat -> Ack): (log: seq<Record>) {
    if jobs == [] then []
    else
      var n := |jobs| - 1;
      Appended(jobs[..n], broker) + if broker(n).NotDelivered? then [] else [RecordOf(jobs[n])]
  }

  class Outbox {
    var rows: seq<Row>
    var topic: seq<Record>

    constructor ()
      ensures rows == [] && topic == []
    {
      rows, topic := [], [];
    }

    /** The select: rows in primary key order, skipping those that are not due or locked, up to the limit. */
    method SelectDue(now: int, limit: nat, locked: set<nat>) returns (ids: seq<nat>)
      ensures ids == Select(rows, now, limit, locked, |rows|)
    {
      ids := [];
      for n := 0 to |rows|
        invariant ids == Select(rows, now, limit, locked, n)
      {
        if |ids| < limit && n !in locked && Due(rows[n], now) {
          ids := ids + [n];
        }
      }
    }

    /** One transaction: select the due rows, then write the lease into exactly those. */
    method ClaimOutbox(worker: string, now: int, lease: int, limit: int, locked: set<nat>) returns (jobs: Option<seq<Job>>)
      modifies this`rows
      ensures jobs.None? <==> TrimSpace(worker) == "" || now == ZERO_NANOS || lease <= 0 || limit < 1 || limit > 1_000
      ensures jobs.None? ==> rows == old(rows)
      ensures jobs.Some? ==>
                var ids := ClaimedIds(old(rows), now, limit, locked);
                && jobs == Some(Jobs(old(rows), ids))
                && rows == LeaseRows(old(rows), ids, TrimSpace(worker), TruncMs(TruncMs(now) + lease))
    {
      hide TrimSpace;
      hide TruncMs;
      if !ValidClaim(worker, now, lease, limit) {
        return None;
      }
      var until := TruncMs(TruncMs(now) + lease);
      var ids := SelectDue(TruncMs(now), limit, locked);
      jobs := Some(Jobs(rows, ids));
      for k := 0 to |ids|
        invariant rows == LeaseRows(old(rows), ids[..k], TrimSpace(worker), until)
      {
        LeaseOneMore(old(rows), ids, k, TrimSpace(worker), until);
        rows := rows[ids[k] := rows[ids[k]].(claimedBy := Some(TrimSpace(worker)), claimUntil := Some(until))];
      }
      assert ids[..|ids|] == ids;
    }

    method MarkOutboxPublished(id: nat, worker: string) returns (updated: bool)
      modifies this`rows
      ensures (rows, updated) == MarkPublished(old(rows), id, worker)
    {
      if id < |rows| && rows[id].status.Pending? && rows[id].claimedBy == Some(TrimSpace(worker)) {
        rows := rows[id := rows[id].(status := Published, claimedBy := None, claimUntil := None)];
        return true;
      }
      return false;
    }

    method MarkOutboxFailed(id: nat, worker: string, next: int) returns (updated: bool)
      modifies this`rows
      ensures (rows, updated) == MarkFailed(old(rows), id, worker, next)
    {
      if id < |rows| && rows[id].status.Pending? && rows[id].claimedBy == Some(TrimSpace(worker)) {
        rows := rows[id := rows[id].(attempts := rows[id].attempts + 1, nextAttempt := TruncMs(next), claimedBy := None, claimUntil := None)];
        return true;
      }
      return false;
    }

    /** One job: publish, then mark the row or count the failure. */
    method ProcessJob(job: Job, worker: string, now: int, retryBase: int64, retryMax: int64, outcome: Ack)
      requires 0 < retryBase <= retryMax && MayMark(rows, job.row, worker) && job.attempts == rows[job.row].attempts < MAX_INT64
      modifies this
      ensures rows == old(rows)[job.row := AfterOutcome(old(rows)[job.row], outcome, now, retryBase as int, retryMax as int)]
      ensures topic == old(topic) + if outcome.NotDelivered? then [] else [RecordOf(job)]
    {
      hide TrimSpace;
      hide TruncMs;
      hide Backoff.Capped;
      if !outcome.NotDelivered? {
        topic := topic + [RecordOf(job)];
      }
      var updated;
      if outcome.Delivered? {
        updated := MarkOutboxPublished(job.row, worker);
      } else {
        var delay := Backoff.RetryDelay(retryBase, retryMax, (job.attempts + 1) as int64);
        updated := MarkOutboxFailed(job.row, worker, now + delay as int);
      }
    }

    /** The loop over a leased batch. */
    method PublishJobs(jobs: seq<Job>, worker: string, now: int, retryBase: int64, retryMax: int64, broker: nat -> Ack, ghost before: seq<Row>, ghost ids: seq<nat>, ghost until: int)
      returns (processed: nat)
      requires 0 < retryBase <= retryMax && |rows| == |before| && Ascending(ids)
      requires forall k :: 0 <= k < |ids| ==> ids[k] < |before| && before[ids[k]].status.Pending? && before[ids[k]].attempts < MAX_INT64
      requires jobs == Jobs(before, ids) && |jobs| == |ids|
      requires BatchAt(before, rows, ids, 0, worker, until, broker, now, retryBase as int, retryMax as int)
      modifies this
      ensures processed == |ids| && |rows| == |before|
      ensures BatchAt(before, rows, ids, |ids|, worker, until, broker, now, retryBase as int, retryMax as int)
      ensures topic == old(topic) + Appended(jobs, broker)
    {
      hide *;
      ghost var base, max := retryBase as int, retryMax as int;
      AppendedNone(old(topic), jobs, broker);
      processed := 0;
      while processed < |jobs|
        invariant processed <= |jobs| && |rows| == |before|
        invariant BatchAt(before, rows, ids, processed, worker, until, broker, now, base, max)
        invariant topic == old(topic) + Appended(jobs[..processed], broker)
      {
        JobAt(before, ids, processed);
        BatchStep(before, rows, ids, processed, worker, until, broker, now, base, max);
        AppendedOneMore(old(topic), jobs, processed, broker);
        ProcessJob(jobs[processed], worker, now, retryBase, retryMax, broker(processed));
        processed := processed + 1;
      }
      assert jobs[..|jobs|] == jobs;
    }

    /** A pass of the relay: every leased row is published, or counted and put off by the retry delay; no other
        row changes; and each row marked published has its record in the topic. */
    method ProcessBatch(worker: string, now: int, lease: int, limit: int, locked: set<nat>, retryBase: int64, retryMax: int64, broker: nat -> Ack)
      returns (processed: nat)
      requires ValidClaim(worker, now, lease, limit) && 0 < retryBase <= retryMax
      requires forall i :: 0 <= i < |rows| ==> rows[i].attempts < MAX_INT64
      modifies this
      ensures var ids := ClaimedIds(old(rows), now, limit, locked);
              && processed == |ids| && |rows| == |old(rows)|
              && Dealt(old(rows), rows, ids, broker, now, retryBase as int, retryMax as int)
              && topic == old(topic) + Appended(Jobs(old(rows), ids), broker)
    {
      ghost var before := rows;
      ghost var ids := ClaimedIds(rows, now, limit, locked);
      AllDue(before, now, limit, locked);
      ghost var until := TruncMs(TruncMs(now) + lease);
      hide *;
      var claimed := ClaimOutbox(worker, now, lease, limit, locked);
      BatchStart(before, ids, worker, until, broker, now, retryBase as int, retryMax as int);
      processed := PublishJobs(claimed.value, worker, now, retryBase, retryMax, broker, before, ids, until);
      BatchEnd(before, rows, ids, worker, until, broker, now, retryBase as int, retryMax as int);
    }
  }

  /** Every row of the batch has met its outcome, every other row is as it was. */
  ghost predicate Dealt(before: seq<Row>, rows: seq<Row>, ids: seq<nat>, broker: nat -> Ack, now: int, base: int, max: int)
    requires |rows| == |before| && forall k :: 0 <= k < |ids| ==> ids[k] < |rows|
  {
    && (forall i :: 0 <= i < |rows| && i !in ids ==> rows[i] == before[i])
    && (forall k :: 0 <= k < |ids| ==> rows[ids[k]] == AfterOutcome(before[ids[k]], broker(k), now, base, max))
  }

  lemma BatchStart(before: seq<Row>, ids: seq<nat>, worker: string, until: int, broker: nat -> Ack, now: int, base: int, max: int)
    requires forall k :: 0 <= k < |ids| ==> ids[k] < |before|
    ensures |LeaseRows(before, ids, TrimSpace(worker), until)| == |before| && |Jobs(before, ids)| == |ids|
    ensures BatchAt(before, LeaseRows(before, ids, TrimSpace(worker), until), ids, 0, worker, until, broker, now, base, max)
  {
    hide TrimSpace;
    hide AfterOutcome;
  }

  lemma BatchEnd(before: seq<Row>, rows: seq<Row>, ids: seq<nat>, worker: string, until: int, broker: nat -> Ack, now: int, base: int, max: int)
    requires |rows| == |before| && forall k :: 0 <= k < |ids| ==> ids[k] < |rows|
    requires BatchAt(before, rows, ids, |ids|, worker, until, broker, now, base, max)
    ensures Dealt(before, rows, ids, broker, now, base, max)
  {
    hide TrimSpace;
    hide AfterOutcome;
  }

  lemma JobAt(rows: seq<Row>, ids: seq<nat>, k: nat)
    requires k < |ids| && forall n :: 0 <= n < |ids| ==> ids[n] < |rows|
    ensures |Jobs(rows, ids)| == |ids| && Jobs(rows, ids)[k].row == ids[k] && Jobs(rows, ids)[k].attempts == rows[ids[k]].attempts
  {
  }

  lemma AppendedNone(log: seq<Record>, jobs: seq<Job>, broker: nat -> Ack)
    ensures log + Appended(jobs[..0], broker) == log
  {
  }

  /** The first n rows of the batch are dealt with, the others still leased, all other rows untouched. */
  ghost predicate BatchAt(before: seq<Row>, rows: seq<Row>, ids: seq<nat>, n: nat, worker: string, until: int, broker: nat -> Ack, now: int, base: int, max: int)
    requires |rows| == |before| && forall k :: 0 <= k < |ids| ==> ids[k] < |rows|
  {
    && (forall i :: 0 <= i < |rows| && i !in ids ==> rows[i] == before[i])
    && (forall k :: 0 <= k < n && k < |ids| ==> rows[ids[k]] == AfterOutcome(before[ids[k]], broker(k), now, base, max))
    && (forall k :: n <= k < |ids| ==> rows[ids[k]] == before[ids[k]].(claimedBy := Some(TrimSpace(worker)), claimUntil := Some(until)))
  }

  lemma AllDue(rows: seq<Row>, now: int, limit: nat, locked: set<nat>)
    ensures var ids := ClaimedIds(rows, now, limit, locked);
            Ascending(ids) && forall k :: 0 <= k < |ids| ==> rows[ids[k]].status.Pending?
  {
    SelectExactly(rows, TruncMs(now), limit, locked, |rows|);
    hide Select;
    var ids := ClaimedIds(rows, now, limit, locked);
    forall k | 0 <= k < |ids|
      ensures rows[ids[k]].status.Pending?
    {
      assert Due(rows[ids[k]], TruncMs(now));
    }
  }

  lemma LeaseIgnored(r: Row, worker: string, until: int, outcome: Ack, now: int, base: int, max: int)
    ensures AfterOutcome(r.(claimedBy := Some(worker), claimUntil := Some(until)), outcome, now, base, max) == AfterOutcome(r, outcome, now, base, max)
  {
    hide TruncMs;
    hide Backoff.Capped;
  }

  lemma BatchStep(before: seq<Row>, rows: seq<Row>, ids: seq<nat>, n: nat, worker: string, until: int, broker: nat -> Ack, now: int, base: int, max: int)
    requires |rows| == |before| && n < |ids| && Ascending(ids)
    requires forall k :: 0 <= k < |ids| ==> ids[k] < |rows| && before[ids[k]].status.Pending?
    requires BatchAt(before, rows, ids, n, worker, until, broker, now, base, max)
    ensures MayMark(rows, ids[n], worker) && rows[ids[n]].attempts == before[ids[n]].attempts
    ensures BatchAt(before, rows[ids[n] := AfterOutcome(rows[ids[n]], broker(n), now, base, max)], ids, n + 1, worker, until, broker, now, base, max)
  {
    hide TrimSpace;
    hide AfterOutcome;
    LeaseIgnored(before[ids[n]], TrimSpace(worker), until, broker(n), now, base, max);
  }

  lemma LeaseOneMore(rows: seq<Row>, ids: seq<nat>, k: nat, worker: string, until: int)
    requires k < |ids| && ids[k] < |rows|
    ensures var before := LeaseRows(rows, ids[..k], worker, until);
            LeaseRows(rows, ids[..k + 1], worker, until) == before[ids[k] := before[ids[k]].(claimedBy := Some(worker), claimUntil := Some(until))]
  {
    assert ids[..k + 1] == ids[..k] + [ids[k]];
  }

  lemma AppendedOneMore(log: seq<Record>, jobs: seq<Job>, n: nat, broker: nat -> Ack)
    requires n < |jobs|
    ensures log + Appended(jobs[..n + 1], broker) ==
            log + Appended(jobs[..n], broker) + if broker(n).NotDelivered? then [] else [RecordOf(jobs[n])]
  {
    assert jobs[..n + 1][..n] == jobs[..n];
  }
}
