/** A relay's pass over its batch while other relays, order transactions and the clock go on between any two of
    its statements. */
module RelayPass {
  import opened Text
  import opened Orders
  import opened Messages
  import opened OutboxRelay
  import opened OutboxLeases
  import opened OutboxTheorems

  /** An event of this relay's batch. */
  predicate ForBatch(e: Event, b: nat) {
    match e
    case Claim(c, _, _, _, _, _) => c == b
    case Publish(c, _) => c == b
    case MarkSent(c) => c == b
    case MarkRefused(c) => c == b
    case Crash(c) => c == b
    case _ => false
  }

  predicate OfOthers(events: seq<Event>, b: nat) { forall e :: e in events ==> !ForBatch(e, b) }

  lemma OthersLeaveBatch(s: State, e: Event, b: nat)
    requires !ForBatch(e, b) && b in s.batches
    ensures b in Exec(s, e).batches && Exec(s, e).batches[b] == s.batches[b]
  {
    hide CreateIdempotent;
    hide ClaimedIds;
    hide ValidClaim;
    hide MarkPublished;
    hide MarkFailed;
    hide RetryAt;
    hide TrimSpace;
    hide RecordOf;
  }

  lemma {:induction false} OthersRun(s: State, events: seq<Event>, b: nat)
    requires OfOthers(events, b) && b in s.batches
    ensures b in Run(s, events).batches && Run(s, events).batches[b] == s.batches[b]
    decreases |events|
  {
    hide Exec;
    if events != [] {
      OthersLeaveBatch(s, events[0], b);
      assert forall e :: e in events[1..] ==> e in events;
      OthersRun(Exec(s, events[0]), events[1..], b);
    }
  }

  lemma {:induction false} RunAppend(s: State, a: seq<Event>, b: seq<Event>)
    ensures Run(s, a + b) == Run(Run(s, a), b)
    decreases |a|
  {
    hide Exec;
    if a == [] {
      assert a + b == b;
    } else {
      assert (a + b)[1..] == a[1..] + b;
      RunAppend(Exec(s, a[0]), a[1..], b);
    }
  }

  lemma RunOne(s: State, e: Event)
    ensures Run(s, [e]) == Exec(s, e)
  {
    hide Exec;
    assert [e][1..] == [];
  }

  // ---------------------------------------------------------------- what becomes of a row

  ghost predicate GivenBackSince(h: seq<Entry>, from: nat, row: nat, worker: string) {
    exists k :: from <= k < |h| && h[k].Released? && h[k].row == row && h[k].worker == worker
  }

  /** This worker has given the row back since; if the broker confirmed the record the row is published, and if not
      it has one attempt more than when it was claimed. */
  ghost predicate Settled(s: State, from: nat, row: nat, worker: string, outcome: Ack, attempts: nat) {
    && row < |s.db.outbox| && GivenBackSince(s.history, from, row, worker)
    && (if outcome.Delivered? then s.db.outbox[row].status.Published? else attempts < s.db.outbox[row].attempts)
  }

  ghost predicate AllSettled(s: State, from: nat, jobs: seq<Job>, n: nat, worker: string, broker: nat -> Ack) {
    forall k :: 0 <= k < n && k < |jobs| ==> Settled(s, from, jobs[k].row, worker, broker(k), jobs[k].attempts)
  }

  lemma SettledStays(s: State, s': State, from: nat, row: nat, worker: string, outcome: Ack, attempts: nat)
    requires Settled(s, from, row, worker, outcome, attempts) && Moves(s, s')
    ensures Settled(s', from, row, worker, outcome, attempts)
  {
    var k :| from <= k < |s.history| && s.history[k].Released? && s.history[k].row == row && s.history[k].worker == worker;
    assert s'.history[k] == s'.history[..|s.history|][k] == s.history[k];
    assert RowLater(s.db.outbox[row], s'.db.outbox[row]);
  }

  lemma AllStaySettled(s: State, s': State, from: nat, jobs: seq<Job>, n: nat, worker: string, broker: nat -> Ack)
    requires AllSettled(s, from, jobs, n, worker, broker) && Moves(s, s')
    ensures AllSettled(s', from, jobs, n, worker, broker)
  {
    hide Settled;
    hide Moves;
    forall k | 0 <= k < n && k < |jobs|
      ensures Settled(s', from, jobs[k].row, worker, broker(k), jobs[k].attempts)
    {
      SettledStays(s, s', from, jobs[k].row, worker, broker(k), jobs[k].attempts);
    }
  }

  lemma {:induction false} RunStaysSettled(s: State, events: seq<Event>, from: nat, jobs: seq<Job>, n: nat, worker: string, broker: nat -> Ack)
    requires AllSettled(s, from, jobs, n, worker, broker)
    ensures AllSettled(Run(s, events), from, jobs, n, worker, broker)
    decreases |events|
  {
    hide AllSettled;
    hide Exec;
    if events != [] {
      ExecMoves(s, events[0]);
      AllStaySettled(s, Exec(s, events[0]), from, jobs, n, worker, broker);
      RunStaysSettled(Exec(s, events[0]), events[1..], from, jobs, n, worker, broker);
    }
  }

  /** The job's row is there, and its count has not fallen below what the claim saw. */
  ghost predicate JobFits(s: State, j: Job) { j.row < |s.db.outbox| && j.attempts <= s.db.outbox[j.row].attempts }

  lemma FitsStep(s: State, s': State, j: Job)
    requires JobFits(s, j) && Moves(s, s')
    ensures JobFits(s', j)
  {
    assert RowLater(s.db.outbox[j.row], s'.db.outbox[j.row]);
  }

  lemma {:induction false} FitsRun(s: State, events: seq<Event>, j: Job)
    requires JobFits(s, j)
    ensures JobFits(Run(s, events), j)
    decreases |events|
  {
    hide JobFits;
    hide Exec;
    if events != [] {
      ExecMoves(s, events[0]);
      FitsStep(s, Exec(s, events[0]), j);
      FitsRun(Exec(s, events[0]), events[1..], j);
    }
  }

  ghost predicate AllFit(s: State, jobs: seq<Job>) { forall k :: 0 <= k < |jobs| ==> JobFits(s, jobs[k]) }

  lemma AllFitRun(s: State, events: seq<Event>, jobs: seq<Job>)
    requires AllFit(s, jobs)
    ensures AllFit(Run(s, events), jobs)
  {
    hide JobFits;
    hide Run;
    forall k | 0 <= k < |jobs|
      ensures JobFits(Run(s, events), jobs[k])
    {
      FitsRun(s, events, jobs[k]);
    }
  }

  lemma OneFits(s: State, jobs: seq<Job>, k: nat)
    requires AllFit(s, jobs) && k < |jobs|
    ensures JobFits(s, jobs[k])
  {
    hide JobFits;
  }

  lemma ClaimedFit(s: State, ids: seq<nat>)
    requires forall k :: 0 <= k < |ids| ==> ids[k] < |s.db.outbox|
    ensures AllFit(s, Jobs(s.db.outbox, ids))
  {
  }

  /** The mark that follows the broker's answer: it settles the row, or the lease was lost and the batch is given up. */
  function MarkFor(b: nat, outcome: Ack): (e: Event) { if outcome.Delivered? then MarkSent(b) else MarkRefused(b) }

  ghost predicate Holding(s: State, b: nat, worker: string, now: int, jobs: seq<Job>, phase: Sending) {
    b in s.batches && s.batches[b] == Batch(worker, now, jobs, phase)
  }

  lemma PublishMoves(s: State, b: nat, worker: string, now: int, jobs: seq<Job>, outcome: Ack)
    requires Holding(s, b, worker, now, jobs, ToSend) && jobs != []
    ensures Holding(Exec(s, Publish(b, outcome)), b, worker, now, jobs, if outcome.Delivered? then Acked else Refused)
  {
    hide RecordOf;
  }

  lemma MarkSettles(s: State, b: nat, worker: string, now: int, jobs: seq<Job>, outcome: Ack, from: nat)
    requires Holding(s, b, worker, now, jobs, if outcome.Delivered? then Acked else Refused) && jobs != []
    requires TrimSpace(worker) == worker && from <= |s.history| && JobFits(s, jobs[0])
    ensures var s' := Exec(s, MarkFor(b, outcome)); var row := jobs[0].row;
            if MayMark(s.db.outbox, row, worker)
            then Holding(s', b, worker, now, jobs[1..], ToSend) && Settled(s', from, row, worker, outcome, jobs[0].attempts)
            else b !in s'.batches && s'.db == s.db
  {
    hide TrimSpace;
    hide RetryAt;
    hide TruncMs;
    var s', row := Exec(s, MarkFor(b, outcome)), jobs[0].row;
    if MayMark(s.db.outbox, row, worker) {
      assert s'.history[|s.history|] == Released(row, worker, s.clock);
    }
  }

  lemma ClaimStarts(s: State, b: nat, worker: string, now: int, lease: int, limit: int, locked: set<nat>)
    requires b !in s.batches && now <= s.clock && ValidClaim(worker, now, lease, limit)
    ensures var s' := Exec(s, Claim(b, worker, now, lease, limit, locked)); var ids := ClaimedIds(s.db.outbox, now, limit, locked);
            Holding(s', b, TrimSpace(worker), now, Jobs(s.db.outbox, ids), ToSend) && |s.history| <= |s'.history|
  {
    hide TrimSpace;
    hide ClaimedIds;
    hide LeaseRows;
  }

  lemma TrimmedTwice(worker: string)
    ensures TrimSpace(TrimSpace(worker)) == TrimSpace(worker)
  {
    Trims(worker);
    Trims(TrimSpace(worker));
  }

  lemma ClaimedJob(rows: seq<Row>, ids: seq<nat>, k: nat)
    requires k < |ids| && forall n :: 0 <= n < |ids| ==> ids[n] < |rows|
    ensures |Jobs(rows, ids)| == |ids| && Jobs(rows, ids)[k].row == ids[k] && Jobs(rows, ids)[k..][0] == Jobs(rows, ids)[k]
    ensures Jobs(rows, ids)[k..] != [] && Jobs(rows, ids)[k..][1..] == Jobs(rows, ids)[k + 1..]
  {
  }

  lemma OneMoreSettled(s: State, from: nat, jobs: seq<Job>, n: nat, worker: string, broker: nat -> Ack)
    requires AllSettled(s, from, jobs, n, worker, broker) && n < |jobs| && Settled(s, from, jobs[n].row, worker, broker(n), jobs[n].attempts)
    ensures AllSettled(s, from, jobs, n + 1, worker, broker)
  {
    hide Settled;
  }

  lemma NoneYet(s: State, from: nat, jobs: seq<Job>, worker: string, broker: nat -> Ack)
    ensures AllSettled(s, from, jobs, 0, worker, broker)
  {
  }

  /** Published rows carry acknowledged records. */
  lemma SettledIsAcked(s: State, from: nat, row: nat, worker: string, outcome: Ack, attempts: nat)
    requires Inv(s) && Settled(s, from, row, worker, outcome, attempts) && outcome.Delivered?
    ensures RowRecord(s.db.outbox[row]) in s.acked
  {
    Open(s);
    hide Inv;
    hide OutboxMatches;
    hide Disjoint;
    hide Shown;
    hide BatchesOk;
    hide RowRecord;
  }

  // ---------------------------------------------------------------- the pass

  class RelayProcess {
    var state: State
    const batch: nat

    constructor (state: State, batch: nat)
      ensures this.state == state && this.batch == batch
    {
      this.state, this.batch := state, batch;
    }

    method Others(events: seq<Event>)
      modifies this`state
      ensures state == Run(old(state), events)
    {
      hide Exec;
      for i := 0 to |events|
        invariant state == Run(old(state), events[..i])
      {
        assert events[..i + 1] == events[..i] + [events[i]];
        RunAppend(old(state), events[..i], [events[i]]);
        RunOne(state, events[i]);
        state := Exec(state, events[i]);
      }
      assert events[..|events|] == events;
    }

    /** One job with whatever happens before its publish and before its mark. */
    method ProcessJob(outcome: Ack, first: seq<Event>, second: seq<Event>, ghost worker: string, ghost now: int, ghost jobs: seq<Job>, ghost from: nat)
      returns (kept: bool)
      requires Inv(state) && Holding(state, batch, worker, now, jobs, ToSend) && jobs != [] && TrimSpace(worker) == worker
      requires OfOthers(first, batch) && OfOthers(second, batch) && from <= |state.history| && JobFits(state, jobs[0])
      modifies this`state
      ensures state == Run(old(state), first + [Publish(batch, outcome)] + second + [MarkFor(batch, outcome)]) && Inv(state)
      ensures |old(state).history| <= |state.history|
      ensures kept ==> Holding(state, batch, worker, now, jobs[1..], ToSend) && Settled(state, from, jobs[0].row, worker, outcome, jobs[0].attempts)
      ensures !kept ==> batch !in state.batches && !MayMark(state.db.outbox, jobs[0].row, worker)
    {
      hide *;
      ghost var s0 := state;
      var p, m := Publish(batch, outcome), MarkFor(batch, outcome);
      Others(first);
      HoldingRun(s0, first, batch, worker, now, jobs, ToSend);
      RunKeepsInv(s0, first);
      ghost var s1 := state;
      RunOne(s1, p);
      ExecKeepsInv(s1, p);
      PublishMoves(s1, batch, worker, now, jobs, outcome);
      state := Exec(state, p);
      ghost var s2 := state;
      Others(second);
      HoldingRun(s2, second, batch, worker, now, jobs, if outcome.Delivered? then Acked else Refused);
      RunKeepsInv(s2, second);
      ghost var s3 := state;
      FitsRun(s0, first, jobs[0]);
      FitsRun(s1, [p], jobs[0]);
      FitsRun(s2, second, jobs[0]);
      HistoryGrows(s0, first);
      HistoryGrows(s1, [p]);
      HistoryGrows(s2, second);
      RunOne(s3, m);
      ExecKeepsInv(s3, m);
      HistoryGrows(s3, [m]);
      MarkSettles(s3, batch, worker, now, jobs, outcome, from);
      RunAppend(s0, first, [p]);
      RunAppend(s0, first + [p], second);
      RunAppend(s0, first + [p] + second, [m]);
      state := Exec(state, m);
      kept := batch in state.batches;
      HoldingIs(state, batch, worker, now, jobs[1..], ToSend);
    }

    /** Claim, then for each leased row publish and mark, with other relays at work in between. The whole pass is
        a run of the machine. If it gets through, every leased row was given back by this worker, and those whose
        record the broker confirmed are published with that record acknowledged. If not, this worker no longer
        held the row it was about to mark. */
    method ProcessBatch(worker: string, now: int, lease: int, limit: int, locked: set<nat>, broker: nat -> Ack, others: nat -> seq<Event>)
      returns (processed: nat, finished: bool, ghost trace: seq<Event>)
      requires Inv(state) && batch !in state.batches && now <= state.clock && ValidClaim(worker, now, lease, limit)
      requires forall k :: OfOthers(others(k), batch)
      modifies this`state
      ensures state == Run(old(state), trace) && Inv(state)
      ensures var ids := ClaimedIds(old(state).db.outbox, now, limit, locked);
              && processed <= |ids| && (finished <==> processed == |ids|)
              && AllSettled(state, |old(state).history|, Jobs(old(state).db.outbox, ids), processed, TrimSpace(worker), broker)
              && (!finished ==> !MayMark(state.db.outbox, ids[processed], TrimSpace(worker)))
    {
      hide *;
      ClaimLimit(worker, now, lease, limit);
      ghost var s0, w := state, TrimSpace(worker);
      ghost var ids := ClaimedIds(s0.db.outbox, now, limit, locked);
      ghost var jobs := Jobs(s0.db.outbox, ids);
      ghost var from := |s0.history|;
      JobsAre(s0.db.outbox, ids);
      TrimmedTwice(worker);
      var e := Claim(batch, worker, now, lease, limit, locked);
      ClaimStarts(s0, batch, worker, now, lease, limit, locked);
      ExecKeepsInv(s0, e);
      RunOne(s0, e);
      ClaimedFit(s0, ids);
      AllFitRun(s0, [e], jobs);
      state := Exec(state, e);
      trace := [e];
      processed := 0;
      HoldingIs(state, batch, w, now, jobs, ToSend);
      NoneYet(state, from, jobs, w, broker);
      assert jobs[0..] == jobs;
      while state.batches[batch].jobs != []
        invariant processed <= |ids| == |jobs| && Inv(state) && state == Run(s0, trace)
        invariant batch in state.batches && Holding(state, batch, w, now, jobs[processed..], ToSend) && state.batches[batch].jobs == jobs[processed..]
        invariant AllSettled(state, from, jobs, processed, w, broker) && from <= |state.history| && AllFit(state, jobs)
        decreases |jobs| - processed
      {
        ClaimedJob(s0.db.outbox, ids, processed);
        OneFits(state, jobs, processed);
        ghost var s1 := state;
        ghost var step := others(2 * processed) + [Publish(batch, broker(processed))] + others(2 * processed + 1) + [MarkFor(batch, broker(processed))];
        var kept := ProcessJob(broker(processed), others(2 * processed), others(2 * processed + 1), w, now, jobs[processed..], from);
        RunStaysSettled(s1, step, from, jobs, processed, w, broker);
        AllFitRun(s1, step, jobs);
        RunAppend(s0, trace, step);
        trace := trace + step;
        if !kept {
          return processed, false, trace;
        }
        OneMoreSettled(state, from, jobs, processed, w, broker);
        processed := processed + 1;
        HoldingIs(state, batch, w, now, jobs[processed..], ToSend);
      }
      return processed, true, trace;
    }
  }

  lemma ClaimLimit(worker: string, now: int, lease: int, limit: int)
    requires ValidClaim(worker, now, lease, limit)
    ensures 0 < limit
  {
    hide TrimSpace;
  }

  lemma JobsAre(rows: seq<Row>, ids: seq<nat>)
    requires forall k :: 0 <= k < |ids| ==> ids[k] < |rows|
    ensures |Jobs(rows, ids)| == |ids|
  {
  }

  lemma HoldingIs(s: State, b: nat, worker: string, now: int, jobs: seq<Job>, phase: Sending)
    ensures Holding(s, b, worker, now, jobs, phase) ==> b in s.batches && s.batches[b].jobs == jobs
  {
  }

  lemma HoldingRun(s: State, events: seq<Event>, b: nat, worker: string, now: int, jobs: seq<Job>, phase: Sending)
    requires Holding(s, b, worker, now, jobs, phase) && OfOthers(events, b)
    ensures Holding(Run(s, events), b, worker, now, jobs, phase)
  {
    hide Run;
    hide OfOthers;
    OthersRun(s, events, b);
  }
}
