/** The promises of the outbox leases, over every run of the relays. */
module OutboxTheorems {
  import opened Text
  import opened Orders
  import opened OutboxRelay
  import opened OutboxLeases

  ghost predicate Initial(s: State) {
    s.db == Orders.Db(map[], [], 1) && s.batches == map[] && s.history == [] && s.acked == {}
  }

  lemma InitialInv(s: State)
    requires Initial(s)
    ensures Inv(s)
  {
    hide EventOf;
    hide Trimmed;
  }

  /** Leases on one row never overlap: when a lease is taken, every earlier one on that row has run out by
      then or has been given back in between. */
  lemma LeasesNeverOverlap(start: State, events: seq<Event>, i: nat, j: nat)
    requires Initial(start)
    requires var h := Run(start, events).history; i < j < |h| && h[i].Leased? && h[j].Leased? && h[i].row == h[j].row
    ensures var h := Run(start, events).history;
            || h[i].until <= h[j].at
            || exists k :: i < k < j && h[k].Released? && h[k].row == h[i].row && h[k].worker == h[i].worker
  {
    InitialInv(start);
    hide Inv;
    RunKeepsInv(start, events);
    hide Run;
    Open(Run(start, events));
    hide Shown;
    hide OutboxMatches;
    var h := Run(start, events).history;
    assert h[i].until <= h[j].at || GivenBack(h, i, j);
  }

  // ---------------------------------------------------------------- published rows

  /** Rows keep their identity, the history only grows, and every new entry concerns a row that was pending. */
  ghost predicate Moves(s: State, s': State) {
    && RowsLater(s.db.outbox, s'.db.outbox)
    && |s.history| <= |s'.history| && s'.history[..|s.history|] == s.history
    && forall k :: |s.history| <= k < |s'.history| ==>
         s'.history[k].row < |s.db.outbox| && s.db.outbox[s'.history[k].row].status.Pending?
  }

  lemma SameMoves(s: State, s': State)
    requires s'.history == s.history && RowsLater(s.db.outbox, s'.db.outbox)
    ensures Moves(s, s')
  {
    hide RowsLater;
  }

  lemma ClaimMoves(s: State, b: nat, worker: string, now: int, lease: int, limit: int, locked: set<nat>)
    ensures Moves(s, DoClaim(s, b, worker, now, lease, limit, locked))
  {
    hide *;
    ClaimEffect(s, b, worker, now, lease, limit, locked);
    RowsLaterReflexive(s.db.outbox);
    var s' := DoClaim(s, b, worker, now, lease, limit, locked);
    if s' == s {
      SameMoves(s, s');
    } else {
      var rows := s.db.outbox;
      var ids, until, w := ClaimedIds(rows, now, limit, locked), TruncMs(TruncMs(now) + lease), TrimSpace(worker);
      ClaimedRows(rows, now, limit, locked, s.clock);
      LeaseLater(rows, ids, w, until, TruncMs(now));
      LeaseMoves(s, s', ids, w, until, TruncMs(now));
    }
  }

  lemma LeaseMoves(s: State, s': State, ids: seq<nat>, w: string, until: int, now: int)
    requires RowsLater(s.db.outbox, s'.db.outbox) && s'.history == s.history + Leases(ids, w, s.clock, until)
    requires forall k :: 0 <= k < |ids| ==> ids[k] < |s.db.outbox| && Due(s.db.outbox[ids[k]], now)
    ensures Moves(s, s')
  {
    hide RowsLater;
    forall k | |s.history| <= k < |s'.history|
      ensures s'.history[k].row < |s.db.outbox| && s.db.outbox[s'.history[k].row].status.Pending?
    {
      assert s'.history[k].row == ids[k - |s.history|];
    }
  }

  lemma AfterMarkMoves(s: State, b: nat, marked: (seq<Row>, bool))
    requires b in s.batches && s.batches[b].jobs != [] && RowsLater(s.db.outbox, marked.0)
    requires marked.1 ==> MayMark(s.db.outbox, s.batches[b].jobs[0].row, s.batches[b].worker)
    ensures Moves(s, AfterMark(s, b, marked))
  {
    hide RowsLater;
    hide TrimSpace;
    AfterMarkIs(s, b, marked);
    hide AfterMark;
    if !marked.1 {
      RowsLaterReflexive(s.db.outbox);
    }
  }

  lemma MarksMove(s: State, b: nat)
    ensures Moves(s, DoMarkSent(s, b)) && Moves(s, DoMarkRefused(s, b))
  {
    hide *;
    SentEffect(s, b);
    RefusedEffect(s, b);
    RowsLaterReflexive(s.db.outbox);
    SameMoves(s, s);
    if b in s.batches && s.batches[b].jobs != [] {
      var k, rows := s.batches[b], s.db.outbox;
      var id, next := k.jobs[0].row, RetryAt(s, b);
      MarkEffects(rows, id, k.worker, next);
      MarkLater(rows, id, k.worker, next);
      AfterMarkMoves(s, b, MarkPublished(rows, id, k.worker));
      AfterMarkMoves(s, b, MarkFailed(rows, id, k.worker, next));
    }
  }

  lemma ExecMoves(s: State, e: Event)
    ensures Moves(s, Exec(s, e))
  {
    hide Moves;
    hide RowsLater;
    hide DoClaim;
    hide DoMarkSent;
    hide DoMarkRefused;
    hide CreateIdempotent;
    hide RecordOf;
    RowsLaterReflexive(s.db.outbox);
    match e
    case Create(user, orderNo, inputs, createdAt) =>
      CreateAppends(s.db, user, orderNo, inputs, createdAt);
      SameMoves(s, Exec(s, e));
    case Claim(b, worker, now, lease, limit, locked) => ClaimMoves(s, b, worker, now, lease, limit, locked);
    case MarkSent(b) => MarksMove(s, b);
    case MarkRefused(b) => MarksMove(s, b);
    case _ => SameMoves(s, Exec(s, e));
  }

  ghost predicate Frozen(s: State, s': State, i: nat) {
    && i < |s.db.outbox| && i < |s'.db.outbox| && s'.db.outbox[i] == s.db.outbox[i]
    && |s.history| <= |s'.history|
    && forall k :: |s.history| <= k < |s'.history| ==> s'.history[k].row != i
  }

  lemma FrozenStep(s: State, s1: State, s2: State, i: nat)
    requires i < |s.db.outbox| && s.db.outbox[i].status.Published? && Moves(s, s1)
    requires i < |s1.db.outbox| && s1.db.outbox[i].status.Published? ==> Frozen(s1, s2, i)
    requires |s1.history| <= |s2.history| && s2.history[..|s1.history|] == s1.history
    ensures Frozen(s, s2, i)
  {
    assert RowLater(s.db.outbox[i], s1.db.outbox[i]);
    forall k | |s.history| <= k < |s2.history|
      ensures s2.history[k].row != i
    {
      if k < |s1.history| {
        assert s2.history[k] == s1.history[k];
      }
    }
  }

  lemma {:induction false} HistoryGrows(s: State, events: seq<Event>)
    ensures |s.history| <= |Run(s, events).history| && Run(s, events).history[..|s.history|] == s.history
    decreases |events|
  {
    hide Exec;
    if events != [] {
      ExecMoves(s, events[0]);
      var s1 := Exec(s, events[0]);
      HistoryGrows(s1, events[1..]);
      assert Run(s, events).history[..|s.history|] == Run(s, events).history[..|s1.history|][..|s.history|];
      hide RowsLater;
    }
  }

  /** A published row never changes again, and nobody leases it again. */
  lemma {:induction false} PublishedIsFinal(s: State, events: seq<Event>, i: nat)
    requires i < |s.db.outbox| && s.db.outbox[i].status.Published?
    ensures Frozen(s, Run(s, events), i)
    decreases |events|
  {
    hide Exec;
    if events != [] {
      var s1 := Exec(s, events[0]);
      ExecMoves(s, events[0]);
      HistoryGrows(s1, events[1..]);
      if i < |s1.db.outbox| && s1.db.outbox[i].status.Published? {
        PublishedIsFinal(s1, events[1..], i);
      }
      hide Frozen;
      hide Moves;
      FrozenStep(s, s1, Run(s1, events[1..]), i);
    }
  }

  // ---------------------------------------------------------------- lost leases

  ghost predicate Held(rows: seq<Row>, i: nat, worker: string) { i < |rows| && rows[i].claimedBy == Some(worker) }

  predicate ClaimsFor(e: Event, worker: string) { e.Claim? && TrimSpace(e.worker) == worker }

  lemma LeaseByOther(rows: seq<Row>, ids: seq<nat>, other: string, until: int, i: nat, worker: string)
    requires !Held(rows, i, worker) && other != worker
    ensures !Held(LeaseRows(rows, ids, other, until), i, worker)
  {
  }

  lemma MarkFrees(rows: seq<Row>, id: nat, marker: string, next: int, i: nat, worker: string)
    requires !Held(rows, i, worker)
    ensures !Held(MarkPublished(rows, id, marker).0, i, worker) && !Held(MarkFailed(rows, id, marker, next).0, i, worker)
  {
    hide TrimSpace;
  }

  lemma CreateUnheld(db: Orders.Db, user: nat, orderNo: string, inputs: seq<ItemInput>, createdAt: int, i: nat, worker: string)
    requires !Held(db.outbox, i, worker)
    ensures !Held(CreateIdempotent(db, user, orderNo, inputs, createdAt).0.outbox, i, worker)
  {
    hide TrimSpace;
    hide NormalizeItems;
    hide EventOf;
  }

  lemma ClaimUnheld(s: State, b: nat, other: string, now: int, lease: int, limit: int, locked: set<nat>, i: nat, worker: string)
    requires !Held(s.db.outbox, i, worker) && TrimSpace(other) != worker
    ensures !Held(DoClaim(s, b, other, now, lease, limit, locked).db.outbox, i, worker)
  {
    hide *;
    ClaimEffect(s, b, other, now, lease, limit, locked);
    if DoClaim(s, b, other, now, lease, limit, locked) != s {
      LeaseByOther(s.db.outbox, ClaimedIds(s.db.outbox, now, limit, locked), TrimSpace(other), TruncMs(TruncMs(now) + lease), i, worker);
    }
  }

  lemma MarksUnheld(s: State, b: nat, i: nat, worker: string)
    requires !Held(s.db.outbox, i, worker)
    ensures !Held(DoMarkSent(s, b).db.outbox, i, worker) && !Held(DoMarkRefused(s, b).db.outbox, i, worker)
  {
    hide *;
    SentEffect(s, b);
    RefusedEffect(s, b);
    if b in s.batches && s.batches[b].jobs != [] {
      var k, rows := s.batches[b], s.db.outbox;
      var id, next := k.jobs[0].row, RetryAt(s, b);
      MarkFrees(rows, id, k.worker, next, i, worker);
      AfterMarkIs(s, b, MarkPublished(rows, id, k.worker));
      AfterMarkIs(s, b, MarkFailed(rows, id, k.worker, next));
    }
  }

  lemma ExecUnheld(s: State, e: Event, i: nat, worker: string)
    requires !Held(s.db.outbox, i, worker) && !ClaimsFor(e, worker)
    ensures !Held(Exec(s, e).db.outbox, i, worker)
  {
    hide Held;
    hide TrimSpace;
    hide DoClaim;
    hide DoMarkSent;
    hide DoMarkRefused;
    hide CreateIdempotent;
    match e
    case Create(user, orderNo, inputs, createdAt) => CreateUnheld(s.db, user, orderNo, inputs, createdAt, i, worker);
    case Claim(b, other, now, lease, limit, locked) => ClaimUnheld(s, b, other, now, lease, limit, locked, i, worker);
    case MarkSent(b) => MarksUnheld(s, b, i, worker);
    case MarkRefused(b) => MarksUnheld(s, b, i, worker);
    case _ =>
  }

  lemma {:induction false} RunUnheld(s: State, events: seq<Event>, i: nat, worker: string)
    requires !Held(s.db.outbox, i, worker) && forall e :: e in events ==> !ClaimsFor(e, worker)
    ensures !Held(Run(s, events).db.outbox, i, worker)
    decreases |events|
  {
    hide Held;
    hide Exec;
    hide ClaimsFor;
    if events != [] {
      ExecUnheld(s, events[0], i, worker);
      assert forall e :: e in events[1..] ==> e in events;
      RunUnheld(Exec(s, events[0]), events[1..], i, worker);
    }
  }

  /** A worker that does not hold a row, because another has retaken it or it was given back, cannot change it
      until it leases it anew: both marks leave the table as it is and report a lost lease. */
  lemma LostLeaseIsPowerless(s: State, events: seq<Event>, i: nat, worker: string, next: int)
    requires i < |s.db.outbox| && s.db.outbox[i].claimedBy != Some(TrimSpace(worker))
    requires forall e :: e in events ==> !ClaimsFor(e, TrimSpace(worker))
    ensures var rows := Run(s, events).db.outbox;
            MarkPublished(rows, i, worker) == (rows, false) && MarkFailed(rows, i, worker, next) == (rows, false)
  {
    hide TrimSpace;
    RunUnheld(s, events, i, TrimSpace(worker));
    hide Run;
    hide ClaimsFor;
  }
}
