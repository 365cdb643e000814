/** No committed order is stuck on the way to its notification: from every reachable state a due outbox row can be
    carried through in six undisturbed steps. */
module DeliveryProgress {
  import opened Text
  import opened OrderEvents
  import opened Messages
  import Orders
  import Notifications
  import OutboxRelay
  import OutboxLeases
  import OutboxTheorems
  import RelayPass
  import Consumers
  import opened Delivery

  const RELAY: string := "r1"

  lemma RelayTrimmed()
    ensures TrimSpace(RELAY) == RELAY
  {
    Trims(RELAY);
  }

  // ---------------------------------------------------------------- the relay's steps

  /** Every row but one, as if another relay were at work on it. */
  function AllBut(n: nat, i: nat): (r: set<nat>)
    ensures forall k: nat :: k in r <==> k < n && k != i
  {
    if n == 0 then {} else AllBut(n - 1, i) + (if n - 1 == i then {} else {n - 1})
  }

  lemma ClaimsOne(rows: seq<Orders.Row>, now: int, i: nat)
    requires i < |rows| && OutboxRelay.Due(rows[i], Orders.TruncMs(now))
    ensures OutboxRelay.ClaimedIds(rows, now, 1, AllBut(|rows|, i)) == [i]
  {
    OutboxRelay.SelectExactly(rows, Orders.TruncMs(now), 1, AllBut(|rows|, i), |rows|);
    var ids := OutboxRelay.ClaimedIds(rows, now, 1, AllBut(|rows|, i));
    hide OutboxRelay.Select;
    hide OutboxRelay.Due;
    hide Orders.TruncMs;
    if ids != [] {
      assert ids[0] !in AllBut(|rows|, i);
    }
  }

  function ClaimEvent(s: OutboxRelay.State, b: nat, i: nat): (e: OutboxRelay.Event) {
    OutboxRelay.Claim(b, RELAY, s.clock, 1, 1, AllBut(|s.db.outbox|, i))
  }

  /** The state before the claim: the row is due, the batch number free, the clock set. */
  ghost predicate CanClaim(s: OutboxRelay.State, b: nat, i: nat) {
    && b !in s.batches && s.clock != OutboxRelay.ZERO_NANOS && i < |s.db.outbox|
    && OutboxRelay.Due(s.db.outbox[i], Orders.TruncMs(s.clock))
  }

  function JobOf(r: Orders.Row, i: nat): (j: OutboxRelay.Job) { OutboxRelay.Job(i, r.orderNo, r.payload, r.attempts) }

  lemma ClaimStage(s: OutboxRelay.State, b: nat, i: nat)
    requires CanClaim(s, b, i)
    ensures var s' := OutboxRelay.Exec(s, ClaimEvent(s, b, i));
            && RelayPass.Holding(s', b, RELAY, s.clock, [JobOf(s.db.outbox[i], i)], OutboxRelay.ToSend)
            && OutboxRelay.MayMark(s'.db.outbox, i, RELAY) && |s'.db.outbox| == |s.db.outbox|
            && s'.db.outbox[i].attempts == s.db.outbox[i].attempts && s'.db.orders == s.db.orders
  {
    RelayTrimmed();
    var rows := s.db.outbox;
    ClaimsOne(rows, s.clock, i);
    RelayPass.ClaimStarts(s, b, RELAY, s.clock, 1, 1, AllBut(|rows|, i));
    assert OutboxRelay.Jobs(rows, [i]) == [JobOf(rows[i], i)];
    hide OutboxRelay.ClaimedIds;
    hide TrimSpace;
    hide OutboxRelay.Jobs;
    hide RelayPass.Holding;
    assert i in [i];
  }

  lemma PublishStage(s: OutboxRelay.State, b: nat, now: int, j: OutboxRelay.Job)
    requires RelayPass.Holding(s, b, RELAY, now, [j], OutboxRelay.ToSend)
    ensures var s' := OutboxRelay.DoPublish(s, b, OutboxRelay.Delivered);
            && OutboxRelay.CanPublish(s, b) && s.batches[b].jobs == [j]
            && RelayPass.Holding(s', b, RELAY, now, [j], OutboxRelay.Acked) && s'.db == s.db && s'.clock == s.clock && s'.history == s.history
  {
    hide OutboxRelay.RecordOf;
  }

  lemma MarkStage(s: OutboxRelay.State, b: nat, now: int, j: OutboxRelay.Job)
    requires RelayPass.Holding(s, b, RELAY, now, [j], OutboxRelay.Acked) && OutboxRelay.MayMark(s.db.outbox, j.row, RELAY) && RelayPass.JobFits(s, j)
    ensures var s' := OutboxRelay.Exec(s, OutboxRelay.MarkSent(b)); j.row < |s'.db.outbox| && s'.db.outbox[j.row].status.Published?
  {
    RelayTrimmed();
    RelayPass.MarkSettles(s, b, RELAY, now, [j], OutboxRelay.Delivered, 0);
    hide OutboxRelay.Exec;
    hide TrimSpace;
  }

  // ---------------------------------------------------------------- the consumer's steps

  function BusSteps(sid: nat, p: Consumers.Part): (es: seq<Consumers.Event>) {
    [Consumers.Join(sid, p), Consumers.Handle(sid, Consumers.NoFault), Consumers.Commit(sid, true)]
  }

  lemma BusStage(bus: Consumers.State, sid: nat, p: Consumers.Part, r: Record)
    requires sid !in bus.sessions && !p.topic.Dlq? && Consumers.LogOf(bus, p) == [r] && Consumers.CommittedOf(bus, p) == 0 && !Poison(r)
    ensures Decode(r.value).Accepted?
    ensures var bus' := Consumers.Exec(Consumers.Exec(Consumers.Exec(bus, BusSteps(sid, p)[0]), BusSteps(sid, p)[1]), BusSteps(sid, p)[2]);
            && bus'.notif == Notifications.Consume(bus.notif, Decode(r.value).event).0 && Consumers.CommittedOf(bus', p) == 1
            && Decode(r.value).event.eventId in bus'.notif.ledger
  {
    PoisonIs(r);
    hide Poison;
    hide Validate;
    var e := Decode(r.value).event;
    var b1 := Consumers.Exec(bus, BusSteps(sid, p)[0]);
    assert b1.sessions[sid] == Consumers.Session(p, 0, Consumers.Ready) && Consumers.LogOf(b1, p) == [r];
    var b2 := Consumers.Exec(b1, BusSteps(sid, p)[1]);
    assert b2.sessions[sid] == Consumers.Session(p, 0, Consumers.Settled) && b2.notif == Notifications.Consume(bus.notif, e).0;
    assert e.eventId in Notifications.Consume(bus.notif, e).0.ledger;
  }

  /** A partition nobody has written to has no committed offset. */
  lemma EmptyPartition(bus: Consumers.State, p: Consumers.Part)
    requires Consumers.Inv(bus) && Consumers.LogOf(bus, p) == []
    ensures Consumers.CommittedOf(bus, p) == 0
  {
    if Consumers.CommittedOf(bus, p) > 0 {
      Consumers.DoneAtCommitted(bus, p, 0);
    }
    hide Consumers.Inv;
  }

  lemma RecordIsGood(db: Orders.Db, i: nat)
    requires Orders.OutboxMatches(db) && i < |db.outbox|
    ensures var r := OutboxRelay.RecordOf(JobOf(db.outbox[i], i));
            && !Poison(r) && Decode(r.value) == Accepted(db.outbox[i].payload) && db.outbox[i].payload.eventId == StableEventId(db.outbox[i].orderNo)
  {
    var o := db.outbox[i].orderNo;
    assert o in db.orders && Orders.RowOf(db.outbox[i], db.orders[o]) && db.orders[o].orderNo == o by {
      hide Orders.RowOf; hide Orders.HasRow; hide Orders.RowsDistinct; hide Orders.EventOf; hide Trimmed;
    }
    var order := db.orders[o];
    hide Orders.OutboxMatches;
    BuiltEventDecodes(order.orderNo, order.user, order.total, order.createdAt / 1_000_000, SourceOf(order.orderNo));
    assert AttemptOf(NO_HEADERS) == Attempt(0, true);
    hide TrimSpace;
    hide Validate;
    hide SourceOf;
    hide AttemptOf;
  }

  // ---------------------------------------------------------------- all six

  function Path(w: World, b: nat, sid: nat, i: nat, index: nat): (events: seq<Event>) {
    var p := Consumers.Part(Main, index);
    [RelayStep(ClaimEvent(w.relay, b, i)), PublishStep(b, OutboxRelay.Delivered, index), RelayStep(OutboxRelay.MarkSent(b)),
     BusStep(BusSteps(sid, p)[0]), BusStep(BusSteps(sid, p)[1]), BusStep(BusSteps(sid, p)[2])]
  }

  lemma {:induction false} RunLast(w: World, events: seq<Event>, e: Event)
    ensures Run(w, events + [e]) == Exec(Run(w, events), e)
    decreases |events|
  {
    hide Exec;
    if events == [] {
      assert events + [e] == [e] && [e][1..] == [];
      assert Run(w, [e]) == Run(Exec(w, e), []);
    } else {
      assert (events + [e])[1..] == events[1..] + [e];
      RunLast(Exec(w, events[0]), events[1..], e);
    }
  }

  lemma RunSix(w: World, a: Event, b: Event, c: Event, d: Event, e: Event, f: Event)
    ensures Run(w, [a, b, c, d, e, f]) == Exec(Exec(Exec(Exec(Exec(Exec(w, a), b), c), d), e), f)
  {
    hide Exec;
    assert Run(w, []) == w;
    RunLast(w, [], a);
    RunLast(w, [a], b);
    RunLast(w, [a, b], c);
    RunLast(w, [a, b, c], d);
    RunLast(w, [a, b, c, d], e);
    RunLast(w, [a, b, c, d, e], f);
    hide Run;
    assert [] + [a] == [a] && [a] + [b] == [a, b] && [a, b] + [c] == [a, b, c] && [a, b, c] + [d] == [a, b, c, d];
    assert [a, b, c, d] + [e] == [a, b, c, d, e] && [a, b, c, d, e] + [f] == [a, b, c, d, e, f];
  }

  lemma RelaySteps(w: World, e: OutboxRelay.Event)
    requires !e.Publish?
    ensures Exec(w, RelayStep(e)) == w.(relay := OutboxRelay.Exec(w.relay, e))
  {
    hide OutboxRelay.Exec;
  }

  lemma PublishSteps(w: World, b: nat, index: nat, j: OutboxRelay.Job)
    requires OutboxRelay.CanPublish(w.relay, b) && w.relay.batches[b].jobs == [j]
    ensures Exec(w, PublishStep(b, OutboxRelay.Delivered, index)) ==
            World(OutboxRelay.DoPublish(w.relay, b, OutboxRelay.Delivered), Consumers.DoAppend(w.bus, Consumers.Part(Main, index), OutboxRelay.RecordOf(j)))
  {
    hide OutboxRelay.DoPublish;
    hide Consumers.DoAppend;
    hide OutboxRelay.RecordOf;
  }

  /** A publish, outcome by outcome: the record reaches the topic unless it was not delivered, but the relay believes so
      only with an acknowledgement. A lost answer thus puts the row off although its record is there, and the
      next publish sends it again. */
  lemma PublishExactly(w: World, b: nat, outcome: OutboxRelay.Ack, index: nat)
    requires OutboxRelay.CanPublish(w.relay, b)
    ensures var w', p := Exec(w, PublishStep(b, outcome, index)), Consumers.Part(Main, index);
            var r := OutboxRelay.RecordOf(w.relay.batches[b].jobs[0]);
            && Consumers.LogOf(w'.bus, p) == Consumers.LogOf(w.bus, p) + (if outcome.NotDelivered? then [] else [r])
            && b in w'.relay.batches && w'.relay.batches[b].jobs == w.relay.batches[b].jobs
            && w'.relay.batches[b].phase == (if outcome.Delivered? then OutboxRelay.Acked else OutboxRelay.Refused)
            && w'.relay.acked == w.relay.acked + (if outcome.Delivered? then {r} else {})
            && w'.relay.db == w.relay.db
  {
    hide OutboxRelay.RecordOf;
  }

  lemma Appended(bus: Consumers.State, p: Consumers.Part, r: Record)
    requires Consumers.LogOf(bus, p) == []
    ensures var bus' := Consumers.DoAppend(bus, p, r);
            Consumers.LogOf(bus', p) == [r] && bus'.sessions == bus.sessions && Consumers.CommittedOf(bus', p) == Consumers.CommittedOf(bus, p) && bus'.notif == bus.notif
  {
  }

  /** From every state of any run, the event of a committed order whose outbox row is due can reach its notification in
      six steps: claimed, published on a fresh partition, marked, fetched, handled and committed. Afterwards the
      row is published and the event is in the ledger. */
  lemma DueRowCanBeNotified(start: World, before: seq<Event>, w: World, i: nat, b: nat, sid: nat, index: nat)
    requires Initial(start) && w == Run(start, before) && CanClaim(w.relay, b, i)
    requires sid !in w.bus.sessions && Consumers.LogOf(w.bus, Consumers.Part(Main, index)) == []
    ensures var w' := Run(w, Path(w, b, sid, i, index));
            && i < |w'.relay.db.outbox| && w'.relay.db.outbox[i].status.Published?
            && StableEventId(w.relay.db.outbox[i].orderNo) in w'.bus.notif.ledger
            && Consumers.CommittedOf(w'.bus, Consumers.Part(Main, index)) == 1
  {
    hide *;
    ReachedInv(start, before);
    Parts(w);
    OutboxLeases.Open(w.relay);
    RowThere(w.relay, b, i);
    var p, s, j := Consumers.Part(Main, index), w.relay, JobOf(w.relay.db.outbox[i], i);
    var r := OutboxRelay.RecordOf(j);
    PathIs(w, b, sid, i, index);
    var e1, e2, e3, steps := ClaimEvent(s, b, i), PublishStep(b, OutboxRelay.Delivered, index), OutboxRelay.MarkSent(b), BusSteps(sid, p);
    StepsAre(sid, p);
    EventKinds(s, b, i);
    RunSix(w, RelayStep(e1), e2, RelayStep(e3), BusStep(steps[0]), BusStep(steps[1]), BusStep(steps[2]));
    RelaySteps(w, e1);
    ClaimStage(s, b, i);
    var w1 := Exec(w, RelayStep(e1));
    PublishStage(w1.relay, b, s.clock, j);
    PublishSteps(w1, b, index, j);
    Appended(w.bus, p, r);
    EmptyPartition(w.bus, p);
    var w2 := Exec(w1, e2);
    RelaySteps(w2, e3);
    JobIs(s, w2.relay, i);
    MarkStage(w2.relay, b, s.clock, j);
    var w3 := Exec(w2, RelayStep(e3));
    RecordIsGood(w.relay.db, i);
    BusStage(w2.bus, sid, p, r);
    BusRuns(w3, steps[0]);
    var w4 := Exec(w3, BusStep(steps[0]));
    BusRuns(w4, steps[1]);
    BusRuns(Exec(w4, BusStep(steps[1])), steps[2]);
  }

  lemma RowThere(s: OutboxRelay.State, b: nat, i: nat)
    requires CanClaim(s, b, i)
    ensures i < |s.db.outbox|
  {
  }

  lemma PathIs(w: World, b: nat, sid: nat, i: nat, index: nat)
    ensures var p := Consumers.Part(Main, index);
            && |BusSteps(sid, p)| == 3
            && Path(w, b, sid, i, index) == [RelayStep(ClaimEvent(w.relay, b, i)), PublishStep(b, OutboxRelay.Delivered, index), RelayStep(OutboxRelay.MarkSent(b)),
              BusStep(BusSteps(sid, p)[0]), BusStep(BusSteps(sid, p)[1]), BusStep(BusSteps(sid, p)[2])]
  {
    hide ClaimEvent;
  }

  lemma StepsAre(sid: nat, p: Consumers.Part)
    ensures |BusSteps(sid, p)| == 3
  {
  }

  lemma EventKinds(s: OutboxRelay.State, b: nat, i: nat)
    ensures !ClaimEvent(s, b, i).Publish?
  {
  }

  lemma JobIs(s: OutboxRelay.State, s': OutboxRelay.State, i: nat)
    requires i < |s.db.outbox| && |s'.db.outbox| == |s.db.outbox| && s'.db.outbox[i].attempts == s.db.outbox[i].attempts
    ensures JobOf(s.db.outbox[i], i).row == i && RelayPass.JobFits(s', JobOf(s.db.outbox[i], i))
  {
  }

  lemma BusRuns(w: World, e: Consumers.Event)
    ensures Exec(w, BusStep(e)) == w.(bus := Consumers.Exec(w.bus, e))
  {
    hide Consumers.Exec;
  }
}
