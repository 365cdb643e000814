/** How a message still in a stream ends when one worker processes it undisturbed, from every reachable state,
    whatever crashed or was repeated before: in ten actions as a committed order exactly when the inventory has a
    unit for it, otherwise in eight actions in the DLQ. In timely runs it always has one. */
module PipelineProgress {
  import opened Text
  import opened OrderNumbers
  import opened StreamMessages
  import opened RedisSlot
  import OrderEvents
  import Inventory
  import Orders
  import opened Pipeline
  import opened PipelineInvariant
  import opened PipelineSteps
  import opened PipelineServices
  import opened PipelineRuns
  import opened PipelineTimed
  import opened PipelineTheorems

  lemma {:induction false} RunLast(w: World, events: seq<Event>, e: Event)
    ensures Run(w, events + [e]) == Exec(Run(w, events), e)
    decreases |events|
  {
    hide Exec;
    if events == [] {
      assert events + [e] == [e];
      assert [e][1..] == [];
      assert Run(w, [e]) == Run(Exec(w, e), []);
    } else {
      assert (events + [e])[1..] == events[1..] + [e];
      RunLast(Exec(w, events[0]), events[1..], e);
    }
  }

  // ---------------------------------------------------------------- fetching

  lemma FetchStage(w: World, worker: nat, item: nat, id: nat, o: string)
    requires CoreInv(w) && worker !in w.workers && item in w.slots && id in w.slots[item].stream
    requires o in w.admitted && w.slots[item].stream[id] == Encode(w.admitted[o]) && w.admitted[o].item == item && 0 < w.admitted[o].reservedAt
    ensures Exec(w, Fetch(worker, item, id)) == w.(workers := w.workers[worker := Reserving(item, id, w.admitted[o])])
  {
    hide *;
    FetchIs(w, worker, item, id);
    Open(w);
    FetchEffect(w, worker, item, id);
    FetchedIs(item, id, w.admitted[o], w.admitted, w.sales, w.clock, o);
  }

  lemma FetchIs(w: World, worker: nat, item: nat, id: nat)
    ensures Exec(w, Fetch(worker, item, id)) == DoFetch(w, worker, item, id)
  {
    hide DoFetch;
  }

  lemma FetchedIs(item: nat, id: nat, t: Task, a: Admissions, sales: map<nat, Sale>, clock: int, o: string)
    requires AdmissionsOk(a, sales, clock) && o in a && t == a[o] && t.item == item && 0 < t.reservedAt
    ensures FetchedBy(item, id, Encode(t)) == Reserving(item, id, t)
  {
    assert AdmissionOk(o, t, sales, clock);
    DecodeEncode(t, IdText(id));
    hide Decode;
    hide Encode;
    hide Admissible;
    hide StreamOrderItemId;
    hide OrderEvents.SourceOf;
  }

  // ---------------------------------------------------------------- reserving

  function Statement(call: nat): (e: Event) { InventoryStatement(call, Inventory.NoFault) }

  lemma CallStage(w: World, worker: nat, call: nat, k: Worker)
    requires worker in w.workers && w.workers[worker] == k && k.Reserving? && call !in w.inv.calls
    ensures var w' := Exec(w, CallInventory(worker, call));
            w' == w.(inv := w.inv.(calls := w.inv.calls[call := Inventory.Call(InputOf(k.task), Inventory.Lookup)]))
  {
  }

  lemma FourStatements(w: World, call: nat)
    ensures var e := Statement(call); var a := Inventory.AdvanceCall(call, Inventory.NoFault);
            Exec(Exec(Exec(Exec(w, e), e), e), e) == w.(inv := Inventory.Run(w.inv, [a, a, a, a]))
  {
    var a := Inventory.AdvanceCall(call, Inventory.NoFault);
    Inventory.RunFour(w.inv, a);
    hide Inventory.Run;
    hide Inventory.Advance;
  }

  lemma AnswerStays(s: Inventory.Service, call: nat, a: Inventory.Event)
    requires a == Inventory.AdvanceCall(call, Inventory.NoFault) && call in s.calls
    ensures var s' := Inventory.Run(s, [a, a, a, a]); call in s'.calls && s'.calls[call].input == s.calls[call].input
  {
    Inventory.RunFour(s, a);
    hide Inventory.Run;
    InputStays(s, call);
    var s1 := Inventory.Exec(s, a);
    InputStays(s1, call);
    var s2 := Inventory.Exec(s1, a);
    InputStays(s2, call);
    InputStays(Inventory.Exec(s2, a), call);
    hide Inventory.Advance;
  }

  lemma InputStays(s: Inventory.Service, call: nat)
    requires call in s.calls
    ensures var s' := Inventory.Advance(s, call, Inventory.NoFault); call in s'.calls && s'.calls[call].input == s.calls[call].input
  {
    hide Inventory.NextDb;
    hide Inventory.NextPhase;
  }

  /** The inventory has a unit for a request: one is left, or the request or its user already holds one. */
  predicate HasUnit(db: Inventory.Db, i: Inventory.Input) {
    || i.orderNo in db.reservations || Inventory.KeyOfInput(i) in db.byUser
    || (i.item in db.items && db.items[i.item].available > 0)
  }

  /** Left alone, a call for a known item with no conflicting reservation is granted exactly when there is a unit. */
  lemma AloneGrantsExactly(db: Inventory.Db, i: Inventory.Input)
    requires Inventory.DbInv(db) && i.item in db.items && db.items[i.item].activity == i.activity
    requires i.orderNo in db.reservations ==> Inventory.ReplayOrder(db.reservations[i.orderNo], i).Granted?
    ensures var a := Inventory.ReserveSeckillStock(db, i).1;
            if HasUnit(db, i) then a.Granted? else a == Inventory.Refused(Inventory.OutOfStock)
  {
    hide Inventory.Conserved;
    hide Inventory.Genuine;
    hide Inventory.ReplayOrder;
    hide Inventory.Insert;
  }

  lemma AnswerOf(w: World, call: nat)
    requires CoreInv(w) && call in w.inv.calls
    ensures var i := w.inv.calls[call].input; var a := Inventory.ReserveSeckillStock(w.inv.db, i).1;
            if HasUnit(w.inv.db, i) then a.Granted? else a == Inventory.Refused(Inventory.OutOfStock)
  {
    hide *;
    Open(w);
    Inventory.ServiceInvDb(w.inv);
    CallInput(w.inv.calls, call, w.admitted);
    var i := w.inv.calls[call].input;
    UnknownCallOk(w.inv.calls[call], w.admitted);
    ItemKnown(i.orderNo, w);
    if i.orderNo in w.inv.db.reservations {
      ReplayGrants(w.inv.db.reservations, w.admitted, i);
    }
    AloneGrantsExactly(w.inv.db, i);
  }

  lemma StatementStage(w: World, call: nat)
    requires CoreInv(w) && call in w.inv.calls && w.inv.calls[call].phase.Lookup?
    ensures var e := Statement(call); var w' := Exec(Exec(Exec(Exec(w, e), e), e), e);
            && CoreInv(w') && w' == w.(inv := w'.inv) && call in w'.inv.calls && w'.inv.calls[call].input == w.inv.calls[call].input
            && w'.inv.calls[call].phase == Inventory.Answered(Inventory.ReserveSeckillStock(w.inv.db, w.inv.calls[call].input).1)
            && w'.inv.db == Inventory.ReserveSeckillStock(w.inv.db, w.inv.calls[call].input).0
  {
    hide *;
    var e := Statement(call);
    var a := Inventory.AdvanceCall(call, Inventory.NoFault);
    var w1 := Exec(w, e);
    var w2 := Exec(w1, e);
    var w3 := Exec(w2, e);
    ExecKeepsCore(w, e);
    ExecKeepsCore(w1, e);
    ExecKeepsCore(w2, e);
    ExecKeepsCore(w3, e);
    FourStatements(w, call);
    Open(w);
    Inventory.CallAlone(w.inv, call);
    AnswerStays(w.inv, call, a);
  }

  lemma StatementIs(call: nat)
    ensures !Statement(call).PublishItem?
  {
  }

  // ---------------------------------------------------------------- ordering

  lemma ReceiveStage(w: World, worker: nat, call: nat, k: Worker)
    requires worker in w.workers && w.workers[worker] == k && k.Reserving? && call in w.inv.calls
    requires w.inv.calls[call].input == InputOf(k.task) && w.inv.calls[call].phase.Answered? && w.inv.calls[call].phase.answer.Granted?
    ensures Exec(w, ReceiveReservation(worker, call)) ==
            w.(workers := w.workers[worker := Ordering(k.item, k.id, k.task, w.inv.calls[call].phase.answer.reservation.snapshot)])
  {
  }

  lemma SendStage(w: World, worker: nat, k: Worker)
    requires worker in w.workers && w.workers[worker] == k && k.Ordering?
    ensures Exec(w, SendOrder(worker)) == w.(requests := w.requests + {OrderRequest(k.task, k.snapshot)})
  {
  }

  lemma ValidEvent(order: Orders.Order)
    requires 0 < order.user && 0 <= order.total && 0 < order.createdAt / 1_000_000
    requires order.orderNo != "" && TrimSpace(order.orderNo) == order.orderNo
    ensures Orders.EventOf(order).Some?
  {
    var o := order.orderNo;
    assert OrderEvents.StableEventId(o) == OrderEvents.EVENT_PREFIX + o;
    EventIdNotBlank(o);
    hide TrimSpace;
  }

  lemma EventIdNotBlank(o: string)
    requires o != "" && TrimSpace(o) == o
    ensures TrimSpace(OrderEvents.StableEventId(o)) != ""
  {
    var e := OrderEvents.StableEventId(o);
    Trims(o);
    assert Trimmed(o);
    assert e[0] == 'o' && e[|e| - 1] == o[|o| - 1];
    assert Trimmed(e);
    Trims(e);
  }

  /** With a clock after 1970 the order service accepts the request, first or repeated. */
  lemma RequestSucceeds(w: World, q: OrderRequest, createdAt: int)
    requires CoreInv(w) && q in w.requests && 0 < createdAt / 1_000_000
    ensures var outcome := CreateSeckill(w.ord, q.task, q.snapshot, createdAt).1; outcome.Created? || outcome.Replayed?
  {
    hide *;
    RequestNeverConflicts(w, q, createdAt);
    if q.task.orderNo !in w.ord.orders {
      Open(w);
      RequestFacts(w, q);
      RequestIsNormal(q, w);
      var s := w.sales[q.task.item].snapshot;
      SaleFacts(q.task.item, w.sales[q.task.item]);
      OneItemIsNormal(q.task.user, q.task.orderNo, s);
      FreshIsCreated(w.ord, q.task.user, q.task.orderNo, s, createdAt);
    }
  }

  lemma SaleFacts(item: nat, sale: Sale)
    requires ValidSale(item, sale)
    ensures var s := sale.snapshot;
            && s.sku != 0 && 0 <= s.price
            && TrimSpace(s.productName) != "" && TrimSpace(s.skuCode) != "" && TrimSpace(s.skuName) != ""
  {
    hide TrimSpace;
  }

  lemma FreshIsCreated(db: Orders.Db, user: nat, o: string, s: Inventory.Snapshot, createdAt: int)
    requires o !in db.orders && TrimSpace(o) == o && o != "" && 0 < user && 0 <= s.price && 0 < createdAt / 1_000_000
    requires Orders.NormalizeItems(user, o, [OrderInput(s)]).Normal?
    ensures Orders.CreateIdempotent(db, user, o, [OrderInput(s)], createdAt).1.Created?
  {
    var n := Orders.NormalizeItems(user, o, [OrderInput(s)]);
    OneLine(user, o, s, n.items, n.total);
    ValidEvent(Orders.Order(db.nextId, o, user, n.total, n.items, createdAt));
    hide TrimSpace;
    hide Orders.NormalizeItems;
    hide Orders.EventOf;
    hide Orders.Insert;
    hide LineOf;
  }

  lemma ExecuteStage(w: World, worker: nat, k: Worker, createdAt: int)
    requires CoreInv(w) && worker in w.workers && w.workers[worker] == k && k.Ordering? && 0 < createdAt / 1_000_000
    requires OrderRequest(k.task, k.snapshot) in w.requests
    ensures var w' := Exec(w, ExecuteOrder(OrderRequest(k.task, k.snapshot), createdAt, Some(worker)));
            && w' == w.(ord := w'.ord, workers := w.workers[worker := Completing(k.item, k.id, k.task)])
            && k.task.orderNo in w'.ord.orders
  {
    var q := OrderRequest(k.task, k.snapshot);
    hide *;
    ExecuteIs(w, q, createdAt, Some(worker));
    AwaitsIt(w, worker, k);
    RequestSucceeds(w, q, createdAt);
    ExecuteEffect(w, q, createdAt, Some(worker));
    ExecuteKeepsStore(w, q, createdAt);
    CompletesIt(k, CreateSeckill(w.ord, q.task, q.snapshot, createdAt).1);
  }

  lemma ExecuteIs(w: World, q: OrderRequest, createdAt: int, answerTo: Option<nat>)
    ensures Exec(w, ExecuteOrder(q, createdAt, answerTo)) == DoExecuteOrder(w, q, createdAt, answerTo)
  {
    hide DoExecuteOrder;
  }

  lemma AwaitsIt(w: World, worker: nat, k: Worker)
    requires worker in w.workers && w.workers[worker] == k && k.Ordering?
    ensures Awaits(w.workers, Some(worker), OrderRequest(k.task, k.snapshot))
  {
  }

  lemma CompletesIt(k: Worker, o: Orders.Outcome)
    requires k.Ordering? && (o.Created? || o.Replayed?)
    ensures AfterOrder(k, o) == Completing(k.item, k.id, k.task)
  {
  }

  lemma ReportStage(w: World, worker: nat, k: Worker)
    requires worker in w.workers && w.workers[worker] == k && k.Completing? && k.item in w.slots
    ensures Exec(w, ReportSuccess(worker)) ==
            w.(slots := w.slots[k.item := Complete(w.slots[k.item], k.id)], workers := w.workers - {worker})
  {
    hide Complete;
  }

  // ---------------------------------------------------------------- refusing

  lemma RefusedStage(w: World, worker: nat, call: nat, k: Worker)
    requires worker in w.workers && w.workers[worker] == k && k.Reserving? && call in w.inv.calls
    requires w.inv.calls[call].input == InputOf(k.task) && w.inv.calls[call].phase == Inventory.Answered(Inventory.Refused(Inventory.OutOfStock))
    ensures Exec(w, ReceiveReservation(worker, call)) ==
            w.(workers := w.workers[worker := Failing(k.item, k.id, k.task.orderNo, k.task.user, "rpc_request_rejected", true)])
  {
  }

  lemma GiveUpStage(w: World, worker: nat, k: Worker, failedAt: int)
    requires worker in w.workers && w.workers[worker] == k && k.Failing? && k.item in w.slots
    ensures Exec(w, ReportFailure(worker, failedAt)) ==
            w.(slots := w.slots[k.item := Fail(w.slots[k.item], k.id, k.orderNo, k.user, k.code, k.terminal, w.maxDeliveries, failedAt)],
               workers := w.workers - {worker})
  {
    hide Fail;
  }

  // ---------------------------------------------------------------- all the way

  /** The inventory as one clean call for the request leaves it. */
  ghost predicate CalledOnce(w: World, w': World, o: string) {
    o in w.admitted && w'.inv.db == Inventory.ReserveSeckillStock(w.inv.db, InputOf(w.admitted[o])).0
  }

  /** The order is committed, the message gone from the stream, and the DLQ as it was. */
  ghost predicate Completed(w: World, w': World, item: nat, id: nat, o: string) {
    o in w'.ord.orders && item in w.slots && item in w'.slots && w'.slots[item] == Complete(w.slots[item], id) && CalledOnce(w, w', o)
  }

  /** The message is gone from the stream into the DLQ, with one failure more than had been counted. */
  ghost predicate GivenUp(w: World, w': World, item: nat, id: nat, o: string) {
    && item in w.slots && item in w'.slots && id !in w'.slots[item].stream && w'.ord == w.ord && CalledOnce(w, w', o)
    && |w'.slots[item].dlq| == |w.slots[item].dlq| + 1
    && w'.slots[item].dlq[|w.slots[item].dlq|].orderNo == o
    && w'.slots[item].dlq[|w.slots[item].dlq|].attempts == Attempts(w.slots[item], id)
  }

  ghost predicate Asked(w: World, w': World, item: nat, id: nat, t: Task, worker: nat, call: nat) {
    && CoreInv(w') && w'.slots == w.slots && w'.admitted == w.admitted && w'.ord == w.ord && item in w'.slots
    && worker in w'.workers && w'.workers[worker] == Reserving(item, id, t)
    && call in w'.inv.calls && w'.inv.calls[call].input == InputOf(t) && w'.inv.calls[call].phase.Answered?
    && (if HasUnit(w.inv.db, InputOf(t)) then w'.inv.calls[call].phase.answer.Granted?
        else w'.inv.calls[call].phase.answer == Inventory.Refused(Inventory.OutOfStock))
    && w'.inv.db == Inventory.ReserveSeckillStock(w.inv.db, InputOf(t)).0
  }

  lemma AskedIs(w: World, w': World, item: nat, id: nat, t: Task, worker: nat, call: nat)
    requires CoreInv(w') && w'.slots == w.slots && w'.admitted == w.admitted && w'.ord == w.ord && item in w'.slots
    requires worker in w'.workers && w'.workers[worker] == Reserving(item, id, t)
    requires call in w'.inv.calls && w'.inv.calls[call].input == InputOf(t) && w'.inv.calls[call].phase.Answered?
    requires if HasUnit(w.inv.db, InputOf(t)) then w'.inv.calls[call].phase.answer.Granted?
             else w'.inv.calls[call].phase.answer == Inventory.Refused(Inventory.OutOfStock)
    requires w'.inv.db == Inventory.ReserveSeckillStock(w.inv.db, InputOf(t)).0
    ensures Asked(w, w', item, id, t, worker, call)
  {
    hide CoreInv;
    hide HasUnit;
  }

  /** The way from fetching to the inventory's answer. */
  lemma FirstLeg(w: World, item: nat, id: nat, o: string, worker: nat, call: nat) returns (events: seq<Event>)
    requires CoreInv(w) && worker !in w.workers && call !in w.inv.calls && item in w.slots && id in w.slots[item].stream
    requires o in w.admitted && w.slots[item].stream[id] == Encode(w.admitted[o]) && w.admitted[o].item == item && 0 < w.admitted[o].reservedAt
    ensures |events| == 6 && forall e :: e in events ==> !e.PublishItem?
    ensures Asked(w, Run(w, events), item, id, w.admitted[o], worker, call)
  {
    hide *;
    StatementIs(call);
    var f, c, s := Fetch(worker, item, id), CallInventory(worker, call), Statement(call);
    var t := w.admitted[o];
    events := [f, c, s, s, s, s];
    SixEvents(w, f, c, s);
    var w1 := Exec(w, f);
    ExecKeepsCore(w, f);
    FetchStage(w, worker, item, id, o);
    var w2 := Exec(w1, c);
    ExecKeepsCore(w1, c);
    CallStage(w1, worker, call, Reserving(item, id, t));
    AnswerOf(w2, call);
    StatementStage(w2, call);
    AskedIs(w, Run(w, events), item, id, t, worker, call);
  }

  lemma SixEvents(w: World, f: Event, c: Event, s: Event)
    ensures Run(w, [f, c, s, s, s, s]) == Exec(Exec(Exec(Exec(Exec(Exec(w, f), c), s), s), s), s)
  {
    hide Exec;
    RunNone(w);
    RunLast(w, [], f);
    RunLast(w, [f], c);
    RunLast(w, [f, c], s);
    RunLast(w, [f, c, s], s);
    RunLast(w, [f, c, s, s], s);
    RunLast(w, [f, c, s, s, s], s);
    hide Run;
    assert [] + [f] == [f] && [f] + [c] == [f, c] && [f, c] + [s] == [f, c, s];
    assert [f, c, s] + [s] == [f, c, s, s] && [f, c, s, s] + [s] == [f, c, s, s, s] && [f, c, s, s, s] + [s] == [f, c, s, s, s, s];
  }

  lemma RunNone(w: World)
    ensures Run(w, []) == w
  {
    hide Exec;
  }

  lemma AskedParts(w: World, w': World, item: nat, id: nat, t: Task, worker: nat, call: nat)
    requires Asked(w, w', item, id, t, worker, call)
    ensures CoreInv(w') && w'.slots == w.slots && w'.ord == w.ord && item in w'.slots && item in w.slots
    ensures worker in w'.workers && w'.workers[worker] == Reserving(item, id, t)
    ensures call in w'.inv.calls && w'.inv.calls[call].input == InputOf(t) && w'.inv.calls[call].phase.Answered?
    ensures if HasUnit(w.inv.db, InputOf(t)) then w'.inv.calls[call].phase.answer.Granted?
            else w'.inv.calls[call].phase == Inventory.Answered(Inventory.Refused(Inventory.OutOfStock))
    ensures w'.inv.db == Inventory.ReserveSeckillStock(w.inv.db, InputOf(t)).0
  {
    hide CoreInv;
    hide HasUnit;
  }

  /** From a grant to the finished message. */
  lemma SecondLeg(w0: World, w: World, item: nat, id: nat, t: Task, worker: nat, call: nat, createdAt: int) returns (events: seq<Event>)
    requires Asked(w0, w, item, id, t, worker, call) && HasUnit(w0.inv.db, InputOf(t)) && 0 < createdAt / 1_000_000
    requires t.orderNo in w0.admitted && w0.admitted[t.orderNo] == t
    ensures |events| == 4 && forall e :: e in events ==> !e.PublishItem?
    ensures Completed(w0, Run(w, events), item, id, t.orderNo)
  {
    hide *;
    AskedParts(w0, w, item, id, t, worker, call);
    var r, n, p := ReceiveReservation(worker, call), SendOrder(worker), ReportSuccess(worker);
    var s := w.inv.calls[call].phase.answer.reservation.snapshot;
    var x := ExecuteOrder(OrderRequest(t, s), createdAt, Some(worker));
    events := [r, n, x, p];
    FourEvents(w, r, n, x, p);
    var w1 := Exec(w, r);
    ExecKeepsCore(w, r);
    ReceiveStage(w, worker, call, Reserving(item, id, t));
    var k := Ordering(item, id, t, s);
    var w2 := Exec(w1, n);
    ExecKeepsCore(w1, n);
    SendStage(w1, worker, k);
    var w3 := Exec(w2, x);
    ExecuteStage(w2, worker, k, createdAt);
    ReportStage(w3, worker, Completing(item, id, t));
    CompletedIs(w0, Exec(w3, p), item, id, t.orderNo);
  }

  /** From a refusal to the DLQ. */
  lemma RefusedLeg(w0: World, w: World, item: nat, id: nat, t: Task, worker: nat, call: nat, failedAt: int) returns (events: seq<Event>)
    requires Asked(w0, w, item, id, t, worker, call) && !HasUnit(w0.inv.db, InputOf(t))
    requires t.orderNo in w0.admitted && w0.admitted[t.orderNo] == t
    ensures |events| == 2 && forall e :: e in events ==> !e.PublishItem?
    ensures GivenUp(w0, Run(w, events), item, id, t.orderNo)
  {
    hide *;
    AskedParts(w0, w, item, id, t, worker, call);
    var r, f := ReceiveReservation(worker, call), ReportFailure(worker, failedAt);
    events := [r, f];
    TwoEvents(w, r, f);
    RefusedStage(w, worker, call, Reserving(item, id, t));
    var w1 := Exec(w, r);
    var k := Failing(item, id, t.orderNo, t.user, "rpc_request_rejected", true);
    GiveUpStage(w1, worker, k, failedAt);
    GivenUpIs(w0, Exec(w1, f), item, id, k, failedAt);
  }

  lemma GivenUpIs(w: World, w': World, item: nat, id: nat, k: Worker, failedAt: int)
    requires k.Failing? && k.terminal && item in w.slots && item in w'.slots && w'.ord == w.ord
    requires k.orderNo in w.admitted && w'.inv.db == Inventory.ReserveSeckillStock(w.inv.db, InputOf(w.admitted[k.orderNo])).0
    requires w'.slots[item] == Fail(w.slots[item], id, k.orderNo, k.user, k.code, k.terminal, w'.maxDeliveries, failedAt)
    ensures GivenUp(w, w', item, id, k.orderNo)
  {
    hide ResultValue;
    hide Inventory.ReserveSeckillStock;
  }

  lemma CompletedIs(w: World, w': World, item: nat, id: nat, o: string)
    requires o in w'.ord.orders && item in w.slots && item in w'.slots && w'.slots[item] == Complete(w.slots[item], id)
    requires o in w.admitted && w'.inv.db == Inventory.ReserveSeckillStock(w.inv.db, InputOf(w.admitted[o])).0
    ensures Completed(w, w', item, id, o)
  {
    hide Inventory.ReserveSeckillStock;
    hide Complete;
  }

  lemma TwoEvents(w: World, a: Event, b: Event)
    ensures Run(w, [a, b]) == Exec(Exec(w, a), b)
  {
    hide Exec;
    RunNone(w);
    RunLast(w, [], a);
    RunLast(w, [a], b);
    hide Run;
    assert [] + [a] == [a] && [a] + [b] == [a, b];
  }

  lemma FourEvents(w: World, a: Event, b: Event, c: Event, d: Event)
    ensures Run(w, [a, b, c, d]) == Exec(Exec(Exec(Exec(w, a), b), c), d)
  {
    hide Exec;
    TwoEvents(w, a, b);
    RunLast(w, [a, b], c);
    RunLast(w, [a, b, c], d);
    hide Run;
    assert [a, b] + [c] == [a, b, c] && [a, b, c] + [d] == [a, b, c, d];
  }

  lemma {:induction false} RunAppend(w: World, a: seq<Event>, b: seq<Event>)
    ensures Run(w, a + b) == Run(Run(w, a), b)
    decreases |a|
  {
    hide Exec;
    if a == [] {
      assert a + b == b;
    } else {
      assert (a + b)[1..] == a[1..] + b;
      RunAppend(Exec(w, a[0]), a[1..], b);
    }
  }

  lemma AdmittedInSale(w: World, o: string)
    requires AdmissionsOk(w.admitted, w.sales, w.clock) && o in w.admitted
    ensures w.admitted[o].orderNo == o && w.admitted[o].item in w.sales && w.sales[w.admitted[o].item].startAt <= w.admitted[o].reservedAt
    ensures IsStreamOrder(o)
  {
    assert AdmissionOk(o, w.admitted[o], w.sales, w.clock);
    hide Admissible;
    hide OrderEvents.SourceOf;
  }

  lemma QueuedProcessed(w: World, item: nat, id: nat, o: string, worker: nat, call: nat, createdAt: int)
    returns (events: seq<Event>)
    requires CoreInv(w) && item in w.slots && id in w.slots[item].stream && worker !in w.workers && call !in w.inv.calls
    requires o in w.admitted && w.slots[item].stream[id] == Encode(w.admitted[o]) && w.admitted[o].item == item
    requires 0 < w.admitted[o].reservedAt && w.admitted[o].orderNo == o && 0 < createdAt / 1_000_000
    ensures |events| == (if HasUnit(w.inv.db, InputOf(w.admitted[o])) then 10 else 8) && forall e :: e in events ==> !e.PublishItem?
    ensures if HasUnit(w.inv.db, InputOf(w.admitted[o])) then Completed(w, Run(w, events), item, id, o) else GivenUp(w, Run(w, events), item, id, o)
  {
    hide *;
    var first := FirstLeg(w, item, id, o, worker, call);
    var w1, t := Run(w, first), w.admitted[o];
    var second;
    if HasUnit(w.inv.db, InputOf(t)) {
      second := SecondLeg(w, w1, item, id, t, worker, call, createdAt);
    } else {
      second := RefusedLeg(w, w1, item, id, t, worker, call, createdAt);
    }
    events := first + second;
    RunAppend(w, first, second);
  }

  /** From every state any run reaches, each message in a stream whose sale starts after 1970 can be finished by one
      worker undisturbed: with its order committed exactly when the inventory has a unit for it, and otherwise in
      the DLQ at once, for lack of stock. */
  lemma QueuedEndsExactly(start: World, before: seq<Event>, w: World, item: nat, id: nat, worker: nat, call: nat, createdAt: int)
    returns (events: seq<Event>, o: string)
    requires Reachable(start, before, w) && item in w.slots && id in w.slots[item].stream && item in w.sales && 0 < w.sales[item].startAt
    requires worker !in w.workers && call !in w.inv.calls && 0 < createdAt / 1_000_000
    ensures o in w.admitted && w.admitted[o].item == item && w.slots[item].stream[id] == Encode(w.admitted[o])
    ensures |events| == (if HasUnit(w.inv.db, InputOf(w.admitted[o])) then 10 else 8) && forall e :: e in events ==> !e.PublishItem?
    ensures if HasUnit(w.inv.db, InputOf(w.admitted[o])) then Completed(w, Run(w, events), item, id, o) else GivenUp(w, Run(w, events), item, id, o)
  {
    hide *;
    ReachableCore(start, before, w);
    QueuedIsGenuine(start, before, w, item, id);
    o :| o in w.admitted && w.admitted[o].item == item && w.slots[item].stream[id] == Encode(w.admitted[o]);
    Open(w);
    AdmittedInSale(w, o);
    events := QueuedProcessed(w, item, id, o, worker, call, createdAt);
  }

  // ---------------------------------------------------------------- a second number without a reservation

  lemma WinnerAnswers(db: Inventory.Db, i: Inventory.Input)
    requires i.orderNo !in db.reservations && Inventory.KeyOfInput(i) in db.byUser
    ensures Inventory.ReserveSeckillStock(db, i).0 == db
  {
  }

  /** From every state of any run: when the user of a queued message already holds a reservation of the item under
      another number, processing the message commits a second order of that user, and that order has no
      reservation. One order per reservation rests on the gate giving one number per user and item. */
  lemma SecondNumberSecondOrder(start: World, before: seq<Event>, w: World, item: nat, id: nat, worker: nat, call: nat, createdAt: int)
    returns (events: seq<Event>, o: string)
    requires Reachable(start, before, w) && item in w.slots && id in w.slots[item].stream && item in w.sales && 0 < w.sales[item].startAt
    requires worker !in w.workers && call !in w.inv.calls && 0 < createdAt / 1_000_000
    ensures o in w.admitted && w.admitted[o].item == item && w.slots[item].stream[id] == Encode(w.admitted[o])
    ensures o !in w.inv.db.reservations && Inventory.KeyOfInput(InputOf(w.admitted[o])) in w.inv.db.byUser ==>
              o in Run(w, events).ord.orders && o !in Run(w, events).inv.db.reservations
  {
    hide *;
    events, o := QueuedEndsExactly(start, before, w, item, id, worker, call, createdAt);
    ReachableCore(start, before, w);
    Open(w);
    AdmittedInSale(w, o);
    var i := InputOf(w.admitted[o]);
    InputNumber(w.admitted[o]);
    if o !in w.inv.db.reservations && Inventory.KeyOfInput(i) in w.inv.db.byUser {
      HolderHasUnit(w.inv.db, i);
      WinnerAnswers(w.inv.db, i);
      CompletedOrder(w, Run(w, events), item, id, o);
    }
  }

  lemma InputNumber(t: Task)
    ensures InputOf(t).orderNo == t.orderNo
  {
  }

  lemma HolderHasUnit(db: Inventory.Db, i: Inventory.Input)
    requires Inventory.KeyOfInput(i) in db.byUser
    ensures HasUnit(db, i)
  {
  }

  // ---------------------------------------------------------------- in timely runs there is always a unit

  lemma NoUnitCounts(w: World, o: string)
    requires Inventory.DbInv(w.inv.db) && o in w.admitted && w.admitted[o].orderNo == o && w.admitted[o].item in w.inv.db.items
    requires !HasUnit(w.inv.db, InputOf(w.admitted[o]))
    ensures var item := w.admitted[o].item;
            o !in Inventory.ReservedOf(w.inv.db, item) && o in AdmittedOf(w.admitted, item)
            && |Inventory.ReservedOf(w.inv.db, item)| == w.inv.db.items[item].initial
  {
    hide Inventory.Genuine;
    hide Inventory.Indexed;
  }

  lemma AlwaysAUnit(w: World, o: string)
    requires Inv(w) && o in w.admitted
    ensures HasUnit(w.inv.db, InputOf(w.admitted[o]))
  {
    hide *;
    InvParts(w);
    Open(w);
    OpenTimed(w);
    Inventory.ServiceInvDb(w.inv);
    ItemKnown(o, w);
    var item := w.admitted[o].item;
    if !HasUnit(w.inv.db, InputOf(w.admitted[o])) {
      NoUnitCounts(w, o);
      ReservedIsAdmitted(w, item);
      InitialOf(w, item);
      StrictSubset(Inventory.ReservedOf(w.inv.db, item), AdmittedOf(w.admitted, item), o);
    }
  }

  lemma {:induction false} QuietIsTimely(w: World, events: seq<Event>)
    requires forall e :: e in events ==> !e.PublishItem?
    ensures TimelyRun(w, events)
    decreases |events|
  {
    hide Exec;
    if events != [] {
      assert forall e :: e in events[1..] ==> e in events;
      QuietIsTimely(Exec(w, events[0]), events[1..]);
    }
  }

  lemma CommittedIsReserved(w: World, events: seq<Event>, o: string)
    requires Inv(w) && (forall e :: e in events ==> !e.PublishItem?) && o in Run(w, events).ord.orders && IsStreamOrder(o)
    ensures o in Run(w, events).inv.db.reservations
  {
    hide *;
    QuietIsTimely(w, events);
    RunKeepsInv(w, events);
    InvParts(Run(w, events));
    OpenTimed(Run(w, events));
    OwnReservation(Run(w, events), o);
  }

  lemma CompletedOrder(w: World, w': World, item: nat, id: nat, o: string)
    requires Completed(w, w', item, id, o)
    ensures o in w'.ord.orders && o in w.admitted && w'.inv.db == Inventory.ReserveSeckillStock(w.inv.db, InputOf(w.admitted[o])).0
  {
    hide Inventory.ReserveSeckillStock;
    hide Complete;
  }

  /** In every state a timely run reaches nothing queued is doomed: ten actions of one worker complete it,
      with its order committed, its own reservation standing and no new DLQ entry. */
  lemma QueuedCanComplete(start: World, before: seq<Event>, w: World, item: nat, id: nat, worker: nat, call: nat, createdAt: int)
    returns (events: seq<Event>, o: string)
    requires Reached(start, before, w) && item in w.slots && id in w.slots[item].stream && item in w.sales && 0 < w.sales[item].startAt
    requires worker !in w.workers && call !in w.inv.calls && 0 < createdAt / 1_000_000
    ensures |events| == 10 && forall e :: e in events ==> !e.PublishItem?
    ensures o in w.admitted && w.slots[item].stream[id] == Encode(w.admitted[o])
    ensures Completed(w, Run(w, events), item, id, o) && o in Run(w, events).inv.db.reservations
  {
    hide *;
    ReachedInv(start, before, w);
    events, o := QueuedEndsExactly(start, before, w, item, id, worker, call, createdAt);
    AlwaysAUnit(w, o);
    Open(w);
    AdmittedInSale(w, o);
    CompletedOrder(w, Run(w, events), item, id, o);
    CommittedIsReserved(w, events, o);
  }

  /** A preheat before the start, published at once, opens the gate: with the stock there is, no buyer, and selling
      exactly in the sale's window. */
  lemma PreheatOpens(w: World, item: nat, now: int)
    requires item in w.sales && item in w.inv.db.items && w.clock < w.sales[item].startAt
    ensures var row, sale := w.inv.db.items[item], w.sales[item];
            var s := SlotOf(Exec(Exec(w, LoadPreheat(item)), PublishItem(Preheat(item, row.available, row.version))), item);
            && s.state.stock == Some(row.available) && s.buyers == map[] && (Selling(s.state, now) <==> sale.startAt <= now < sale.endAt)
  {
    var row, sale := w.inv.db.items[item], w.sales[item];
    PublishedSells(item, sale, row.available, Generation(sale, row.version), now);
    hide Generation;
  }

  /** A crash loses nothing but the worker: its message is still there and can be fetched again, by the same worker. */
  lemma CrashedIsFetchedAgain(w: World, worker: nat, item: nat, id: nat)
    requires worker in w.workers && id in SlotOf(w, item).stream
    ensures var w1 := Exec(w, Crash(worker)); var w2 := Exec(w1, Fetch(worker, item, id));
            && w1 == w.(workers := w.workers - {worker})
            && worker in w2.workers && w2.workers[worker].item == item && w2.workers[worker].id == id && w2.slots == w.slots
  {
    hide Decode;
  }
}
