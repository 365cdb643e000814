/** Every run of the pipeline, whatever the interleaving, redeliveries, crashes and lost answers, and however
    late a publish comes, keeps the core invariant and all facts once recorded. */
module PipelineRuns {
  import opened Text
  import opened OrderNumbers
  import opened StreamMessages
  import opened RedisSlot
  import OrderEvents
  import Inventory
  import Orders
  import opened Pipeline
  import opened PipelineInvariant
  import opened PipelineSteps
  import opened PipelineAdmission
  import opened PipelineServices

  // ---------------------------------------------------------------- the invariant over runs

  lemma InitialStock(w: World)
    requires Initial(w)
    ensures StockOk(w.inv.db.items, w.sales) && SalesOk(w.sales)
  {
    hide ValidSale;
  }

  lemma InitialService(w: World)
    requires Initial(w)
    ensures Inventory.ServiceInv(w.inv)
  {
    hide ValidSale;
    assert Inventory.Conserved(w.inv.db) by {
      forall item | item in w.inv.db.items
        ensures Inventory.ReservedOf(w.inv.db, item) == {}
      {
      }
    }
    hide Inventory.Conserved;
  }

  lemma EmptyMaps(sales: map<nat, Sale>, clock: int)
    ensures AdmissionsOk(map[], sales, clock) && PreheatsOk({}, sales)
    ensures SlotsOk(map[], sales, map[], {}, 1) && NoneLost(map[], map[], {}) && MessagesHeld(map[], map[])
  {
  }

  lemma InitialCore(w: World)
    requires Initial(w)
    ensures CoreInv(w)
  {
    InitialStock(w);
    InitialService(w);
    EmptyMaps(w.sales, w.clock);
    hide ValidSale;
    hide Inventory.ServiceInv;
    hide StockOk;
    hide SalesOk;
    Close(w);
  }

  lemma ExecKeepsCore(w: World, e: Event)
    requires CoreInv(w)
    ensures CoreInv(Exec(w, e))
  {
    hide CoreInv;
    hide DoLoadPreheat;
    hide DoPublish;
    hide DoInvalidate;
    hide DoEnqueue;
    hide DoFetch;
    hide DoCallInventory;
    hide Inventory.Advance;
    hide DoReceiveReservation;
    hide DoAbandonInventory;
    hide DoSendOrder;
    hide DoExecuteOrder;
    hide DoAbandonOrder;
    hide DoReportSuccess;
    hide DoReportFailure;
    hide DoPlaceNormalOrder;
    hide DoProject;
    match e
    case Tick(to) => if w.clock <= to { TickKeepsCore(w, to); }
    case LoadPreheat(item) => LoadKeepsCore(w, item);
    case PublishItem(read) => PublishKeepsCore(w, read);
    case InvalidateItem(item) => InvalidateKeepsCore(w, item);
    case Enqueue(item, user, now, random) => EnqueueKeepsCore(w, item, user, now, random);
    case Fetch(worker, item, id) => FetchKeepsCore(w, worker, item, id);
    case CallInventory(worker, call) => CallKeepsCore(w, worker, call);
    case InventoryStatement(call, fault) => StatementKeepsCore(w, call, fault);
    case ReceiveReservation(worker, call) => ReceiveKeepsCore(w, worker, call);
    case AbandonInventory(worker, why) => AbandonKeepsCore(w, worker, why);
    case SendOrder(worker) => SendKeepsCore(w, worker);
    case ExecuteOrder(request, createdAt, answerTo) => ExecuteKeepsCore(w, request, createdAt, answerTo);
    case AbandonOrder(worker) => AbandonKeepsCore(w, worker, Timeout);
    case ReportSuccess(worker) => SuccessKeepsCore(w, worker);
    case ReportFailure(worker, failedAt) => FailureKeepsCore(w, worker, failedAt);
    case Crash(worker) => DropWorker(w, worker);
    case PlaceNormalOrder(user, orderNo, inputs, createdAt) => PlaceKeepsCore(w, user, orderNo, inputs, createdAt);
    case ProjectOrder(orderNo) => ProjectKeepsCore(w, orderNo);
  }

  /** Every state of every run, with publishing as late as it may be, satisfies the core invariant. */
  lemma {:induction false} RunKeepsCore(w: World, events: seq<Event>)
    requires CoreInv(w)
    ensures CoreInv(Run(w, events))
    decreases |events|
  {
    hide CoreInv;
    hide Exec;
    if events != [] {
      ExecKeepsCore(w, events[0]);
      RunKeepsCore(Exec(w, events[0]), events[1..]);
    }
  }

  /** Reachable by any run from a fresh start. */
  ghost predicate Reachable(start: World, events: seq<Event>, w: World) { Initial(start) && w == Run(start, events) }

  lemma ReachableCore(start: World, events: seq<Event>, w: World)
    requires Reachable(start, events, w)
    ensures CoreInv(w)
  {
    hide CoreInv;
    hide Run;
    InitialCore(start);
    RunKeepsCore(start, events);
  }

  // ---------------------------------------------------------------- what never changes back

  /** Items on sale are fixed; admissions and orders are permanent. */
  ghost predicate Later(w: World, w': World) {
    && w'.sales == w.sales && w'.maxDeliveries == w.maxDeliveries
    && (forall o :: o in w.admitted ==> o in w'.admitted && w'.admitted[o] == w.admitted[o])
    && Orders.Grows(w.ord, w'.ord)
  }

  lemma LaterSame(w: World, w': World)
    requires w'.sales == w.sales && w'.maxDeliveries == w.maxDeliveries && w'.admitted == w.admitted && w'.ord == w.ord
    ensures Later(w, w')
  {
  }

  lemma LaterOrders(w: World, w': World)
    requires w'.sales == w.sales && w'.maxDeliveries == w.maxDeliveries && w'.admitted == w.admitted && Orders.Grows(w.ord, w'.ord)
    ensures Later(w, w')
  {
    hide Orders.Grows;
  }

  lemma LaterAdmitted(w: World, w': World, o: string, t: Task)
    requires w'.sales == w.sales && w'.maxDeliveries == w.maxDeliveries && w'.ord == w.ord
    requires o !in w.admitted && w'.admitted == w.admitted[o := t]
    ensures Later(w, w')
  {
  }

  lemma EnqueueLater(w: World, item: nat, user: nat, now: int, random: Random)
    ensures Later(w, DoEnqueue(w, item, user, now, random))
  {
    EnqueueEffect(w, item, user, now, random);
    var w' := DoEnqueue(w, item, user, now, random);
    var t := RequestOf(SlotOf(w, item), item, user, now, random);
    hide Later;
    hide StreamOrderText;
    hide DoEnqueue;
    hide Admit;
    hide Admits;
    hide RequestOf;
    if w' == w { LaterSame(w, w'); } else { LaterAdmitted(w, w', t.orderNo, t); }
  }

  lemma ExecuteLater(w: World, q: OrderRequest, createdAt: int, answerTo: Option<nat>)
    ensures Later(w, DoExecuteOrder(w, q, createdAt, answerTo))
  {
    hide Later;
    hide TrimSpace;
    hide Orders.Grows;
    hide AfterOrder;
    hide Awaits;
    var w' := DoExecuteOrder(w, q, createdAt, answerTo);
    Orders.CreateGrows(w.ord, q.task.user, TrimSpace(q.task.orderNo), [OrderInput(q.snapshot)], createdAt);
    GrowsReflexive(w.ord);
    hide Orders.CreateIdempotent;
    LaterOrders(w, w');
  }

  lemma GrowsReflexive(db: Orders.Db)
    ensures Orders.Grows(db, db)
  {
  }

  lemma PlaceLater(w: World, user: nat, orderNo: string, inputs: seq<Orders.ItemInput>, createdAt: int)
    ensures Later(w, DoPlaceNormalOrder(w, user, orderNo, inputs, createdAt))
  {
    hide Later;
    hide TrimSpace;
    hide Orders.Grows;
    hide OrderEvents.SourceOf;
    Orders.CreateGrows(w.ord, user, orderNo, inputs, createdAt);
    GrowsReflexive(w.ord);
    hide Orders.CreateIdempotent;
    LaterOrders(w, DoPlaceNormalOrder(w, user, orderNo, inputs, createdAt));
  }

  predicate AddsFacts(e: Event) { e.Enqueue? || e.ExecuteOrder? || e.PlaceNormalOrder? }

  predicate ByWorker(e: Event) {
    || e.Fetch? || e.CallInventory? || e.InventoryStatement? || e.ReceiveReservation? || e.AbandonInventory?
    || e.SendOrder? || e.AbandonOrder? || e.Crash?
  }

  ghost predicate SameFacts(w: World, w': World) {
    w'.sales == w.sales && w'.maxDeliveries == w.maxDeliveries && w'.admitted == w.admitted && w'.ord == w.ord
  }

  lemma WorkerKeepsFacts(w: World, e: Event)
    requires ByWorker(e)
    ensures SameFacts(w, Exec(w, e))
  {
    hide DoLoadPreheat;
    hide DoPublish;
    hide DoInvalidate;
    hide DoEnqueue;
    hide DoExecuteOrder;
    hide DoReportSuccess;
    hide DoReportFailure;
    hide DoPlaceNormalOrder;
    hide DoProject;
    hide Inventory.Advance;
    hide Inventory.Begin;
    hide Decode;
    hide AfterReservation;
    hide GiveUpCode;
    hide SlotOf;
  }

  lemma ReportKeepsFacts(w: World, e: Event)
    requires !ByWorker(e) && !AddsFacts(e)
    ensures SameFacts(w, Exec(w, e))
  {
    hide DoEnqueue;
    hide DoFetch;
    hide DoCallInventory;
    hide Inventory.Advance;
    hide DoReceiveReservation;
    hide DoAbandonInventory;
    hide DoSendOrder;
    hide DoExecuteOrder;
    hide DoAbandonOrder;
    hide DoPlaceNormalOrder;
    hide Fail;
    hide Complete;
    hide Project;
    hide ProjectionOfEvent;
    hide Orders.EventOf;
    hide Generation;
    hide HashOf;
    hide SlotOf;
  }

  lemma QuietLater(w: World, e: Event)
    requires !AddsFacts(e)
    ensures SameFacts(w, Exec(w, e))
  {
    hide *;
    if ByWorker(e) {
      WorkerKeepsFacts(w, e);
    } else {
      ReportKeepsFacts(w, e);
    }
  }

  lemma ExecLater(w: World, e: Event)
    ensures Later(w, Exec(w, e))
  {
    hide Later;
    hide DoEnqueue;
    hide DoExecuteOrder;
    hide DoPlaceNormalOrder;
    if e.Enqueue? { EnqueueLater(w, e.item, e.user, e.now, e.random); }
    else if e.ExecuteOrder? { ExecuteLater(w, e.request, e.createdAt, e.answerTo); }
    else if e.PlaceNormalOrder? { PlaceLater(w, e.user, e.orderNo, e.inputs, e.createdAt); }
    else {
      hide Exec;
      QuietLater(w, e);
      LaterSame(w, Exec(w, e));
    }
  }

  lemma LaterTransitive(a: World, b: World, c: World)
    requires Later(a, b) && Later(b, c)
    ensures Later(a, c)
  {
    assert c.ord.outbox[..|a.ord.outbox|] == c.ord.outbox[..|b.ord.outbox|][..|a.ord.outbox|];
  }

  lemma {:induction false} RunLater(w: World, events: seq<Event>)
    ensures Later(w, Run(w, events))
    decreases |events|
  {
    hide Exec;
    hide Later;
    if events == [] {
      LaterSame(w, w);
    } else {
      ExecLater(w, events[0]);
      RunLater(Exec(w, events[0]), events[1..]);
      LaterTransitive(w, Exec(w, events[0]), Run(w, events));
    }
  }
}
