/** The dead letter queue is the last resort: in every run a request with a positive time gets there only after
    exactly as many recorded failures as deliveries are allowed, or because the stock is gone for good; and in
    timely runs the stock is never gone. */
module PipelinePatience {
  import opened Text
  import opened OrderNumbers
  import opened StreamMessages
  import opened RedisSlot
  import OrderEvents
  import Inventory
  import Orders
  import opened Pipeline
  import opened PipelineInvariant
  import opened PipelineSteps
  import opened PipelineAdmission
  import opened PipelineServices
  import opened PipelineRuns
  import opened PipelineTimed
  import opened PipelineTheorems
  import opened PipelineProgress

  /** The item is sold out, and neither the number nor its user holds a unit of it. */
  ghost predicate Hopeless(db: Inventory.Db, t: Task) {
    Inventory.AnswerInv(db, InputOf(t), Inventory.Refused(Inventory.OutOfStock))
  }

  /** Only a request whose time is not positive, or for which there is no unit, may be given up at once. */
  ghost predicate WorkerPatient(k: Worker, a: Admissions, db: Inventory.Db) {
    k.Failing? && k.terminal ==> k.orderNo in a && (a[k.orderNo].reservedAt <= 0 || Hopeless(db, a[k.orderNo]))
  }

  ghost predicate WorkersPatient(workers: map<nat, Worker>, a: Admissions, db: Inventory.Db) {
    forall k :: k in workers ==> WorkerPatient(workers[k], a, db)
  }

  ghost predicate EntryPatient(e: DlqEntry, a: Admissions, maxDeliveries: nat, db: Inventory.Db) {
    e.orderNo in a && (0 < a[e.orderNo].reservedAt ==> e.attempts == maxDeliveries || Hopeless(db, a[e.orderNo]))
  }

  ghost predicate DlqPatient(dlq: seq<DlqEntry>, a: Admissions, maxDeliveries: nat, db: Inventory.Db) {
    forall i :: 0 <= i < |dlq| ==> EntryPatient(dlq[i], a, maxDeliveries, db)
  }

  ghost predicate SlotsPatient(slots: map<nat, Slot>, a: Admissions, maxDeliveries: nat, db: Inventory.Db) {
    forall item :: item in slots ==> DlqPatient(slots[item].dlq, a, maxDeliveries, db)
  }

  ghost predicate Patient(w: World) {
    WorkersPatient(w.workers, w.admitted, w.inv.db) && SlotsPatient(w.slots, w.admitted, w.maxDeliveries, w.inv.db)
  }

  /** Stock that is gone stays gone. */
  lemma StaysHopeless(db: Inventory.Db, db': Inventory.Db, t: Task)
    requires Hopeless(db, t) && Inventory.DbInv(db') && Inventory.Grows(db, db')
    ensures Hopeless(db', t)
  {
    hide Inventory.DbInv;
    hide Inventory.Grows;
    Inventory.PhaseStable(db, db', InputOf(t), Inventory.Answered(Inventory.Refused(Inventory.OutOfStock)));
  }

  lemma InventoryKeepsPatience(w: World, inv: Inventory.Service)
    requires Patient(w) && Inventory.DbInv(inv.db) && Inventory.Grows(w.inv.db, inv.db)
    ensures Patient(w.(inv := inv))
  {
    hide Hopeless;
    hide Inventory.DbInv;
    hide Inventory.Grows;
    forall k | k in w.workers
      ensures WorkerPatient(w.workers[k], w.admitted, inv.db)
    {
      assert WorkerPatient(w.workers[k], w.admitted, w.inv.db);
      if w.workers[k].Failing? && w.workers[k].terminal && Hopeless(w.inv.db, w.admitted[w.workers[k].orderNo]) {
        StaysHopeless(w.inv.db, inv.db, w.admitted[w.workers[k].orderNo]);
      }
    }
    forall item, i | item in w.slots && 0 <= i < |w.slots[item].dlq|
      ensures EntryPatient(w.slots[item].dlq[i], w.admitted, w.maxDeliveries, inv.db)
    {
      assert DlqPatient(w.slots[item].dlq, w.admitted, w.maxDeliveries, w.inv.db);
      assert EntryPatient(w.slots[item].dlq[i], w.admitted, w.maxDeliveries, w.inv.db);
      if Hopeless(w.inv.db, w.admitted[w.slots[item].dlq[i].orderNo]) {
        StaysHopeless(w.inv.db, inv.db, w.admitted[w.slots[item].dlq[i].orderNo]);
      }
    }
  }

  lemma StatementKeepsPatience(w: World, call: nat, fault: Inventory.Fault)
    requires CoreInv(w) && Patient(w)
    ensures Patient(w.(inv := Inventory.Advance(w.inv, call, fault)))
  {
    hide *;
    Open(w);
    Inventory.AdvanceKeepsInv(w.inv, call, fault);
    Inventory.ServiceInvDb(Inventory.Advance(w.inv, call, fault));
    InventoryKeepsPatience(w, Inventory.Advance(w.inv, call, fault));
  }

  lemma PutWorkerPatient(w: World, worker: nat, k: Worker)
    requires Patient(w) && WorkerPatient(k, w.admitted, w.inv.db)
    ensures Patient(w.(workers := w.workers[worker := k]))
  {
    hide WorkerPatient;
    hide SlotsPatient;
  }

  lemma DropWorkerPatient(w: World, worker: nat)
    requires Patient(w)
    ensures Patient(w.(workers := w.workers - {worker}))
  {
    hide WorkerPatient;
    hide SlotsPatient;
  }

  lemma PutSlotPatient(w: World, item: nat, s: Slot)
    requires Patient(w) && DlqPatient(s.dlq, w.admitted, w.maxDeliveries, w.inv.db)
    ensures Patient(w.(slots := w.slots[item := s]))
  {
    hide WorkersPatient;
    hide DlqPatient;
  }

  lemma SlotDlq(w: World, item: nat)
    requires SlotsPatient(w.slots, w.admitted, w.maxDeliveries, w.inv.db)
    ensures DlqPatient(SlotOf(w, item).dlq, w.admitted, w.maxDeliveries, w.inv.db)
  {
  }

  lemma SameParts(w: World, w': World)
    requires Patient(w) && w'.workers == w.workers && w'.slots == w.slots && w'.admitted == w.admitted && w'.maxDeliveries == w.maxDeliveries && w'.inv.db == w.inv.db
    ensures Patient(w')
  {
    hide WorkersPatient;
    hide SlotsPatient;
  }

  /** A script that leaves the DLQ alone. */
  lemma SameDlq(w: World, item: nat, s: Slot)
    requires Patient(w) && s.dlq == SlotOf(w, item).dlq
    ensures Patient(w.(slots := w.slots[item := s]))
  {
    hide WorkersPatient;
    hide DlqPatient;
    SlotDlq(w, item);
    hide SlotOf;
    PutSlotPatient(w, item, s);
  }

  // ---------------------------------------------------------------- workers

  lemma FetchedPatient(item: nat, id: nat, f: Fields, a: Admissions, sales: map<nat, Sale>, clock: int, db: Inventory.Db)
    requires MessageOk(item, f, a) && AdmissionsOk(a, sales, clock)
    ensures WorkerPatient(FetchedBy(item, id, f), a, db)
  {
    var t := a[f[OrderNo]];
    assert AdmissionOk(f[OrderNo], t, sales, clock);
    DecodeEncode(t, IdText(id));
    hide Decode;
    hide Encode;
    hide Admissible;
    hide StreamOrderItemId;
    hide OrderEvents.SourceOf;
  }

  lemma FetchKeepsPatience(w: World, worker: nat, item: nat, id: nat)
    requires CoreInv(w) && Patient(w)
    ensures Patient(DoFetch(w, worker, item, id))
  {
    hide *;
    Open(w);
    FetchEffect(w, worker, item, id);
    if worker !in w.workers && item in w.slots && id in w.slots[item].stream {
      StreamMessageOk(w, item, id);
      FetchedPatient(item, id, w.slots[item].stream[id], w.admitted, w.sales, w.clock, w.inv.db);
      PutWorkerPatient(w, worker, FetchedBy(item, id, w.slots[item].stream[id]));
    }
  }

  lemma Unhurried(k: Worker, a: Admissions, db: Inventory.Db)
    requires !k.Failing? || !k.terminal
    ensures WorkerPatient(k, a, db)
  {
  }

  /** A call refused for lack of stock knows what it was told. */
  lemma RefusedIsHopeless(s: Inventory.Service, call: nat, t: Task)
    requires Inventory.ServiceInv(s) && call in s.calls && s.calls[call].input == InputOf(t)
    requires s.calls[call].phase == Inventory.Answered(Inventory.Refused(Inventory.OutOfStock))
    ensures Hopeless(s.db, t)
  {
    assert Inventory.PhaseInv(s.db, s.calls[call].input, s.calls[call].phase);
    hide Inventory.DbInv;
    hide Inventory.AnswerInv;
  }

  lemma RefusedPatient(k: Worker, e: Inventory.Error, a: Admissions, db: Inventory.Db)
    requires k.Reserving? && k.task.orderNo in a && a[k.task.orderNo] == k.task
    requires e.Unknown? || (e.OutOfStock? && Hopeless(db, k.task))
    ensures WorkerPatient(RefusedWorker(k.item, k.id, k.task, e), a, db)
  {
    hide Hopeless;
  }

  lemma ReserverTask(k: Worker, w: World)
    requires k.Reserving? && WorkerOk(k, w.sales, w.admitted, w.ord.orders.Keys)
    ensures k.task.orderNo in w.admitted && w.admitted[k.task.orderNo] == k.task
  {
  }

  lemma ReceivedInput(w: World, worker: nat, call: nat)
    requires Receives(w, worker, call)
    ensures worker in w.workers && call in w.inv.calls && w.workers[worker].Reserving? && w.inv.calls[call].input == InputOf(w.workers[worker].task)
  {
  }

  lemma AnsweredRefusal(p: Inventory.Phase)
    ensures p.Answered? && p.answer.Refused? ==> p == Inventory.Answered(Inventory.Refused(p.answer.error))
  {
  }

  lemma ReceiveKeepsPatience(w: World, worker: nat, call: nat)
    requires CoreInv(w) && Patient(w)
    ensures Patient(DoReceiveReservation(w, worker, call))
  {
    hide *;
    ReceiveEffect(w, worker, call);
    if Receives(w, worker, call) {
      Open(w);
      ReceivedInput(w, worker, call);
      var k, answer := w.workers[worker], w.inv.calls[call].phase.answer;
      WorkerFacts(w, worker);
      ReserverTask(k, w);
      CallInput(w.inv.calls, call, w.admitted);
      RefusalKinds(w.inv, call, w.admitted);
      AnsweredRefusal(w.inv.calls[call].phase);
      if answer.Granted? {
        Unhurried(Ordering(k.item, k.id, k.task, answer.reservation.snapshot), w.admitted, w.inv.db);
        PutWorkerPatient(w, worker, Ordering(k.item, k.id, k.task, answer.reservation.snapshot));
      } else {
        if answer.error.OutOfStock? {
          RefusedIsHopeless(w.inv, call, k.task);
        }
        RefusedPatient(k, answer.error, w.admitted, w.inv.db);
        PutWorkerPatient(w, worker, RefusedWorker(k.item, k.id, k.task, answer.error));
      }
    }
  }

  lemma AbandonKeepsPatience(w: World, worker: nat, why: GiveUp)
    requires Patient(w)
    ensures Patient(DoAbandonInventory(w, worker, why)) && Patient(DoAbandonOrder(w, worker))
  {
    hide Patient;
    if worker in w.workers && w.workers[worker].Reserving? {
      var k := w.workers[worker];
      PutWorkerPatient(w, worker, Failing(k.item, k.id, k.task.orderNo, k.task.user, GiveUpCode(why), false));
    }
    if worker in w.workers && w.workers[worker].Ordering? {
      var k := w.workers[worker];
      PutWorkerPatient(w, worker, Failing(k.item, k.id, k.task.orderNo, k.task.user, "reserved_without_order", false));
    }
  }

  lemma AnswerPatient(k: Worker, o: Orders.Outcome, a: Admissions, db: Inventory.Db)
    requires k.Ordering?
    ensures WorkerPatient(AfterOrder(k, o), a, db)
  {
  }

  lemma ExecuteKeepsPatience(w: World, q: OrderRequest, createdAt: int, answerTo: Option<nat>)
    requires Patient(w)
    ensures Patient(DoExecuteOrder(w, q, createdAt, answerTo))
  {
    hide *;
    if q !in w.requests {
      UnsentIsIgnored(w, q, createdAt, answerTo);
    } else {
      ExecuteEffect(w, q, createdAt, answerTo);
      var (db', outcome) := CreateSeckill(w.ord, q.task, q.snapshot, createdAt);
      SameParts(w, w.(ord := db'));
      if Awaits(w.workers, answerTo, q) {
        AnswerPatient(w.workers[answerTo.value], outcome, w.admitted, w.inv.db);
        PutWorkerPatient(w.(ord := db'), answerTo.value, AfterOrder(w.workers[answerTo.value], outcome));
      }
    }
  }

  // ---------------------------------------------------------------- slots

  lemma FailDlq(s: Slot, k: Worker, a: Admissions, maxDeliveries: nat, failedAt: int, db: Inventory.Db)
    requires DlqPatient(s.dlq, a, maxDeliveries, db) && RetriesOk(s.retries, maxDeliveries) && maxDeliveries > 0
    requires k.Failing? && k.orderNo in a && WorkerPatient(k, a, db)
    ensures DlqPatient(Fail(s, k.id, k.orderNo, k.user, k.code, k.terminal, maxDeliveries, failedAt).dlq, a, maxDeliveries, db)
  {
    hide ResultValue;
    hide Hopeless;
    assert Attempts(s, k.id) <= maxDeliveries;
    hide RetriesOk;
  }

  lemma WorkerIsPatient(w: World, worker: nat)
    requires Patient(w) && worker in w.workers
    ensures WorkerPatient(w.workers[worker], w.admitted, w.inv.db) && SlotsPatient(w.slots, w.admitted, w.maxDeliveries, w.inv.db)
  {
    hide WorkerPatient;
    hide SlotsPatient;
  }

  lemma FailureKeepsPatience(w: World, worker: nat, failedAt: int)
    requires CoreInv(w) && Patient(w)
    ensures Patient(DoReportFailure(w, worker, failedAt))
  {
    hide *;
    FailureEffect(w, worker, failedAt);
    if worker in w.workers && w.workers[worker].Failing? {
      Open(w);
      var k := w.workers[worker];
      WorkerFacts(w, worker);
      FailingFacts(k, w);
      SlotHasSale(w, k.item);
      CurrentSlotOk(w, k.item);
      var s := SlotOf(w, k.item);
      SlotParts(k.item, s, w.sales[k.item], w.admitted, w.ord.orders.Keys, w.maxDeliveries);
      WorkerIsPatient(w, worker);
      SlotDlq(w, k.item);
      FailDlq(s, k, w.admitted, w.maxDeliveries, failedAt, w.inv.db);
      var s' := Fail(s, k.id, k.orderNo, k.user, k.code, k.terminal, w.maxDeliveries, failedAt);
      PutSlotPatient(w, k.item, s');
      DropWorkerPatient(w.(slots := w.slots[k.item := s']), worker);
    }
  }

  lemma CompleteDlq(s: Slot, id: nat)
    ensures Complete(s, id).dlq == s.dlq
  {
  }

  lemma SuccessKeepsPatience(w: World, worker: nat)
    requires Patient(w)
    ensures Patient(DoReportSuccess(w, worker))
  {
    hide *;
    SuccessEffect(w, worker);
    if worker in w.workers && w.workers[worker].Completing? {
      var k := w.workers[worker];
      var s := Complete(SlotOf(w, k.item), k.id);
      CompleteDlq(SlotOf(w, k.item), k.id);
      SameDlq(w, k.item, s);
      DropWorkerPatient(w.(slots := w.slots[k.item := s]), worker);
    }
  }

  lemma GateKeepsPatience(w: World, read: Preheat, item: nat)
    requires Patient(w)
    ensures Patient(DoPublish(w, read)) && Patient(DoInvalidate(w, item))
  {
    PublishEffect(w, read);
    hide DoPublish;
    hide Patient;
    if item in w.sales {
      SameDlq(w, item, SlotOf(w, item).(state := NO_STATE, buyers := map[]));
    }
    if read in w.preheats && read.item in w.sales {
      SameDlq(w, read.item, SlotOf(w, read.item).(
        state := HashOf(read.item, w.sales[read.item], read.stock, Generation(w.sales[read.item], read.version)), buyers := map[]));
    }
  }

  lemma ProjectKeepsPatience(w: World, orderNo: string)
    requires Patient(w)
    ensures Patient(DoProject(w, orderNo))
  {
    hide *;
    var item, e, o, u := ProjectOneSlot(w, orderNo);
    ProjectQueues(SlotOf(w, item), e, o, u);
    SameDlq(w, item, Project(SlotOf(w, item), e, o, u).0);
  }

  lemma MoreAdmitted(w: World, o: string, t: Task)
    requires Patient(w) && o !in w.admitted
    ensures Patient(w.(admitted := w.admitted[o := t]))
  {
    hide Hopeless;
    var a := w.admitted[o := t];
    forall k | k in w.workers
      ensures WorkerPatient(w.workers[k], a, w.inv.db)
    {
      assert WorkerPatient(w.workers[k], w.admitted, w.inv.db);
    }
    forall item, i | item in w.slots && 0 <= i < |w.slots[item].dlq|
      ensures EntryPatient(w.slots[item].dlq[i], a, w.maxDeliveries, w.inv.db)
    {
      assert DlqPatient(w.slots[item].dlq, w.admitted, w.maxDeliveries, w.inv.db);
      assert EntryPatient(w.slots[item].dlq[i], w.admitted, w.maxDeliveries, w.inv.db);
    }
  }

  lemma EnqueueKeepsPatience(w: World, item: nat, user: nat, now: int, random: Random)
    requires Patient(w)
    ensures Patient(DoEnqueue(w, item, user, now, random))
  {
    hide *;
    EnqueueEffect(w, item, user, now, random);
    var s := SlotOf(w, item);
    var t := RequestOf(s, item, user, now, random);
    if DoEnqueue(w, item, user, now, random) != w {
      EnqueueGuard(w, t, random);
      AdmitRest(s, t);
      SameDlq(w, item, Admit(s, t));
      MoreAdmitted(w.(slots := w.slots[item := Admit(s, t)]), t.orderNo, t);
    }
  }

  // ---------------------------------------------------------------- runs

  predicate TouchesNeither(e: Event) {
    e.Tick? || e.LoadPreheat? || e.CallInventory? || e.SendOrder? || e.PlaceNormalOrder?
  }

  lemma UntouchedParts(w: World, e: Event)
    requires TouchesNeither(e)
    ensures var w' := Exec(w, e);
            w'.workers == w.workers && w'.slots == w.slots && w'.admitted == w.admitted && w'.maxDeliveries == w.maxDeliveries
            && w'.inv.db == w.inv.db
  {
    hide Inventory.Advance;
    hide Orders.CreateIdempotent;
    hide TrimSpace;
    hide OrderEvents.SourceOf;
    hide DoPublish;
    hide DoInvalidate;
    hide DoEnqueue;
    hide DoFetch;
    hide DoReceiveReservation;
    hide DoAbandonInventory;
    hide DoExecuteOrder;
    hide DoAbandonOrder;
    hide DoReportSuccess;
    hide DoReportFailure;
    hide DoProject;
  }

  lemma ExecKeepsPatience(w: World, e: Event)
    requires CoreInv(w) && Patient(w)
    ensures Patient(Exec(w, e))
  {
    hide CoreInv;
    hide Patient;
    if TouchesNeither(e) {
      UntouchedParts(w, e);
      hide Exec;
      SameParts(w, Exec(w, e));
    } else {
      BusyStep(w, e);
    }
  }

  lemma BusyStep(w: World, e: Event)
    requires CoreInv(w) && Patient(w) && !TouchesNeither(e)
    ensures Patient(Exec(w, e))
  {
    hide CoreInv;
    hide Patient;
    hide DoPublish;
    hide DoInvalidate;
    hide DoEnqueue;
    hide DoFetch;
    hide Inventory.Advance;
    hide DoReceiveReservation;
    hide DoAbandonInventory;
    hide DoExecuteOrder;
    hide DoAbandonOrder;
    hide DoReportSuccess;
    hide DoReportFailure;
    hide DoProject;
    match e
    case PublishItem(read) => GateKeepsPatience(w, read, 0);
    case InvalidateItem(item) => GateKeepsPatience(w, Preheat(0, 0, 0), item);
    case Enqueue(item, user, now, random) => EnqueueKeepsPatience(w, item, user, now, random);
    case Fetch(worker, item, id) => FetchKeepsPatience(w, worker, item, id);
    case InventoryStatement(call, fault) => StatementKeepsPatience(w, call, fault);
    case ReceiveReservation(worker, call) => ReceiveKeepsPatience(w, worker, call);
    case AbandonInventory(worker, why) => AbandonKeepsPatience(w, worker, why);
    case ExecuteOrder(request, createdAt, answerTo) => ExecuteKeepsPatience(w, request, createdAt, answerTo);
    case AbandonOrder(worker) => AbandonKeepsPatience(w, worker, Timeout);
    case ReportSuccess(worker) => SuccessKeepsPatience(w, worker);
    case ReportFailure(worker, failedAt) => FailureKeepsPatience(w, worker, failedAt);
    case Crash(worker) => DropWorkerPatient(w, worker);
    case ProjectOrder(orderNo) => ProjectKeepsPatience(w, orderNo);
  }

  lemma {:induction false} RunKeepsPatience(w: World, events: seq<Event>)
    requires CoreInv(w) && Patient(w)
    ensures Patient(Run(w, events))
    decreases |events|
  {
    hide CoreInv;
    hide Patient;
    hide Exec;
    if events != [] {
      ExecKeepsCore(w, events[0]);
      ExecKeepsPatience(w, events[0]);
      RunKeepsPatience(Exec(w, events[0]), events[1..]);
    }
  }

  lemma InitialPatient(w: World)
    requires Initial(w)
    ensures Patient(w)
  {
    hide ValidSale;
    hide Hopeless;
  }

  lemma ReachableParts(start: World, events: seq<Event>, w: World)
    requires Reachable(start, events, w)
    ensures Initial(start) && w == Run(start, events)
  {
    hide Initial;
    hide Run;
  }

  lemma ReachablePatient(start: World, events: seq<Event>, w: World)
    requires Reachable(start, events, w)
    ensures Patient(w)
  {
    hide *;
    ReachableParts(start, events, w);
    InitialCore(start);
    InitialPatient(start);
    RunKeepsPatience(start, events);
  }

  /** No unit of the item is left, and neither this number nor its user has one. */
  ghost predicate NoUnitFor(w: World, t: Task) {
    && t.item in w.inv.db.items && w.inv.db.items[t.item].available == 0
    && forall r :: r in w.inv.db.reservations && w.inv.db.reservations[r].item == t.item ==> r != t.orderNo && w.inv.db.reservations[r].user != t.user
  }

  lemma HopelessMeans(w: World, t: Task)
    requires Inventory.DbInv(w.inv.db) && Hopeless(w.inv.db, t)
    ensures NoUnitFor(w, t)
  {
    HopelessShort(w.inv.db, t);
    Inventory.RefusedUserHasNone(w.inv.db, InputOf(t));
    hide Inventory.DbInv;
  }

  lemma HopelessShort(db: Inventory.Db, t: Task)
    requires Inventory.DbInv(db) && Hopeless(db, t)
    ensures t.item in db.items && db.items[t.item].available == 0
    ensures Inventory.PhaseInv(db, InputOf(t), Inventory.Answered(Inventory.Refused(Inventory.OutOfStock)))
  {
    hide Inventory.Conserved;
  }

  lemma HopelessHasNone(w: World, o: string)
    requires ReservationsOk(w.inv.db.reservations, w.admitted) && o in w.admitted && w.admitted[o].orderNo == o && Hopeless(w.inv.db, w.admitted[o])
    ensures !HasUnit(w.inv.db, InputOf(w.admitted[o]))
  {
    if o in w.inv.db.reservations {
      ReservationOfAdmission(w, o);
    }
  }

  lemma DlqEntryPatient(w: World, item: nat, i: nat)
    requires Patient(w) && item in w.slots && i < |w.slots[item].dlq|
    ensures EntryPatient(w.slots[item].dlq[i], w.admitted, w.maxDeliveries, w.inv.db)
  {
    hide WorkersPatient;
    hide EntryPatient;
    assert DlqPatient(w.slots[item].dlq, w.admitted, w.maxDeliveries, w.inv.db);
  }

  lemma EntryMeans(e: DlqEntry, w: World)
    requires EntryPatient(e, w.admitted, w.maxDeliveries, w.inv.db)
    ensures e.orderNo in w.admitted
    ensures 0 < w.admitted[e.orderNo].reservedAt ==> e.attempts == w.maxDeliveries || Hopeless(w.inv.db, w.admitted[e.orderNo])
  {
    hide Hopeless;
  }

  /** In every run, however late a publish comes, each DLQ entry belongs to an admitted request, and if that request's
      time is positive the entry records exactly the maximal number of failures, unless the item is sold out with
      nothing for this number or its user. */
  lemma DeadLettersWereTried(start: World, events: seq<Event>, w: World, item: nat, i: nat)
    requires Reachable(start, events, w) && item in w.slots && i < |w.slots[item].dlq|
    ensures var e := w.slots[item].dlq[i];
            && e.orderNo in w.admitted
            && (0 < w.admitted[e.orderNo].reservedAt ==> e.attempts == w.maxDeliveries || NoUnitFor(w, w.admitted[e.orderNo]))
  {
    hide *;
    ReachablePatient(start, events, w);
    ReachableCore(start, events, w);
    Open(w);
    Inventory.ServiceInvDb(w.inv);
    DlqEntryPatient(w, item, i);
    var e := w.slots[item].dlq[i];
    EntryMeans(e, w);
    if Hopeless(w.inv.db, w.admitted[e.orderNo]) {
      HopelessMeans(w, w.admitted[e.orderNo]);
    }
  }

  /** In timely runs the exception never happens: nothing healthy is given up early. */
  lemma TimelyDeadLettersWereTried(start: World, events: seq<Event>, w: World, item: nat, i: nat)
    requires Reached(start, events, w) && item in w.slots && i < |w.slots[item].dlq|
    ensures var e := w.slots[item].dlq[i];
            e.orderNo in w.admitted && (0 < w.admitted[e.orderNo].reservedAt ==> e.attempts == w.maxDeliveries)
  {
    hide *;
    ReachedInv(start, events, w);
    ReachablePatient(start, events, w);
    Open(w);
    Inventory.ServiceInvDb(w.inv);
    DlqEntryPatient(w, item, i);
    var e := w.slots[item].dlq[i];
    EntryMeans(e, w);
    AlwaysAUnit(w, e.orderNo);
    AdmittedInSale(w, e.orderNo);
    if Hopeless(w.inv.db, w.admitted[e.orderNo]) {
      HopelessHasNone(w, e.orderNo);
    }
  }
}
