/** Every action of the pipeline keeps the invariant. The lemmas about one component come first; an action's
    own lemma hides all definitions and only puts the components together. */
module PipelineSteps {
  import opened Text
  import opened OrderNumbers
  import opened StreamMessages
  import opened RedisSlot
  import OrderEvents
  import Inventory
  import Orders
  import opened Pipeline
  import opened PipelineInvariant

  lemma Open(w: World)
    requires CoreInv(w)
    ensures RedisInv(w) && StoreInv(w) && FlowInv(w)
    ensures SlotsOk(w.slots, w.sales, w.admitted, w.ord.orders.Keys, w.maxDeliveries)
    ensures NoneLost(w.admitted, w.slots, w.ord.orders.Keys)
    ensures Inventory.ServiceInv(w.inv) && StockOk(w.inv.db.items, w.sales) && ReservationsOk(w.inv.db.reservations, w.admitted)
    ensures CallsOk(w.inv.calls, w.admitted) && Orders.OutboxMatches(w.ord)
    ensures StreamOrdersOk(w.ord.orders, w.sales, w.admitted)
    ensures SalesOk(w.sales) && w.maxDeliveries > 0 && AdmissionsOk(w.admitted, w.sales, w.clock)
    ensures RequestsOk(w.requests, w.sales, w.admitted)
    ensures WorkersOk(w.workers, w.sales, w.admitted, w.ord.orders.Keys)
    ensures MessagesHeld(w.workers, w.slots) && PreheatsOk(w.preheats, w.sales)
  {
  }

  lemma Close(w: World)
    requires SlotsOk(w.slots, w.sales, w.admitted, w.ord.orders.Keys, w.maxDeliveries)
    requires NoneLost(w.admitted, w.slots, w.ord.orders.Keys)
    requires Inventory.ServiceInv(w.inv) && StockOk(w.inv.db.items, w.sales) && ReservationsOk(w.inv.db.reservations, w.admitted)
    requires CallsOk(w.inv.calls, w.admitted) && Orders.OutboxMatches(w.ord)
    requires StreamOrdersOk(w.ord.orders, w.sales, w.admitted)
    requires SalesOk(w.sales) && w.maxDeliveries > 0 && AdmissionsOk(w.admitted, w.sales, w.clock)
    requires RequestsOk(w.requests, w.sales, w.admitted)
    requires WorkersOk(w.workers, w.sales, w.admitted, w.ord.orders.Keys)
    requires MessagesHeld(w.workers, w.slots) && PreheatsOk(w.preheats, w.sales)
    ensures CoreInv(w)
  {
  }

  // ---------------------------------------------------------------- workers

  lemma PutWorker(w: World, worker: nat, k: Worker)
    requires WorkersOk(w.workers, w.sales, w.admitted, w.ord.orders.Keys) && MessagesHeld(w.workers, w.slots)
    requires WorkerOk(k, w.sales, w.admitted, w.ord.orders.Keys) && HoldsMessage(k, w.slots)
    ensures var ws := w.workers[worker := k];
            WorkersOk(ws, w.sales, w.admitted, w.ord.orders.Keys) && MessagesHeld(ws, w.slots)
  {
    hide WorkerOk;
    hide HoldsMessage;
  }

  lemma OneWorker(w: World, worker: nat, k: Worker)
    requires CoreInv(w)
    requires WorkerOk(k, w.sales, w.admitted, w.ord.orders.Keys) && HoldsMessage(k, w.slots)
    ensures CoreInv(w.(workers := w.workers[worker := k]))
  {
    hide *;
    Open(w);
    PutWorker(w, worker, k);
    Close(w.(workers := w.workers[worker := k]));
  }

  lemma FewerWorkers(w: World, worker: nat)
    requires WorkersOk(w.workers, w.sales, w.admitted, w.ord.orders.Keys) && MessagesHeld(w.workers, w.slots)
    ensures var ws := w.workers - {worker};
            WorkersOk(ws, w.sales, w.admitted, w.ord.orders.Keys) && MessagesHeld(ws, w.slots)
  {
    hide WorkerOk;
    hide HoldsMessage;
  }

  lemma DropWorker(w: World, worker: nat)
    requires CoreInv(w)
    ensures CoreInv(w.(workers := w.workers - {worker}))
  {
    hide *;
    Open(w);
    FewerWorkers(w, worker);
    Close(w.(workers := w.workers - {worker}));
  }

  lemma WorkerFacts(w: World, worker: nat)
    requires worker in w.workers
    requires WorkersOk(w.workers, w.sales, w.admitted, w.ord.orders.Keys) && MessagesHeld(w.workers, w.slots)
    ensures WorkerOk(w.workers[worker], w.sales, w.admitted, w.ord.orders.Keys)
    ensures HoldsMessage(w.workers[worker], w.slots)
  {
    hide WorkerOk;
    hide HoldsMessage;
  }

  /** A worker that moves on with the same message and order number still holds its message. */
  lemma StillHolds(k: Worker, k': Worker, slots: map<nat, Slot>)
    requires HoldsMessage(k, slots) && k'.item == k.item && k'.id == k.id && OrderNoOf(k') == OrderNoOf(k)
    ensures HoldsMessage(k', slots)
  {
  }

  // ---------------------------------------------------------------- fetching

  function FetchedBy(item: nat, id: nat, f: Fields): (k: Worker) {
    match Decode(item, IdText(id), f)
    case Decoded(t) => Reserving(item, id, t)
    case Undecodable(orderNo, user, error) =>
      Failing(item, id, orderNo, user, if error.UnsupportedMessage? then "unsupported_message" else "invalid_message", true)
  }

  lemma FetchedWorkerOk(item: nat, id: nat, f: Fields, sales: map<nat, Sale>, admitted: Admissions, clock: int, orders: set<string>)
    requires MessageOk(item, f, admitted) && AdmissionsOk(admitted, sales, clock)
    ensures WorkerOk(FetchedBy(item, id, f), sales, admitted, orders)
    ensures var k := FetchedBy(item, id, f); k.item == item && k.id == id && OrderNo in f && OrderNoOf(k) == f[OrderNo]
  {
    var t := admitted[f[OrderNo]];
    assert AdmissionOk(f[OrderNo], t, sales, clock);
    DecodeEncode(t, IdText(id));
    hide Decode;
    hide Encode;
    hide Admissible;
    hide StreamOrderItemId;
    hide OrderEvents.SourceOf;
  }

  lemma FetchEffect(w: World, worker: nat, item: nat, id: nat)
    ensures if worker in w.workers || item !in w.slots || id !in w.slots[item].stream
            then DoFetch(w, worker, item, id) == w
            else DoFetch(w, worker, item, id) == w.(workers := w.workers[worker := FetchedBy(item, id, w.slots[item].stream[id])])
  {
    hide Decode;
  }

  lemma StreamMessageOk(w: World, item: nat, id: nat)
    requires SlotsOk(w.slots, w.sales, w.admitted, w.ord.orders.Keys, w.maxDeliveries) && item in w.slots && id in w.slots[item].stream
    ensures id <= w.slots[item].lastId && MessageOk(item, w.slots[item].stream[id], w.admitted)
  {
    hide MessageOk;
    hide HashOk;
    hide RetriesOk;
    hide ResultsOk;
    hide LedgerOk;
    assert SlotOk(item, w.slots[item], w.sales[item], w.admitted, w.ord.orders.Keys, w.maxDeliveries);
  }

  lemma FetchedHolds(slots: map<nat, Slot>, item: nat, id: nat, k: Worker)
    requires item in slots && id in slots[item].stream && id <= slots[item].lastId && OrderNo in slots[item].stream[id]
    requires k.item == item && k.id == id && OrderNoOf(k) == slots[item].stream[id][OrderNo]
    ensures HoldsMessage(k, slots)
  {
  }

  lemma FetchKeepsCore(w: World, worker: nat, item: nat, id: nat)
    requires CoreInv(w)
    ensures CoreInv(DoFetch(w, worker, item, id))
  {
    hide *;
    Open(w);
    FetchEffect(w, worker, item, id);
    if worker !in w.workers && item in w.slots && id in w.slots[item].stream {
      var k := FetchedBy(item, id, w.slots[item].stream[id]);
      StreamMessageOk(w, item, id);
      FetchedWorkerOk(item, id, w.slots[item].stream[id], w.sales, w.admitted, w.clock, w.ord.orders.Keys);
      FetchedHolds(w.slots, item, id, k);
      OneWorker(w, worker, k);
    }
  }

  // ---------------------------------------------------------------- giving up, receiving

  lemma FailingOk(k: Worker, code: string, terminal: bool, sales: map<nat, Sale>, admitted: Admissions, orders: set<string>)
    requires WorkerOk(k, sales, admitted, orders) && !k.Failing?
    ensures WorkerOk(Failing(k.item, k.id, k.task.orderNo, k.task.user, code, terminal), sales, admitted, orders)
    ensures OrderNoOf(Failing(k.item, k.id, k.task.orderNo, k.task.user, code, terminal)) == OrderNoOf(k)
  {
  }

  lemma TurnFailing(w: World, worker: nat, code: string, terminal: bool)
    requires CoreInv(w) && worker in w.workers && !w.workers[worker].Failing?
    ensures var k := w.workers[worker];
            CoreInv(w.(workers := w.workers[worker := Failing(k.item, k.id, k.task.orderNo, k.task.user, code, terminal)]))
  {
    hide *;
    Open(w);
    WorkerFacts(w, worker);
    var k := w.workers[worker];
    var k' := Failing(k.item, k.id, k.task.orderNo, k.task.user, code, terminal);
    FailingOk(k, code, terminal, w.sales, w.admitted, w.ord.orders.Keys);
    StillHolds(k, k', w.slots);
    OneWorker(w, worker, k');
  }

  /** Whichever reservation a grant names, it is one of the request's item, with the item's frozen snapshot. */
  lemma GrantFitsItem(w: World, call: nat)
    requires Inventory.ServiceInv(w.inv) && call in w.inv.calls && StockOk(w.inv.db.items, w.sales)
    requires w.inv.calls[call].phase.Answered? && w.inv.calls[call].phase.answer.Granted?
    ensures var r, i := w.inv.calls[call].phase.answer.reservation, w.inv.calls[call].input;
            i.item in w.sales && r.snapshot == w.sales[i.item].snapshot
  {
    GrantStored(w.inv, call);
    hide Inventory.ServiceInv;
  }

  lemma GrantStored(s: Inventory.Service, call: nat)
    requires Inventory.ServiceInv(s) && call in s.calls && s.calls[call].phase.Answered? && s.calls[call].phase.answer.Granted?
    ensures var r, i := s.calls[call].phase.answer.reservation, s.calls[call].input;
            && r.orderNo in s.db.reservations && s.db.reservations[r.orderNo] == r && Inventory.KeyOf(r) == Inventory.KeyOfInput(i)
            && r.item in s.db.items && s.db.items[r.item].snapshot == r.snapshot
  {
    var c := s.calls[call];
    assert Inventory.PhaseInv(s.db, c.input, c.phase);
    hide Inventory.Conserved;
    hide Inventory.Indexed;
    hide Inventory.ServiceInv;
    assert Inventory.DbInv(s.db) by { Inventory.ServiceInvDb(s); }
  }

  lemma ReceivedOk(k: Worker, r: Inventory.Reservation, sales: map<nat, Sale>, admitted: Admissions, orders: set<string>)
    requires WorkerOk(k, sales, admitted, orders) && k.Reserving?
    requires k.task.item in sales && r.snapshot == sales[k.task.item].snapshot
    ensures WorkerOk(Ordering(k.item, k.id, k.task, r.snapshot), sales, admitted, orders)
    ensures OrderNoOf(Ordering(k.item, k.id, k.task, r.snapshot)) == OrderNoOf(k)
  {
  }

  lemma ReceiveKeepsCore(w: World, worker: nat, call: nat)
    requires CoreInv(w)
    ensures CoreInv(DoReceiveReservation(w, worker, call))
  {
    ReceiveEffect(w, worker, call);
    hide *;
    if !Receives(w, worker, call) {
    } else if w.inv.calls[call].phase.answer.Refused? {
      var e := w.inv.calls[call].phase.answer.error;
      RefusalEffect(w.workers[worker], e);
      var k' := RefusedWorker(w.workers[worker].item, w.workers[worker].id, w.workers[worker].task, e);
      TurnFailing(w, worker, k'.code, k'.terminal);
    } else {
      Open(w);
      WorkerFacts(w, worker);
      GrantFitsItem(w, call);
      var k, r := w.workers[worker], w.inv.calls[call].phase.answer.reservation;
      var k' := Ordering(k.item, k.id, k.task, r.snapshot);
      ReceivedOk(k, r, w.sales, w.admitted, w.ord.orders.Keys);
      StillHolds(k, k', w.slots);
      OneWorker(w, worker, k');
    }
  }

  predicate Receives(w: World, worker: nat, call: nat) { CanReceive(w, worker, call) }

  lemma RefusalEffect(k: Worker, e: Inventory.Error)
    requires k.Reserving?
    ensures var k' := RefusedWorker(k.item, k.id, k.task, e);
            k'.Failing? && k' == Failing(k.item, k.id, k.task.orderNo, k.task.user, k'.code, k'.terminal)
  {
  }

  lemma ReceiveEffect(w: World, worker: nat, call: nat)
    ensures Receives(w, worker, call) ==>
              && worker in w.workers && w.workers[worker].Reserving? && call in w.inv.calls && w.inv.calls[call].phase.Answered?
              && w.inv.calls[call].input.orderNo == w.workers[worker].task.orderNo
              && w.inv.calls[call].input.item == w.workers[worker].task.item
              && OrderNoOf(w.workers[worker]) == w.workers[worker].task.orderNo
    ensures DoReceiveReservation(w, worker, call) ==
              if !Receives(w, worker, call) then w
              else w.(workers := w.workers[worker :=
                match w.inv.calls[call].phase.answer
                case Granted(r, _) => Ordering(w.workers[worker].item, w.workers[worker].id, w.workers[worker].task, r.snapshot)
                case Refused(e) => RefusedWorker(w.workers[worker].item, w.workers[worker].id, w.workers[worker].task, e)])
  {
  }

  lemma AbandonKeepsCore(w: World, worker: nat, why: GiveUp)
    requires CoreInv(w)
    ensures CoreInv(DoAbandonInventory(w, worker, why)) && CoreInv(DoAbandonOrder(w, worker))
  {
    hide CoreInv;
    if worker in w.workers && w.workers[worker].Reserving? {
      TurnFailing(w, worker, GiveUpCode(why), false);
    }
    if worker in w.workers && w.workers[worker].Ordering? {
      TurnFailing(w, worker, "reserved_without_order", false);
    }
  }

  // ---------------------------------------------------------------- one slot

  /** Messages of the old slot keep their fields as long as they stay; new ones get later ids. */
  ghost predicate StreamEvolves(s: Slot, s': Slot) {
    && s.lastId <= s'.lastId
    && forall id :: id in s'.stream ==> (id in s.stream && s'.stream[id] == s.stream[id]) || s.lastId < id
  }

  /** Every request the old slot accounts for is accounted for by the new one, or is an order. */
  ghost predicate KeepsRequests(s: Slot, s': Slot, orders: set<string>) {
    forall o :: InStream(s, o) || InDlq(s, o) ==> InStream(s', o) || InDlq(s', o) || o in orders
  }

  lemma EmptySlotOk(item: nat, sale: Sale, admitted: Admissions, orders: set<string>, maxDeliveries: nat)
    ensures SlotOk(item, EMPTY_SLOT, sale, admitted, orders, maxDeliveries)
  {
  }

  lemma CurrentSlotOk(w: World, item: nat)
    requires SlotsOk(w.slots, w.sales, w.admitted, w.ord.orders.Keys, w.maxDeliveries) && item in w.sales
    ensures SlotOk(item, SlotOf(w, item), w.sales[item], w.admitted, w.ord.orders.Keys, w.maxDeliveries)
    ensures item in w.slots ==> SlotOf(w, item) == w.slots[item]
    ensures item !in w.slots ==> SlotOf(w, item) == EMPTY_SLOT
  {
    EmptySlotOk(item, w.sales[item], w.admitted, w.ord.orders.Keys, w.maxDeliveries);
    hide SlotOk;
  }

  lemma PutSlotOk(slots: map<nat, Slot>, sales: map<nat, Sale>, admitted: Admissions, orders: set<string>, maxDeliveries: nat, item: nat, s: Slot)
    requires SlotsOk(slots, sales, admitted, orders, maxDeliveries) && item in sales
    requires SlotOk(item, s, sales[item], admitted, orders, maxDeliveries)
    ensures SlotsOk(slots[item := s], sales, admitted, orders, maxDeliveries)
  {
    hide SlotOk;
  }

  lemma PutSlotNoneLost(admitted: Admissions, slots: map<nat, Slot>, orders: set<string>, item: nat, s: Slot)
    requires NoneLost(admitted, slots, orders)
    requires item in slots ==> KeepsRequests(slots[item], s, orders)
    ensures NoneLost(admitted, slots[item := s], orders)
  {
    hide InStream;
    hide InDlq;
    forall o | o in admitted
      ensures Accounted(o, admitted[o], slots[item := s], orders)
    {
      assert Accounted(o, admitted[o], slots, orders);
    }
  }

  lemma PutSlotHeld(workers: map<nat, Worker>, slots: map<nat, Slot>, item: nat, s: Slot)
    requires MessagesHeld(workers, slots) && (item in slots ==> StreamEvolves(slots[item], s))
    ensures MessagesHeld(workers, slots[item := s])
  {
    forall k | k in workers
      ensures HoldsMessage(workers[k], slots[item := s])
    {
      assert HoldsMessage(workers[k], slots);
    }
  }

  /** Replacing one slot keeps the invariant when the new slot is sound and loses nothing. */
  lemma PutSlot(w: World, item: nat, s: Slot)
    requires CoreInv(w) && item in w.sales
    requires SlotOk(item, s, w.sales[item], w.admitted, w.ord.orders.Keys, w.maxDeliveries)
    requires item in w.slots ==> StreamEvolves(w.slots[item], s) && KeepsRequests(w.slots[item], s, w.ord.orders.Keys)
    ensures CoreInv(w.(slots := w.slots[item := s]))
  {
    hide *;
    Open(w);
    PutSlotOk(w.slots, w.sales, w.admitted, w.ord.orders.Keys, w.maxDeliveries, item, s);
    PutSlotNoneLost(w.admitted, w.slots, w.ord.orders.Keys, item, s);
    PutSlotHeld(w.workers, w.slots, item, s);
    Close(w.(slots := w.slots[item := s]));
  }

  lemma SameQueues(s: Slot, s': Slot, orders: set<string>)
    requires s'.stream == s.stream && s'.lastId == s.lastId && s'.dlq == s.dlq
    ensures StreamEvolves(s, s') && KeepsRequests(s, s', orders)
  {
    hide *;
    assert KeepsRequests(s, s', orders) by { SameQueuesKeep(s, s', orders); }
    assert StreamEvolves(s, s') by { SameQueuesEvolve(s, s'); }
  }

  lemma SameQueuesKeep(s: Slot, s': Slot, orders: set<string>)
    requires s'.stream == s.stream && s'.dlq == s.dlq
    ensures KeepsRequests(s, s', orders)
  {
  }

  lemma SameQueuesEvolve(s: Slot, s': Slot)
    requires s'.stream == s.stream && s'.lastId == s.lastId
    ensures StreamEvolves(s, s')
  {
  }

  // ---------------------------------------------------------------- preheat, publish, invalidate

  /** Before a sale starts nothing of its item has been admitted, so nothing has been reserved. */
  lemma UnsoldBeforeStart(w: World, item: nat)
    requires AdmissionsOk(w.admitted, w.sales, w.clock) && item in w.sales && w.clock < w.sales[item].startAt
    ensures AdmittedOf(w.admitted, item) == {}
    ensures forall o :: o in w.admitted ==> w.admitted[o].item != item
  {
    forall o | o in w.admitted
      ensures w.admitted[o].item != item
    {
      assert AdmissionOk(o, w.admitted[o], w.sales, w.clock);
    }
  }

  lemma FullStockBeforeStart(w: World, item: nat)
    requires Inventory.DbInv(w.inv.db) && StockOk(w.inv.db.items, w.sales) && ReservationsOk(w.inv.db.reservations, w.admitted)
    requires AdmissionsOk(w.admitted, w.sales, w.clock) && item in w.sales && w.clock < w.sales[item].startAt
    ensures w.inv.db.items[item].available == w.sales[item].initial
  {
    UnsoldBeforeStart(w, item);
    hide AdmissionsOk;
    hide Inventory.Genuine;
    hide Inventory.Indexed;
    assert Inventory.ReservedOf(w.inv.db, item) == {} by {
      forall o | o in w.inv.db.reservations
        ensures w.inv.db.reservations[o].item != item
      {
        assert ReservationOk(o, w.inv.db.reservations[o], w.admitted);
      }
    }
  }

  lemma LoadKeepsCore(w: World, item: nat)
    requires CoreInv(w)
    ensures CoreInv(DoLoadPreheat(w, item))
  {
    LoadEffect(w, item);
    hide *;
    var w' := DoLoadPreheat(w, item);
    if w' != w {
      Open(w);
      Inventory.ServiceInvDb(w.inv);
      FullStockBeforeStart(w, item);
      assert PreheatsOk(w'.preheats, w'.sales) by {
        MorePreheats(w, Preheat(item, w.inv.db.items[item].available, w.inv.db.items[item].version));
      }
      Close(w');
    }
  }

  lemma MorePreheats(w: World, p: Preheat)
    requires PreheatsOk(w.preheats, w.sales) && p.item in w.sales && p.stock == w.sales[p.item].initial
    ensures PreheatsOk(w.preheats + {p}, w.sales)
  {
  }

  lemma LoadEffect(w: World, item: nat)
    ensures var w' := DoLoadPreheat(w, item);
            w' == w || (&& item in w.sales && item in w.inv.db.items && w.clock < w.sales[item].startAt
                        && w' == w.(preheats := w.preheats + {Preheat(item, w.inv.db.items[item].available, w.inv.db.items[item].version)}))
  {
  }

  lemma GateChange(w: World, item: nat, h: StateHash, buyers: map<nat, string>)
    requires CoreInv(w) && item in w.sales && HashOk(item, h, w.sales[item])
    ensures CoreInv(w.(slots := w.slots[item := SlotOf(w, item).(state := h, buyers := buyers)]))
  {
    hide *;
    Open(w);
    CurrentSlotOk(w, item);
    var s := SlotOf(w, item);
    var s' := s.(state := h, buyers := buyers);
    HashSwap(item, s, h, buyers, w.sales[item], w.admitted, w.ord.orders.Keys, w.maxDeliveries);
    SameQueues(s, s', w.ord.orders.Keys);
    PutSlot(w, item, s');
  }

  lemma HashSwap(item: nat, s: Slot, h: StateHash, buyers: map<nat, string>, sale: Sale, admitted: Admissions, orders: set<string>, maxDeliveries: nat)
    requires SlotOk(item, s, sale, admitted, orders, maxDeliveries) && HashOk(item, h, sale)
    ensures SlotOk(item, s.(state := h, buyers := buyers), sale, admitted, orders, maxDeliveries)
  {
    hide HashOk;
    hide MessageOk;
    hide ResultOk;
    hide RetriesOk;
    hide LedgerOk;
  }

  lemma PublishedHashOk(item: nat, sale: Sale, stock: int, generation: string)
    ensures HashOk(item, HashOf(item, sale, stock, generation), sale) && HashOk(item, NO_STATE, sale)
  {
  }

  lemma PublishEffect(w: World, read: Preheat)
    ensures if read !in w.preheats || read.item !in w.sales then DoPublish(w, read) == w
            else DoPublish(w, read) == w.(slots := w.slots[read.item := SlotOf(w, read.item).(
                   state := HashOf(read.item, w.sales[read.item], read.stock, Generation(w.sales[read.item], read.version)), buyers := map[])])
  {
    hide Generation;
  }

  /** However late it comes, a publish touches neither stream nor results, DLQ or ledger. */
  lemma PublishKeepsCore(w: World, read: Preheat)
    requires CoreInv(w)
    ensures CoreInv(DoPublish(w, read))
  {
    hide *;
    PublishEffect(w, read);
    if read in w.preheats && read.item in w.sales {
      var sale := w.sales[read.item];
      PublishedHashOk(read.item, sale, read.stock, Generation(sale, read.version));
      GateChange(w, read.item, HashOf(read.item, sale, read.stock, Generation(sale, read.version)), map[]);
    }
  }

  lemma InvalidateEffect(w: World, item: nat)
    ensures DoInvalidate(w, item) ==
            if item in w.sales then w.(slots := w.slots[item := SlotOf(w, item).(state := NO_STATE, buyers := map[])]) else w
  {
  }

  lemma InvalidateKeepsCore(w: World, item: nat)
    requires CoreInv(w)
    ensures CoreInv(DoInvalidate(w, item))
  {
    hide *;
    InvalidateEffect(w, item);
    if item in w.sales {
      PublishedHashOk(item, w.sales[item], 0, "");
      GateChange(w, item, NO_STATE, map[]);
    }
  }

  // ---------------------------------------------------------------- reports

  lemma CompleteSlotOk(item: nat, s: Slot, id: nat, sale: Sale, admitted: Admissions, orders: set<string>, maxDeliveries: nat)
    requires SlotOk(item, s, sale, admitted, orders, maxDeliveries)
    ensures SlotOk(item, Complete(s, id), sale, admitted, orders, maxDeliveries)
  {
    hide HashOk;
    hide MessageOk;
    hide ResultOk;
    hide LedgerOk;
  }

  /** Completing removes the worker's own message, whose order is committed. */
  lemma CompleteKeeps(k: Worker, s: Slot, orders: set<string>)
    requires k.Completing? && k.task.orderNo in orders
    requires k.id in s.stream ==> OrderNo in s.stream[k.id] && s.stream[k.id][OrderNo] == k.task.orderNo
    ensures StreamEvolves(s, Complete(s, k.id)) && KeepsRequests(s, Complete(s, k.id), orders)
  {
    var s' := Complete(s, k.id);
    forall o | InStream(s, o)
      ensures InStream(s', o) || o in orders
    {
      var id :| id in s.stream && OrderNo in s.stream[id] && s.stream[id][OrderNo] == o;
      assert id != k.id ==> id in s'.stream;
    }
  }

  lemma SuccessEffect(w: World, worker: nat)
    ensures if worker !in w.workers || !w.workers[worker].Completing? then DoReportSuccess(w, worker) == w
            else DoReportSuccess(w, worker) == w.(
                   slots := w.slots[w.workers[worker].item := Complete(SlotOf(w, w.workers[worker].item), w.workers[worker].id)],
                   workers := w.workers - {worker})
  {
  }

  lemma CompletingFacts(k: Worker, w: World)
    requires k.Completing? && WorkerOk(k, w.sales, w.admitted, w.ord.orders.Keys) && HoldsMessage(k, w.slots)
    ensures k.task.orderNo in w.ord.orders.Keys && k.item in w.slots
    ensures k.id in w.slots[k.item].stream ==>
              OrderNo in w.slots[k.item].stream[k.id] && w.slots[k.item].stream[k.id][OrderNo] == k.task.orderNo
  {
  }

  lemma SlotHasSale(w: World, item: nat)
    requires SlotsOk(w.slots, w.sales, w.admitted, w.ord.orders.Keys, w.maxDeliveries) && item in w.slots
    ensures item in w.sales
  {
    hide SlotOk;
  }

  lemma SuccessKeepsCore(w: World, worker: nat)
    requires CoreInv(w)
    ensures CoreInv(DoReportSuccess(w, worker))
  {
    hide *;
    SuccessEffect(w, worker);
    if worker in w.workers && w.workers[worker].Completing? {
      Open(w);
      var k := w.workers[worker];
      WorkerFacts(w, worker);
      CompletingFacts(k, w);
      SlotHasSale(w, k.item);
      CurrentSlotOk(w, k.item);
      var s := w.slots[k.item];
      CompleteSlotOk(k.item, s, k.id, w.sales[k.item], w.admitted, w.ord.orders.Keys, w.maxDeliveries);
      CompleteKeeps(k, s, w.ord.orders.Keys);
      PutSlot(w, k.item, Complete(s, k.id));
      DropWorker(w.(slots := w.slots[k.item := Complete(s, k.id)]), worker);
    }
  }

  lemma FailSlotOk(item: nat, s: Slot, k: Worker, sale: Sale, admitted: Admissions, orders: set<string>, maxDeliveries: nat, failedAt: int)
    requires SlotOk(item, s, sale, admitted, orders, maxDeliveries)
    requires k.Failing? && k.orderNo in admitted && admitted[k.orderNo].item == item && admitted[k.orderNo].user == k.user
    ensures SlotOk(item, Fail(s, k.id, k.orderNo, k.user, k.code, k.terminal, maxDeliveries, failedAt), sale, admitted, orders, maxDeliveries)
  {
    hide HashOk;
    hide MessageOk;
    hide LedgerOk;
    hide ResultValue;
    var s' := Fail(s, k.id, k.orderNo, k.user, k.code, k.terminal, maxDeliveries, failedAt);
    assert ResultsOk(item, s'.results, admitted, orders) by {
      forall o | o in s'.results
        ensures ResultOk(item, o, s'.results[o], admitted, orders)
      {
        assert o in s.results ==> ResultOk(item, o, s.results[o], admitted, orders);
      }
    }
    hide ResultsOk;
  }

  /** A failing report keeps its message, or moves it to the DLQ under its own order number. */
  lemma FailKeeps(k: Worker, s: Slot, orders: set<string>, maxDeliveries: nat, failedAt: int)
    requires k.Failing?
    requires k.id in s.stream ==> OrderNo in s.stream[k.id] && s.stream[k.id][OrderNo] == k.orderNo
    ensures var s' := Fail(s, k.id, k.orderNo, k.user, k.code, k.terminal, maxDeliveries, failedAt);
            StreamEvolves(s, s') && KeepsRequests(s, s', orders)
  {
    hide ResultValue;
    var s' := Fail(s, k.id, k.orderNo, k.user, k.code, k.terminal, maxDeliveries, failedAt);
    if s'.dlq != s.dlq {
      assert s'.dlq[|s.dlq|].orderNo == k.orderNo;
      assert InDlq(s', k.orderNo);
    }
    forall o | InStream(s, o) || InDlq(s, o)
      ensures InStream(s', o) || InDlq(s', o)
    {
      if InDlq(s, o) {
        var i :| 0 <= i < |s.dlq| && s.dlq[i].orderNo == o;
        assert s'.dlq[i].orderNo == o;
      } else {
        var id :| id in s.stream && OrderNo in s.stream[id] && s.stream[id][OrderNo] == o;
        assert id != k.id ==> id in s'.stream && s'.stream[id] == s.stream[id];
      }
    }
  }

  lemma FailureEffect(w: World, worker: nat, failedAt: int)
    ensures if worker !in w.workers || !w.workers[worker].Failing? then DoReportFailure(w, worker, failedAt) == w
            else var k := w.workers[worker];
                 DoReportFailure(w, worker, failedAt) == w.(
                   slots := w.slots[k.item := Fail(SlotOf(w, k.item), k.id, k.orderNo, k.user, k.code, k.terminal, w.maxDeliveries, failedAt)],
                   workers := w.workers - {worker})
  {
    hide Fail;
  }

  lemma FailingFacts(k: Worker, w: World)
    requires k.Failing? && WorkerOk(k, w.sales, w.admitted, w.ord.orders.Keys) && HoldsMessage(k, w.slots)
    ensures k.orderNo in w.admitted && w.admitted[k.orderNo].item == k.item && w.admitted[k.orderNo].user == k.user && k.item in w.slots
    ensures k.id in w.slots[k.item].stream ==>
              OrderNo in w.slots[k.item].stream[k.id] && w.slots[k.item].stream[k.id][OrderNo] == k.orderNo
  {
  }

  lemma FailureKeepsCore(w: World, worker: nat, failedAt: int)
    requires CoreInv(w)
    ensures CoreInv(DoReportFailure(w, worker, failedAt))
  {
    hide *;
    FailureEffect(w, worker, failedAt);
    if worker in w.workers && w.workers[worker].Failing? {
      Open(w);
      var k := w.workers[worker];
      WorkerFacts(w, worker);
      FailingFacts(k, w);
      SlotHasSale(w, k.item);
      CurrentSlotOk(w, k.item);
      var s := w.slots[k.item];
      var s' := Fail(s, k.id, k.orderNo, k.user, k.code, k.terminal, w.maxDeliveries, failedAt);
      FailSlotOk(k.item, s, k, w.sales[k.item], w.admitted, w.ord.orders.Keys, w.maxDeliveries, failedAt);
      FailKeeps(k, s, w.ord.orders.Keys, w.maxDeliveries, failedAt);
      PutSlot(w, k.item, s');
      DropWorker(w.(slots := w.slots[k.item := s']), worker);
    }
  }

  // ---------------------------------------------------------------- projection

  lemma ProjectParts(s: Slot, e: string, o: string, u: nat)
    ensures var s' := Project(s, e, o, u).0;
            && s'.state == s.state && s'.buyers == s.buyers && s'.stream == s.stream && s'.lastId == s.lastId && s'.retries == s.retries
            && (s'.results == s.results || (o in s.results && s'.results == s.results[o := ResultValue(u, SUCCEEDED)]))
            && (s'.ledger == s.ledger || s'.ledger == s.ledger[e := o])
  {
    hide OwnedBy;
    hide ResultValue;
  }

  lemma SucceededOk(item: nat, results: map<string, string>, o: string, admitted: Admissions, orders: set<string>)
    requires ResultsOk(item, results, admitted, orders) && o in admitted && admitted[o].item == item && o in orders
    ensures ResultsOk(item, results[o := ResultValue(admitted[o].user, SUCCEEDED)], admitted, orders)
  {
    hide ResultValue;
    assert ResultOk(item, o, ResultValue(admitted[o].user, SUCCEEDED), admitted, orders);
    hide ResultOk;
  }

  lemma LedgerPut(ledger: map<string, string>, o: string)
    requires LedgerOk(ledger) && Trimmed(o)
    ensures LedgerOk(ledger[OrderEvents.StableEventId(o) := o])
  {
    hide Trimmed;
    hide OrderEvents.StableEventId;
  }

  lemma ProjectSlotOk(item: nat, s: Slot, orderNo: string, sale: Sale, admitted: Admissions, orders: set<string>, maxDeliveries: nat)
    requires SlotOk(item, s, sale, admitted, orders, maxDeliveries)
    requires orderNo in admitted && admitted[orderNo].item == item && orderNo in orders && Trimmed(orderNo)
    ensures var s' := Project(s, OrderEvents.StableEventId(orderNo), orderNo, admitted[orderNo].user).0;
            SlotOk(item, s', sale, admitted, orders, maxDeliveries)
  {
    ProjectParts(s, OrderEvents.StableEventId(orderNo), orderNo, admitted[orderNo].user);
    hide Project;
    hide HashOk;
    hide MessageOk;
    hide RetriesOk;
    hide ResultsOk;
    hide LedgerOk;
    hide ResultValue;
    hide Trimmed;
    hide OrderEvents.StableEventId;
    SucceededOk(item, s.results, orderNo, admitted, orders);
    LedgerPut(s.ledger, orderNo);
  }

  /** A committed seckill order names the item its request was admitted for. */
  lemma SeckillOrderFacts(w: World, orderNo: string)
    requires orderNo in w.ord.orders && OrderEvents.SourceOf(orderNo) == OrderEvents.SOURCE_SECKILL
    requires StreamOrdersOk(w.ord.orders, w.sales, w.admitted) && AdmissionsOk(w.admitted, w.sales, w.clock)
    requires Orders.OutboxMatches(w.ord)
    ensures orderNo in w.admitted && 0 < w.admitted[orderNo].reservedAt && w.ord.orders[orderNo].user == w.admitted[orderNo].user
    ensures StreamOrderItemId(orderNo) == Some(w.admitted[orderNo].item) && w.admitted[orderNo].item in w.sales
    ensures Trimmed(orderNo) && TrimSpace(orderNo) == orderNo && 0 < w.admitted[orderNo].user <= MAX_UINT64
  {
    assert StreamOrderOk(orderNo, w.ord.orders[orderNo], w.sales, w.admitted);
    assert AdmissionOk(orderNo, w.admitted[orderNo], w.sales, w.clock);
    assert Trimmed(orderNo) by { hide Orders.RowsSound; hide Orders.RowsDistinct; hide Orders.HasRow; hide Orders.EventOf; }
    Trims(orderNo);
    hide Orders.OutboxMatches;
    hide Orders.NormalizeItems;
    hide StreamOrderItemId;
    hide Trimmed;
    hide TrimSpace;
    hide OrderEvents.SourceOf;
  }

  /** A committed order has an event, which carries the order's own data. */
  lemma OrderEvent(db: Orders.Db, o: string)
    requires Orders.OutboxMatches(db) && o in db.orders
    ensures Orders.EventOf(db.orders[o]).Some?
    ensures var e := Orders.EventOf(db.orders[o]).value;
            && e.orderNo == o && TrimSpace(o) == o && e.user == db.orders[o].user && e.eventId == OrderEvents.StableEventId(o)
            && (e.source == OrderEvents.SOURCE_SECKILL <==> OrderEvents.SourceOf(o) == OrderEvents.SOURCE_SECKILL)
  {
    assert db.orders[o].orderNo == o && Trimmed(o) && Orders.EventOf(db.orders[o]).Some? by {
      hide Orders.RowsSound; hide Orders.RowsDistinct; hide Orders.HasRow; hide Orders.EventOf; hide Trimmed;
    }
    Orders.EventTells(db.orders[o]);
    Trims(o);
    hide Orders.OutboxMatches;
    hide Orders.EventOf;
    hide TrimSpace;
    hide Trimmed;
  }

  /** A projection changes one slot by its script, if anything. */
  lemma ProjectOneSlot(w: World, orderNo: string) returns (item: nat, e: string, o: string, u: nat)
    ensures DoProject(w, orderNo) == w || DoProject(w, orderNo) == w.(slots := w.slots[item := Project(SlotOf(w, item), e, o, u).0])
  {
    item, e, o, u := 0, "", "", 0;
    hide Project;
    hide StreamOrderItemId;
    hide TrimSpace;
    hide Orders.EventOf;
    hide SlotOf;
    if orderNo in w.ord.orders && Orders.EventOf(w.ord.orders[orderNo]).Some? {
      var event := Orders.EventOf(w.ord.orders[orderNo]).value;
      if ProjectionOfEvent(w, event).Into? {
        item, e, o, u := ProjectionOfEvent(w, event).item, event.eventId, TrimSpace(event.orderNo), event.user;
      }
    }
  }

  /** The projector acts on the event as it would on the order: seckill orders go to the item their number names. */
  lemma ProjectEffect(w: World, orderNo: string)
    requires Orders.OutboxMatches(w.ord)
    ensures if orderNo !in w.ord.orders || OrderEvents.SourceOf(orderNo) != OrderEvents.SOURCE_SECKILL || StreamOrderItemId(orderNo).None?
            then DoProject(w, orderNo) == w
            else var item := StreamOrderItemId(orderNo).value;
                 DoProject(w, orderNo) == w.(slots := w.slots[item :=
                   Project(SlotOf(w, item), OrderEvents.StableEventId(orderNo), TrimSpace(orderNo), w.ord.orders[orderNo].user).0])
  {
    if orderNo in w.ord.orders {
      OrderEvent(w.ord, orderNo);
    }
    hide Orders.OutboxMatches;
    hide Orders.EventOf;
    hide Project;
    hide StreamOrderItemId;
    hide TrimSpace;
    hide OrderEvents.SourceOf;
    hide OrderEvents.StableEventId;
    hide SlotOf;
  }

  lemma ProjectQueues(s: Slot, e: string, o: string, u: nat)
    ensures var s' := Project(s, e, o, u).0; s'.stream == s.stream && s'.lastId == s.lastId && s'.dlq == s.dlq
  {
    hide OwnedBy;
    hide ResultValue;
  }

  lemma ProjectKeepsCore(w: World, orderNo: string)
    requires CoreInv(w)
    ensures CoreInv(DoProject(w, orderNo))
  {
    hide *;
    Open(w);
    ProjectEffect(w, orderNo);
    if orderNo in w.ord.orders && OrderEvents.SourceOf(orderNo) == OrderEvents.SOURCE_SECKILL && StreamOrderItemId(orderNo).Some? {
      SeckillOrderFacts(w, orderNo);
      var item := w.admitted[orderNo].item;
      CurrentSlotOk(w, item);
      var s := SlotOf(w, item);
      var e, u := OrderEvents.StableEventId(orderNo), w.admitted[orderNo].user;
      ProjectSlotOk(item, s, orderNo, w.sales[item], w.admitted, w.ord.orders.Keys, w.maxDeliveries);
      ProjectQueues(s, e, orderNo, u);
      SameQueues(s, Project(s, e, orderNo, u).0, w.ord.orders.Keys);
      PutSlot(w, item, Project(s, e, orderNo, u).0);
    }
  }
}
