/** An admission keeps the invariant. Admissions are only ever added, so whatever refers to earlier ones
    stays true; what is new is the gate's own bookkeeping. */
module PipelineAdmission {
  import opened Text
  import opened OrderNumbers
  import opened StreamMessages
  import opened RedisSlot
  import OrderEvents
  import Inventory
  import Orders
  import opened Pipeline
  import opened PipelineInvariant
  import opened PipelineSteps

  // ---------------------------------------------------------------- more admissions

  lemma ReservationsKeep(rs: map<string, Inventory.Reservation>, a: Admissions, o: string, t: Task)
    requires ReservationsOk(rs, a) && o !in a
    ensures ReservationsOk(rs, a[o := t])
  {
    forall p | p in rs
      ensures ReservationOk(p, rs[p], a[o := t])
    {
      assert ReservationOk(p, rs[p], a);
    }
  }

  lemma CallsKeep(calls: map<nat, Inventory.Call>, a: Admissions, o: string, t: Task)
    requires CallsOk(calls, a) && o !in a
    ensures CallsOk(calls, a[o := t])
  {
    forall c | c in calls
      ensures CallOk(calls[c], a[o := t])
    {
      assert CallOk(calls[c], a);
    }
  }

  lemma StreamOrdersKeep(orders: map<string, Orders.Order>, sales: map<nat, Sale>, a: Admissions, o: string, t: Task)
    requires StreamOrdersOk(orders, sales, a) && o !in a
    ensures StreamOrdersOk(orders, sales, a[o := t])
  {
    hide OrderMatches;
    hide OrderEvents.SourceOf;
    forall p | p in orders
      ensures StreamOrderOk(p, orders[p], sales, a[o := t])
    {
      assert StreamOrderOk(p, orders[p], sales, a);
    }
  }

  lemma RequestsKeep(requests: set<OrderRequest>, sales: map<nat, Sale>, a: Admissions, o: string, t: Task)
    requires RequestsOk(requests, sales, a) && o !in a
    ensures RequestsOk(requests, sales, a[o := t])
  {
    hide SnapshotOk;
  }

  lemma WorkersKeep(workers: map<nat, Worker>, sales: map<nat, Sale>, a: Admissions, orders: set<string>, o: string, t: Task)
    requires WorkersOk(workers, sales, a, orders) && o !in a
    ensures WorkersOk(workers, sales, a[o := t], orders)
  {
    hide SnapshotOk;
    forall k | k in workers
      ensures WorkerOk(workers[k], sales, a[o := t], orders)
    {
      assert WorkerOk(workers[k], sales, a, orders);
    }
  }

  lemma AdmissionsKeep(a: Admissions, sales: map<nat, Sale>, clock: int, o: string, t: Task)
    requires AdmissionsOk(a, sales, clock) && AdmissionOk(o, t, sales, clock)
    ensures AdmissionsOk(a[o := t], sales, clock)
  {
    hide AdmissionOk;
  }

  lemma AdmittedOfGrows(a: Admissions, o: string, t: Task, item: nat)
    requires o !in a
    ensures AdmittedOf(a[o := t], item) == AdmittedOf(a, item) + if item == t.item then {o} else {}
    ensures |AdmittedOf(a[o := t], item)| == |AdmittedOf(a, item)| + if item == t.item then 1 else 0
  {
    var added: set<string> := if item == t.item then {o} else {};
    assert AdmittedOf(a[o := t], item) == AdmittedOf(a, item) + added;
    assert AdmittedOf(a, item) !! added;
  }

  /** An admission leaves what a slot already holds as it was. */
  lemma OtherSlotKeeps(item: nat, s: Slot, sale: Sale, a: Admissions, orders: set<string>, maxDeliveries: nat, o: string, t: Task)
    requires SlotOk(item, s, sale, a, orders, maxDeliveries) && o !in a
    ensures SlotOk(item, s, sale, a[o := t], orders, maxDeliveries)
  {
    hide *;
    SlotParts(item, s, sale, a, orders, maxDeliveries);
    StreamKeeps(item, s, a, o, t);
    ResultsKeep(item, s.results, a, orders, o, t);
    SlotFromParts(item, s, sale, a[o := t], orders, maxDeliveries);
  }

  lemma SlotFromParts(item: nat, s: Slot, sale: Sale, a: Admissions, orders: set<string>, maxDeliveries: nat)
    requires HashOk(item, s.state, sale) && StreamOk(item, s, a) && RetriesOk(s.retries, maxDeliveries)
    requires ResultsOk(item, s.results, a, orders) && LedgerOk(s.ledger)
    ensures SlotOk(item, s, sale, a, orders, maxDeliveries)
  {
  }

  lemma SlotParts(item: nat, s: Slot, sale: Sale, a: Admissions, orders: set<string>, maxDeliveries: nat)
    requires SlotOk(item, s, sale, a, orders, maxDeliveries)
    ensures HashOk(item, s.state, sale) && StreamOk(item, s, a) && RetriesOk(s.retries, maxDeliveries)
    ensures ResultsOk(item, s.results, a, orders) && LedgerOk(s.ledger)
  {
  }

  lemma StreamKeeps(item: nat, s: Slot, a: Admissions, o: string, t: Task)
    requires StreamOk(item, s, a) && o !in a
    ensures StreamOk(item, s, a[o := t])
  {
    hide Encode;
    forall id | id in s.stream
      ensures MessageOk(item, s.stream[id], a[o := t])
    {
      assert MessageOk(item, s.stream[id], a);
    }
  }

  lemma ResultsKeep(item: nat, results: map<string, string>, a: Admissions, orders: set<string>, o: string, t: Task)
    requires ResultsOk(item, results, a, orders) && o !in a
    ensures ResultsOk(item, results, a[o := t], orders)
  {
    hide ResultValue;
    forall p | p in results
      ensures ResultOk(item, p, results[p], a[o := t], orders)
    {
      assert ResultOk(item, p, results[p], a, orders);
    }
  }

  // ---------------------------------------------------------------- admitting

  /** What the script has established when it admits. */
  ghost predicate Admits(s: Slot, t: Task) {
    && s.state.ready && t.user !in s.buyers && OnSale(s.state, t.reservedAt)
    && s.state.stock.Some? && 0 < s.state.stock.value && s.state.activity == Some(t.activity)
  }

  /** The request an admission files. */
  ghost function RequestOf(s: Slot, item: nat, user: nat, now: int, random: Random): (t: Task)
    ensures t.item == item && t.user == user && t.reservedAt == now && t.orderNo == StreamOrderText(now, item, random)
  {
    Task(StreamOrderText(now, item, random), user, if s.state.activity.Some? then s.state.activity.value else 0, item, now)
  }

  lemma EnqueueEffect(w: World, item: nat, user: nat, now: int, random: Random)
    ensures var w' := DoEnqueue(w, item, user, now, random); var s := SlotOf(w, item); var t := RequestOf(s, item, user, now, random);
            || w' == w
            || (&& CanEnqueue(w, item, user, now, random) && Admits(s, t)
                && w' == w.(slots := w.slots[item := Admit(s, t)], admitted := w.admitted[t.orderNo := t]))
  {
    hide StreamOrderText;
    hide CanEnqueue;
    hide Admit;
  }

  /** Whatever hash admits a request, it is of the request's activity and its time falls into the sale. */
  lemma HashFacts(item: nat, s: Slot, sale: Sale, t: Task)
    requires HashOk(item, s.state, sale) && Admits(s, t)
    ensures t.activity == sale.activity && sale.startAt <= t.reservedAt < sale.endAt
  {
  }

  lemma StreamNumber(now: int, item: nat, random: Random)
    requires FitsInt64(now) && 0 < item <= MAX_UINT64
    ensures var o := StreamOrderText(now, item, random);
            && o != "" && Trimmed(o) && OrderEvents.SourceOf(o) == OrderEvents.SOURCE_SECKILL
            && StreamOrderItemId(o) == (if 0 <= now then Some(item) else None)
  {
    StreamOrderTextTrimmed(now, item, random);
    StreamOrderNoRoundTrip(now, item, random);
    hide StreamOrderText;
    hide StreamOrderItemId;
    hide Trimmed;
  }

  lemma NewAdmissionOk(w: World, t: Task, random: Random)
    requires CanEnqueue(w, t.item, t.user, t.reservedAt, random) && t.orderNo == StreamOrderText(t.reservedAt, t.item, random)
    requires SalesOk(w.sales) && t.activity == w.sales[t.item].activity && w.sales[t.item].startAt <= t.reservedAt < w.sales[t.item].endAt
    ensures AdmissionOk(t.orderNo, t, w.sales, w.clock)
  {
    hide StreamOrderText;
    hide StreamOrderItemId;
    hide Trimmed;
    hide TrimSpace;
    hide OrderEvents.SourceOf;
    assert ValidSale(t.item, w.sales[t.item]);
    StreamNumber(t.reservedAt, t.item, random);
  }

  lemma AdmitGate(s: Slot, t: Task)
    requires Admits(s, t)
    ensures Admit(s, t).state == s.state.(stock := Some(s.state.stock.value - 1)) && Admit(s, t).buyers == s.buyers[t.user := t.orderNo]
  {
    hide Encode;
    hide ResultValue;
  }

  lemma AdmitHashOk(item: nat, s: Slot, sale: Sale, t: Task)
    requires HashOk(item, s.state, sale) && Admits(s, t)
    ensures HashOk(item, Admit(s, t).state, sale)
  {
    AdmitGate(s, t);
    hide Admit;
    hide OnSale;
  }

  lemma AdmitStreamOk(item: nat, s: Slot, a: Admissions, t: Task)
    requires StreamOk(item, s, a) && s.state.stock.Some? && t.item == item && t.orderNo !in a
    ensures StreamOk(item, Admit(s, t), a[t.orderNo := t])
  {
    StreamKeeps(item, s, a, t.orderNo, t);
    assert MessageOk(item, Encode(t), a[t.orderNo := t]);
    hide MessageOk;
    hide Encode;
    hide ResultValue;
  }

  lemma AdmitResultsOk(item: nat, s: Slot, a: Admissions, orders: set<string>, t: Task)
    requires ResultsOk(item, s.results, a, orders) && s.state.stock.Some? && t.item == item && t.orderNo !in a
    ensures ResultsOk(item, Admit(s, t).results, a[t.orderNo := t], orders)
  {
    ResultsKeep(item, s.results, a, orders, t.orderNo, t);
    assert ResultOk(item, t.orderNo, ResultValue(t.user, QUEUED), a[t.orderNo := t], orders);
    hide ResultOk;
    hide ResultValue;
    hide Encode;
  }

  lemma AdmitSlotOk(item: nat, s: Slot, sale: Sale, a: Admissions, orders: set<string>, maxDeliveries: nat, t: Task)
    requires SlotOk(item, s, sale, a, orders, maxDeliveries) && Admits(s, t) && t.item == item && t.orderNo !in a
    ensures SlotOk(item, Admit(s, t), sale, a[t.orderNo := t], orders, maxDeliveries)
  {
    AdmitRest(s, t);
    assert s.state.stock.Some?;
    hide *;
    SlotParts(item, s, sale, a, orders, maxDeliveries);
    AdmitHashOk(item, s, sale, t);
    AdmitStreamOk(item, s, a, t);
    AdmitResultsOk(item, s, a, orders, t);
    SlotFromParts(item, Admit(s, t), sale, a[t.orderNo := t], orders, maxDeliveries);
  }

  lemma AdmitRest(s: Slot, t: Task)
    requires Admits(s, t)
    ensures s.state.stock.Some? && Admit(s, t).retries == s.retries && Admit(s, t).ledger == s.ledger && Admit(s, t).dlq == s.dlq
  {
    hide Encode;
    hide ResultValue;
  }

  lemma AdmitQueues(s: Slot, t: Task, orders: set<string>, item: nat, a: Admissions)
    requires s.state.stock.Some? && StreamOk(item, s, a)
    ensures StreamEvolves(s, Admit(s, t)) && KeepsRequests(s, Admit(s, t), orders) && InStream(Admit(s, t), t.orderNo)
  {
    hide ResultValue;
    hide MessageOk;
    var s' := Admit(s, t);
    assert s'.stream[s.lastId + 1][OrderNo] == t.orderNo;
    hide Encode;
    forall o | InStream(s, o)
      ensures InStream(s', o)
    {
      var id :| id in s.stream && OrderNo in s.stream[id] && s.stream[id][OrderNo] == o;
      assert s'.stream[id] == s.stream[id];
    }
  }

  lemma AllSlotsAfterAdmission(w: World, t: Task)
    requires SlotsOk(w.slots, w.sales, w.admitted, w.ord.orders.Keys, w.maxDeliveries) && t.item in w.sales && t.orderNo !in w.admitted
    requires Admits(SlotOf(w, t.item), t)
    requires SlotOk(t.item, Admit(SlotOf(w, t.item), t), w.sales[t.item], w.admitted[t.orderNo := t], w.ord.orders.Keys, w.maxDeliveries)
    ensures SlotsOk(w.slots[t.item := Admit(SlotOf(w, t.item), t)], w.sales, w.admitted[t.orderNo := t], w.ord.orders.Keys, w.maxDeliveries)
  {
    hide SlotOk;
    hide Admit;
    var slots := w.slots[t.item := Admit(SlotOf(w, t.item), t)];
    forall item | item in slots
      ensures item in w.sales && SlotOk(item, slots[item], w.sales[item], w.admitted[t.orderNo := t], w.ord.orders.Keys, w.maxDeliveries)
    {
      if item != t.item {
        OtherSlotKeeps(item, w.slots[item], w.sales[item], w.admitted, w.ord.orders.Keys, w.maxDeliveries, t.orderNo, t);
      }
    }
  }

  lemma NoneLostAfterAdmission(a: Admissions, slots: map<nat, Slot>, orders: set<string>, t: Task, s: Slot)
    requires NoneLost(a, slots, orders) && InStream(s, t.orderNo)
    requires t.item in slots ==> KeepsRequests(slots[t.item], s, orders)
    ensures NoneLost(a[t.orderNo := t], slots[t.item := s], orders)
  {
    PutSlotNoneLost(a, slots, orders, t.item, s);
    hide InStream;
    hide InDlq;
    hide KeepsRequests;
  }

  /** An admission keeps the core invariant: the request is in the stream before anyone hears of it. */
  lemma EnqueueKeepsCore(w: World, item: nat, user: nat, now: int, random: Random)
    requires CoreInv(w)
    ensures CoreInv(DoEnqueue(w, item, user, now, random))
  {
    hide *;
    EnqueueEffect(w, item, user, now, random);
    if DoEnqueue(w, item, user, now, random) != w {
      AdmissionKeepsCore(w, RequestOf(SlotOf(w, item), item, user, now, random), random);
    }
  }

  lemma EnqueueGuard(w: World, t: Task, random: Random)
    requires CanEnqueue(w, t.item, t.user, t.reservedAt, random) && t.orderNo == StreamOrderText(t.reservedAt, t.item, random)
    ensures t.item in w.sales && t.orderNo !in w.admitted
  {
  }

  lemma AdmissionKeepsCore(w: World, t: Task, random: Random)
    requires CoreInv(w) && CanEnqueue(w, t.item, t.user, t.reservedAt, random) && t.orderNo == StreamOrderText(t.reservedAt, t.item, random)
    requires Admits(SlotOf(w, t.item), t)
    ensures SlotOf(w, t.item).state.stock.Some?
    ensures CoreInv(w.(slots := w.slots[t.item := Admit(SlotOf(w, t.item), t)], admitted := w.admitted[t.orderNo := t]))
  {
    AdmitRest(SlotOf(w, t.item), t);
    hide *;
    Open(w);
    EnqueueGuard(w, t, random);
    var s, sale, orders := SlotOf(w, t.item), w.sales[t.item], w.ord.orders.Keys;
    CurrentSlotOk(w, t.item);
    AdmitSlotOk(t.item, s, sale, w.admitted, orders, w.maxDeliveries, t);
    SlotParts(t.item, s, sale, w.admitted, orders, w.maxDeliveries);
    HashFacts(t.item, s, sale, t);
    NewAdmissionOk(w, t, random);
    AllSlotsAfterAdmission(w, t);
    AdmitQueues(s, t, orders, t.item, w.admitted);
    NoneLostAfterAdmission(w.admitted, w.slots, orders, t, Admit(s, t));
    PutSlotHeld(w.workers, w.slots, t.item, Admit(s, t));
    ReservationsKeep(w.inv.db.reservations, w.admitted, t.orderNo, t);
    CallsKeep(w.inv.calls, w.admitted, t.orderNo, t);
    StreamOrdersKeep(w.ord.orders, w.sales, w.admitted, t.orderNo, t);
    RequestsKeep(w.requests, w.sales, w.admitted, t.orderNo, t);
    WorkersKeep(w.workers, w.sales, w.admitted, orders, t.orderNo, t);
    AdmissionsKeep(w.admitted, w.sales, w.clock, t.orderNo, t);
    Close(w.(slots := w.slots[t.item := Admit(s, t)], admitted := w.admitted[t.orderNo := t]));
  }
}
