/** The results hash over every run: it has an entry for every request ever admitted, the entry holds the status
    written last, and the result query answers exactly that, to the admitted user and to nobody else. */
module PipelineResults {
  import opened Text
  import opened OrderNumbers
  import opened StreamMessages
  import opened RedisSlot
  import OrderEvents
  import Inventory
  import Orders
  import opened Pipeline
  import opened PipelineInvariant
  import opened PipelineSteps
  import opened PipelineAdmission
  import opened PipelineServices
  import opened PipelineRuns
  import opened PipelineTheorems

  // ---------------------------------------------------------------- what the results hash remembers

  /** Every request ever admitted is on file in its item's results. */
  ghost predicate OnFile(o: string, t: Task, slots: map<nat, Slot>) { t.item in slots && o in slots[t.item].results }

  ghost predicate AllOnFile(w: World) { forall o :: o in w.admitted ==> OnFile(o, w.admitted[o], w.slots) }

  lemma SlotKeepsFile(w: World, item: nat, s: Slot)
    requires AllOnFile(w) && SlotOf(w, item).results.Keys <= s.results.Keys
    ensures AllOnFile(w.(slots := w.slots[item := s]))
  {
    forall o | o in w.admitted
      ensures OnFile(o, w.admitted[o], w.slots[item := s])
    {
      assert OnFile(o, w.admitted[o], w.slots);
    }
  }

  lemma SameFile(w: World, w': World)
    requires AllOnFile(w) && w'.slots == w.slots && w'.admitted == w.admitted
    ensures AllOnFile(w')
  {
    hide OnFile;
  }

  lemma AdmitResults(s: Slot, t: Task)
    requires Admits(s, t)
    ensures s.results.Keys <= Admit(s, t).results.Keys && t.orderNo in Admit(s, t).results
  {
    hide Encode;
    hide ResultValue;
  }

  lemma OneMoreOnFile(w: World, t: Task, s: Slot)
    requires AllOnFile(w) && t.item in w.slots && w.slots[t.item] == s && t.orderNo in s.results && t.orderNo !in w.admitted
    ensures AllOnFile(w.(admitted := w.admitted[t.orderNo := t]))
  {
    forall o | o in w.admitted
      ensures OnFile(o, w.admitted[o], w.slots)
    {
    }
  }

  lemma EnqueueKeepsFile(w: World, item: nat, user: nat, now: int, random: Random)
    requires AllOnFile(w)
    ensures AllOnFile(DoEnqueue(w, item, user, now, random))
  {
    hide *;
    EnqueueEffect(w, item, user, now, random);
    var s := SlotOf(w, item);
    var t := RequestOf(s, item, user, now, random);
    if DoEnqueue(w, item, user, now, random) != w {
      EnqueueGuard(w, t, random);
      AdmitRest(s, t);
      AdmitResults(s, t);
      SlotKeepsFile(w, item, Admit(s, t));
      OneMoreOnFile(w.(slots := w.slots[item := Admit(s, t)]), t, Admit(s, t));
    }
  }

  lemma GateKeepsFile(w: World, read: Preheat, item: nat)
    requires AllOnFile(w)
    ensures AllOnFile(DoPublish(w, read)) && AllOnFile(DoInvalidate(w, item))
  {
    PublishEffect(w, read);
    hide DoPublish;
    hide AllOnFile;
    if item in w.sales {
      SlotKeepsFile(w, item, SlotOf(w, item).(state := NO_STATE, buyers := map[]));
    }
    if read in w.preheats && read.item in w.sales {
      SlotKeepsFile(w, read.item, SlotOf(w, read.item).(
        state := HashOf(read.item, w.sales[read.item], read.stock, Generation(w.sales[read.item], read.version)), buyers := map[]));
    }
  }

  /** Reports and projections overwrite results and never remove one. */
  lemma ScriptResults(s: Slot, k: Worker, e: string, o: string, u: nat, maxDeliveries: nat, failedAt: int)
    ensures Complete(s, k.id).results == s.results
    ensures k.Failing? ==> s.results.Keys <= Fail(s, k.id, k.orderNo, k.user, k.code, k.terminal, maxDeliveries, failedAt).results.Keys
    ensures s.results.Keys <= Project(s, e, o, u).0.results.Keys
  {
    hide ResultValue;
    hide OwnedBy;
  }

  lemma ReportsKeepFile(w: World, worker: nat, failedAt: int)
    requires AllOnFile(w)
    ensures AllOnFile(DoReportSuccess(w, worker)) && AllOnFile(DoReportFailure(w, worker, failedAt))
  {
    hide *;
    SuccessEffect(w, worker);
    FailureEffect(w, worker, failedAt);
    if worker in w.workers {
      var k := w.workers[worker];
      var s := SlotOf(w, k.item);
      ScriptResults(s, k, "", "", 0, w.maxDeliveries, failedAt);
      if k.Completing? {
        SlotKeepsFile(w, k.item, Complete(s, k.id));
        SameFile(w.(slots := w.slots[k.item := Complete(s, k.id)]), DoReportSuccess(w, worker));
      }
      if k.Failing? {
        var s' := Fail(s, k.id, k.orderNo, k.user, k.code, k.terminal, w.maxDeliveries, failedAt);
        SlotKeepsFile(w, k.item, s');
        SameFile(w.(slots := w.slots[k.item := s']), DoReportFailure(w, worker, failedAt));
      }
    }
  }

  lemma ProjectKeepsFile(w: World, orderNo: string)
    requires AllOnFile(w)
    ensures AllOnFile(DoProject(w, orderNo))
  {
    hide *;
    var item, e, o, u := ProjectOneSlot(w, orderNo);
    ScriptResults(SlotOf(w, item), Completing(0, 0, Task("", 0, 0, 0, 0)), e, o, u, 0, 0);
    SlotKeepsFile(w, item, Project(SlotOf(w, item), e, o, u).0);
  }

  predicate WritesSlots(e: Event) {
    e.PublishItem? || e.InvalidateItem? || e.Enqueue? || e.ReportSuccess? || e.ReportFailure? || e.ProjectOrder?
  }

  lemma SlotsUntouched(w: World, e: Event)
    requires !WritesSlots(e)
    ensures Exec(w, e).slots == w.slots && Exec(w, e).admitted == w.admitted
  {
    hide DoPublish;
    hide DoInvalidate;
    hide DoEnqueue;
    hide DoReportSuccess;
    hide DoReportFailure;
    hide DoProject;
    hide Inventory.Advance;
    hide Inventory.Begin;
    hide Decode;
    hide AfterReservation;
    hide AfterOrder;
    hide Awaits;
    hide CreateSeckill;
    hide Orders.CreateIdempotent;
    hide GiveUpCode;
    hide SlotOf;
    hide TrimSpace;
    hide OrderEvents.SourceOf;
  }

  lemma ExecKeepsFile(w: World, e: Event)
    requires AllOnFile(w)
    ensures AllOnFile(Exec(w, e))
  {
    hide AllOnFile;
    hide DoPublish;
    hide DoInvalidate;
    hide DoEnqueue;
    hide DoReportSuccess;
    hide DoReportFailure;
    hide DoProject;
    if !WritesSlots(e) {
      hide Exec;
      SlotsUntouched(w, e);
      SameFile(w, Exec(w, e));
    } else {
      match e
      case PublishItem(read) => GateKeepsFile(w, read, 0);
      case InvalidateItem(item) => GateKeepsFile(w, Preheat(0, 0, 0), item);
      case Enqueue(item, user, now, random) => EnqueueKeepsFile(w, item, user, now, random);
      case ReportSuccess(worker) => ReportsKeepFile(w, worker, 0);
      case ReportFailure(worker, failedAt) => ReportsKeepFile(w, worker, failedAt);
      case ProjectOrder(orderNo) => ProjectKeepsFile(w, orderNo);
    }
  }

  lemma {:induction false} RunKeepsFile(w: World, events: seq<Event>)
    requires AllOnFile(w)
    ensures AllOnFile(Run(w, events))
    decreases |events|
  {
    hide AllOnFile;
    hide Exec;
    if events != [] {
      ExecKeepsFile(w, events[0]);
      RunKeepsFile(Exec(w, events[0]), events[1..]);
    }
  }

  lemma ResultsAdmitted(item: nat, s: Slot, sale: Sale, a: Admissions, orders: set<string>, maxDeliveries: nat)
    requires SlotOk(item, s, sale, a, orders, maxDeliveries)
    ensures forall o :: o in s.results ==> o in a && a[o].item == item
  {
    SlotParts(item, s, sale, a, orders, maxDeliveries);
    hide SlotOk;
    hide HashOk;
    hide StreamOk;
    hide RetriesOk;
    hide LedgerOk;
    hide ResultValue;
    forall o | o in s.results
      ensures o in a && a[o].item == item
    {
      assert ResultOk(item, o, s.results[o], a, orders);
    }
  }

  /** The keys of an item's results are exactly the numbers the gate ever admitted for it: what was admitted can
      be read from Redis. */
  lemma ResultsShowAdmissions(w: World, item: nat)
    requires CoreInv(w) && AllOnFile(w) && item in w.sales
    ensures SlotOf(w, item).results.Keys == AdmittedOf(w.admitted, item)
  {
    hide *;
    Open(w);
    CurrentSlotOk(w, item);
    ResultsAdmitted(item, SlotOf(w, item), w.sales[item], w.admitted, w.ord.orders.Keys, w.maxDeliveries);
    AdmissionsFiled(w, item);
    KeysAre(SlotOf(w, item).results, w.admitted, item);
  }

  lemma AdmissionsFiled(w: World, item: nat)
    requires AllOnFile(w)
    ensures AdmittedOf(w.admitted, item) <= SlotOf(w, item).results.Keys
  {
    forall o | o in AdmittedOf(w.admitted, item)
      ensures o in SlotOf(w, item).results
    {
      assert OnFile(o, w.admitted[o], w.slots);
    }
  }

  lemma KeysAre(results: map<string, string>, a: Admissions, item: nat)
    requires AdmittedOf(a, item) <= results.Keys && forall o :: o in results ==> o in a && a[o].item == item
    ensures results.Keys == AdmittedOf(a, item)
  {
  }

  lemma InitialOnFile(w: World)
    requires Initial(w)
    ensures AllOnFile(w)
  {
    hide ValidSale;
  }

  lemma ReachableOnFile(start: World, before: seq<Event>, w: World)
    requires Reachable(start, before, w)
    ensures AllOnFile(w)
  {
    hide AllOnFile;
    InitialOnFile(start);
    hide Initial;
    RunKeepsFile(start, before);
  }

  // ---------------------------------------------------------------- which event writes which status

  /** The gate's decision on this enqueue. */
  function DecisionOn(w: World, item: nat, user: nat, now: int, random: Random): (d: Decision) {
    ReserveAndEnqueue(SlotOf(w, item), user, now, StreamOrderText(now, item, random), item).1
  }

  /** The status an event writes for an order number, if it writes one: QUEUED when the gate accepts it, FAILED when
      its last failure is reported, SUCCEEDED when the event of its committed order is projected the first time. */
  ghost function Writes(w: World, e: Event, o: string): (status: Option<string>) {
    match e
    case Enqueue(item, user, now, random) =>
      if CanEnqueue(w, item, user, now, random) && o == StreamOrderText(now, item, random) && DecisionOn(w, item, user, now, random).Reserved?
      then Some(QUEUED) else None
    case ReportFailure(worker, _) =>
      if worker in w.workers && w.workers[worker].Failing? && w.workers[worker].orderNo == o
         && (w.workers[worker].terminal || Attempts(SlotOf(w, w.workers[worker].item), w.workers[worker].id) >= w.maxDeliveries)
      then Some(FAILED) else None
    case ProjectOrder(p) =>
      if p == o && o in w.ord.orders && o in w.admitted && OrderEvents.StableEventId(o) !in SlotOf(w, w.admitted[o].item).ledger
      then Some(SUCCEEDED) else None
    case _ => None
  }

  /** The status written last in a run. */
  ghost function LastWritten(w: World, events: seq<Event>, o: string): (status: Option<string>)
    decreases |events|
  {
    if events == [] then None
    else
      var later := LastWritten(Exec(w, events[0]), events[1..], o);
      if later.Some? then later else Writes(w, events[0], o)
  }

  ghost predicate StatusIs(w: World, o: string, status: string) {
    && o in w.admitted && w.admitted[o].item in w.slots && o in w.slots[w.admitted[o].item].results
    && w.slots[w.admitted[o].item].results[o] == ResultValue(w.admitted[o].user, status) && KnownStatus(status)
  }

  /** The status is on file for every admitted number. */
  ghost predicate Shows(w: World, o: string, status: Option<string>) {
    o in w.admitted ==> status.Some? && StatusIs(w, o, status.value)
  }

  function Newer(later: Option<string>, earlier: Option<string>): (r: Option<string>) { if later.Some? then later else earlier }

  lemma NewStatus(w: World, o: string, status: string)
    requires o in w.admitted && w.admitted[o].item in w.slots && o in w.slots[w.admitted[o].item].results
    requires w.slots[w.admitted[o].item].results[o] == ResultValue(w.admitted[o].user, status) && KnownStatus(status)
    ensures Shows(w, o, Some(status))
  {
    hide ResultValue;
  }

  lemma OnFileHas(w: World, o: string)
    requires AllOnFile(w) && o in w.admitted
    ensures w.admitted[o].item in w.slots && o in w.slots[w.admitted[o].item].results
  {
    assert OnFile(o, w.admitted[o], w.slots);
  }

  // ---------------------------------------------------------------- admissions

  lemma AdmitShows(s: Slot, t: Task)
    requires Admits(s, t)
    ensures Admit(s, t).results == s.results[t.orderNo := ResultValue(t.user, QUEUED)]
  {
    hide Encode;
    hide ResultValue;
  }

  lemma EnqueueChanges(w: World, item: nat, user: nat, now: int, random: Random)
    ensures DoEnqueue(w, item, user, now, random) != w <==>
              CanEnqueue(w, item, user, now, random) && DecisionOn(w, item, user, now, random).Reserved?
  {
    EnqueueEffect(w, item, user, now, random);
    hide StreamOrderText;
    hide Admit;
  }

  lemma EnqueueShows(w: World, item: nat, user: nat, now: int, random: Random, o: string, status: Option<string>)
    requires Shows(w, o, status) && AllOnFile(w)
    ensures Shows(DoEnqueue(w, item, user, now, random), o, Newer(Writes(w, Enqueue(item, user, now, random), o), status))
  {
    WritesEnqueue(w, item, user, now, random, o);
    hide *;
    EnqueueEffect(w, item, user, now, random);
    EnqueueChanges(w, item, user, now, random);
    var s := SlotOf(w, item);
    var t := RequestOf(s, item, user, now, random);
    var w' := DoEnqueue(w, item, user, now, random);
    if w' == w {
      NewerIs(None, status);
    } else {
      EnqueueGuard(w, t, random);
      AdmitShows(s, t);
      if o == t.orderNo {
        QueuedIsKnown();
        NewStatus(w', o, QUEUED);
        NewerIs(Some(QUEUED), status);
      } else {
        NewerIs(None, status);
        if o in w.admitted {
          OnFileHas(w, o);
        }
        SlotIs(w, item);
        OtherStatus(w, w', o, status);
      }
    }
  }

  lemma WritesEnqueue(w: World, item: nat, user: nat, now: int, random: Random, o: string)
    ensures Writes(w, Enqueue(item, user, now, random), o) ==
      if CanEnqueue(w, item, user, now, random) && o == StreamOrderText(now, item, random) && DecisionOn(w, item, user, now, random).Reserved?
      then Some(QUEUED) else None
  {
    hide CanEnqueue;
    hide DecisionOn;
    hide StreamOrderText;
  }

  lemma NewerIs(later: Option<string>, earlier: Option<string>)
    ensures Newer(later, earlier) == if later.Some? then later else earlier
  {
  }

  lemma QueuedIsKnown()
    ensures KnownStatus(QUEUED) && KnownStatus(SUCCEEDED) && KnownStatus(FAILED)
  {
  }

  lemma SlotIs(w: World, item: nat)
    ensures SlotOf(w, item) == if item in w.slots then w.slots[item] else EMPTY_SLOT
  {
  }

  /** A number that is neither new nor touched keeps its status. */
  lemma OtherStatus(w: World, w': World, o: string, status: Option<string>)
    requires Shows(w, o, status)
    requires o in w'.admitted ==> o in w.admitted && w'.admitted[o] == w.admitted[o]
    requires o in w.admitted ==>
               var item := w.admitted[o].item;
               item in w.slots && item in w'.slots && o in w.slots[item].results && o in w'.slots[item].results && w'.slots[item].results[o] == w.slots[item].results[o]
    ensures Shows(w', o, status)
  {
    hide ResultValue;
  }

  // ---------------------------------------------------------------- scripts on one slot

  /** A script that rewrites the results of one item. */
  lemma SlotShows(w: World, w': World, item: nat, s: Slot, o: string, status: Option<string>)
    requires Shows(w, o, status) && AllOnFile(w) && w'.admitted == w.admitted && w'.slots == w.slots[item := s]
    requires o in w.admitted && w.admitted[o].item == item && o in SlotOf(w, item).results ==>
               o in s.results && s.results[o] == SlotOf(w, item).results[o]
    ensures Shows(w', o, status)
  {
    if o in w.admitted {
      OnFileHas(w, o);
    }
    SlotIs(w, item);
    hide Shows;
    hide AllOnFile;
    hide SlotOf;
    OtherStatus(w, w', o, status);
  }

  lemma FailResults(s: Slot, k: Worker, maxDeliveries: nat, failedAt: int)
    requires k.Failing? && k.orderNo != "" && k.user != 0
    ensures Fail(s, k.id, k.orderNo, k.user, k.code, k.terminal, maxDeliveries, failedAt).results
         == if k.terminal || Attempts(s, k.id) >= maxDeliveries then s.results[k.orderNo := ResultValue(k.user, FAILED)] else s.results
  {
    hide ResultValue;
  }

  lemma FailingRequest(w: World, k: Worker)
    requires k.Failing? && k.orderNo in w.admitted && AdmissionsOk(w.admitted, w.sales, w.clock) && w.admitted[k.orderNo].user == k.user
    ensures k.orderNo != "" && k.user != 0
  {
    assert AdmissionOk(k.orderNo, w.admitted[k.orderNo], w.sales, w.clock);
    hide Trimmed;
    hide OrderEvents.SourceOf;
    hide StreamOrderItemId;
  }

  lemma WritesFailure(w: World, worker: nat, failedAt: int, o: string)
    ensures Writes(w, ReportFailure(worker, failedAt), o) ==
      if worker in w.workers && w.workers[worker].Failing? && w.workers[worker].orderNo == o
         && (w.workers[worker].terminal || Attempts(SlotOf(w, w.workers[worker].item), w.workers[worker].id) >= w.maxDeliveries)
      then Some(FAILED) else None
  {
  }

  lemma FailureShows(w: World, worker: nat, failedAt: int, o: string, status: Option<string>)
    requires CoreInv(w) && Shows(w, o, status) && AllOnFile(w)
    ensures Shows(DoReportFailure(w, worker, failedAt), o, Newer(Writes(w, ReportFailure(worker, failedAt), o), status))
  {
    hide *;
    WritesFailure(w, worker, failedAt, o);
    FailureEffect(w, worker, failedAt);
    NewerIs(Writes(w, ReportFailure(worker, failedAt), o), status);
    if worker in w.workers && w.workers[worker].Failing? {
      Open(w);
      var k := w.workers[worker];
      WorkerFacts(w, worker);
      FailingFacts(k, w);
      FailingRequest(w, k);
      var s := SlotOf(w, k.item);
      var s' := Fail(s, k.id, k.orderNo, k.user, k.code, k.terminal, w.maxDeliveries, failedAt);
      FailResults(s, k, w.maxDeliveries, failedAt);
      var w' := DoReportFailure(w, worker, failedAt);
      if o == k.orderNo && (k.terminal || Attempts(s, k.id) >= w.maxDeliveries) {
        QueuedIsKnown();
        NewStatus(w', o, FAILED);
      } else {
        SlotShows(w, w', k.item, s', o, status);
      }
    }
  }

  lemma SuccessShows(w: World, worker: nat, o: string, status: Option<string>)
    requires Shows(w, o, status) && AllOnFile(w)
    ensures Shows(DoReportSuccess(w, worker), o, status)
  {
    hide *;
    SuccessEffect(w, worker);
    if worker in w.workers && w.workers[worker].Completing? {
      var k := w.workers[worker];
      ScriptResults(SlotOf(w, k.item), k, "", "", 0, 0, 0);
      SlotShows(w, DoReportSuccess(w, worker), k.item, Complete(SlotOf(w, k.item), k.id), o, status);
    }
  }

  lemma GateShows(w: World, read: Preheat, item: nat, o: string, status: Option<string>)
    requires Shows(w, o, status) && AllOnFile(w)
    ensures Shows(DoPublish(w, read), o, status) && Shows(DoInvalidate(w, item), o, status)
  {
    hide *;
    PublishEffect(w, read);
    InvalidateEffect(w, item);
    if item in w.sales {
      SlotShows(w, DoInvalidate(w, item), item, SlotOf(w, item).(state := NO_STATE, buyers := map[]), o, status);
    }
    if read in w.preheats && read.item in w.sales {
      SlotShows(w, DoPublish(w, read), read.item, SlotOf(w, read.item).(
        state := HashOf(read.item, w.sales[read.item], read.stock, Generation(w.sales[read.item], read.version)), buyers := map[]), o, status);
    }
  }

  // ---------------------------------------------------------------- projections

  /** The event of a committed order of an admitted request, projected for the first time, always finds the request's
      own result and overwrites it. */
  lemma FirstProjection(item: nat, s: Slot, o: string, a: Admissions, orders: set<string>)
    requires ResultsOk(item, s.results, a, orders) && o in s.results && o in a && 0 < a[o].user <= MAX_UINT64
    requires OrderEvents.StableEventId(o) !in s.ledger
    ensures var (s', p) := Project(s, OrderEvents.StableEventId(o), o, a[o].user);
            p.Projected? && s'.results == s.results[o := ResultValue(a[o].user, SUCCEEDED)]
  {
    OwnResult(item, s.results, a, orders, o);
    hide OwnedBy;
    hide ResultValue;
    hide OrderEvents.StableEventId;
  }

  lemma RepeatedProjection(s: Slot, e: string, o: string, u: nat)
    requires e in s.ledger
    ensures Project(s, e, o, u).0 == s
  {
  }

  lemma WritesProjection(w: World, p: string, o: string)
    ensures Writes(w, ProjectOrder(p), o) ==
      if p == o && o in w.ord.orders && o in w.admitted && OrderEvents.StableEventId(o) !in SlotOf(w, w.admitted[o].item).ledger
      then Some(SUCCEEDED) else None
  {
    hide OrderEvents.StableEventId;
    hide SlotOf;
  }

  lemma AdmittedOrder(w: World, o: string)
    requires o in w.admitted && AdmissionsOk(w.admitted, w.sales, w.clock)
    ensures OrderEvents.SourceOf(o) == OrderEvents.SOURCE_SECKILL
  {
    assert AdmissionOk(o, w.admitted[o], w.sales, w.clock);
    hide Admissible;
    hide StreamOrderItemId;
  }

  lemma ProjectShows(w: World, p: string, o: string, status: Option<string>)
    requires CoreInv(w) && Shows(w, o, status) && AllOnFile(w)
    ensures Shows(DoProject(w, p), o, Newer(Writes(w, ProjectOrder(p), o), status))
  {
    hide *;
    Open(w);
    WritesProjection(w, p, o);
    ProjectEffect(w, p);
    NewerIs(Writes(w, ProjectOrder(p), o), status);
    if o in w.admitted && o == p {
      AdmittedOrder(w, o);
    }
    if p in w.ord.orders && OrderEvents.SourceOf(p) == OrderEvents.SOURCE_SECKILL {
      SeckillOrderFacts(w, p);
      var item, e, u := w.admitted[p].item, OrderEvents.StableEventId(p), w.admitted[p].user;
      var s, w' := SlotOf(w, item), DoProject(w, p);
      ProjectParts(s, e, p, u);
      OnFileHas(w, p);
      SlotIs(w, item);
      if o == p && e !in s.ledger {
        CurrentSlotOk(w, item);
        SlotParts(item, s, w.sales[item], w.admitted, w.ord.orders.Keys, w.maxDeliveries);
        FirstProjection(item, s, o, w.admitted, w.ord.orders.Keys);
        QueuedIsKnown();
        NewStatus(w', o, SUCCEEDED);
      } else {
        if e in s.ledger {
          RepeatedProjection(s, e, p, u);
        }
        SlotShows(w, w', item, Project(s, e, p, u).0, o, status);
      }
    }
  }

  // ---------------------------------------------------------------- runs

  lemma QuietWrites(w: World, e: Event, o: string)
    requires !WritesSlots(e) || e.PublishItem? || e.InvalidateItem? || e.ReportSuccess?
    ensures Writes(w, e, o) == None
  {
  }

  lemma ExecShows(w: World, e: Event, o: string, status: Option<string>)
    requires CoreInv(w) && AllOnFile(w) && Shows(w, o, status)
    ensures Shows(Exec(w, e), o, Newer(Writes(w, e, o), status))
  {
    hide CoreInv;
    hide AllOnFile;
    hide Shows;
    hide Writes;
    hide DoPublish;
    hide DoInvalidate;
    hide DoEnqueue;
    hide DoReportSuccess;
    hide DoReportFailure;
    hide DoProject;
    if !WritesSlots(e) {
      hide Exec;
      QuietWrites(w, e, o);
      SlotsUntouched(w, e);
      QuietShows(w, Exec(w, e), o, status);
    } else {
      match e
      case PublishItem(read) => QuietWrites(w, e, o); GateShows(w, read, 0, o, status);
      case InvalidateItem(item) => QuietWrites(w, e, o); GateShows(w, Preheat(0, 0, 0), item, o, status);
      case Enqueue(item, user, now, random) => EnqueueShows(w, item, user, now, random, o, status);
      case ReportSuccess(worker) => QuietWrites(w, e, o); SuccessShows(w, worker, o, status);
      case ReportFailure(worker, failedAt) => FailureShows(w, worker, failedAt, o, status);
      case ProjectOrder(p) => ProjectShows(w, p, o, status);
    }
  }

  lemma QuietShows(w: World, w': World, o: string, status: Option<string>)
    requires Shows(w, o, status) && w'.slots == w.slots && w'.admitted == w.admitted
    ensures Shows(w', o, status)
  {
    hide ResultValue;
  }

  lemma {:induction false} RunShows(w: World, events: seq<Event>, o: string, status: Option<string>)
    requires CoreInv(w) && AllOnFile(w) && Shows(w, o, status)
    ensures Shows(Run(w, events), o, Newer(LastWritten(w, events, o), status))
    decreases |events|
  {
    hide CoreInv;
    hide AllOnFile;
    hide Shows;
    hide Writes;
    hide Exec;
    if events != [] {
      var w1 := Exec(w, events[0]);
      ExecShows(w, events[0], o, status);
      ExecKeepsCore(w, events[0]);
      ExecKeepsFile(w, events[0]);
      RunShows(w1, events[1..], o, Newer(Writes(w, events[0], o), status));
    }
  }

  lemma NothingShown(w: World, o: string)
    requires Initial(w)
    ensures Shows(w, o, None)
  {
    hide ValidSale;
  }

  /** In every run the results hash holds, for every admitted number and under its user, the status written last. */
  lemma ResultIsLastWritten(start: World, events: seq<Event>, w: World, o: string)
    requires Reachable(start, events, w) && o in w.admitted
    ensures LastWritten(start, events, o).Some? && StatusIs(w, o, LastWritten(start, events, o).value)
  {
    hide *;
    ReachableStart(start, events, w);
    NothingShown(start, o);
    InitialCore(start);
    InitialOnFile(start);
    RunShows(start, events, o, None);
    NewerIs(LastWritten(start, events, o), None);
    ShownIs(w, o, LastWritten(start, events, o));
  }

  lemma ReachableStart(start: World, events: seq<Event>, w: World)
    requires Reachable(start, events, w)
    ensures Initial(start) && w == Run(start, events)
  {
    hide Initial;
    hide Run;
  }

  lemma ShownIs(w: World, o: string, status: Option<string>)
    requires Shows(w, o, status) && o in w.admitted
    ensures status.Some? && StatusIs(w, o, status.value)
  {
    hide StatusIs;
  }

  // ---------------------------------------------------------------- the query

  lemma {:induction false} RunInTwo(w: World, a: seq<Event>, b: seq<Event>)
    ensures Run(w, a + b) == Run(Run(w, a), b)
    decreases |a|
  {
    hide Exec;
    if a == [] {
      assert a + b == b;
    } else {
      assert (a + b)[1..] == a[1..] + b;
      RunInTwo(Exec(w, a[0]), a[1..], b);
    }
  }

  lemma StoredReads(w: World, o: string, status: string, reader: nat)
    requires StatusIs(w, o, status) && 0 < w.admitted[o].user <= MAX_UINT64 && reader <= MAX_UINT64
    ensures FindResult(SlotOf(w, w.admitted[o].item), reader, o) == (if reader == w.admitted[o].user then Status(status) else NotFound)
  {
    ResultRoundTrip(SlotOf(w, w.admitted[o].item), w.admitted[o].user, reader, o, status);
    hide FindResult;
    hide ResultValue;
  }

  lemma QueryIs(w1: World, w2: World, user: nat, raw: string, o: string)
    requires TrimSpace(raw) == o && o != ""
    ensures AsyncResult(w1, w2, user, raw) ==
      if user == 0 then NotFound
      else if o in w1.ord.orders && w1.ord.orders[o].user == user then Status(SUCCEEDED)
      else if StreamOrderItemId(o).None? then NotFound
      else FindResult(SlotOf(w2, StreamOrderItemId(o).value), user, o)
  {
    hide FindResult;
    hide StreamOrderItemId;
    hide TrimSpace;
    hide SlotOf;
  }

  lemma AdmittedNumber(w: World, o: string)
    requires o in w.admitted && AdmissionsOk(w.admitted, w.sales, w.clock)
    ensures o != "" && 0 < w.admitted[o].user <= MAX_UINT64 && IsStreamOrder(o)
    ensures StreamOrderItemId(o) == (if 0 <= w.admitted[o].reservedAt then Some(w.admitted[o].item) else None)
  {
    assert AdmissionOk(o, w.admitted[o], w.sales, w.clock);
    hide Trimmed;
    hide OrderEvents.SourceOf;
    hide StreamOrderItemId;
  }

  /** The result query, exactly, over every run: the order table is read in w1, the results some events later in w2.
      The admitted user reads SUCCEEDED once the order is committed, otherwise the status last written for the
      number, QUEUED, FAILED or SUCCEEDED; only when the request carries a time before 1970, which its number
      cannot be read for, does he read nothing. Any other user reads nothing. */
  lemma QueryAnswersExactly(start: World, events: seq<Event>, w1: World, between: seq<Event>, w2: World, user: nat, raw: string, o: string)
    requires Reachable(start, events, w1) && w2 == Run(w1, between) && TrimSpace(raw) == o && o in w2.admitted && user <= MAX_UINT64
    ensures LastWritten(start, events + between, o).Some? && KnownStatus(LastWritten(start, events + between, o).value)
    ensures AsyncResult(w1, w2, user, raw) ==
      if user != w2.admitted[o].user then NotFound
      else if o in w1.ord.orders then Status(SUCCEEDED)
      else if w2.admitted[o].reservedAt < 0 then NotFound
      else Status(LastWritten(start, events + between, o).value)
  {
    hide *;
    ReachableStart(start, events, w1);
    RunInTwo(start, events, between);
    ReachableAgain(start, events + between, w2);
    ResultIsLastWritten(start, events + between, w2, o);
    ReachableCore(start, events, w1);
    ReachableCore(start, events + between, w2);
    Open(w2);
    AdmittedNumber(w2, o);
    QueryIs(w1, w2, user, raw, o);
    StoredReads(w2, o, LastWritten(start, events + between, o).value, user);
    StatusKnown(w2, o, LastWritten(start, events + between, o).value);
    if o in w1.ord.orders {
      Open(w1);
      SourceIs(o);
      SeckillOrderFacts(w1, o);
      RunLater(w1, between);
      StaysAdmitted(w1, w2, o);
    }
  }

  lemma ReachableAgain(start: World, events: seq<Event>, w: World)
    requires Initial(start) && w == Run(start, events)
    ensures Reachable(start, events, w)
  {
    hide Initial;
    hide Run;
  }

  lemma StatusKnown(w: World, o: string, status: string)
    requires StatusIs(w, o, status)
    ensures KnownStatus(status)
  {
    hide ResultValue;
    hide KnownStatus;
  }

  /** Right after the gate accepts a request its user reads QUEUED, from every state of every run. */
  lemma AcceptedReadsQueued(start: World, events: seq<Event>, w: World, item: nat, user: nat, now: int, random: Random)
    requires Reachable(start, events, w) && CanEnqueue(w, item, user, now, random) && DecisionOn(w, item, user, now, random).Reserved? && 0 <= now
    ensures var w' := Exec(w, Enqueue(item, user, now, random)); var o := StreamOrderText(now, item, random);
            o in w'.admitted && AsyncResult(w', w', user, o) == Status(QUEUED)
  {
    hide *;
    var o, e := StreamOrderText(now, item, random), Enqueue(item, user, now, random);
    var w' := Exec(w, e);
    ReachableCore(start, events, w);
    ReachableOnFile(start, events, w);
    ExecKeepsCore(w, e);
    EnqueueIs(w, item, user, now, random);
    EnqueueChanges(w, item, user, now, random);
    EnqueueEffect(w, item, user, now, random);
    var t := RequestOf(SlotOf(w, item), item, user, now, random);
    EnqueueGuard(w, t, random);
    WritesEnqueue(w, item, user, now, random, o);
    NotShown(w, o);
    EnqueueShows(w, item, user, now, random, o, None);
    NewerIs(Some(QUEUED), None);
    ShownIs(w', o, Some(QUEUED));
    Open(w');
    AdmittedNumber(w', o);
    NumberTrimmed(now, item, random);
    QueryIs(w', w', user, o, o);
    StoredReads(w', o, QUEUED, user);
    NotYetOrdered(w, o);
  }

  lemma EnqueueIs(w: World, item: nat, user: nat, now: int, random: Random)
    ensures Exec(w, Enqueue(item, user, now, random)) == DoEnqueue(w, item, user, now, random)
  {
    hide DoEnqueue;
  }

  lemma NotShown(w: World, o: string)
    requires o !in w.admitted
    ensures Shows(w, o, None)
  {
  }

  lemma NumberTrimmed(now: int, item: nat, random: Random)
    ensures TrimSpace(StreamOrderText(now, item, random)) == StreamOrderText(now, item, random)
  {
    StreamOrderTextTrimmed(now, item, random);
    Trims(StreamOrderText(now, item, random));
    hide TrimSpace;
    hide Trimmed;
    hide StreamOrderText;
  }

  /** A number not yet admitted has no order. */
  lemma NotYetOrdered(w: World, o: string)
    requires CoreInv(w) && o !in w.admitted && IsStreamOrder(o)
    ensures o !in w.ord.orders
  {
    hide *;
    Open(w);
    if o in w.ord.orders {
      OrderOfAdmission(w, o);
    }
  }

  /** From every state of every run: when the event of a committed stream order is projected for the first time, its
      user reads SUCCEEDED from Redis afterwards, even if the order table is not asked, and a repetition changes
      nothing. */
  lemma ProjectedReadsSucceeded(start: World, events: seq<Event>, w: World, o: string)
    requires Reachable(start, events, w) && o in w.ord.orders && IsStreamOrder(o)
    ensures o in w.admitted
    ensures var w', item, user := Exec(w, ProjectOrder(o)), w.admitted[o].item, w.admitted[o].user;
            OrderEvents.StableEventId(o) !in SlotOf(w, item).ledger ==> FindResult(SlotOf(w', item), user, o) == Status(SUCCEEDED)
    ensures OrderEvents.StableEventId(o) in SlotOf(w, w.admitted[o].item).ledger ==> SlotOf(Exec(w, ProjectOrder(o)), w.admitted[o].item) == SlotOf(w, w.admitted[o].item)
  {
    hide *;
    ReachableCore(start, events, w);
    ReachableOnFile(start, events, w);
    Open(w);
    SourceIs(o);
    SeckillOrderFacts(w, o);
    ProjectIs(w, o);
    ProjectEffect(w, o);
    ResultIsLastWritten(start, events, w, o);
    var item, e, u := w.admitted[o].item, OrderEvents.StableEventId(o), w.admitted[o].user;
    var w' := DoProject(w, o);
    SlotIs(w', item);
    if e in SlotOf(w, item).ledger {
      RepeatedProjection(SlotOf(w, item), e, o, u);
    } else {
      WritesProjection(w, o, o);
      NewerIs(Some(SUCCEEDED), LastWritten(start, events, o));
      ShowsIf(w, o, LastWritten(start, events, o));
      ProjectShows(w, o, o, LastWritten(start, events, o));
      ShownIs(w', o, Some(SUCCEEDED));
      StoredReads(w', o, SUCCEEDED, u);
    }
  }

  lemma ShowsIf(w: World, o: string, status: Option<string>)
    requires status.Some? && StatusIs(w, o, status.value)
    ensures Shows(w, o, status)
  {
    hide StatusIs;
  }

  lemma ProjectIs(w: World, o: string)
    ensures Exec(w, ProjectOrder(o)) == DoProject(w, o)
  {
    hide DoProject;
  }

  /** Once an item is invalidated, the gate answers everybody that it is not ready. */
  lemma InvalidatedRefuses(w: World, item: nat, user: nat, now: int, orderNo: string)
    requires item in w.sales
    ensures var s := SlotOf(Exec(w, InvalidateItem(item)), item); ReserveAndEnqueue(s, user, now, orderNo, item) == (s, NotReady)
  {
    InvalidateEffect(w, item);
    hide DoInvalidate;
    hide Admit;
  }

  /** A call the worker gives up on counts as one failure of its message, with a code that says why; an order left
      without an answer likewise. */
  lemma AbandonedIsCounted(w: World, worker: nat, why: GiveUp, failedAt: int)
    requires worker in w.workers && (w.workers[worker].Reserving? || w.workers[worker].Ordering?)
    ensures var k := w.workers[worker];
            var w' := Exec(Exec(w, if k.Reserving? then AbandonInventory(worker, why) else AbandonOrder(worker)), ReportFailure(worker, failedAt));
            var code := if k.Ordering? then "reserved_without_order" else if why.Timeout? then "dependency_timeout"
                        else if why.DependencyDown? then "dependency_unavailable" else "temporary_failure";
            && SlotOf(w', k.item) == Fail(SlotOf(w, k.item), k.id, k.task.orderNo, k.task.user, code, false, w.maxDeliveries, failedAt)
            && worker !in w'.workers
  {
    hide Fail;
  }
}
