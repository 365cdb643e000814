/** The inventory service: one reservation per order number and per user and item, taken from a stock row
    in the same transaction. A call is several database statements, so calls interleave between them. */
module Inventory {
  import opened Text

  datatype Snapshot = Snapshot(sku: nat, productName: string, skuCode: string, skuName: string, price: Int64)

  datatype ItemRow = ItemRow(activity: nat, snapshot: Snapshot, initial: nat, available: int, version: nat)

  datatype Input = Input(orderNo: string, activity: nat, item: nat, user: nat, reservedAt: int)

  datatype Reservation = Reservation(id: nat, orderNo: string, activity: nat, item: nat, user: nat, snapshot: Snapshot, reservedAt: int)

  /** The second unique key of the reservation table. */
  datatype UserKey = UserKey(activity: nat, item: nat, user: nat)

  datatype Db = Db(items: map<nat, ItemRow>, reservations: map<string, Reservation>, byUser: map<UserKey, string>, nextId: nat)

  datatype Error = ItemNotFound | OutOfStock | Conflict | NoWinner | Unknown

  datatype Answer = Granted(reservation: Reservation, replayed: bool) | Refused(error: Error)

  function KeyOf(r: Reservation): (k: UserKey) { UserKey(r.activity, r.item, r.user) }

  function KeyOfInput(i: Input): (k: UserKey) { UserKey(i.activity, i.item, i.user) }

  function ReplayOrder(existing: Reservation, i: Input): (a: Answer) {
    if existing.activity != i.activity || existing.item != i.item || existing.user != i.user || existing.reservedAt != i.reservedAt
    then Refused(Conflict)
    else Granted(existing, true)
  }

  // ---------------------------------------------------------------- the reserving transaction

  datatype TxResult = Committed(reservation: Reservation) | NoItem | NoStock | DuplicateKey

  function NewReservation(db: Db, i: Input): (r: Reservation)
    requires i.item in db.items
  {
    Reservation(db.nextId, i.orderNo, i.activity, i.item, i.user, db.items[i.item].snapshot, i.reservedAt)
  }

  function Insert(db: Db, i: Input): (r: Db)
    requires i.item in db.items
  {
    var row := db.items[i.item];
    Db(db.items[i.item := row.(available := row.available - 1, version := row.version + 1)],
       db.reservations[i.orderNo := NewReservation(db, i)],
       db.byUser[KeyOfInput(i) := i.orderNo],
       db.nextId + 1)
  }

  /** reserveOnce as one atomic step: the stock test, the decrement and the insert commit or vanish together. */
  function ReserveOnce(db: Db, i: Input): (r: (Db, TxResult)) {
    if i.item !in db.items || db.items[i.item].activity != i.activity then (db, NoItem)
    else if db.items[i.item].available <= 0 then (db, NoStock)
    else if i.orderNo in db.reservations || KeyOfInput(i) in db.byUser then (db, DuplicateKey)
    else (Insert(db, i), Committed(NewReservation(db, i)))
  }

  // ---------------------------------------------------------------- calls and their interleaving

  datatype Phase =
    | Lookup                       // before the first query by order number
    | Transact                     // before the transaction
    | RecheckOrder(soldOut: bool)  // transaction refused, before the second query by order number
    | RecheckUser(soldOut: bool)   // before the query by user and item
    | Answered(answer: Answer)

  datatype Call = Call(input: Input, phase: Phase)

  /** A statement may fail before it takes effect, or take effect and lose its answer. */
  datatype Fault = NoFault | FailsBefore | FailsAfter

  datatype Service = Service(db: Db, calls: map<nat, Call>)

  function AfterTx(t: TxResult): (p: Phase) {
    match t
    case Committed(r) => Answered(Granted(r, false))
    case NoItem => Answered(Refused(ItemNotFound))
    case NoStock => RecheckOrder(true)
    case DuplicateKey => RecheckOrder(false)
  }

  function NextPhase(db: Db, i: Input, p: Phase): (r: Phase) {
    match p
    case Lookup => if i.orderNo in db.reservations then Answered(ReplayOrder(db.reservations[i.orderNo], i)) else Transact
    case Transact => AfterTx(ReserveOnce(db, i).1)
    case RecheckOrder(soldOut) =>
      if i.orderNo in db.reservations then Answered(ReplayOrder(db.reservations[i.orderNo], i)) else RecheckUser(soldOut)
    case RecheckUser(soldOut) =>
      if KeyOfInput(i) in db.byUser && db.byUser[KeyOfInput(i)] in db.reservations
      then Answered(Granted(db.reservations[db.byUser[KeyOfInput(i)]], true))
      else Answered(Refused(if soldOut then OutOfStock else NoWinner))
    case Answered(_) => p
  }

  function NextDb(db: Db, i: Input, p: Phase): (r: Db) {
    if p.Transact? then ReserveOnce(db, i).0 else db
  }

  function Begin(s: Service, c: nat, i: Input): (r: Service) {
    if c in s.calls then s else s.(calls := s.calls[c := Call(i, Lookup)])
  }

  /** One database statement of call c. */
  function Advance(s: Service, c: nat, fault: Fault): (r: Service) {
    if c !in s.calls || s.calls[c].phase.Answered? then s
    else
      var call := s.calls[c];
      var db' := if fault.FailsBefore? then s.db else NextDb(s.db, call.input, call.phase);
      var phase' := if fault.NoFault? then NextPhase(s.db, call.input, call.phase) else Answered(Refused(Unknown));
      Service(db', s.calls[c := call.(phase := phase')])
  }

  datatype Event = BeginCall(c: nat, input: Input) | AdvanceCall(c: nat, fault: Fault)

  function Exec(s: Service, e: Event): (r: Service) {
    match e
    case BeginCall(c, i) => Begin(s, c, i)
    case AdvanceCall(c, fault) => Advance(s, c, fault)
  }

  function Run(s: Service, events: seq<Event>): (r: Service)
    decreases |events|
  {
    if events == [] then s else Run(Exec(s, events[0]), events[1..])
  }

  // ---------------------------------------------------------------- what every statement keeps

  ghost function ReservedOf(db: Db, item: nat): (r: set<string>) {
    set o | o in db.reservations && db.reservations[o].item == item
  }

  /** No unit is created or lost. */
  ghost predicate Conserved(db: Db) {
    forall item :: item in db.items ==>
      db.items[item].available >= 0 && db.items[item].available + |ReservedOf(db, item)| == db.items[item].initial
  }

  /** Every reservation belongs to a stock row of its activity and carries that row's frozen snapshot. */
  ghost predicate Genuine(db: Db) {
    forall o :: o in db.reservations ==>
      var r := db.reservations[o];
      r.orderNo == o && r.item in db.items && db.items[r.item].activity == r.activity && db.items[r.item].snapshot == r.snapshot
  }

  ghost predicate Indexed(db: Db) {
    && (forall o :: o in db.reservations ==> KeyOf(db.reservations[o]) in db.byUser && db.byUser[KeyOf(db.reservations[o])] == o)
    && (forall k :: k in db.byUser ==> db.byUser[k] in db.reservations && KeyOf(db.reservations[db.byUser[k]]) == k)
  }

  ghost predicate DbInv(db: Db) { Conserved(db) && Genuine(db) && Indexed(db) }

  ghost predicate SoldOut(db: Db, item: nat) { item in db.items && db.items[item].available == 0 }

  ghost predicate SoldOutFor(db: Db, i: Input) { SoldOut(db, i.item) && db.items[i.item].activity == i.activity }

  ghost predicate NoOrderFor(db: Db, i: Input) {
    !(i.orderNo in db.reservations && db.reservations[i.orderNo].item == i.item)
  }

  ghost predicate AnswerInv(db: Db, i: Input, a: Answer) {
    match a
    case Granted(r, _) =>
      && r.orderNo in db.reservations && db.reservations[r.orderNo] == r && KeyOf(r) == KeyOfInput(i)
      && (r.orderNo == i.orderNo ==> r.reservedAt == i.reservedAt)
    case Refused(OutOfStock) => SoldOutFor(db, i) && NoOrderFor(db, i) && KeyOfInput(i) !in db.byUser
    case Refused(e) => e != NoWinner
  }

  ghost predicate PhaseInv(db: Db, i: Input, p: Phase) {
    match p
    case Lookup => true
    case Transact => true
    case RecheckOrder(soldOut) =>
      if soldOut then SoldOutFor(db, i) else i.orderNo in db.reservations || KeyOfInput(i) in db.byUser
    case RecheckUser(soldOut) =>
      if soldOut then SoldOutFor(db, i) && NoOrderFor(db, i) else KeyOfInput(i) in db.byUser && db.byUser[KeyOfInput(i)] != i.orderNo
    case Answered(a) => AnswerInv(db, i, a)
  }

  ghost predicate ServiceInv(s: Service) {
    DbInv(s.db) && forall c :: c in s.calls ==> PhaseInv(s.db, s.calls[c].input, s.calls[c].phase)
  }

  /** Reservations are permanent, stock rows only sell, and an item sold out stays as it is. */
  ghost predicate Grows(db: Db, db': Db) {
    && db.reservations.Keys <= db'.reservations.Keys
    && (forall o :: o in db.reservations ==> db'.reservations[o] == db.reservations[o])
    && (forall k :: k in db.byUser ==> k in db'.byUser && db'.byUser[k] == db.byUser[k])
    && db.items.Keys == db'.items.Keys
    && (forall item :: item in db.items ==>
          var r, r' := db.items[item], db'.items[item];
          r'.available <= r.available && r' == r.(available := r'.available, version := r'.version))
    && (forall o :: o in db'.reservations && o !in db.reservations ==> !SoldOut(db, db'.reservations[o].item))
    && (forall k :: k in db'.byUser && k !in db.byUser ==> !SoldOut(db, k.item))
  }

  lemma InsertGrows(db: Db, i: Input)
    requires ReserveOnce(db, i).1.Committed?
    ensures Grows(db, Insert(db, i))
  {
  }

  lemma InsertReserves(db: Db, i: Input, item: nat)
    requires ReserveOnce(db, i).1.Committed?
    ensures ReservedOf(Insert(db, i), item) == ReservedOf(db, item) + if item == i.item then {i.orderNo} else {}
    ensures |ReservedOf(Insert(db, i), item)| == |ReservedOf(db, item)| + if item == i.item then 1 else 0
  {
    var added: set<string> := if item == i.item then {i.orderNo} else {};
    assert ReservedOf(Insert(db, i), item) == ReservedOf(db, item) + added;
    assert ReservedOf(db, item) !! added;
  }

  lemma InsertConserves(db: Db, i: Input)
    requires Conserved(db) && ReserveOnce(db, i).1.Committed?
    ensures Conserved(Insert(db, i))
  {
    hide ReservedOf;
    forall item | item in db.items
      ensures |ReservedOf(Insert(db, i), item)| == |ReservedOf(db, item)| + if item == i.item then 1 else 0
    {
      InsertReserves(db, i, item);
    }
  }

  lemma InsertKeepsGenuine(db: Db, i: Input)
    requires Genuine(db) && ReserveOnce(db, i).1.Committed?
    ensures Genuine(Insert(db, i))
  {
  }

  lemma InsertKeepsIndex(db: Db, i: Input)
    requires Indexed(db) && ReserveOnce(db, i).1.Committed?
    ensures Indexed(Insert(db, i))
  {
  }

  /** The transaction keeps the database invariant for every input. */
  lemma ReserveOnceKeepsDb(db: Db, i: Input)
    requires DbInv(db)
    ensures DbInv(ReserveOnce(db, i).0) && Grows(db, ReserveOnce(db, i).0)
  {
    hide Conserved;
    hide Genuine;
    hide Indexed;
    hide Insert;
    if ReserveOnce(db, i).1.Committed? {
      InsertConserves(db, i);
      InsertKeepsGenuine(db, i);
      InsertKeepsIndex(db, i);
      InsertGrows(db, i);
    }
  }

  /** What a waiting call already knows stays true while other calls run. */
  lemma PhaseStable(db: Db, db': Db, i: Input, p: Phase)
    requires DbInv(db') && Grows(db, db') && PhaseInv(db, i, p)
    ensures PhaseInv(db', i, p)
  {
    hide Genuine;
    hide Indexed;
    hide ReservedOf;
  }

  lemma NextPhaseInv(db: Db, i: Input, p: Phase)
    requires DbInv(db) && PhaseInv(db, i, p)
    ensures PhaseInv(NextDb(db, i, p), i, NextPhase(db, i, p))
  {
    hide Conserved;
    match p
    case Transact =>
      TransactPhaseInv(db, i);
    case RecheckOrder(soldOut) =>
    case RecheckUser(soldOut) =>
      var k := KeyOfInput(i);
      if k in db.byUser {
        assert KeyOf(db.reservations[db.byUser[k]]) == k;
      }
    case _ =>
  }

  lemma TransactPhaseInv(db: Db, i: Input)
    requires DbInv(db)
    ensures PhaseInv(ReserveOnce(db, i).0, i, AfterTx(ReserveOnce(db, i).1))
  {
    assert i.item in db.items ==> db.items[i.item].available >= 0;
  }

  lemma AdvanceKeepsInv(s: Service, c: nat, fault: Fault)
    requires ServiceInv(s)
    ensures ServiceInv(Advance(s, c, fault)) && Grows(s.db, Advance(s, c, fault).db)
  {
    hide DbInv;
    hide PhaseInv;
    GrowsReflexive(s.db);
    hide Grows;
    hide ReserveOnce;
    if c in s.calls && !s.calls[c].phase.Answered? {
      var s' := Advance(s, c, fault);
      var i, p := s.calls[c].input, s.calls[c].phase;
      ReserveOnceKeepsDb(s.db, i);
      assert DbInv(s'.db) && Grows(s.db, s'.db);
      forall d | d in s'.calls
        ensures PhaseInv(s'.db, s'.calls[d].input, s'.calls[d].phase)
      {
        if d != c {
          PhaseStable(s.db, s'.db, s.calls[d].input, s.calls[d].phase);
        } else if fault.NoFault? {
          NextPhaseInv(s.db, i, p);
        } else {
          assert PhaseInv(s'.db, i, Answered(Refused(Unknown))) by { UnknownIsHarmless(s'.db, i); }
        }
      }
    }
  }

  lemma UnknownIsHarmless(db: Db, i: Input)
    ensures PhaseInv(db, i, Answered(Refused(Unknown)))
  {
  }

  lemma GrowsReflexive(db: Db)
    ensures Grows(db, db)
  {
  }

  lemma GrowsTransitive(a: Db, b: Db, c: Db)
    requires Grows(a, b) && Grows(b, c) && DbInv(b)
    ensures Grows(a, c)
  {
    hide ReservedOf;
    hide Genuine;
    hide Indexed;
  }

  lemma ExecKeepsInv(s: Service, e: Event)
    requires ServiceInv(s)
    ensures ServiceInv(Exec(s, e)) && Grows(s.db, Exec(s, e).db)
  {
    hide DbInv;
    GrowsReflexive(s.db);
    match e
    case BeginCall(c, i) =>
      hide Grows;
    case AdvanceCall(c, fault) =>
      hide Grows;
      hide ServiceInv;
      AdvanceKeepsInv(s, c, fault);
  }

  /** Over every run of any number of interleaved, failing and repeated calls: no unit is created or lost,
      and nothing a call was told becomes untrue. */
  lemma {:induction false} RunKeepsInv(s: Service, events: seq<Event>)
    requires ServiceInv(s)
    ensures ServiceInv(Run(s, events)) && Grows(s.db, Run(s, events).db)
    decreases |events|
  {
    hide Grows;
    hide PhaseInv;
    GrowsReflexive(s.db);
    if events != [] {
      hide ServiceInv;
      ExecKeepsInv(s, events[0]);
      var s1 := Exec(s, events[0]);
      RunKeepsInv(s1, events[1..]);
      assert DbInv(s1.db) by { ServiceInvDb(s1); }
      GrowsTransitive(s.db, s1.db, Run(s1, events[1..]).db);
    }
  }

  lemma ServiceInvDb(s: Service)
    requires ServiceInv(s)
    ensures DbInv(s.db)
  {
  }

  // ---------------------------------------------------------------- what callers may rely on

  /** In every run, two granted answers to the same request name the same reservation. */
  lemma GrantsAgree(s: Service, events: seq<Event>, c: nat, d: nat)
    requires ServiceInv(s)
    requires var calls := Run(s, events).calls;
             c in calls && d in calls && calls[c].input == calls[d].input
             && calls[c].phase.Answered? && calls[c].phase.answer.Granted?
             && calls[d].phase.Answered? && calls[d].phase.answer.Granted?
    ensures var calls := Run(s, events).calls;
            calls[c].phase.answer.reservation == calls[d].phase.answer.reservation
  {
    RunKeepsInv(s, events);
    hide Run;
    hide Conserved;
    hide Genuine;
    hide Grows;
    var s' := Run(s, events);
    assert PhaseInv(s'.db, s'.calls[c].input, s'.calls[c].phase) && PhaseInv(s'.db, s'.calls[d].input, s'.calls[d].phase);
  }

  /** An out-of-stock answer is final: at that point, and after every later run, neither its order number
      nor its user holds a reservation of the item. */
  lemma OutOfStockIsFinal(s: Service, c: nat, events: seq<Event>)
    requires ServiceInv(s) && c in s.calls && s.calls[c].phase == Answered(Refused(OutOfStock))
    ensures var i, later := s.calls[c].input, Run(s, events).db;
            forall o :: o in later.reservations && later.reservations[o].item == i.item ==>
              o != i.orderNo && later.reservations[o].user != i.user
  {
    hide Run;
    hide DbInv;
    hide Grows;
    RunKeepsInv(s, events);
    var i, later := s.calls[c].input, Run(s, events).db;
    PhaseStable(s.db, later, i, s.calls[c].phase);
    RefusedUserHasNone(later, i);
  }

  lemma RefusedUserHasNone(db: Db, i: Input)
    requires DbInv(db) && PhaseInv(db, i, Answered(Refused(OutOfStock)))
    ensures forall o :: o in db.reservations && db.reservations[o].item == i.item ==> o != i.orderNo && db.reservations[o].user != i.user
  {
    hide Conserved;
    forall o | o in db.reservations && db.reservations[o].item == i.item
      ensures o != i.orderNo && db.reservations[o].user != i.user
    {
      assert KeyOf(db.reservations[o]) in db.byUser;
    }
  }

  lemma SubsetCount(a: set<string>, b: set<string>)
    requires a <= b
    ensures |b - a| == |b| - |a|
  {
    assert (b - a) + a == b;
  }

  lemma GrowsReserved(db: Db, db': Db, item: nat)
    requires Grows(db, db')
    ensures ReservedOf(db, item) <= ReservedOf(db', item)
    ensures item in db.items ==> item in db'.items && db'.items[item].initial == db.items[item].initial
  {
  }

  lemma AdvanceVersions(s: Service, e: Event, item: nat)
    requires item in s.db.items
    ensures var db' := Exec(s, e).db;
            item in db'.items && db'.items[item].version + db'.items[item].available == s.db.items[item].version + s.db.items[item].available
  {
    hide NextPhase;
  }

  lemma {:induction false} VersionsCount(s: Service, events: seq<Event>, item: nat)
    requires item in s.db.items
    ensures var db' := Run(s, events).db;
            item in db'.items && db'.items[item].version + db'.items[item].available == s.db.items[item].version + s.db.items[item].available
    decreases |events|
  {
    hide Exec;
    if events != [] {
      AdvanceVersions(s, events[0], item);
      VersionsCount(Exec(s, events[0]), events[1..], item);
    }
  }

  /** Whatever runs in between, an item's stock falls, and its version rises, by exactly the number of new reservations
      of it. */
  lemma DeductedOncePerReservation(s: Service, events: seq<Event>, item: nat)
    requires ServiceInv(s) && item in s.db.items
    ensures var later := Run(s, events).db;
            && item in later.items && ReservedOf(s.db, item) <= ReservedOf(later, item)
            && s.db.items[item].available - later.items[item].available == |ReservedOf(later, item) - ReservedOf(s.db, item)|
            && later.items[item].version - s.db.items[item].version == |ReservedOf(later, item) - ReservedOf(s.db, item)|
  {
    RunKeepsInv(s, events);
    VersionsCount(s, events, item);
    hide Run;
    hide Genuine;
    hide Indexed;
    hide PhaseInv;
    var later := Run(s, events).db;
    GrowsReserved(s.db, later, item);
    hide Grows;
    hide ReservedOf;
    SubsetCount(ReservedOf(s.db, item), ReservedOf(later, item));
  }

  lemma CommitsUnheard(s: Service, c: nat)
    requires c in s.calls && s.calls[c].phase.Transact? && ReserveOnce(s.db, s.calls[c].input).1.Committed?
    ensures var i, s1 := s.calls[c].input, Advance(s, c, FailsAfter);
            && s1.calls[c].phase == Answered(Refused(Unknown)) && i.orderNo !in s.db.reservations
            && i.orderNo in s1.db.reservations && ReplayOrder(s1.db.reservations[i.orderNo], i) == Granted(s1.db.reservations[i.orderNo], true)
  {
    hide NextPhase;
  }

  lemma FoundAgain(s: Service, d: nat, i: Input)
    requires d !in s.calls && i.orderNo in s.db.reservations
    ensures var again := Advance(Begin(s, d, i), d, NoFault);
            again.db == s.db && d in again.calls && again.calls[d].phase == Answered(ReplayOrder(s.db.reservations[i.orderNo], i))
  {
    hide ReplayOrder;
    hide ReserveOnce;
  }

  lemma ReservationStays(db: Db, db': Db, o: string)
    requires Grows(db, db') && o in db.reservations
    ensures o in db'.reservations && db'.reservations[o] == db.reservations[o]
  {
  }

  /** A transaction that commits and loses its answer is found again: the caller is told that nothing is known, and
      whenever later he repeats the request he is granted that very reservation. */
  lemma LostAnswerIsFound(s: Service, c: nat, events: seq<Event>, d: nat)
    requires ServiceInv(s) && c in s.calls && s.calls[c].phase.Transact? && ReserveOnce(s.db, s.calls[c].input).1.Committed?
    requires d !in Run(Advance(s, c, FailsAfter), events).calls
    ensures var i, s1 := s.calls[c].input, Advance(s, c, FailsAfter); var later := Run(s1, events);
            var again := Advance(Begin(later, d, i), d, NoFault);
            && s1.calls[c].phase == Answered(Refused(Unknown)) && i.orderNo in s1.db.reservations && i.orderNo !in s.db.reservations
            && again.db == later.db && d in again.calls && again.calls[d].phase == Answered(Granted(s1.db.reservations[i.orderNo], true))
  {
    var s1 := Advance(s, c, FailsAfter);
    ExecKeepsInv(s, AdvanceCall(c, FailsAfter));
    assert Exec(s, AdvanceCall(c, FailsAfter)) == s1;
    hide *;
    CommitsUnheard(s, c);
    RunKeepsInv(s1, events);
    ReservationStays(s1.db, Run(s1, events).db, s.calls[c].input.orderNo);
    FoundAgain(Run(s1, events), d, s.calls[c].input);
  }

  // ---------------------------------------------------------------- one call alone, in place

  /** The whole call when nothing interferes. */
  function ReserveSeckillStock(db: Db, i: Input): (r: (Db, Answer)) {
    if i.orderNo in db.reservations then (db, ReplayOrder(db.reservations[i.orderNo], i))
    else
      var (db', t) := ReserveOnce(db, i);
      match t
      case Committed(r) => (db', Granted(r, false))
      case NoItem => (db', Refused(ItemNotFound))
      case _ =>
        if KeyOfInput(i) in db.byUser && db.byUser[KeyOfInput(i)] in db.reservations
        then (db, Granted(db.reservations[db.byUser[KeyOfInput(i)]], true))
        else (db, Refused(if t.NoStock? then OutOfStock else NoWinner))
  }

  /** A call that is left alone and meets no fault answers as the whole call does, in at most four statements. */
  lemma CallAlone(s: Service, c: nat)
    requires ServiceInv(s) && c in s.calls && s.calls[c].phase.Lookup?
    ensures var a := AdvanceCall(c, NoFault); var s' := Run(s, [a, a, a, a]);
            var (db', answer) := ReserveSeckillStock(s.db, s.calls[c].input);
            s'.db == db' && c in s'.calls && s'.calls[c].phase == Answered(answer)
  {
    hide DbInv;
    hide PhaseInv;
    hide Insert;
    var a := AdvanceCall(c, NoFault);
    var s1 := Advance(s, c, NoFault);
    var s2 := Advance(s1, c, NoFault);
    var s3 := Advance(s2, c, NoFault);
    var s4 := Advance(s3, c, NoFault);
    RunFour(s, a);
    hide Run;
    var i := s.calls[c].input;
    if i.orderNo !in s.db.reservations {
      assert s1.calls[c].phase.Transact? && s1.db == s.db;
    }
  }

  lemma RunFour(s: Service, e: Event)
    ensures Run(s, [e, e, e, e]) == Exec(Exec(Exec(Exec(s, e), e), e), e)
  {
    hide Exec;
    var four := [e, e, e, e];
    assert four[1..] == [e, e, e] && [e, e, e][1..] == [e, e] && [e, e][1..] == [e];
    assert Run(s, four) == Run(Exec(s, e), [e, e, e]) == Run(Exec(Exec(s, e), e), [e, e]);
    assert Run(Exec(Exec(s, e), e), [e, e]) == Run(Exec(Exec(Exec(s, e), e), e), [e]);
  }

  /** Repeating a granted request, at any later time, deducts nothing and returns the same reservation, even
      when the winner was found by user and item, as long as nobody else used the request's own number since. */
  lemma RepeatIsReplay(db: Db, i: Input, later: Db)
    requires DbInv(db) && DbInv(later) && Grows(ReserveSeckillStock(db, i).0, later)
    requires ReserveSeckillStock(db, i).1.Granted?
    requires ReserveSeckillStock(db, i).1.reservation.orderNo == i.orderNo || i.orderNo !in later.reservations
    ensures ReserveSeckillStock(later, i) == (later, Granted(ReserveSeckillStock(db, i).1.reservation, true))
  {
    GrantedIsStored(db, i);
    var r := ReserveSeckillStock(db, i).1.reservation;
    hide Conserved;
    hide ReserveSeckillStock;
    assert r.orderNo in later.reservations && later.reservations[r.orderNo] == r;
    hide Grows;
    StoredIsReplayed(later, i, r);
  }

  lemma GrantedIsStored(db: Db, i: Input)
    requires DbInv(db) && ReserveSeckillStock(db, i).1.Granted?
    ensures var (db', a) := ReserveSeckillStock(db, i);
            && a.reservation.orderNo in db'.reservations && db'.reservations[a.reservation.orderNo] == a.reservation
            && KeyOf(a.reservation) == KeyOfInput(i)
            && (a.reservation.orderNo == i.orderNo ==> a.reservation.reservedAt == i.reservedAt)
  {
    hide Conserved;
  }

  lemma StoredIsReplayed(db: Db, i: Input, r: Reservation)
    requires DbInv(db) && r.orderNo in db.reservations && db.reservations[r.orderNo] == r && KeyOf(r) == KeyOfInput(i)
    requires r.orderNo == i.orderNo ==> r.reservedAt == i.reservedAt
    requires r.orderNo == i.orderNo || i.orderNo !in db.reservations
    ensures ReserveSeckillStock(db, i) == (db, Granted(r, true))
  {
    hide Conserved;
  }

  /** The same order number with any other payload is refused as a conflict and changes nothing. */
  lemma OtherPayloadConflicts(db: Db, i: Input, r: Reservation)
    requires i.orderNo in db.reservations && r == db.reservations[i.orderNo]
    requires (r.activity, r.item, r.user, r.reservedAt) != (i.activity, i.item, i.user, i.reservedAt)
    ensures ReserveSeckillStock(db, i) == (db, Refused(Conflict))
  {
  }

  /** The stock rows and the reservation table with its two unique keys, as one transaction changes them. */
  class ReservationStore {
    var items: map<nat, ItemRow>
    var reservations: map<string, Reservation>
    var byUser: map<UserKey, string>
    var nextId: nat

    ghost function View(): (db: Db)
      reads this
    {
      Db(items, reservations, byUser, nextId)
    }

    constructor (items: map<nat, ItemRow>)
      ensures View() == Db(items, map[], map[], 1)
    {
      this.items, reservations, byUser, nextId := items, map[], map[], 1;
    }

    /** The decrement comes first and is rolled back when a unique key refuses the insert. */
    method ReserveOnceTx(i: Input) returns (t: TxResult)
      modifies this
      ensures (View(), t) == ReserveOnce(old(View()), i)
    {
      if i.item !in items || items[i.item].activity != i.activity {
        return NoItem;
      }
      var row := items[i.item];
      if row.available <= 0 {
        return NoStock;
      }
      var savepoint := items;
      items := items[i.item := row.(available := row.available - 1, version := row.version + 1)];
      if i.orderNo in reservations || KeyOfInput(i) in byUser {
        items := savepoint;
        return DuplicateKey;
      }
      var created := Reservation(nextId, i.orderNo, i.activity, i.item, i.user, row.snapshot, i.reservedAt);
      reservations := reservations[i.orderNo := created];
      byUser := byUser[KeyOfInput(i) := i.orderNo];
      nextId := nextId + 1;
      return Committed(created);
    }

    method Reserve(i: Input) returns (a: Answer)
      modifies this
      ensures (View(), a) == ReserveSeckillStock(old(View()), i)
    {
      hide Insert;
      if i.orderNo in reservations {
        return ReplayOrder(reservations[i.orderNo], i);
      }
      var t := ReserveOnceTx(i);
      match t {
        case Committed(r) => return Granted(r, false);
        case NoItem => return Refused(ItemNotFound);
        case _ =>
      }
      // Alone, the second query by order number would find what the first one did not: nothing.
      if KeyOfInput(i) in byUser && byUser[KeyOfInput(i)] in reservations {
        return Granted(reservations[byUser[KeyOfInput(i)]], true);
      }
      return Refused(if t.NoStock? then OutOfStock else NoWinner);
    }
  }
}
