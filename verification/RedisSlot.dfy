/** All Redis keys that share one item's hash tag, and the scripts that run on them. Redis runs a script
    without interleaving, so each script is one function from slot to slot. Key expiry is not part of it. */
module RedisSlot {
  import opened Text
  import opened StreamMessages

  /** The item's state hash; an absent hash has no field at all. */
  datatype StateHash = StateHash(
    ready: bool, activity: Option<nat>, sku: Option<nat>, status: Option<nat>, startAt: Option<int>, endAt: Option<int>,
    stock: Option<int>, generation: Option<string>, expireAt: Option<int>)

  const NO_STATE: StateHash := StateHash(false, None, None, None, None, None, None, None, None)

  const ENABLED: nat := 1

  datatype DlqEntry = DlqEntry(sourceId: nat, orderNo: string, user: nat, code: string, failedAt: int, attempts: nat)

  datatype Slot = Slot(
    state: StateHash,               // state
    buyers: map<nat, string>,       // buyers: user to order number
    stream: map<nat, Fields>,       // orders: message id to fields
    lastId: nat,                    // the stream's last generated id
    retries: map<nat, nat>,         // retries: message id to recorded failures
    results: map<string, string>,   // results: order number to "user|STATUS"
    dlq: seq<DlqEntry>,             // dlq
    ledger: map<string, string>)    // projected-events: event id to order number

  const EMPTY_SLOT: Slot := Slot(NO_STATE, map[], map[], 0, map[], map[], [], map[])

  const QUEUED: string := "QUEUED"
  const SUCCEEDED: string := "SUCCEEDED"
  const FAILED: string := "FAILED"

  function ResultValue(user: nat, status: string): (r: string) {
    FormatUint(user) + "|" + status
  }

  // ---------------------------------------------------------------- admission scripts

  datatype Decision = Reserved(orderNo: string) | AlreadyReserved(orderNo: string) | NotReady | Unavailable | SoldOut

  predicate OnSale(h: StateHash, now: int) {
    h.status == Some(ENABLED) && h.startAt.Some? && h.endAt.Some? && h.startAt.value <= now < h.endAt.value
  }

  /** The admission script of the synchronous path: sale window first, then the buyer's earlier order. */
  function Reserve(s: Slot, user: nat, now: int, orderNo: string): (r: (Slot, Decision)) {
    if !s.state.ready then (s, NotReady)
    else if !OnSale(s.state, now) then (s, Unavailable)
    else if user in s.buyers then (s, AlreadyReserved(s.buyers[user]))
    else if s.state.stock.None? || s.state.expireAt.None? then (s, NotReady)
    else if s.state.stock.value <= 0 then (s, SoldOut)
    else
      (s.(state := s.state.(stock := Some(s.state.stock.value - 1)), buyers := s.buyers[user := orderNo]), Reserved(orderNo))
  }

  /** What the stream admission script does when it admits: one unit, one buyer, one result, one message. */
  function Admit(s: Slot, t: Task): (r: Slot)
    requires s.state.stock.Some?
  {
    s.(state := s.state.(stock := Some(s.state.stock.value - 1)),
       buyers := s.buyers[t.user := t.orderNo],
       results := s.results[t.orderNo := ResultValue(t.user, QUEUED)],
       stream := s.stream[s.lastId + 1 := Encode(t)],
       lastId := s.lastId + 1)
  }

  /** The admission script of the stream path: the buyer's earlier order first, then the sale window. */
  function ReserveAndEnqueue(s: Slot, user: nat, now: int, orderNo: string, item: nat): (r: (Slot, Decision)) {
    if !s.state.ready then (s, NotReady)
    else if user in s.buyers then (s, AlreadyReserved(s.buyers[user]))
    else if !OnSale(s.state, now) then (s, Unavailable)
    else if s.state.stock.None? || s.state.expireAt.None? || s.state.activity.None? then (s, NotReady)
    else if s.state.stock.value <= 0 then (s, SoldOut)
    else (Admit(s, Task(orderNo, user, s.state.activity.value, item, now)), Reserved(orderNo))
  }

  function Publish(s: Slot, h: StateHash): (r: Slot) {
    s.(state := h.(ready := true), buyers := map[])
  }

  function Invalidate(s: Slot): (r: Slot) {
    s.(state := NO_STATE, buyers := map[])
  }

  // ---------------------------------------------------------------- consumer scripts

  function Complete(s: Slot, id: nat): (r: Slot) {
    s.(stream := s.stream - {id}, retries := s.retries - {id})
  }

  function Attempts(s: Slot, id: nat): (r: nat) {
    1 + if id in s.retries then s.retries[id] else 0
  }

  /** A failure is counted; a terminal one, or the last one allowed, moves the message to the DLQ. */
  function Fail(s: Slot, id: nat, orderNo: string, user: nat, code: string, terminal: bool, maxDeliveries: nat, failedAt: int): (r: Slot) {
    if !terminal && Attempts(s, id) < maxDeliveries then s.(retries := s.retries[id := Attempts(s, id)])
    else
      s.(dlq := s.dlq + [DlqEntry(id, orderNo, user, code, failedAt, Attempts(s, id))],
         results := if orderNo != "" && user != 0 then s.results[orderNo := ResultValue(user, FAILED)] else s.results,
         stream := s.stream - {id},
         retries := s.retries - {id})
  }

  // ---------------------------------------------------------------- result projection

  /** The projection script's owner test: the stored value starts with the user and a bar. */
  predicate OwnedBy(value: string, user: nat) {
    var prefix := FormatUint(user) + "|";
    |prefix| <= |value| && value[..|prefix|] == prefix
  }

  datatype Projection = Repeated | Projected | Expired | OwnerConflict | LedgerConflict

  function Project(s: Slot, eventId: string, orderNo: string, user: nat): (r: (Slot, Projection)) {
    if eventId in s.ledger then (s, if s.ledger[eventId] == orderNo then Repeated else LedgerConflict)
    else if orderNo !in s.results then (s.(ledger := s.ledger[eventId := orderNo]), Expired)
    else if !OwnedBy(s.results[orderNo], user) then (s, OwnerConflict)
    else (s.(results := s.results[orderNo := ResultValue(user, SUCCEEDED)], ledger := s.ledger[eventId := orderNo]), Projected)
  }

  datatype Found = Status(text: string) | NotFound | UnknownStatus

  /** The result a user may read: only his own, and only one of the three known texts. */
  function FindResult(s: Slot, user: nat, orderNo: string): (r: Found) {
    if user == 0 || orderNo !in s.results then NotFound
    else
      var parts := Split(s.results[orderNo], '|');
      if |parts| != 2 || parts[0] != FormatUint(user) then NotFound
      else if parts[1] != QUEUED && parts[1] != SUCCEEDED && parts[1] != FAILED then UnknownStatus
      else Status(parts[1])
  }

  predicate KnownStatus(status: string) { status == QUEUED || status == SUCCEEDED || status == FAILED }

  lemma FormatUintNamesUser(a: nat, b: nat)
    requires a <= MAX_UINT64 && b <= MAX_UINT64 && FormatUint(a) == FormatUint(b)
    ensures a == b
  {
    ParseFormatUint(a);
    ParseFormatUint(b);
  }

  lemma NoBarInDigits(n: nat)
    ensures '|' !in FormatUint(n)
  {
  }

  lemma SplitResult(user: nat, status: string)
    requires KnownStatus(status)
    ensures Split(ResultValue(user, status), '|') == [FormatUint(user), status]
  {
    hide FormatUint;
    NoBarInDigits(user);
    SplitFirst(FormatUint(user), '|', status);
    SplitWhole(status, '|');
  }

  /** A stored result is readable by its owner and by nobody else, with exactly the stored status. */
  lemma ResultRoundTrip(s: Slot, owner: nat, reader: nat, orderNo: string, status: string)
    requires KnownStatus(status) && 0 < owner <= MAX_UINT64 && reader <= MAX_UINT64
    requires orderNo in s.results && s.results[orderNo] == ResultValue(owner, status)
    ensures FindResult(s, reader, orderNo) == (if reader == owner then Status(status) else NotFound)
  {
    SplitResult(owner, status);
    if FormatUint(reader) == FormatUint(owner) {
      FormatUintNamesUser(reader, owner);
    }
    hide ResultValue;
    hide Split;
    hide FormatUint;
  }

  /** A text that is none of the three statuses is reported as such to its owner. */
  lemma UnknownIsReported(s: Slot, owner: nat, orderNo: string, status: string)
    requires !KnownStatus(status) && '|' !in status && 0 < owner <= MAX_UINT64
    requires orderNo in s.results && s.results[orderNo] == ResultValue(owner, status)
    ensures FindResult(s, owner, orderNo) == UnknownStatus
  {
    NoBarInDigits(owner);
    SplitFirst(FormatUint(owner), '|', status);
    SplitWhole(status, '|');
    hide FormatUint;
    hide Split;
  }

  /** The prefix test of the projection script recognises exactly the stored owner. */
  lemma OwnerTestIsExact(owner: nat, user: nat, status: string)
    requires owner <= MAX_UINT64 && user <= MAX_UINT64
    ensures OwnedBy(ResultValue(owner, status), user) <==> owner == user
  {
    var a, b := FormatUint(owner), FormatUint(user);
    NoBarInDigits(owner);
    NoBarInDigits(user);
    var value, prefix := ResultValue(owner, status), b + "|";
    if OwnedBy(value, user) {
      assert value[|b|] == prefix[|b|] == '|' == value[|a|];
      assert |a| == |b|;
      assert a == value[..|a|] == prefix[..|a|] == b;
      FormatUintNamesUser(owner, user);
    }
    assert value[..|a| + 1] == a + "|";
  }

  // ---------------------------------------------------------------- when the scripts decide what

  /** A hash from which units can be sold at this time: published, enabled, inside the window, with its numbers. */
  ghost predicate Selling(h: StateHash, now: int) {
    && h.ready && h.status == Some(ENABLED) && h.stock.Some? && h.expireAt.Some?
    && h.startAt.Some? && h.endAt.Some? && h.startAt.value <= now < h.endAt.value
  }

  ghost predicate InWindow(h: StateHash, now: int) {
    h.status == Some(ENABLED) && h.startAt.Some? && h.endAt.Some? && h.startAt.value <= now < h.endAt.value
  }

  /** The synchronous gate, decision by decision: a selling hash admits a newcomer exactly when a unit is left, and
      takes that unit; a buyer gets his number back; everything else is refused for the first reason there is. */
  lemma ReserveExactly(s: Slot, user: nat, now: int, orderNo: string)
    ensures var (s', d) := Reserve(s, user, now, orderNo); var h := s.state;
            && (d == Reserved(orderNo) <==> Selling(h, now) && user !in s.buyers && 0 < h.stock.value)
            && (d.SoldOut? <==> Selling(h, now) && user !in s.buyers && h.stock.value <= 0)
            && (d.AlreadyReserved? <==> h.ready && InWindow(h, now) && user in s.buyers)
            && (d.AlreadyReserved? ==> d.orderNo == s.buyers[user])
            && (d.Unavailable? <==> h.ready && !InWindow(h, now))
            && (d.NotReady? <==> !h.ready || (InWindow(h, now) && user !in s.buyers && (h.stock.None? || h.expireAt.None?)))
            && (d.Reserved? ==> s'.state.stock == Some(h.stock.value - 1) && s'.buyers == s.buyers[user := orderNo]
                                && s' == s.(state := s'.state, buyers := s'.buyers) && s'.state == h.(stock := s'.state.stock))
            && (!d.Reserved? ==> s' == s)
  {
  }

  /** One attempt after the other. */
  ghost function ReserveAll(s: Slot, users: seq<nat>, now: int, numbers: seq<string>): (s': Slot)
    requires |numbers| == |users|
  {
    if users == [] then s
    else
      var n := |users| - 1;
      Reserve(ReserveAll(s, users[..n], now, numbers[..n]), users[n], now, numbers[n]).0
  }

  /** These users have been served, each under his own number, and nobody else. */
  ghost predicate Served(s: Slot, s': Slot, users: seq<nat>, numbers: seq<string>)
    requires |numbers| == |users| && s.state.stock.Some?
  {
    && s'.state == s.state.(stock := Some(s.state.stock.value - |users|))
    && (forall i :: 0 <= i < |users| ==> users[i] in s'.buyers && s'.buyers[users[i]] == numbers[i])
    && (forall u :: u in s'.buyers ==> u in s.buyers || u in users)
  }

  ghost predicate Newcomers(s: Slot, users: seq<nat>) {
    && (forall i, j :: 0 <= i < j < |users| ==> users[i] != users[j])
    && (forall i :: 0 <= i < |users| ==> users[i] !in s.buyers)
  }

  lemma ServedStep(s: Slot, s1: Slot, users: seq<nat>, now: int, numbers: seq<string>)
    requires |numbers| == |users| > 0 && Selling(s.state, now) && |users| <= s.state.stock.value && Newcomers(s, users)
    requires var n := |users| - 1; Served(s, s1, users[..n], numbers[..n])
    ensures var n := |users| - 1; Served(s, Reserve(s1, users[n], now, numbers[n]).0, users, numbers)
  {
    var n := |users| - 1;
    assert users[n] !in users[..n];
    assert users[n] !in s1.buyers;
    ReserveExactly(s1, users[n], now, numbers[n]);
    var s' := Reserve(s1, users[n], now, numbers[n]).0;
    hide Reserve;
    assert s'.buyers == s1.buyers[users[n] := numbers[n]];
    forall i | 0 <= i < |users|
      ensures users[i] in s'.buyers && s'.buyers[users[i]] == numbers[i]
    {
      if i < n {
        assert users[i] == users[..n][i] && numbers[i] == numbers[..n][i];
      }
    }
    forall u | u in s'.buyers
      ensures u in s.buyers || u in users
    {
      assert u in s1.buyers || u == users[n];
    }
  }

  lemma {:induction false} AllServed(s: Slot, users: seq<nat>, now: int, numbers: seq<string>)
    requires |numbers| == |users| && Selling(s.state, now) && |users| <= s.state.stock.value && Newcomers(s, users)
    ensures Served(s, ReserveAll(s, users, now, numbers), users, numbers)
    decreases |users|
  {
    hide Reserve;
    if users != [] {
      var n := |users| - 1;
      AllServed(s, users[..n], now, numbers[..n]);
      hide Served;
      ServedStep(s, ReserveAll(s, users[..n], now, numbers[..n]), users, now, numbers);
    }
  }

  /** A selling hash with n units serves any n newcomers, each under his own number, and the next one finds it sold out. */
  lemma SellsToTheLast(s: Slot, users: seq<nat>, now: int, numbers: seq<string>, next: nat, orderNo: string)
    requires |numbers| == |users| && Selling(s.state, now) && |users| <= s.state.stock.value && Newcomers(s, users)
    requires next !in s.buyers && next !in users
    ensures var s' := ReserveAll(s, users, now, numbers);
            && Served(s, s', users, numbers)
            && Reserve(s', next, now, orderNo).1 == if |users| < s.state.stock.value then Reserved(orderNo) else SoldOut
  {
    AllServed(s, users, now, numbers);
    hide ReserveAll;
    hide Reserve;
    ReserveExactly(ReserveAll(s, users, now, numbers), next, now, orderNo);
  }

  /** The stream gate: the same, except that a buyer is answered before the window is looked at, and that the
      activity must be known too. */
  lemma ReserveAndEnqueueExactly(s: Slot, user: nat, now: int, orderNo: string, item: nat)
    ensures var (s', d) := ReserveAndEnqueue(s, user, now, orderNo, item); var h := s.state;
            && (d == Reserved(orderNo) <==> Selling(h, now) && h.activity.Some? && user !in s.buyers && 0 < h.stock.value)
            && (d.SoldOut? <==> Selling(h, now) && h.activity.Some? && user !in s.buyers && h.stock.value <= 0)
            && (d.AlreadyReserved? <==> h.ready && user in s.buyers)
            && (d.AlreadyReserved? ==> d.orderNo == s.buyers[user])
            && (d.Unavailable? <==> h.ready && user !in s.buyers && !InWindow(h, now))
            && (d.NotReady? <==> !h.ready || (user !in s.buyers && InWindow(h, now) && (h.stock.None? || h.expireAt.None? || h.activity.None?)))
            && (!d.Reserved? ==> s' == s)
  {
    hide Encode;
    hide ResultValue;
  }

  /** A completed message is gone together with its count of failures, and nothing else changes. */
  lemma CompletedIsForgotten(s: Slot, id: nat, other: nat)
    ensures var s' := Complete(s, id);
            && id !in s'.stream && Attempts(s', id) == 1 && s' == s.(stream := s'.stream, retries := s'.retries)
            && (other != id ==> (other in s'.stream <==> other in s.stream) && Attempts(s', other) == Attempts(s, other))
            && (other != id && other in s.stream ==> s'.stream[other] == s.stream[other])
  {
  }

  /** The projection, verdict by verdict. */
  lemma ProjectExactly(s: Slot, eventId: string, orderNo: string, user: nat, owner: nat, status: string)
    requires user <= MAX_UINT64 && owner <= MAX_UINT64
    requires orderNo in s.results ==> s.results[orderNo] == ResultValue(owner, status)
    ensures var (s', p) := Project(s, eventId, orderNo, user);
            && (p.Repeated? <==> eventId in s.ledger && s.ledger[eventId] == orderNo)
            && (p.LedgerConflict? <==> eventId in s.ledger && s.ledger[eventId] != orderNo)
            && (p.Expired? <==> eventId !in s.ledger && orderNo !in s.results)
            && (p.Projected? <==> eventId !in s.ledger && orderNo in s.results && owner == user)
            && (p.OwnerConflict? <==> eventId !in s.ledger && orderNo in s.results && owner != user)
            && s'.results == (if p.Projected? then s.results[orderNo := ResultValue(user, SUCCEEDED)] else s.results)
            && s'.ledger == (if p.Projected? || p.Expired? then s.ledger[eventId := orderNo] else s.ledger)
  {
    OwnerTestIsExact(owner, user, status);
    hide OwnedBy;
    hide ResultValue;
  }

  // ---------------------------------------------------------------- what users see of the scripts

  /** Whoever was admitted gets the first order number back from every later attempt while the gate stands,
      sold out or not; on the stream path even after the sale, on the synchronous path only during it. */
  lemma FirstNumberComesBack(s: Slot, user: nat, now: int, orderNo: string, item: nat, later: int, other: string)
    ensures var (s', d) := Reserve(s, user, now, orderNo);
            d.Reserved? ==> Reserve(s', user, later, other) == (s', if OnSale(s'.state, later) then AlreadyReserved(orderNo) else Unavailable)
    ensures var (s', d) := ReserveAndEnqueue(s, user, now, orderNo, item);
            d.Reserved? ==> ReserveAndEnqueue(s', user, later, other, item) == (s', AlreadyReserved(orderNo))
  {
    hide Encode;
    hide ResultValue;
  }

  /** An admitted request reads as QUEUED by its user and by nobody else, and its message decodes to it. */
  lemma AdmittedIsQueued(s: Slot, user: nat, now: int, orderNo: string, item: nat, reader: nat, messageId: string)
    requires ReserveAndEnqueue(s, user, now, orderNo, item).1.Reserved? && 0 < user <= MAX_UINT64 && reader <= MAX_UINT64
    requires Admissible(Task(orderNo, user, s.state.activity.value, item, now)) && 0 < now && messageId != ""
    ensures var s' := ReserveAndEnqueue(s, user, now, orderNo, item).0;
            && FindResult(s', reader, orderNo) == (if reader == user then Status(QUEUED) else NotFound)
            && s'.lastId in s'.stream
            && Decode(item, messageId, s'.stream[s'.lastId]) == Decoded(Task(orderNo, user, s.state.activity.value, item, now))
  {
    var t := Task(orderNo, user, s.state.activity.value, item, now);
    var s' := ReserveAndEnqueue(s, user, now, orderNo, item).0;
    assert s' == Admit(s, t);
    DecodeEncode(t, messageId);
    hide Decode;
    hide Encode;
    hide ResultValue;
    hide FindResult;
    hide Admissible;
    ResultRoundTrip(s', user, reader, orderNo, QUEUED);
  }

  /** A report of failure either leaves the message and the result alone and counts one more failure, or takes
      the message out, files it in the DLQ and lets its user read FAILED. */
  lemma FailureIsVisible(s: Slot, id: nat, orderNo: string, user: nat, code: string, terminal: bool, maxDeliveries: nat, failedAt: int)
    requires orderNo != "" && 0 < user <= MAX_UINT64
    ensures var s' := Fail(s, id, orderNo, user, code, terminal, maxDeliveries, failedAt);
            if terminal || Attempts(s, id) >= maxDeliveries
            then && id !in s'.stream && id !in s'.retries && FindResult(s', user, orderNo) == Status(FAILED)
                 && |s'.dlq| == |s.dlq| + 1 && s'.dlq[|s.dlq|] == DlqEntry(id, orderNo, user, code, failedAt, Attempts(s, id))
            else s'.stream == s.stream && s'.results == s.results && s'.dlq == s.dlq && Attempts(s', id) == Attempts(s, id) + 1
  {
    var s' := Fail(s, id, orderNo, user, code, terminal, maxDeliveries, failedAt);
    hide ResultValue;
    hide FindResult;
    if terminal || Attempts(s, id) >= maxDeliveries {
      ResultRoundTrip(s', user, user, orderNo, FAILED);
    }
  }

  /** A projected order reads as SUCCEEDED, whatever failure stood there before, and projecting its event again
      changes nothing. */
  lemma ProjectionIsVisible(s: Slot, eventId: string, orderNo: string, user: nat)
    requires 0 < user <= MAX_UINT64
    ensures var (s', p) := Project(s, eventId, orderNo, user);
            && (p.Projected? ==> FindResult(s', user, orderNo) == Status(SUCCEEDED))
            && (p.Projected? || p.Expired? || p.Repeated? ==> Project(s', eventId, orderNo, user) == (s', Repeated))
            && (p.OwnerConflict? || p.LedgerConflict? ==> s' == s)
  {
    var (s', p) := Project(s, eventId, orderNo, user);
    hide ResultValue;
    hide OwnedBy;
    hide FindResult;
    if p.Projected? {
      ResultRoundTrip(s', user, user, orderNo, SUCCEEDED);
    }
  }
}
