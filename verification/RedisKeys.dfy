/** The keys of one item as Redis holds them, hashes of texts, and the scripts as the commands they issue. Each
    script is proved to do to the stored texts what its function in RedisSlot does to the values they stand for. */
module RedisKeys {
  import opened Text
  import opened StreamMessages
  import opened RedisSlot

  // ---------------------------------------------------------------- the state hash as texts

  datatype HashField = ReadyField | ActivityField | SkuField | StatusField | StartField | EndField | StockField | GenerationField | ExpireField

  type Hash = map<HashField, string>

  function UintText(v: Option<nat>): (t: Option<string>) { if v.Some? then Some(FormatUint(v.value)) else None }

  function IntText(v: Option<int>): (t: Option<string>) { if v.Some? then Some(FormatInt(v.value)) else None }

  function FieldText(h: StateHash, f: HashField): (t: Option<string>) {
    match f
    case ReadyField => if h.ready then Some("1") else None
    case ActivityField => UintText(h.activity)
    case SkuField => UintText(h.sku)
    case StatusField => UintText(h.status)
    case StartField => IntText(h.startAt)
    case EndField => IntText(h.endAt)
    case StockField => IntText(h.stock)
    case GenerationField => h.generation
    case ExpireField => IntText(h.expireAt)
  }

  /** The stored hash stands for these values: every field is there, in decimal, exactly when the value is. */
  ghost predicate StandsFor(state: Hash, h: StateHash) {
    forall f: HashField :: HGet(state, f) == FieldText(h, f)
  }

  function HGet(state: Hash, f: HashField): (t: Option<string>) { if f in state then Some(state[f]) else None }

  predicate Fits(v: Option<int>) { v.Some? ==> MIN_INT64 <= v.value <= MAX_INT64 }

  /** All numbers are 64-bit ones. */
  predicate FitsHash(h: StateHash) {
    && Fits(h.startAt) && Fits(h.endAt) && Fits(h.stock) && Fits(h.expireAt)
    && (h.status.Some? ==> h.status.value <= MAX_UINT64)
  }

  /** A text a script turns into a number, if it is one. */
  function ToNumber(t: Option<string>): (n: Option<int>) {
    if t.None? then None else var p := ParseInt(t.value); if p.ok then Some(p.value) else None
  }

  lemma NumberReadsBack(v: Option<int>)
    requires Fits(v)
    ensures ToNumber(IntText(v)) == v
  {
    if v.Some? {
      ParseFormatInt(v.value);
    }
    hide ParseInt;
    hide FormatInt;
  }

  lemma StatusReadsBack(v: Option<nat>)
    requires v.Some? ==> v.value <= MAX_UINT64
    ensures UintText(v) == Some("1") <==> v == Some(ENABLED)
  {
    assert FormatUint(ENABLED) == "1";
    if v.Some? && FormatUint(v.value) == "1" {
      FormatUintNamesUser(v.value, ENABLED);
    }
    hide FormatUint;
  }

  /** What the scripts read from the texts are the values. */
  lemma ReadsBack(state: Hash, h: StateHash)
    requires StandsFor(state, h) && FitsHash(h)
    ensures HGet(state, ReadyField) == Some("1") <==> h.ready
    ensures HGet(state, StatusField) == Some("1") <==> h.status == Some(ENABLED)
    ensures ToNumber(HGet(state, StartField)) == h.startAt && ToNumber(HGet(state, EndField)) == h.endAt
    ensures ToNumber(HGet(state, StockField)) == h.stock && ToNumber(HGet(state, ExpireField)) == h.expireAt
    ensures HGet(state, ActivityField) == UintText(h.activity)
  {
    StatusReadsBack(h.status);
    NumberReadsBack(h.startAt);
    NumberReadsBack(h.endAt);
    NumberReadsBack(h.stock);
    NumberReadsBack(h.expireAt);
    hide HGet;
    hide ToNumber;
    hide IntText;
    hide UintText;
  }

  /** HINCRBY of the stock field. */
  lemma StockWritten(state: Hash, h: StateHash, stock: int)
    requires StandsFor(state, h)
    ensures StandsFor(state[StockField := FormatInt(stock)], h.(stock := Some(stock)))
  {
    hide FormatInt;
    hide FormatUint;
    forall f: HashField
      ensures HGet(state[StockField := FormatInt(stock)], f) == FieldText(h.(stock := Some(stock)), f)
    {
      assert HGet(state, f) == FieldText(h, f);
    }
  }

  // ---------------------------------------------------------------- the buyers hash as texts

  /** Field names are the users' decimal numbers. */
  ghost predicate BuyersText(texts: map<string, string>, buyers: map<nat, string>) {
    && (forall u :: u in buyers ==> u <= MAX_UINT64 && FormatUint(u) in texts && texts[FormatUint(u)] == buyers[u])
    && (forall k :: k in texts ==> exists u :: u in buyers && k == FormatUint(u))
  }

  lemma BuyerReadsBack(texts: map<string, string>, buyers: map<nat, string>, user: nat)
    requires BuyersText(texts, buyers) && user <= MAX_UINT64
    ensures FormatUint(user) in texts <==> user in buyers
    ensures user in buyers ==> texts[FormatUint(user)] == buyers[user]
  {
    hide FormatUint;
    if FormatUint(user) in texts {
      var u :| u in buyers && FormatUint(user) == FormatUint(u);
      FormatUintNamesUser(user, u);
    }
  }

  lemma BuyerWritten(texts: map<string, string>, buyers: map<nat, string>, user: nat, orderNo: string)
    requires BuyersText(texts, buyers) && user <= MAX_UINT64
    ensures BuyersText(texts[FormatUint(user) := orderNo], buyers[user := orderNo])
  {
    hide FormatUint;
    var texts', buyers' := texts[FormatUint(user) := orderNo], buyers[user := orderNo];
    forall u | u in buyers'
      ensures u <= MAX_UINT64 && FormatUint(u) in texts' && texts'[FormatUint(u)] == buyers'[u]
    {
      if u != user && FormatUint(u) == FormatUint(user) {
        FormatUintNamesUser(u, user);
      }
    }
    forall k | k in texts'
      ensures exists u :: u in buyers' && k == FormatUint(u)
    {
      if k in texts {
        var u :| u in buyers && k == FormatUint(u);
        assert u in buyers';
      } else {
        assert user in buyers';
      }
    }
  }

  // ---------------------------------------------------------------- messages

  /** The fields of the XADD, with the activity's stored text passed on as it is. */
  function AddedFields(orderNo: string, user: nat, activityText: string, item: nat, now: int): (f: Fields) {
    map[SchemaVersion := "1",
        EventType := "seckill.order.requested",
        OrderNo := orderNo,
        UserId := FormatUint(user),
        ActivityId := activityText,
        ItemId := FormatUint(item),
        ReservedAtMs := FormatInt(now)]
  }

  lemma AddedIsEncoded(t: Task)
    ensures AddedFields(t.orderNo, t.user, FormatUint(t.activity), t.item, t.reservedAt) == Encode(t)
  {
  }

  lemma ResultTexts(user: nat)
    ensures FormatUint(user) + "|QUEUED" == ResultValue(user, QUEUED)
    ensures FormatUint(user) + "|SUCCEEDED" == ResultValue(user, SUCCEEDED)
    ensures FormatUint(user) + "|FAILED" == ResultValue(user, FAILED)
  {
    hide FormatUint;
    assert "|" + QUEUED == "|QUEUED" && "|" + SUCCEEDED == "|SUCCEEDED" && "|" + FAILED == "|FAILED";
  }

  lemma ZeroText(user: nat)
    ensures FormatUint(user) == "0" <==> user == 0
  {
    if user >= 10 {
      assert |FormatUint(user)| >= 2;
    }
  }

  lemma DropsAgain(retries: map<nat, nat>, id: nat, attempts: nat)
    ensures retries[id := attempts] - {id} == retries - {id}
  {
  }

  /** The nine fields of the HSET. */
  function PublishedFields(activity: nat, sku: nat, status: nat, startAt: int, endAt: int, stock: int, generation: string, expireAt: int): (h: Hash) {
    map[ActivityField := FormatUint(activity), SkuField := FormatUint(sku), StatusField := FormatUint(status),
        StartField := FormatInt(startAt), EndField := FormatInt(endAt), StockField := FormatInt(stock),
        GenerationField := generation, ExpireField := FormatInt(expireAt), ReadyField := "1"]
  }

  lemma PublishedStands(activity: nat, sku: nat, status: nat, startAt: int, endAt: int, stock: int, generation: string, expireAt: int)
    ensures StandsFor(PublishedFields(activity, sku, status, startAt, endAt, stock, generation, expireAt),
                      StateHash(true, Some(activity), Some(sku), Some(status), Some(startAt), Some(endAt), Some(stock), Some(generation), Some(expireAt)))
  {
    hide FormatInt;
    hide FormatUint;
  }

  // ---------------------------------------------------------------- the keys

  class RedisItem {
    var state: Hash
    var buyers: map<string, string>
    var stream: map<nat, Fields>
    var lastId: nat
    var retries: map<nat, nat>
    var results: map<string, string>
    var dlq: seq<DlqEntry>
    var ledger: map<string, string>
    ghost var slot: Slot               // the values the texts stand for

    ghost predicate Valid()
      reads this
    {
      && StandsFor(state, slot.state) && FitsHash(slot.state) && BuyersText(buyers, slot.buyers)
      && stream == slot.stream && lastId == slot.lastId && retries == slot.retries && results == slot.results
      && dlq == slot.dlq && ledger == slot.ledger
    }

    constructor ()
      ensures Valid() && slot == EMPTY_SLOT
    {
      state, buyers, stream, lastId, retries, results, dlq, ledger := map[], map[], map[], 0, map[], map[], [], map[];
      slot := EMPTY_SLOT;
    }

    /** HINCRBY state stock -1; HSET buyers user order. */
    method TakeUnit(user: nat, orderNo: string, stock: int)
      requires Valid() && slot.state.stock == Some(stock) && 0 < stock && user <= MAX_UINT64
      modifies this`state, this`buyers, this`slot
      ensures Valid()
      ensures slot == old(slot).(state := old(slot).state.(stock := Some(stock - 1)), buyers := old(slot).buyers[user := orderNo])
    {
      hide StandsFor;
      hide BuyersText;
      StockWritten(state, slot.state, stock - 1);
      BuyerWritten(buyers, slot.buyers, user, orderNo);
      state := state[StockField := FormatInt(stock - 1)];
      buyers := buyers[FormatUint(user) := orderNo];
      slot := slot.(state := slot.state.(stock := Some(stock - 1)), buyers := slot.buyers[user := orderNo]);
    }

    /** The tests on status and times, as the scripts make them on texts. */
    method OnSaleNow(now: int) returns (b: bool)
      requires Valid()
      ensures b <==> OnSale(slot.state, now)
    {
      ReadsBack(state, slot.state);
      hide StandsFor;
      hide BuyersText;
      hide HGet;
      hide ToNumber;
      var status, start, end := HGet(state, StatusField), ToNumber(HGet(state, StartField)), ToNumber(HGet(state, EndField));
      return !(status != Some("1") || start.None? || end.None? || now < start.value || now >= end.value);
    }

    method ReadyNow() returns (b: bool)
      requires Valid()
      ensures b <==> slot.state.ready
    {
      ReadsBack(state, slot.state);
      return HGet(state, ReadyField) == Some("1");
    }

    /** HGET buyers user. */
    method BuyerOrder(user: nat) returns (o: Option<string>)
      requires Valid() && user <= MAX_UINT64
      ensures o == if user in slot.buyers then Some(slot.buyers[user]) else None
    {
      BuyerReadsBack(buyers, slot.buyers, user);
      hide StandsFor;
      hide BuyersText;
      return if FormatUint(user) in buyers then Some(buyers[FormatUint(user)]) else None;
    }

    /** tonumber of stock and expire_at, and the activity's text. */
    method StockAndExpiry() returns (stock: Option<int>, expire: Option<int>, activityText: Option<string>)
      requires Valid()
      ensures stock == slot.state.stock && expire == slot.state.expireAt && activityText == UintText(slot.state.activity)
    {
      ReadsBack(state, slot.state);
      hide StandsFor;
      hide BuyersText;
      return ToNumber(HGet(state, StockField)), ToNumber(HGet(state, ExpireField)), HGet(state, ActivityField);
    }

    /** The synchronous admission script: every test is on stored texts. */
    method RunReserve(user: nat, now: int, orderNo: string) returns (d: Decision)
      requires Valid() && user <= MAX_UINT64
      modifies this
      ensures Valid() && (slot, d) == Reserve(old(slot), user, now, orderNo)
    {
      hide StandsFor;
      hide BuyersText;
      hide FitsHash;
      hide OnSale;
      var ready := ReadyNow();
      if !ready {
        return NotReady;
      }
      var onSale := OnSaleNow(now);
      if !onSale {
        return Unavailable;
      }
      var existing := BuyerOrder(user);
      if existing.Some? {
        return AlreadyReserved(existing.value);
      }
      var stock, expire, _ := StockAndExpiry();
      if stock.None? || expire.None? {
        return NotReady;
      }
      if stock.value <= 0 {
        return SoldOut;
      }
      TakeUnit(user, orderNo, stock.value);
      return Reserved(orderNo);
    }

    /** HSET results; XADD, with the activity's stored text passed on as it is. */
    method QueueRequest(orderNo: string, user: nat, activityText: string, item: nat, now: int, ghost t: Task)
      requires Valid() && t.orderNo == orderNo && t.user == user && t.item == item && t.reservedAt == now && activityText == FormatUint(t.activity)
      modifies this`results, this`lastId, this`stream, this`slot
      ensures Valid()
      ensures slot == old(slot).(results := old(slot).results[orderNo := ResultValue(user, QUEUED)],
                                 stream := old(slot).stream[old(slot).lastId + 1 := Encode(t)], lastId := old(slot).lastId + 1)
    {
      AddedIsEncoded(t);
      ResultTexts(user);
      hide StandsFor;
      hide BuyersText;
      hide FitsHash;
      hide Encode;
      hide ResultValue;
      hide AddedFields;
      results := results[orderNo := FormatUint(user) + "|QUEUED"];
      lastId := lastId + 1;
      stream := stream[lastId := AddedFields(orderNo, user, activityText, item, now)];
      slot := slot.(results := results, lastId := lastId, stream := stream);
    }

    /** The stream admission script: the buyer's earlier order comes before the sale window. */
    method RunReserveAndEnqueue(user: nat, now: int, orderNo: string, item: nat) returns (d: Decision)
      requires Valid() && user <= MAX_UINT64
      modifies this
      ensures Valid() && (slot, d) == ReserveAndEnqueue(old(slot), user, now, orderNo, item)
    {
      hide StandsFor;
      hide BuyersText;
      hide FitsHash;
      hide OnSale;
      hide Encode;
      hide ResultValue;
      hide FormatUint;
      var ready := ReadyNow();
      if !ready {
        return NotReady;
      }
      var existing := BuyerOrder(user);
      if existing.Some? {
        return AlreadyReserved(existing.value);
      }
      var onSale := OnSaleNow(now);
      if !onSale {
        return Unavailable;
      }
      var stock, expire, activityText := StockAndExpiry();
      if stock.None? || expire.None? || activityText.None? {
        return NotReady;
      }
      if stock.value <= 0 {
        return SoldOut;
      }
      TakeUnit(user, orderNo, stock.value);
      QueueRequest(orderNo, user, activityText.value, item, now, Task(orderNo, user, slot.state.activity.value, item, now));
      return Reserved(orderNo);
    }

    /** DEL state buyers; then one HSET of nine fields. */
    method RunPublish(activity: nat, sku: nat, status: nat, startAt: Int64, endAt: Int64, stock: Int64, generation: string, expireAt: Int64)
      requires Valid() && status <= MAX_UINT64
      modifies this`state, this`buyers, this`slot
      ensures Valid()
      ensures slot == Publish(old(slot), StateHash(true, Some(activity), Some(sku), Some(status), Some(startAt), Some(endAt), Some(stock), Some(generation), Some(expireAt)))
    {
      PublishedStands(activity, sku, status, startAt, endAt, stock, generation, expireAt);
      hide StandsFor;
      hide PublishedFields;
      hide FormatInt;
      hide FormatUint;
      state, buyers := map[], map[];
      state := state + PublishedFields(activity, sku, status, startAt, endAt, stock, generation, expireAt);
      assert state == PublishedFields(activity, sku, status, startAt, endAt, stock, generation, expireAt);
      slot := slot.(state := StateHash(true, Some(activity), Some(sku), Some(status), Some(startAt), Some(endAt), Some(stock), Some(generation), Some(expireAt)), buyers := map[]);
    }

    /** DEL state buyers: nothing a script could read is left. */
    method RunInvalidate()
      requires Valid()
      modifies this`state, this`buyers, this`slot
      ensures Valid() && slot == Invalidate(old(slot))
      ensures forall user: nat, now: int, o: string, item: nat :: ReserveAndEnqueue(slot, user, now, o, item) == (slot, NotReady)
    {
      state, buyers := map[], map[];
      slot := slot.(state := NO_STATE, buyers := map[]);
    }

    /** XDEL the message, HDEL its count. */
    method RunComplete(id: nat)
      requires Valid()
      modifies this`stream, this`retries, this`slot
      ensures Valid() && slot == Complete(old(slot), id)
      ensures Attempts(slot, id) == 1 && id !in slot.stream
    {
      hide StandsFor;
      hide BuyersText;
      stream := stream - {id};
      retries := retries - {id};
      slot := slot.(stream := stream, retries := retries);
    }

    /** The failure script: the count is written before the verdict and deleted again with the message. */
    method RunFail(id: nat, orderNo: string, user: nat, code: string, terminalFlag: bool, maxDeliveries: nat, failedAt: int)
      returns (attempts: nat, terminal: bool)
      requires Valid()
      modifies this`dlq, this`results, this`stream, this`retries, this`slot
      ensures Valid() && slot == Fail(old(slot), id, orderNo, user, code, terminalFlag, maxDeliveries, failedAt)
      ensures attempts == Attempts(old(slot), id)
      ensures terminal <==> terminalFlag || attempts >= maxDeliveries
    {
      hide StandsFor;
      hide BuyersText;
      hide FitsHash;
      hide ResultValue;
      attempts := 1 + if id in retries then retries[id] else 0;
      retries := retries[id := attempts];
      slot := slot.(retries := retries);
      terminal := terminalFlag || attempts >= maxDeliveries;
      if terminal {
        DeadLetter(id, orderNo, user, code, failedAt, attempts);
        DropsAgain(old(slot).retries, id, attempts);
      }
    }

    /** XADD to the DLQ, HSET the result, XDEL the message, HDEL its count. */
    method DeadLetter(id: nat, orderNo: string, user: nat, code: string, failedAt: int, attempts: nat)
      requires Valid()
      modifies this`dlq, this`results, this`stream, this`retries, this`slot
      ensures Valid()
      ensures slot == old(slot).(dlq := old(slot).dlq + [DlqEntry(id, orderNo, user, code, failedAt, attempts)],
                                 results := (if orderNo != "" && user != 0 then old(slot).results[orderNo := ResultValue(user, FAILED)] else old(slot).results),
                                 stream := old(slot).stream - {id}, retries := old(slot).retries - {id})
    {
      ZeroText(user);
      ResultTexts(user);
      hide StandsFor;
      hide BuyersText;
      hide FitsHash;
      hide ResultValue;
      hide FormatUint;
      dlq := dlq + [DlqEntry(id, orderNo, user, code, failedAt, attempts)];
      if orderNo != "" && FormatUint(user) != "0" {
        results := results[orderNo := FormatUint(user) + "|FAILED"];
      }
      stream := stream - {id};
      retries := retries - {id};
      slot := slot.(dlq := dlq, results := results, stream := stream, retries := retries);
    }

    /** The projection script: the owner is tested by prefix on the stored text. */
    method RunProject(eventId: string, orderNo: string, user: nat) returns (p: Projection)
      requires Valid()
      modifies this`results, this`ledger, this`slot
      ensures Valid() && (slot, p) == Project(old(slot), eventId, orderNo, user)
    {
      ResultTexts(user);
      hide StandsFor;
      hide BuyersText;
      hide FitsHash;
      hide ResultValue;
      if eventId in ledger {
        return if ledger[eventId] == orderNo then Repeated else LedgerConflict;
      }
      if orderNo !in results {
        ledger := ledger[eventId := orderNo];
        slot := slot.(ledger := ledger);
        return Expired;
      }
      var current, prefix := results[orderNo], FormatUint(user) + "|";
      if |current| < |prefix| || current[..|prefix|] != prefix {
        return OwnerConflict;
      }
      results := results[orderNo := FormatUint(user) + "|SUCCEEDED"];
      ledger := ledger[eventId := orderNo];
      slot := slot.(results := results, ledger := ledger);
      return Projected;
    }
  }
}
