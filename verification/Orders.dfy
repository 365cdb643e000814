/** The order service: item normalisation with exact 64-bit money, and the transaction that inserts
    an order, its items and its outbox row once per order number. Times are Unix nanoseconds. */
module Orders {
  import opened Text
  import opened OrderEvents

  datatype ItemInput = ItemInput(sku: nat, productName: string, skuCode: string, skuName: string, price: Int64, quantity: Int64)

  datatype Item = Item(sku: nat, productName: string, skuCode: string, skuName: string, price: Int64, quantity: Int64, subtotal: int)

  datatype Order = Order(id: nat, orderNo: string, user: nat, total: int, items: seq<Item>, createdAt: int)

  datatype Status = Pending | Published

  datatype Row = Row(eventId: string, orderNo: string, payload: OrderCreated, status: Status, attempts: nat,
                     nextAttempt: int, claimedBy: Option<string>, claimUntil: Option<int>)

  /** The order database. Outbox rows stand in primary key order. */
  datatype Db = Db(orders: map<string, Order>, outbox: seq<Row>, nextId: nat)

  datatype Normalized = Normal(items: seq<Item>, total: int) | Invalid

  datatype Outcome = Created(order: Order) | Replayed(order: Order) | InvalidOrder | OrderConflict | EventRefused

  function TruncMs(t: int): (r: int)
    ensures r <= t < r + 1_000_000 && r % 1_000_000 == 0
  {
    t - t % 1_000_000
  }

  // ---------------------------------------------------------------- normalisation

  predicate ValidInput(i: ItemInput) {
    && i.sku != 0 && TrimSpace(i.productName) != "" && TrimSpace(i.skuCode) != "" && TrimSpace(i.skuName) != ""
    && 0 <= i.price && 1 <= i.quantity <= 100
  }

  /** Price times quantity over the mathematical integers. */
  function Amount(i: ItemInput): (r: int)
    ensures 0 <= i.price && 1 <= i.quantity ==> 0 <= r
  {
    i.price * i.quantity
  }

  /** An input with its texts trimmed and its subtotal worked out. */
  function Normalize(i: ItemInput): (r: Item) {
    Item(i.sku, TrimSpace(i.productName), TrimSpace(i.skuCode), TrimSpace(i.skuName), i.price, i.quantity, Amount(i))
  }

  function NormalizeAll(inputs: seq<ItemInput>): (r: seq<Item>)
    ensures |r| == |inputs| && forall k :: 0 <= k < |r| ==> r[k] == Normalize(inputs[k])
  {
    seq(|inputs|, k requires 0 <= k < |inputs| => Normalize(inputs[k]))
  }

  function Amounts(inputs: seq<ItemInput>): (r: seq<int>)
    ensures |r| == |inputs| && forall k :: 0 <= k < |r| ==> r[k] == Amount(inputs[k])
  {
    seq(|inputs|, k requires 0 <= k < |inputs| => Amount(inputs[k]))
  }

  function Sum(a: seq<int>): (r: int) {
    if a == [] then 0 else Sum(a[..|a| - 1]) + a[|a| - 1]
  }

  predicate DistinctSkus(inputs: seq<ItemInput>) {
    forall a, b :: 0 <= a < b < |inputs| ==> inputs[a].sku != inputs[b].sku
  }

  predicate AllValid(inputs: seq<ItemInput>) {
    forall k :: 0 <= k < |inputs| ==> ValidInput(inputs[k])
  }

  /** The items are accepted exactly when each is valid, no SKU repeats and the true sum fits 64 bits. */
  function NormalizeItems(user: nat, orderNo: string, inputs: seq<ItemInput>): (r: Normalized) {
    if user == 0 || orderNo == "" || inputs == [] || !AllValid(inputs) || !DistinctSkus(inputs)
       || Sum(Amounts(inputs)) > MAX_INT64
    then Invalid
    else Normal(NormalizeAll(inputs), Sum(Amounts(inputs)))
  }

  lemma {:induction false} SumPrefix(a: seq<int>, n: nat)
    requires n <= |a| && forall k :: 0 <= k < |a| ==> 0 <= a[k]
    ensures 0 <= Sum(a[..n]) <= Sum(a)
  {
    if n == |a| {
      assert a[..n] == a;
      if n > 0 {
        SumPrefix(a[..n - 1], n - 1);
        assert a[..n - 1][..n - 1] == a[..n - 1];
      }
    } else {
      SumPrefix(a[..|a| - 1], n);
      assert a[..|a| - 1][..n] == a[..n];
    }
  }

  lemma SumStep(a: seq<int>, n: nat)
    requires n < |a|
    ensures Sum(a[..n + 1]) == Sum(a[..n]) + a[n]
  {
    assert a[..n + 1][..n] == a[..n];
  }

  /** Whatever follows, a prefix whose sum is already too large keeps the whole sum too large. */
  lemma PrefixDecides(inputs: seq<ItemInput>, n: nat)
    requires n <= |inputs| && Sum(Amounts(inputs)[..n]) > MAX_INT64
    ensures AllValid(inputs) ==> Sum(Amounts(inputs)) > MAX_INT64
  {
    hide TrimSpace;
    if AllValid(inputs) {
      assert forall k :: 0 <= k < |inputs| ==> ValidInput(inputs[k]) && 0 <= Amounts(inputs)[k];
      SumPrefix(Amounts(inputs), n);
    }
  }

  lemma QuotientTest(price: int, quantity: int)
    requires 0 <= price && 1 <= quantity
    ensures (price != 0 && quantity > MAX_INT64 / price) <==> price * quantity > MAX_INT64
    ensures 0 <= price * quantity
  {
    if price != 0 {
      if quantity > MAX_INT64 / price {
        assert price * quantity >= price * (MAX_INT64 / price + 1);
      } else {
        assert price * quantity <= price * (MAX_INT64 / price);
      }
    }
  }

  /** The loop has accepted the first n inputs: valid, without a repeated SKU, and collected in order. */
  ghost predicate Accepted(inputs: seq<ItemInput>, n: nat, seen: set<nat>, items: seq<Item>)
    requires n <= |inputs|
  {
    && (forall k :: 0 <= k < n ==> ValidInput(inputs[k]) && inputs[k].sku in seen)
    && (forall x :: x in seen ==> exists k :: 0 <= k < n && inputs[k].sku == x)
    && (forall a, b :: 0 <= a < b < n ==> inputs[a].sku != inputs[b].sku)
    && |items| == n && forall k :: 0 <= k < n ==> items[k] == Normalize(inputs[k])
  }

  lemma AcceptNext(inputs: seq<ItemInput>, n: nat, seen: set<nat>, items: seq<Item>)
    requires n < |inputs| && Accepted(inputs, n, seen, items)
    ensures ValidInput(inputs[n]) && inputs[n].sku !in seen ==>
              Accepted(inputs, n + 1, seen + {inputs[n].sku}, items + [Normalize(inputs[n])])
    ensures inputs[n].sku in seen ==> !DistinctSkus(inputs)
  {
    hide ValidInput;
    hide Normalize;
  }

  /** The loop over the inputs with its running total in 64-bit arithmetic: no product or sum overflows,
      and its early refusals are exactly those of the reference above. */
  method NormalizeItemsLoop(user: nat, orderNo: string, inputs: seq<ItemInput>) returns (r: Normalized)
    ensures r == NormalizeItems(user, orderNo, inputs)
  {
    hide ValidInput;
    hide Normalize;
    hide Amount;
    if user == 0 || orderNo == "" || |inputs| == 0 {
      return Invalid;
    }
    ghost var amounts := Amounts(inputs);
    var seen: set<nat> := {};
    var items: seq<Item> := [];
    var total: int64 := 0;
    for n := 0 to |inputs|
      invariant Accepted(inputs, n, seen, items)
      invariant total as int == Sum(amounts[..n]) && 0 <= total
    {
      var input := inputs[n];
      AcceptNext(inputs, n, seen, items);
      if !ValidInput(input) || input.sku in seen {
        return Invalid;
      }
      seen := seen + {input.sku};
      var subtotal := Subtotal(input);
      SumStep(amounts, n);
      if subtotal.None? || total > 0x7FFF_FFFF_FFFF_FFFF - subtotal.value {
        PrefixDecides(inputs, n + 1);
        return Invalid;
      }
      total := total + subtotal.value;
      items := items + [Normalize(input)];
    }
    assert amounts[..|inputs|] == amounts;
    assert items == NormalizeAll(inputs);
    return Normal(items, total as int);
  }

  /** The guarded product: refused exactly when the true amount does not fit. */
  method Subtotal(input: ItemInput) returns (r: Option<int64>)
    requires ValidInput(input)
    ensures r.None? <==> Amount(input) > MAX_INT64
    ensures r.Some? ==> 0 <= r.value && r.value as int == Amount(input)
  {
    hide TrimSpace;
    var price, quantity := input.price as int64, input.quantity as int64;
    QuotientTest(input.price, input.quantity);
    if price != 0 && quantity > 0x7FFF_FFFF_FFFF_FFFF / price {
      return None;
    }
    return Some(price * quantity);
  }

  // ---------------------------------------------------------------- the create transaction

  predicate SamePayload(found: Order, user: nat, total: int, items: seq<Item>) {
    found.user == user && found.total == total && found.items == items
  }

  function NewRow(event: OrderCreated, orderNo: string, createdAt: int): (r: Row) {
    Row(event.eventId, orderNo, event, Pending, 0, TruncMs(createdAt), None, None)
  }

  function EventOf(o: Order): (r: Option<OrderCreated>)
    ensures r.Some? ==> r.value.eventId == StableEventId(o.orderNo)
  {
    NewOrderCreated(o.orderNo, o.user, o.total, o.createdAt / 1_000_000, SourceOf(o.orderNo))
  }

  /** The inserts of one transaction: the order with its items, and its outbox row. */
  function Insert(db: Db, order: Order, event: OrderCreated): (r: Db) {
    Db(db.orders[order.orderNo := order], db.outbox + [NewRow(event, order.orderNo, order.createdAt)], db.nextId + 1)
  }

  /** CreateIdempotent as one atomic step: a fresh order number inserts order, items and outbox row
      together, a known one is compared field by field. */
  function CreateIdempotent(db: Db, user: nat, rawOrderNo: string, inputs: seq<ItemInput>, createdAt: int): (r: (Db, Outcome))
    ensures r.1.Created? || r.0 == db
  {
    var orderNo := TrimSpace(rawOrderNo);
    match NormalizeItems(user, orderNo, inputs)
    case Invalid => (db, InvalidOrder)
    case Normal(items, total) =>
      if orderNo in db.orders then
        (db, if SamePayload(db.orders[orderNo], user, total, items) then Replayed(db.orders[orderNo]) else OrderConflict)
      else
        var order := Order(db.nextId, orderNo, user, total, items, createdAt);
        match EventOf(order)
        case None => (db, EventRefused)
        case Some(event) => (Insert(db, order, event), Created(order))
  }

  /** Orders are never changed or removed, outbox rows are only appended. */
  ghost predicate Grows(db: Db, db': Db) {
    && db.orders.Keys <= db'.orders.Keys
    && (forall o :: o in db.orders ==> db'.orders[o] == db.orders[o])
    && |db.outbox| <= |db'.outbox| && db'.outbox[..|db.outbox|] == db.outbox
  }

  lemma CreateGrows(db: Db, user: nat, rawOrderNo: string, inputs: seq<ItemInput>, createdAt: int)
    ensures Grows(db, CreateIdempotent(db, user, rawOrderNo, inputs, createdAt).0)
  {
    hide TrimSpace;
    hide NormalizeItems;
    hide EventOf;
    hide NewRow;
  }

  /** Every order stands under its own trimmed number and has an event. */
  ghost predicate OrdersKeyed(orders: map<string, Order>) {
    forall o :: o in orders ==> orders[o].orderNo == o && Trimmed(o) && EventOf(orders[o]).Some?
  }

  /** A row is the outbox row of an order: its number and its event. */
  ghost predicate RowOf(r: Row, o: Order) {
    r.orderNo == o.orderNo && Some(r.payload) == EventOf(o) && r.eventId == StableEventId(o.orderNo)
  }

  ghost predicate RowsSound(db: Db) {
    forall i :: 0 <= i < |db.outbox| ==> db.outbox[i].orderNo in db.orders && RowOf(db.outbox[i], db.orders[db.outbox[i].orderNo])
  }

  ghost predicate RowsDistinct(rows: seq<Row>) {
    forall i, j :: 0 <= i < j < |rows| ==> rows[i].orderNo != rows[j].orderNo
  }

  ghost predicate HasRow(rows: seq<Row>, orderNo: string) {
    exists i :: 0 <= i < |rows| && rows[i].orderNo == orderNo
  }

  /** Orders and outbox rows correspond one to one, and every row carries its order's event. */
  ghost predicate OutboxMatches(db: Db) {
    && OrdersKeyed(db.orders)
    && RowsSound(db)
    && RowsDistinct(db.outbox)
    && forall o :: o in db.orders ==> HasRow(db.outbox, o)
  }

  lemma InsertKeepsRows(db: Db, order: Order, event: OrderCreated)
    requires RowsSound(db) && order.orderNo !in db.orders && EventOf(order) == Some(event)
    ensures RowsSound(Insert(db, order, event))
  {
    hide RowOf;
    hide EventOf;
    var db' := Insert(db, order, event);
    assert RowOf(NewRow(event, order.orderNo, order.createdAt), order) by { NewRowIsRowOf(order, event); }
    forall i | 0 <= i < |db'.outbox|
      ensures db'.outbox[i].orderNo in db'.orders && RowOf(db'.outbox[i], db'.orders[db'.outbox[i].orderNo])
    {
      assert i < |db.outbox| ==> db'.outbox[i] == db.outbox[i];
    }
  }

  lemma NewRowIsRowOf(order: Order, event: OrderCreated)
    requires EventOf(order) == Some(event)
    ensures RowOf(NewRow(event, order.orderNo, order.createdAt), order)
  {
  }

  lemma InsertKeepsCover(rows: seq<Row>, row: Row, orders: set<string>)
    requires forall o :: o in orders ==> HasRow(rows, o)
    ensures forall o :: o in orders + {row.orderNo} ==> HasRow(rows + [row], o)
  {
    assert (rows + [row])[|rows|] == row;
    forall o | o in orders
      ensures HasRow(rows + [row], o)
    {
      var i :| 0 <= i < |rows| && rows[i].orderNo == o;
      assert (rows + [row])[i].orderNo == o;
    }
  }

  lemma InsertKeepsDistinct(db: Db, row: Row)
    requires RowsSound(db) && RowsDistinct(db.outbox) && row.orderNo !in db.orders
    ensures RowsDistinct(db.outbox + [row])
  {
    hide RowOf;
  }

  lemma InsertKeepsKeys(orders: map<string, Order>, order: Order)
    requires OrdersKeyed(orders) && Trimmed(order.orderNo) && EventOf(order).Some?
    ensures OrdersKeyed(orders[order.orderNo := order])
  {
    hide EventOf;
    hide Trimmed;
  }

  lemma InsertKeepsOutbox(db: Db, order: Order, event: OrderCreated)
    requires OutboxMatches(db) && order.orderNo !in db.orders && Trimmed(order.orderNo) && EventOf(order) == Some(event)
    ensures OutboxMatches(Insert(db, order, event))
  {
    hide EventOf;
    hide Trimmed;
    hide RowsSound;
    hide RowsDistinct;
    hide HasRow;
    hide OrdersKeyed;
    var row := NewRow(event, order.orderNo, order.createdAt);
    InsertKeepsKeys(db.orders, order);
    InsertKeepsRows(db, order, event);
    InsertKeepsDistinct(db, row);
    InsertKeepsCover(db.outbox, row, db.orders.Keys);
  }

  lemma CreateKeepsOutbox(db: Db, user: nat, rawOrderNo: string, inputs: seq<ItemInput>, createdAt: int)
    requires OutboxMatches(db)
    ensures OutboxMatches(CreateIdempotent(db, user, rawOrderNo, inputs, createdAt).0)
  {
    hide OutboxMatches;
    hide EventOf;
    hide Trimmed;
    hide NormalizeItems;
    hide TrimSpace;
    hide Insert;
    Trims(rawOrderNo);
    var (db', outcome) := CreateIdempotent(db, user, rawOrderNo, inputs, createdAt);
    if outcome.Created? {
      InsertKeepsOutbox(db, outcome.order, EventOf(outcome.order).value);
    }
  }

  /** Rows nobody has claimed or marked: each is as its order's transaction wrote it. */
  ghost predicate RowsFresh(db: Db) {
    forall i :: 0 <= i < |db.outbox| ==>
      var r := db.outbox[i]; r.orderNo in db.orders && r == NewRow(r.payload, r.orderNo, db.orders[r.orderNo].createdAt)
  }

  lemma CreateKeepsFresh(db: Db, user: nat, rawOrderNo: string, inputs: seq<ItemInput>, createdAt: int)
    requires RowsFresh(db)
    ensures RowsFresh(CreateIdempotent(db, user, rawOrderNo, inputs, createdAt).0)
  {
    hide EventOf;
    hide NormalizeItems;
    hide TrimSpace;
    hide TruncMs;
    var (db', outcome) := CreateIdempotent(db, user, rawOrderNo, inputs, createdAt);
    forall i | 0 <= i < |db'.outbox|
      ensures var r := db'.outbox[i]; r.orderNo in db'.orders && r == NewRow(r.payload, r.orderNo, db'.orders[r.orderNo].createdAt)
    {
      if i < |db.outbox| {
        assert db'.outbox[i] == db.outbox[i];
      }
    }
  }

  /** Repeating a create that once succeeded changes nothing and returns the first order, whatever the
      clock says and whatever other creates ran in between. */
  lemma CreateIsIdempotent(db: Db, user: nat, rawOrderNo: string, inputs: seq<ItemInput>, createdAt: int, later: Db, again: int)
    requires Grows(CreateIdempotent(db, user, rawOrderNo, inputs, createdAt).0, later)
    ensures var outcome := CreateIdempotent(db, user, rawOrderNo, inputs, createdAt).1;
            outcome.Created? || outcome.Replayed? ==>
              CreateIdempotent(later, user, rawOrderNo, inputs, again) == (later, Replayed(outcome.order))
  {
    hide TrimSpace;
    hide NormalizeItems;
    hide EventOf;
    hide NewRow;
  }

  /** A request under a used number with another user, total or line is refused and changes nothing; it is a replay
      exactly when all three are equal. */
  lemma OtherPayloadConflicts(db: Db, user: nat, rawOrderNo: string, inputs: seq<ItemInput>, createdAt: int)
    requires TrimSpace(rawOrderNo) in db.orders && NormalizeItems(user, TrimSpace(rawOrderNo), inputs).Normal?
    ensures var n, found := NormalizeItems(user, TrimSpace(rawOrderNo), inputs), db.orders[TrimSpace(rawOrderNo)];
            CreateIdempotent(db, user, rawOrderNo, inputs, createdAt) ==
              (db, if found.user == user && found.total == n.total && found.items == n.items then Replayed(found) else OrderConflict)
  {
    hide TrimSpace;
    hide NormalizeItems;
  }

  /** Two baskets of the same total are two payloads: one unit more of a cheaper SKU does not pass for the first. */
  lemma SameTotalStillConflicts(db: Db, user: nat, orderNo: string, a: ItemInput, b: ItemInput, createdAt: int, again: int)
    requires TrimSpace(orderNo) == orderNo && orderNo !in db.orders && a.sku != b.sku
    requires CreateIdempotent(db, user, orderNo, [a], createdAt).1.Created? && NormalizeItems(user, orderNo, [b]).Normal?
    ensures var db' := CreateIdempotent(db, user, orderNo, [a], createdAt).0;
            CreateIdempotent(db', user, orderNo, [b], again) == (db', OrderConflict)
  {
    hide TrimSpace;
    var (db', outcome) := CreateIdempotent(db, user, orderNo, [a], createdAt);
    assert NormalizeAll([a])[0].sku == a.sku && NormalizeAll([b])[0].sku == b.sku;
    OtherPayloadConflicts(db', user, orderNo, [b], again);
    hide EventOf;
    hide NewRow;
  }

  /** What a single line may be, on its plain fields. */
  lemma OneItemExactly(user: nat, orderNo: string, i: ItemInput)
    ensures NormalizeItems(user, orderNo, [i]).Normal? <==>
              && user != 0 && orderNo != "" && i.sku != 0 && 0 <= i.price && 1 <= i.quantity <= 100
              && TrimSpace(i.productName) != "" && TrimSpace(i.skuCode) != "" && TrimSpace(i.skuName) != ""
              && i.price * i.quantity <= MAX_INT64
  {
    hide TrimSpace;
    var amounts := Amounts([i]);
    assert amounts == [i.price * i.quantity];
    assert amounts[..0] == [];
    assert Sum(amounts) == i.price * i.quantity;
    assert AllValid([i]) <==> ValidInput([i][0]);
  }

  /** The event of an order carries the order's own data, and a number that starts with T makes it a seckill event. */
  lemma EventTells(o: Order)
    requires EventOf(o).Some? && Trimmed(o.orderNo)
    ensures var e := EventOf(o).value;
            && e.orderNo == o.orderNo && e.user == o.user && e.total == o.total && e.createdAtMs == o.createdAt / 1_000_000
            && e.eventId == StableEventId(o.orderNo)
            && (e.source == SOURCE_SECKILL <==> o.orderNo != "" && o.orderNo[0] == 'T')
  {
    Trims(o.orderNo);
    hide TrimSpace;
    hide Trimmed;
    hide Validate;
  }
}
