/** The order tables as the create transaction changes them: orders, their lines and the outbox apart. */
module OrderStore {
  import opened Text
  import opened OrderEvents
  import opened Orders

  datatype OrderRow = OrderRow(id: nat, user: nat, total: int, createdAt: int)

  datatype LineRow = LineRow(order: nat, item: Item)

  /** The lines of one order, in the order they were inserted. */
  function LinesOf(lines: seq<LineRow>, id: nat): (items: seq<Item>) {
    if lines == [] then []
    else
      var n := |lines| - 1;
      LinesOf(lines[..n], id) + if lines[n].order == id then [lines[n].item] else []
  }

  function Joined(o: string, r: OrderRow, lines: seq<LineRow>): (order: Order) {
    Order(r.id, o, r.user, r.total, LinesOf(lines, r.id), r.createdAt)
  }

  function LinesFor(id: nat, items: seq<Item>): (lines: seq<LineRow>)
    ensures |lines| == |items| && forall k :: 0 <= k < |items| ==> lines[k] == LineRow(id, items[k])
  {
    seq(|items|, k requires 0 <= k < |items| => LineRow(id, items[k]))
  }

  lemma LinesAppend(lines: seq<LineRow>, line: LineRow, id: nat)
    ensures LinesOf(lines + [line], id) == LinesOf(lines, id) + if line.order == id then [line.item] else []
  {
    assert (lines + [line])[..|lines|] == lines;
  }

  lemma LastLine(lines: seq<LineRow>, owner: nat, items: seq<Item>)
    ensures items == [] ==> lines + LinesFor(owner, items) == lines
    ensures items != [] ==> var n := |items| - 1;
              lines + LinesFor(owner, items) == lines + LinesFor(owner, items[..n]) + [LineRow(owner, items[n])]
  {
  }

  /** New lines go to their own order and to no other. */
  lemma {:induction false} LinesAdded(lines: seq<LineRow>, owner: nat, items: seq<Item>, id: nat)
    ensures LinesOf(lines + LinesFor(owner, items), id) == LinesOf(lines, id) + if id == owner then items else []
    decreases |items|
  {
    hide LinesOf;
    hide LinesFor;
    LastLine(lines, owner, items);
    if items != [] {
      var n := |items| - 1;
      LinesAdded(lines, owner, items[..n], id);
      LinesAppend(lines + LinesFor(owner, items[..n]), LineRow(owner, items[n]), id);
      assert items[..n] + [items[n]] == items;
    }
  }

  lemma {:induction false} NoLinesYet(lines: seq<LineRow>, id: nat)
    requires forall k :: 0 <= k < |lines| ==> lines[k].order < id
    ensures LinesOf(lines, id) == []
  {
    if lines != [] {
      NoLinesYet(lines[..|lines| - 1], id);
    }
  }

  ghost predicate IdsBelow(orders: map<string, OrderRow>, lines: seq<LineRow>, nextId: nat) {
    && (forall o :: o in orders ==> orders[o].id < nextId)
    && (forall k :: 0 <= k < |lines| ==> lines[k].order < nextId)
  }

  ghost function JoinAll(orders: map<string, OrderRow>, lines: seq<LineRow>): (r: map<string, Order>) {
    map o | o in orders :: Joined(o, orders[o], lines)
  }

  /** Inserting an order and its lines adds exactly that order to the joined view. */
  lemma JoinInsert(orders: map<string, OrderRow>, lines: seq<LineRow>, nextId: nat, o: string, user: nat, total: int, items: seq<Item>, createdAt: int)
    requires IdsBelow(orders, lines, nextId) && o !in orders
    ensures JoinAll(orders[o := OrderRow(nextId, user, total, createdAt)], lines + LinesFor(nextId, items))
         == JoinAll(orders, lines)[o := Order(nextId, o, user, total, items, createdAt)]
    ensures IdsBelow(orders[o := OrderRow(nextId, user, total, createdAt)], lines + LinesFor(nextId, items), nextId + 1)
  {
    hide LinesOf;
    var orders', lines' := orders[o := OrderRow(nextId, user, total, createdAt)], lines + LinesFor(nextId, items);
    NoLinesYet(lines, nextId);
    forall p | p in orders'
      ensures Joined(p, orders'[p], lines') == if p == o then Order(nextId, o, user, total, items, createdAt) else Joined(p, orders[p], lines)
    {
      LinesAdded(lines, nextId, items, orders'[p].id);
    }
  }

  /** Orders, order lines and outbox rows. */
  class OrderTables {
    var orders: map<string, OrderRow>
    var lines: seq<LineRow>
    var outbox: seq<Row>
    var nextId: nat

    ghost predicate Valid()
      reads this
    {
      IdsBelow(orders, lines, nextId)
    }

    ghost function View(): (db: Db)
      reads this
    {
      Db(JoinAll(orders, lines), outbox, nextId)
    }

    constructor ()
      ensures Valid() && View() == Db(map[], [], 1)
    {
      orders, lines, outbox, nextId := map[], [], [], 1;
      new;
      assert JoinAll(map[], []) == map[];
    }

    method InsertLines(id: nat, items: seq<Item>)
      modifies this`lines
      ensures lines == old(lines) + LinesFor(id, items)
    {
      for k := 0 to |items|
        invariant lines == old(lines) + LinesFor(id, items)[..k]
      {
        lines := lines + [LineRow(id, items[k])];
      }
    }

    /** The inserts of the transaction, one after the other; when the event cannot be built they are undone. */
    method InsertAll(orderNo: string, user: nat, total: int, items: seq<Item>, createdAt: int) returns (outcome: Outcome)
      requires Valid() && orderNo !in orders
      modifies this
      ensures Valid()
      ensures var order := Order(old(nextId), orderNo, user, total, items, createdAt);
              if EventOf(order).None? then View() == old(View()) && outcome == EventRefused
              else View() == Insert(old(View()), order, EventOf(order).value) && outcome == Created(order)
    {
      hide EventOf;
      hide NewRow;
      hide JoinAll;
      hide IdsBelow;
      hide LinesFor;
      var savedOrders, savedLines := orders, lines;
      JoinInsert(orders, lines, nextId, orderNo, user, total, items, createdAt);
      orders := orders[orderNo := OrderRow(nextId, user, total, createdAt)];
      InsertLines(nextId, items);
      var order := Order(nextId, orderNo, user, total, items, createdAt);
      var event := EventOf(order);
      if event.None? {
        orders, lines := savedOrders, savedLines;
        return EventRefused;
      }
      outbox := outbox + [NewRow(event.value, orderNo, createdAt)];
      nextId := nextId + 1;
      return Created(order);
    }

    /** The whole of CreateIdempotent on the tables is the one-step create on the joined view. */
    method Create(user: nat, rawOrderNo: string, inputs: seq<ItemInput>, createdAt: int) returns (outcome: Outcome)
      requires Valid()
      modifies this
      ensures Valid()
      ensures (View(), outcome) == CreateIdempotent(old(View()), user, rawOrderNo, inputs, createdAt)
    {
      hide EventOf;
      hide NewRow;
      hide NormalizeItems;
      hide TrimSpace;
      hide LinesOf;
      var orderNo := TrimSpace(rawOrderNo);
      var normal := NormalizeItemsLoop(user, orderNo, inputs);
      if normal.Invalid? {
        return InvalidOrder;
      }
      if orderNo in orders {
        var found := Joined(orderNo, orders[orderNo], lines);
        if !SamePayload(found, user, normal.total, normal.items) {
          return OrderConflict;
        }
        return Replayed(found);
      }
      outcome := InsertAll(orderNo, user, normal.total, normal.items, createdAt);
    }
  }
}
