/** Why publishing must come before the start. A preheat checks the clock, but its publish is a separate
    action: delayed past the start it empties the buyer list of a gate that has already sold. */
module LatePublish {
  import opened Text
  import opened OrderNumbers
  import opened StreamMessages
  import opened RedisSlot
  import OrderEvents
  import Inventory
  import Orders
  import opened Pipeline
  import opened PipelineInvariant
  import opened PipelineSteps
  import opened PipelineAdmission
  import opened PipelineServices
  import opened PipelineRuns
  import opened PipelineTimed
  import opened PipelineResults

  // ---------------------------------------------------------------- nothing admitted yet: harmless

  lemma EmptiedGateExactly(w: World, read: Preheat, generation: string)
    requires PreheatsOk(w.preheats, w.sales) && read in w.preheats && read.item in w.sales
    ensures GateOk(read.item, HashOf(read.item, w.sales[read.item], read.stock, generation), map[], w.sales[read.item], w.admitted)
       <==> AdmittedOf(w.admitted, read.item) == {}
  {
    var item := read.item;
    if AdmittedOf(w.admitted, item) == {} {
      assert forall o :: o in w.admitted && w.admitted[o].item == item ==> o in AdmittedOf(w.admitted, item);
    }
    hide AdmittedOf;
  }

  lemma SlotGate(w: World, item: nat)
    requires GatesOk(w.slots, w.sales, w.admitted) && item in w.slots
    ensures item in w.sales && GateOk(item, w.slots[item].state, w.slots[item].buyers, w.sales[item], w.admitted)
  {
    hide GateOk;
  }

  /** The invariant survives a publish exactly when the item has admitted nothing yet. */
  lemma PublishSoundExactly(w: World, read: Preheat)
    requires Inv(w) && read in w.preheats && read.item in w.sales
    ensures Inv(DoPublish(w, read)) <==> AdmittedOf(w.admitted, read.item) == {}
  {
    hide *;
    InvParts(w);
    InvParts(DoPublish(w, read));
    Open(w);
    PublishEffect(w, read);
    PublishKeepsCore(w, read);
    var item, h := read.item, HashOf(read.item, w.sales[read.item], read.stock, Generation(w.sales[read.item], read.version));
    EmptiedGateExactly(w, read, Generation(w.sales[read.item], read.version));
    var w' := DoPublish(w, read);
    if AdmittedOf(w.admitted, item) == {} {
      GateSwap(w, item, SlotOf(w, item).(state := h, buyers := map[]));
    }
    if TimedInv(w') {
      OpenTimed(w');
      SlotGate(w', item);
    }
  }

  lemma TimelyPublish(w: World, read: Preheat)
    requires read.item in w.sales && Timely(w, PublishItem(read))
    ensures w.clock < w.sales[read.item].startAt
  {
  }

  lemma BeforeStartIsSound(w: World, read: Preheat)
    requires CoreInv(w) && read.item in w.sales && Timely(w, PublishItem(read))
    ensures AdmittedOf(w.admitted, read.item) == {}
  {
    hide *;
    TimelyPublish(w, read);
    Open(w);
    UnsoldBeforeStart(w, read.item);
  }

  /** One number per user and item, and no more promises than units. */
  ghost predicate PromisesKept(w: World) { OneEach(w.admitted) && Capped(w.admitted, w.sales) }

  lemma PromisesIf(w: World)
    requires OneEach(w.admitted) && Capped(w.admitted, w.sales)
    ensures PromisesKept(w)
  {
  }

  /** A publish while nothing has been admitted, early or late, keeps every promise in every timely continuation. */
  lemma UnsoldPublishIsHarmless(w: World, read: Preheat, events: seq<Event>)
    requires Inv(w) && read in w.preheats && read.item in w.sales && AdmittedOf(w.admitted, read.item) == {}
    requires TimelyRun(DoPublish(w, read), events)
    ensures PromisesKept(Run(DoPublish(w, read), events))
  {
    hide *;
    PublishSoundExactly(w, read);
    RunKeepsInv(DoPublish(w, read), events);
    InvParts(Run(DoPublish(w, read), events));
    OpenTimed(Run(DoPublish(w, read), events));
    PromisesIf(Run(DoPublish(w, read), events));
  }

  // ---------------------------------------------------------------- something admitted: a second promise

  /** An open gate of the item with n units left and none of these users among its buyers. */
  ghost predicate Offers(w: World, item: nat, n: nat, users: seq<nat>) {
    && item in w.sales && item in w.slots && w.slots[item].state.generation.Some?
    && w.slots[item].state == HashOf(item, w.sales[item], n, w.slots[item].state.generation.value)
    && forall i :: 0 <= i < |users| ==> users[i] !in w.slots[item].buyers
  }

  lemma RepublishedOffers(w: World, read: Preheat, users: seq<nat>)
    requires read in w.preheats && read.item in w.sales && PreheatsOk(w.preheats, w.sales)
    ensures Offers(DoPublish(w, read), read.item, w.sales[read.item].initial, users)
    ensures var w' := DoPublish(w, read); w'.admitted == w.admitted && w'.sales == w.sales && w'.clock == w.clock
  {
    PublishEffect(w, read);
    hide DoPublish;
    hide Generation;
  }

  predicate Buys(w: World, item: nat, user: nat, now: int, random: Random) {
    && CanEnqueue(w, item, user, now, random) && w.sales[item].startAt <= now < w.sales[item].endAt
  }

  lemma OfferedIsAdmitted(w: World, item: nat, n: nat, users: seq<nat>, now: int, random: Random)
    requires Offers(w, item, n, users) && n > 0 && users != [] && Buys(w, item, users[0], now, random)
    ensures var s := w.slots[item]; var t := Task(StreamOrderText(now, item, random), users[0], w.sales[item].activity, item, now);
            && s.state.stock.Some?
            && DoEnqueue(w, item, users[0], now, random) == w.(slots := w.slots[item := Admit(s, t)], admitted := w.admitted[t.orderNo := t])
  {
    hide Admit;
    hide StreamOrderText;
  }

  lemma OfferGoesOn(w: World, item: nat, n: nat, users: seq<nat>, t: Task)
    requires Offers(w, item, n, users) && n > 0 && users != [] && t.user == users[0]
    requires forall i :: 0 < i < |users| ==> users[i] != users[0]
    ensures w.slots[item].state.stock.Some?
    ensures Offers(w.(slots := w.slots[item := Admit(w.slots[item], t)], admitted := w.admitted[t.orderNo := t]), item, n - 1, users[1..])
  {
    hide Encode;
    hide ResultValue;
  }

  /** Two different numbers admitted for the same user and item. */
  ghost predicate TwoNumbers(a: Admissions, o: string, p: string) {
    o != p && o in a && p in a && a[o].user == a[p].user && a[o].item == a[p].item
  }

  lemma TwoNumbersBreak(w: World, o: string, p: string)
    requires TwoNumbers(w.admitted, o, p)
    ensures !PromisesKept(w)
  {
  }

  /** For every state and every request already admitted: once a stock figure of its item is published again,
      the same user is admitted a second time, at the time of the first request, under any number still unused. */
  lemma RepublishDoublesPromise(w: World, read: Preheat, o: string, random: Random)
    requires CoreInv(w) && read in w.preheats && o in w.admitted && w.admitted[o].item == read.item
    requires read.item in w.sales && 0 < w.sales[read.item].initial
    requires StreamOrderText(w.admitted[o].reservedAt, read.item, random) !in w.admitted
    ensures var t := w.admitted[o];
            TwoNumbers(Exec(DoPublish(w, read), Enqueue(t.item, t.user, t.reservedAt, random)).admitted, o, StreamOrderText(t.reservedAt, t.item, random))
  {
    hide *;
    Open(w);
    var t := w.admitted[o];
    var w1 := DoPublish(w, read);
    AdmittedFacts(w, o);
    RepublishedOffers(w, read, [t.user]);
    SoldAtLeastOne(w, o);
    BuysAgain(w, w1, o, random);
    OfferedIsAdmitted(w1, t.item, w.sales[t.item].initial, [t.user], t.reservedAt, random);
    EnqueueIs(w1, t.item, t.user, t.reservedAt, random);
    SecondNumber(w.admitted, o, StreamOrderText(t.reservedAt, t.item, random), w.sales[t.item].activity);
  }

  lemma AdmittedFacts(w: World, o: string)
    requires AdmissionsOk(w.admitted, w.sales, w.clock) && o in w.admitted
    ensures var t := w.admitted[o];
            && t.orderNo == o && t.item in w.sales && 0 < t.user <= MAX_UINT64 && t.reservedAt <= w.clock && FitsInt64(t.reservedAt)
            && t.reservedAt != ZERO_TIME && w.sales[t.item].startAt <= t.reservedAt < w.sales[t.item].endAt
  {
    assert AdmissionOk(o, w.admitted[o], w.sales, w.clock);
    hide Trimmed;
    hide OrderEvents.SourceOf;
    hide StreamOrderItemId;
  }

  lemma SoldAtLeastOne(w: World, o: string)
    requires o in w.admitted
    ensures 0 < |AdmittedOf(w.admitted, w.admitted[o].item)|
  {
    assert o in AdmittedOf(w.admitted, w.admitted[o].item);
  }

  lemma SoldFromStock(w: World, item: nat)
    requires Capped(w.admitted, w.sales) && item in w.sales && 0 < |AdmittedOf(w.admitted, item)|
    ensures 0 < w.sales[item].initial
  {
    hide AdmittedOf;
  }

  lemma BuysAgain(w: World, w1: World, o: string, random: Random)
    requires o in w.admitted && AdmissionsOk(w.admitted, w.sales, w.clock)
    requires w1.admitted == w.admitted && w1.sales == w.sales && w1.clock == w.clock
    requires StreamOrderText(w.admitted[o].reservedAt, w.admitted[o].item, random) !in w.admitted
    ensures Buys(w1, w.admitted[o].item, w.admitted[o].user, w.admitted[o].reservedAt, random)
  {
    AdmittedFacts(w, o);
    hide StreamOrderText;
    hide AdmissionsOk;
  }

  lemma SecondNumber(a: Admissions, o: string, p: string, activity: nat)
    requires o in a && p !in a
    ensures TwoNumbers(a[p := Task(p, a[o].user, activity, a[o].item, a[o].reservedAt)], o, p)
  {
  }

  // ---------------------------------------------------------------- and as many promises again as there are units

  /** One enqueue after the other, all at the same time. */
  function Rush(item: nat, users: seq<nat>, now: int, randoms: seq<Random>): (events: seq<Event>)
    requires |randoms| == |users|
    ensures |events| == |users| && forall i :: 0 <= i < |users| ==> events[i] == Enqueue(item, users[i], now, randoms[i])
  {
    seq(|users|, i requires 0 <= i < |users| => Enqueue(item, users[i], now, randoms[i]))
  }

  /** Different valid users, each with an unused number of its own. */
  ghost predicate Newcomers(w: World, item: nat, users: seq<nat>, now: int, randoms: seq<Random>)
    requires |randoms| == |users|
  {
    && (forall i :: 0 <= i < |users| ==> Buys(w, item, users[i], now, randoms[i]))
    && (forall i, j :: 0 <= i < j < |users| ==> users[i] != users[j])
    && (forall i, j :: 0 <= i < j < |users| ==> StreamOrderText(now, item, randoms[i]) != StreamOrderText(now, item, randoms[j]))
  }

  lemma NewcomersGoOn(w: World, w': World, item: nat, users: seq<nat>, now: int, randoms: seq<Random>, t: Task)
    requires |randoms| == |users| && users != [] && Newcomers(w, item, users, now, randoms) && t.orderNo == StreamOrderText(now, item, randoms[0])
    requires w'.sales == w.sales && w'.clock == w.clock && w'.admitted == w.admitted[t.orderNo := t]
    ensures Newcomers(w', item, users[1..], now, randoms[1..])
  {
    hide StreamOrderText;
    var us, rs := users[1..], randoms[1..];
    forall i | 0 <= i < |us|
      ensures Buys(w', item, us[i], now, rs[i])
    {
      assert Buys(w, item, users[i + 1], now, randoms[i + 1]);
      assert StreamOrderText(now, item, randoms[0]) != StreamOrderText(now, item, randoms[i + 1]);
    }
  }

  /** An open gate admits as many newcomers as it offers units. */
  lemma {:induction false} RushIsAdmitted(w: World, item: nat, n: nat, users: seq<nat>, now: int, randoms: seq<Random>)
    requires |randoms| == |users| <= n && Offers(w, item, n, users) && Newcomers(w, item, users, now, randoms)
    ensures var w' := Run(w, Rush(item, users, now, randoms));
            w'.sales == w.sales && |AdmittedOf(w'.admitted, item)| == |AdmittedOf(w.admitted, item)| + |users|
    decreases |users|
  {
    hide *;
    if users == [] {
      RushNone(w, item, users, now, randoms);
    } else {
      FirstNewcomer(w, item, users, now, randoms);
      OfferedIsAdmitted(w, item, n, users, now, randoms[0]);
      var t := Task(StreamOrderText(now, item, randoms[0]), users[0], w.sales[item].activity, item, now);
      OfferGoesOn(w, item, n, users, t);
      var w1 := DoEnqueue(w, item, users[0], now, randoms[0]);
      NewcomersGoOn(w, w1, item, users, now, randoms, t);
      AdmittedOfGrows(w.admitted, t.orderNo, t, item);
      RushIsAdmitted(w1, item, n - 1, users[1..], now, randoms[1..]);
      RushStep(w, item, users, now, randoms);
    }
  }

  lemma RushNone(w: World, item: nat, users: seq<nat>, now: int, randoms: seq<Random>)
    requires |randoms| == |users| == 0
    ensures Run(w, Rush(item, users, now, randoms)) == w
  {
    hide Exec;
  }

  lemma RushStep(w: World, item: nat, users: seq<nat>, now: int, randoms: seq<Random>)
    requires |randoms| == |users| > 0
    ensures Run(w, Rush(item, users, now, randoms))
         == Run(DoEnqueue(w, item, users[0], now, randoms[0]), Rush(item, users[1..], now, randoms[1..]))
  {
    hide DoEnqueue;
    EnqueueIs(w, item, users[0], now, randoms[0]);
    hide Exec;
    assert Rush(item, users, now, randoms)[1..] == Rush(item, users[1..], now, randoms[1..]);
  }

  lemma FirstNewcomer(w: World, item: nat, users: seq<nat>, now: int, randoms: seq<Random>)
    requires |randoms| == |users| > 0 && Newcomers(w, item, users, now, randoms)
    ensures Buys(w, item, users[0], now, randoms[0]) && StreamOrderText(now, item, randoms[0]) !in w.admitted && item in w.sales
    ensures forall i :: 0 < i < |users| ==> users[i] != users[0]
  {
    hide StreamOrderText;
  }

  /** For every state in which the item has sold: after the publish, any newcomers as many as the item has units
      are all admitted, so that more units are promised than exist. */
  lemma RepublishOverpromises(w: World, read: Preheat, o: string, users: seq<nat>, now: int, randoms: seq<Random>)
    requires CoreInv(w) && read in w.preheats && o in w.admitted && w.admitted[o].item == read.item && read.item in w.sales
    requires |randoms| == |users| == w.sales[read.item].initial && Newcomers(w, read.item, users, now, randoms)
    ensures var w' := Run(DoPublish(w, read), Rush(read.item, users, now, randoms));
            read.item in w'.sales && |AdmittedOf(w'.admitted, read.item)| > w'.sales[read.item].initial
  {
    hide *;
    Open(w);
    RepublishedOffers(w, read, users);
    SoldAtLeastOne(w, o);
    NewcomersStay(w, DoPublish(w, read), read.item, users, now, randoms);
    RushIsAdmitted(DoPublish(w, read), read.item, w.sales[read.item].initial, users, now, randoms);
  }

  lemma NewcomersStay(w: World, w': World, item: nat, users: seq<nat>, now: int, randoms: seq<Random>)
    requires |randoms| == |users| && Newcomers(w, item, users, now, randoms)
    requires w'.sales == w.sales && w'.clock == w.clock && w'.admitted == w.admitted
    ensures Newcomers(w', item, users, now, randoms)
  {
    hide StreamOrderText;
    forall i | 0 <= i < |users|
      ensures Buys(w', item, users[i], now, randoms[i])
    {
      assert Buys(w, item, users[i], now, randoms[i]);
    }
  }

  // ---------------------------------------------------------------- exactly

  /** Which item a number of a given time belongs to can be read off the number. */
  lemma NumberOfItem(w: World, o: string, now: int, item: nat, random: Random)
    requires AdmissionsOk(w.admitted, w.sales, w.clock) && o in w.admitted && o == StreamOrderText(now, item, random)
    requires 0 <= now && FitsInt64(now) && 0 < item <= MAX_UINT64
    ensures o in AdmittedOf(w.admitted, item)
  {
    assert AdmissionOk(o, w.admitted[o], w.sales, w.clock);
    StreamOrderNoRoundTrip(now, item, random);
    hide AdmissionsOk;
    hide Admissible;
    hide OrderEvents.SourceOf;
    hide StreamOrderItemId;
    hide StreamOrderText;
  }

  lemma UsedNumbers(w: World, now: int, item: nat, k: nat)
    requires AdmissionsOk(w.admitted, w.sales, w.clock) && 0 <= now && FitsInt64(now) && 0 < item <= MAX_UINT64
    requires forall random: Random :: StreamOrderText(now, item, random) in w.admitted
    ensures Numbers(now, item, k) <= AdmittedOf(w.admitted, item)
  {
    hide AdmissionsOk;
    hide AdmittedOf;
    hide StreamOrderText;
    hide Numbers;
    hide Draw;
    forall o | o in Numbers(now, item, k)
      ensures o in AdmittedOf(w.admitted, item)
    {
      NumbersAre(now, item, k, o);
      var i: nat :| i < k && o == StreamOrderText(now, item, Draw(i));
      NumberOfItem(w, o, now, item, Draw(i));
    }
  }

  /** Numbers never run out: an item has fewer units than there are numbers for one time. */
  lemma NumberIsLeft(w: World, now: int, item: nat) returns (random: Random)
    requires AdmissionsOk(w.admitted, w.sales, w.clock) && Capped(w.admitted, w.sales) && SalesOk(w.sales)
    requires 0 <= now && FitsInt64(now) && item in w.sales
    ensures StreamOrderText(now, item, random) !in w.admitted
  {
    assert ValidSale(item, w.sales[item]);
    var k := w.sales[item].initial + 1;
    NumbersCount(now, item, k);
    hide AdmissionsOk;
    hide SalesOk;
    hide AdmittedOf;
    hide Numbers;
    hide StreamOrderText;
    hide TrimSpace;
    if forall r: Random :: StreamOrderText(now, item, r) in w.admitted {
      UsedNumbers(w, now, item, k);
      Inventory.SubsetCount(Numbers(now, item, k), AdmittedOf(w.admitted, item));
    }
    random :| StreamOrderText(now, item, random) !in w.admitted;
  }

  /** The exact condition, in terms of what can be read before the call. From every state a timely run reaches, a
      publish of an earlier stock figure, however late, keeps all promises in every timely continuation if and
      only if the item's results hash is still empty. */
  lemma LatePublishExactly(start: World, before: seq<Event>, w: World, read: Preheat)
    requires Reached(start, before, w) && read in w.preheats && read.item in w.sales && 0 <= w.sales[read.item].startAt
    ensures (forall events :: TimelyRun(DoPublish(w, read), events) ==> PromisesKept(Run(DoPublish(w, read), events)))
       <==> SlotOf(w, read.item).results == map[]
  {
    hide *;
    ReachedInv(start, before, w);
    ReachableOnFile(start, before, w);
    OpenTimed(w);
    ResultsShowAdmissions(w, read.item);
    var w1, item := DoPublish(w, read), read.item;
    if SlotOf(w, item).results == map[] {
      assert AdmittedOf(w.admitted, item) == {};
      forall events | TimelyRun(w1, events)
        ensures PromisesKept(Run(w1, events))
      {
        UnsoldPublishIsHarmless(w, read, events);
      }
    } else {
      var o := SomeAdmitted(w, item);
      Open(w);
      AdmittedFacts(w, o);
      var random := NumberIsLeft(w, w.admitted[o].reservedAt, item);
      SoldAtLeastOne(w, o);
      SoldFromStock(w, item);
      RepublishDoublesPromise(w, read, o, random);
      var t := w.admitted[o];
      var e := Enqueue(item, t.user, t.reservedAt, random);
      OneEvent(w1, e);
      TwoNumbersBreak(Exec(w1, e), o, StreamOrderText(t.reservedAt, item, random));
      assert TimelyRun(w1, [e]) && !PromisesKept(Run(w1, [e]));
    }
  }

  lemma SomeAdmitted(w: World, item: nat) returns (o: string)
    requires SlotOf(w, item).results.Keys == AdmittedOf(w.admitted, item) && SlotOf(w, item).results != map[]
    ensures o in w.admitted && w.admitted[o].item == item
  {
    hide SlotOf;
    var results := SlotOf(w, item).results;
    assert results.Keys != {};
    o :| o in results.Keys;
    assert o in AdmittedOf(w.admitted, item);
  }

  lemma OneEvent(w: World, e: Event)
    requires !e.PublishItem?
    ensures TimelyRun(w, [e]) && Run(w, [e]) == Exec(w, e)
  {
    assert [e][1..] == [];
    hide Exec;
  }

  /** Before the start the results are empty, so checking the clock is enough as long as the publish is in time. */
  lemma BeforeStartNothingOnFile(start: World, before: seq<Event>, w: World, item: nat)
    requires Reachable(start, before, w) && item in w.sales && w.clock < w.sales[item].startAt
    ensures SlotOf(w, item).results == map[]
  {
    hide *;
    ReachableCore(start, before, w);
    ReachableOnFile(start, before, w);
    Open(w);
    UnsoldBeforeStart(w, item);
    ResultsShowAdmissions(w, item);
  }

  // ---------------------------------------------------------------- a run that goes wrong

  const SNAPSHOT: Inventory.Snapshot := Inventory.Snapshot(5, "p", "c", "n", 100)

  const SALE: Sale := Sale(9, 1_000, 2_000, SNAPSHOT, 1)

  /** One item with a single unit, on sale from time 1000. */
  const START: World := World(0, map[3 := SALE], 5, map[], {},
    Inventory.Service(Inventory.Db(map[3 := StockRow(SALE)], map[], map[], 1), map[]), Orders.Db(map[], [], 1), {}, map[], map[])

  const READ: Preheat := Preheat(3, 1, 0)

  const FIRST: Random := [0, 0, 0, 0, 0, 0, 0, 0]

  const SECOND: Random := [1, 0, 0, 0, 0, 0, 0, 0]

  lemma SnapshotTexts()
    ensures TrimSpace("p") == "p" && TrimSpace("c") == "c" && TrimSpace("n") == "n"
  {
    Trims("p");
    Trims("c");
    Trims("n");
  }

  lemma StartIsInitial()
    ensures Initial(START)
  {
    SnapshotTexts();
    hide TrimSpace;
    var rows := map item | item in START.sales :: StockRow(START.sales[item]);
    assert rows == map[3 := StockRow(SALE)];
  }

  lemma NumbersDiffer(now: int, item: nat)
    ensures StreamOrderText(now, item, FIRST) != StreamOrderText(now, item, SECOND)
  {
    var a, b := HexEncode(FIRST), HexEncode(SECOND);
    assert a[1] == HexDigit(0) && b[1] == HexDigit(1);
    var head := "T" + FormatInt(now) + "-" + FormatUint(item) + "-";
    assert (head + a)[|head| + 1] != (head + b)[|head| + 1];
  }

  /** The gate of the item, open with one unit. */
  predicate Opened(s: Slot) {
    && s.state == HashOf(3, SALE, 1, Generation(SALE, 0)).(ready := true) && s.buyers == map[]
  }

  lemma AdmitsFromOpened(w: World, random: Random)
    requires 3 in w.sales && w.clock == 1_000 && 3 in w.slots && Opened(w.slots[3]) && StreamOrderText(1_000, 3, random) !in w.admitted
    ensures var w' := Exec(w, Enqueue(3, 7, 1_000, random));
            && w'.clock == w.clock && w'.sales == w.sales && w'.preheats == w.preheats
            && w'.admitted == w.admitted[StreamOrderText(1_000, 3, random) := Task(StreamOrderText(1_000, 3, random), 7, 9, 3, 1_000)]
  {
    hide Admit;
    hide StreamOrderText;
    hide Generation;
  }

  lemma PublishOpens(w: World)
    requires READ in w.preheats && 3 in w.sales && w.sales[3] == SALE
    ensures var w' := Exec(w, PublishItem(READ));
            3 in w'.slots && Opened(w'.slots[3]) && w' == w.(slots := w'.slots)
  {
    hide Generation;
  }

  function LateRun(): (r: seq<Event>) {
    [LoadPreheat(3), PublishItem(READ), Tick(1_000), Enqueue(3, 7, 1_000, FIRST), PublishItem(READ), Enqueue(3, 7, 1_000, SECOND)]
  }

  lemma RunStep(w: World, e: Event, rest: seq<Event>)
    ensures Run(w, [e] + rest) == Run(Exec(w, e), rest)
  {
    assert ([e] + rest)[1..] == rest;
    hide Exec;
  }

  lemma LateRunIs(w: World)
    ensures var r := LateRun();
            Run(w, r) == Exec(Exec(Exec(Exec(Exec(Exec(w, r[0]), r[1]), r[2]), r[3]), r[4]), r[5])
  {
    hide Exec;
    var r := LateRun();
    var w1 := Exec(w, r[0]);
    var w2 := Exec(w1, r[1]);
    var w3 := Exec(w2, r[2]);
    var w4 := Exec(w3, r[3]);
    var w5 := Exec(w4, r[4]);
    assert r == [r[0]] + r[1..] && r[1..] == [r[1]] + r[2..] && r[2..] == [r[2]] + r[3..];
    assert r[3..] == [r[3]] + r[4..] && r[4..] == [r[4]] + r[5..] && r[5..] == [r[5]] + [];
    RunStep(w, r[0], r[1..]);
    RunStep(w1, r[1], r[2..]);
    RunStep(w2, r[2], r[3..]);
    RunStep(w3, r[3], r[4..]);
    RunStep(w4, r[4], r[5..]);
    RunStep(w5, r[5], []);
  }

  lemma FirstHalf()
    ensures var w := Exec(Exec(Exec(START, LoadPreheat(3)), PublishItem(READ)), Tick(1_000));
            w.clock == 1_000 && w.sales == START.sales && READ in w.preheats && 3 in w.slots && Opened(w.slots[3]) && w.admitted == map[]
  {
    var w1 := Exec(START, LoadPreheat(3));
    assert READ in w1.preheats;
    PublishOpens(w1);
    hide Opened;
  }

  /** One user holds two promises of an item that has a single unit. */
  predicate PromisedTwice(w: World, item: nat, o: string, p: string) {
    && item in w.sales && w.sales[item].initial == 1 && o != p && o in w.admitted && p in w.admitted
    && w.admitted[o].user == w.admitted[p].user && w.admitted[o].item == w.admitted[p].item == item
  }

  /** With one publish delayed past the start, the gate promises the single unit twice, to the same user,
      under two order numbers. */
  lemma LatePublishAdmitsTwice()
    ensures Initial(START)
    ensures PromisedTwice(Run(START, LateRun()), 3, StreamOrderText(1_000, 3, FIRST), StreamOrderText(1_000, 3, SECOND))
  {
    hide *;
    StartIsInitial();
    NumbersDiffer(1_000, 3);
    LateRunIs(START);
    FirstHalf();
    LateEvents();
    SecondHalf(Exec(Exec(Exec(START, LoadPreheat(3)), PublishItem(READ)), Tick(1_000)));
  }

  lemma LateEvents()
    ensures var r := LateRun();
            && |r| == 6 && r[0] == LoadPreheat(3) && r[1] == PublishItem(READ) && r[2] == Tick(1_000)
            && r[3] == Enqueue(3, 7, 1_000, FIRST) && r[4] == PublishItem(READ) && r[5] == Enqueue(3, 7, 1_000, SECOND)
  {
  }

  lemma SecondHalf(w: World)
    requires w.clock == 1_000 && w.sales == START.sales && READ in w.preheats && 3 in w.slots && Opened(w.slots[3]) && w.admitted == map[]
    requires StreamOrderText(1_000, 3, FIRST) != StreamOrderText(1_000, 3, SECOND)
    ensures var w' := Exec(Exec(Exec(w, Enqueue(3, 7, 1_000, FIRST)), PublishItem(READ)), Enqueue(3, 7, 1_000, SECOND));
            PromisedTwice(w', 3, StreamOrderText(1_000, 3, FIRST), StreamOrderText(1_000, 3, SECOND))
  {
    hide Opened;
    hide Exec;
    hide StreamOrderText;
    AdmitsFromOpened(w, FIRST);
    var w1 := Exec(w, Enqueue(3, 7, 1_000, FIRST));
    PublishOpens(w1);
    AdmitsFromOpened(Exec(w1, PublishItem(READ)), SECOND);
  }
}
