/** The three ways to take a unit of stock in MySQL (guarded update, SELECT ... FOR UPDATE, version compare),
    as interleaved transactions on one item. An update locks the stock row until its transaction ends; other
    transactions see committed values only. */
module StockModes {
  import opened Text

  datatype Mode = Atomic | Pessimistic | Optimistic

  datatype Row = Row(available: int, version: nat)

  datatype End = Committed | OutOfStock | Duplicate | Conflict | Unavailable | Aborted

  datatype Phase =
    | Started
    | Loaded(seen: Row)          // snapshot read; in pessimistic mode the row is locked from here
    | Decremented(work: Row)     // uncommitted row values, row locked
    | Ordered(work: Row)         // order inserted
    | Claimed(work: Row)         // claim inserted
    | Ended(how: End)

  datatype Tx = Tx(mode: Mode, user: nat, orderNo: string, phase: Phase)

  datatype State = State(
    row: Row,                    // committed stock row
    claims: map<nat, string>,    // committed claims: user to order number, unique per user
    orders: set<string>,         // committed order numbers, unique
    txs: map<nat, Tx>,
    lock: Option<nat>,           // the transaction holding the row lock
    forUpdate: bool)             // whether the pessimistic read carries FOR UPDATE, as the repository's does

  datatype Event =
    | Begin(tx: nat, mode: Mode, user: nat, orderNo: string)
    | Load(tx: nat, onSale: bool)
    | Decrement(tx: nat)
    | InsertOrder(tx: nat)
    | InsertClaim(tx: nat)
    | Commit(tx: nat)
    | Abort(tx: nat)
    | OtherOrder(orderNo: string)

  predicate Free(s: State, t: nat) { s.lock.None? || s.lock == Some(t) }

  function Finish(s: State, t: nat, how: End): (s': State)
    requires t in s.txs
  {
    s.(txs := s.txs[t := s.txs[t].(phase := Ended(how))], lock := if s.lock == Some(t) then None else s.lock)
  }

  function Advance(s: State, t: nat, phase: Phase): (s': State)
    requires t in s.txs
  {
    s.(txs := s.txs[t := s.txs[t].(phase := phase)])
  }

  function DoLoad(s: State, t: nat, onSale: bool): (s': State) {
    if t !in s.txs || !s.txs[t].phase.Started? then s
    else
      var locks := s.txs[t].mode.Pessimistic? && s.forUpdate;
      if locks && !Free(s, t) then s
      else if !onSale then Finish(s, t, Unavailable)
      else Advance(if locks then s.(lock := Some(t)) else s, t, Loaded(s.row))
  }

  /** The update of each mode. Only the pessimistic one has no stock condition of its own. */
  predicate Matches(mode: Mode, row: Row, seen: Row) {
    match mode
    case Atomic => row.available > 0
    case Pessimistic => true
    case Optimistic => row.available > 0 && row.version == seen.version
  }

  function DoDecrement(s: State, t: nat): (s': State) {
    if t !in s.txs || !s.txs[t].phase.Loaded? then s
    else
      var k := s.txs[t];
      if !k.mode.Atomic? && k.phase.seen.available <= 0 then Finish(s, t, OutOfStock)
      else if !Free(s, t) then s
      else if Matches(k.mode, s.row, k.phase.seen)
      then Advance(s.(lock := Some(t)), t, Decremented(Row(s.row.available - 1, s.row.version + 1)))
      else Finish(s, t, if k.mode.Optimistic? then Conflict else OutOfStock)
  }

  function DoInsertOrder(s: State, t: nat): (s': State) {
    if t !in s.txs || !s.txs[t].phase.Decremented? then s
    else if s.txs[t].orderNo in s.orders then Finish(s, t, Duplicate)
    else Advance(s, t, Ordered(s.txs[t].phase.work))
  }

  function DoInsertClaim(s: State, t: nat): (s': State) {
    if t !in s.txs || !s.txs[t].phase.Ordered? then s
    else if s.txs[t].user in s.claims then Finish(s, t, Duplicate)
    else Advance(s, t, Claimed(s.txs[t].phase.work))
  }

  function DoCommit(s: State, t: nat): (s': State) {
    if t !in s.txs || !s.txs[t].phase.Claimed? then s
    else
      var k := s.txs[t];
      Finish(s, t, Committed).(row := k.phase.work, claims := s.claims[k.user := k.orderNo], orders := s.orders + {k.orderNo})
  }

  /** An open transaction has inserted this order number, so any other insert of it has to wait. */
  predicate Waiting(s: State, orderNo: string) {
    exists t :: t in s.txs && s.txs[t].orderNo == orderNo && (s.txs[t].phase.Ordered? || s.txs[t].phase.Claimed?)
  }

  function Exec(s: State, e: Event): (s': State) {
    match e
    case Begin(t, mode, user, orderNo) => if t in s.txs then s else s.(txs := s.txs[t := Tx(mode, user, orderNo, Started)])
    case Load(t, onSale) => DoLoad(s, t, onSale)
    case Decrement(t) => DoDecrement(s, t)
    case InsertOrder(t) => DoInsertOrder(s, t)
    case InsertClaim(t) => DoInsertClaim(s, t)
    case Commit(t) => DoCommit(s, t)
    case Abort(t) => if t in s.txs && !s.txs[t].phase.Ended? then Finish(s, t, Aborted) else s
    case OtherOrder(orderNo) => if Waiting(s, orderNo) then s else s.(orders := s.orders + {orderNo})
  }

  function Run(s: State, events: seq<Event>): (s': State)
    decreases |events|
  {
    if events == [] then s else Run(Exec(s, events[0]), events[1..])
  }

  // ---------------------------------------------------------------- what every step keeps

  ghost predicate TxOk(s: State, t: nat, k: Tx) {
    match k.phase
    case Started => s.lock != Some(t)
    case Loaded(seen) =>
      if k.mode.Pessimistic? then s.lock == Some(t) && seen == s.row
      else s.lock != Some(t) && seen.version <= s.row.version && (seen.version == s.row.version ==> seen == s.row)
    case Decremented(work) => s.lock == Some(t) && s.row.available > 0 && work == Row(s.row.available - 1, s.row.version + 1)
    case Ordered(work) => s.lock == Some(t) && s.row.available > 0 && work == Row(s.row.available - 1, s.row.version + 1) && k.orderNo !in s.orders
    case Claimed(work) => s.lock == Some(t) && s.row.available > 0 && work == Row(s.row.available - 1, s.row.version + 1) && k.user !in s.claims && k.orderNo !in s.orders
    case Ended(_) => s.lock != Some(t)
  }

  /** Units are available or claimed, and the version counts the claims. */
  ghost predicate Balanced(s: State, initial: nat, version: nat) {
    0 <= s.row.available && s.row.available + |s.claims| == initial && s.row.version == version + |s.claims|
  }

  /** Every claim has its own committed order. */
  ghost predicate Filed(s: State) {
    && (forall u :: u in s.claims ==> s.claims[u] in s.orders)
    && (forall u, v :: u in s.claims && v in s.claims && s.claims[u] == s.claims[v] ==> u == v)
  }

  ghost predicate Inv(s: State, initial: nat, version: nat) {
    && s.forUpdate && Balanced(s, initial, version) && (s.lock.Some? ==> s.lock.value in s.txs) && Filed(s)
    && forall t :: t in s.txs ==> TxOk(s, t, s.txs[t])
  }

  /** The committed data stay, and the lock changes hands for transaction t only. */
  ghost predicate OnlyMoves(s: State, s': State, t: nat) {
    && s'.row == s.row && s'.claims == s.claims && s'.orders == s.orders && s'.forUpdate == s.forUpdate
    && (s'.lock == s.lock || (Free(s, t) && s'.lock == Some(t)) || (s.lock == Some(t) && s'.lock == None))
  }

  /** What holds of another transaction does not notice the move. */
  lemma OtherTxStays(s: State, s': State, t: nat, u: nat, k: Tx)
    requires OnlyMoves(s, s', t) && u != t && TxOk(s, u, k)
    ensures TxOk(s', u, k)
  {
  }

  /** One transaction moves on and is sound where it arrives. */
  lemma OneTxMoves(s: State, s': State, t: nat, k: Tx, initial: nat, version: nat)
    requires Inv(s, initial, version) && OnlyMoves(s, s', t) && s'.txs == s.txs[t := k] && TxOk(s', t, k)
    ensures Inv(s', initial, version)
  {
    hide TxOk;
    assert Balanced(s', initial, version) && Filed(s');
    hide Balanced;
    hide Filed;
    forall u | u in s'.txs
      ensures TxOk(s', u, s'.txs[u])
    {
      if u != t {
        OtherTxStays(s, s', t, u, s.txs[u]);
      }
    }
  }

  lemma TxFacts(s: State, t: nat, initial: nat, version: nat)
    requires Inv(s, initial, version) && t in s.txs
    ensures TxOk(s, t, s.txs[t]) && s.forUpdate
  {
    hide TxOk;
    hide Balanced;
    hide Filed;
  }

  /** Ending without a commit gives the lock back, if it was held. */
  lemma FinishKeepsInv(s: State, t: nat, how: End, initial: nat, version: nat)
    requires Inv(s, initial, version) && t in s.txs
    ensures Inv(Finish(s, t, how), initial, version)
  {
    hide Inv;
    OneTxMoves(s, Finish(s, t, how), t, s.txs[t].(phase := Ended(how)), initial, version);
  }

  lemma BeginKeepsInv(s: State, t: nat, k: Tx, initial: nat, version: nat)
    requires Inv(s, initial, version) && t !in s.txs && k.phase.Started?
    ensures Inv(s.(txs := s.txs[t := k]), initial, version)
  {
    var s' := s.(txs := s.txs[t := k]);
    assert TxOk(s', t, k);
    hide Inv;
    hide TxOk;
    OneTxMoves(s, s', t, k, initial, version);
  }

  lemma LoadedOk(s: State, t: nat)
    requires t in s.txs && s.txs[t].phase.Started? && TxOk(s, t, s.txs[t]) && s.forUpdate
    requires s.txs[t].mode.Pessimistic? ==> Free(s, t)
    ensures var s' := DoLoad(s, t, true); var k := s.txs[t].(phase := Loaded(s.row));
            OnlyMoves(s, s', t) && s'.txs == s.txs[t := k] && TxOk(s', t, k)
  {
  }

  lemma LoadKeepsInv(s: State, t: nat, onSale: bool, initial: nat, version: nat)
    requires Inv(s, initial, version)
    ensures Inv(DoLoad(s, t, onSale), initial, version)
  {
    hide Inv;
    if t in s.txs && s.txs[t].phase.Started? {
      FinishKeepsInv(s, t, Unavailable, initial, version);
      TxFacts(s, t, initial, version);
      if onSale && (s.txs[t].mode.Pessimistic? ==> Free(s, t)) {
        LoadedOk(s, t);
        hide DoLoad;
        hide OnlyMoves;
        hide TxOk;
        OneTxMoves(s, DoLoad(s, t, onSale), t, s.txs[t].(phase := Loaded(s.row)), initial, version);
      }
    }
  }

  /** Whichever mode lets the update through, there was a unit to take: the guard says so, the lock has kept
      what was read, or the version shows that what was read still stands. */
  lemma MatchedHasUnit(s: State, t: nat)
    requires t in s.txs && s.txs[t].phase.Loaded? && TxOk(s, t, s.txs[t])
    requires !s.txs[t].mode.Atomic? ==> s.txs[t].phase.seen.available > 0
    requires Matches(s.txs[t].mode, s.row, s.txs[t].phase.seen)
    ensures s.row.available > 0
  {
  }

  lemma DecrementedOk(s: State, t: nat)
    requires t in s.txs && Free(s, t) && s.row.available > 0
    ensures var k := s.txs[t].(phase := Decremented(Row(s.row.available - 1, s.row.version + 1)));
            var s' := Advance(s.(lock := Some(t)), t, k.phase);
            OnlyMoves(s, s', t) && s'.txs == s.txs[t := k] && TxOk(s', t, k)
  {
  }

  lemma DecrementKeepsInv(s: State, t: nat, initial: nat, version: nat)
    requires Inv(s, initial, version)
    ensures Inv(DoDecrement(s, t), initial, version)
  {
    hide Inv;
    hide TxOk;
    hide Finish;
    if t in s.txs && s.txs[t].phase.Loaded? {
      var k := s.txs[t];
      FinishKeepsInv(s, t, OutOfStock, initial, version);
      FinishKeepsInv(s, t, Conflict, initial, version);
      if !(!k.mode.Atomic? && k.phase.seen.available <= 0) && Free(s, t) && Matches(k.mode, s.row, k.phase.seen) {
        TxFacts(s, t, initial, version);
        MatchedHasUnit(s, t);
        DecrementedOk(s, t);
        hide OnlyMoves;
        OneTxMoves(s, DoDecrement(s, t), t, k.(phase := Decremented(Row(s.row.available - 1, s.row.version + 1))), initial, version);
      }
    }
  }

  lemma InsertedOk(s: State, t: nat)
    requires t in s.txs && TxOk(s, t, s.txs[t])
    ensures s.txs[t].phase.Decremented? && s.txs[t].orderNo !in s.orders ==> TxOk(s, t, s.txs[t].(phase := Ordered(s.txs[t].phase.work)))
    ensures s.txs[t].phase.Ordered? && s.txs[t].user !in s.claims ==> TxOk(s, t, s.txs[t].(phase := Claimed(s.txs[t].phase.work)))
  {
  }

  /** What holds of a transaction speaks of the lock and the committed data alone. */
  lemma SameData(s: State, s': State, t: nat, k: Tx)
    requires TxOk(s, t, k) && s'.row == s.row && s'.claims == s.claims && s'.orders == s.orders && s'.lock == s.lock
    ensures TxOk(s', t, k)
  {
  }

  lemma AdvanceKeepsInv(s: State, t: nat, phase: Phase, initial: nat, version: nat)
    requires Inv(s, initial, version) && t in s.txs && TxOk(s, t, s.txs[t].(phase := phase))
    ensures Inv(Advance(s, t, phase), initial, version)
  {
    hide Inv;
    hide TxOk;
    SameData(s, Advance(s, t, phase), t, s.txs[t].(phase := phase));
    OneTxMoves(s, Advance(s, t, phase), t, s.txs[t].(phase := phase), initial, version);
  }

  lemma InsertOrderKeepsInv(s: State, t: nat, initial: nat, version: nat)
    requires Inv(s, initial, version)
    ensures Inv(DoInsertOrder(s, t), initial, version)
  {
    hide Inv;
    hide TxOk;
    hide Finish;
    hide Advance;
    if t in s.txs && s.txs[t].phase.Decremented? {
      TxFacts(s, t, initial, version);
      InsertedOk(s, t);
      FinishKeepsInv(s, t, Duplicate, initial, version);
      if s.txs[t].orderNo !in s.orders {
        AdvanceKeepsInv(s, t, Ordered(s.txs[t].phase.work), initial, version);
      }
    }
  }

  lemma InsertClaimKeepsInv(s: State, t: nat, initial: nat, version: nat)
    requires Inv(s, initial, version)
    ensures Inv(DoInsertClaim(s, t), initial, version)
  {
    hide Inv;
    hide TxOk;
    hide Finish;
    hide Advance;
    if t in s.txs && s.txs[t].phase.Ordered? {
      TxFacts(s, t, initial, version);
      InsertedOk(s, t);
      FinishKeepsInv(s, t, Duplicate, initial, version);
      if s.txs[t].user !in s.claims {
        AdvanceKeepsInv(s, t, Claimed(s.txs[t].phase.work), initial, version);
      }
    }
  }

  lemma OneMoreClaim(claims: map<nat, string>, user: nat, orderNo: string)
    requires user !in claims
    ensures |claims[user := orderNo]| == |claims| + 1
  {
    assert claims[user := orderNo].Keys == claims.Keys + {user};
    assert |claims[user := orderNo].Keys| == |claims.Keys| + 1;
  }

  lemma CommitBalances(s: State, t: nat, initial: nat, version: nat)
    requires Balanced(s, initial, version) && Filed(s) && t in s.txs && s.txs[t].phase.Claimed? && TxOk(s, t, s.txs[t])
    ensures Balanced(DoCommit(s, t), initial, version) && Filed(DoCommit(s, t))
  {
    OneMoreClaim(s.claims, s.txs[t].user, s.txs[t].orderNo);
  }

  /** A commit finds no other transaction holding the lock, and only outdates what others have read. */
  lemma CommitOthers(s: State, t: nat, u: nat)
    requires t in s.txs && s.txs[t].phase.Claimed? && TxOk(s, t, s.txs[t]) && u in s.txs && u != t && TxOk(s, u, s.txs[u])
    ensures TxOk(DoCommit(s, t), u, s.txs[u])
  {
  }

  lemma CommitKeepsInv(s: State, t: nat, initial: nat, version: nat)
    requires Inv(s, initial, version)
    ensures Inv(DoCommit(s, t), initial, version)
  {
    if t in s.txs && s.txs[t].phase.Claimed? {
      TxFacts(s, t, initial, version);
      CommitBalances(s, t, initial, version);
      hide Balanced;
      hide Filed;
      var s' := DoCommit(s, t);
      assert s'.lock.None? && TxOk(s', t, s'.txs[t]);
      hide TxOk;
      forall u | u in s'.txs
        ensures TxOk(s', u, s'.txs[u])
      {
        if u != t {
          CommitOthers(s, t, u);
        }
      }
    }
  }

  lemma OtherOrderKeepsInv(s: State, orderNo: string, initial: nat, version: nat)
    requires Inv(s, initial, version) && !Waiting(s, orderNo)
    ensures Inv(s.(orders := s.orders + {orderNo}), initial, version)
  {
  }

  lemma ExecKeepsInv(s: State, e: Event, initial: nat, version: nat)
    requires Inv(s, initial, version)
    ensures Inv(Exec(s, e), initial, version)
  {
    hide Inv;
    hide Finish;
    hide DoLoad;
    hide DoDecrement;
    hide DoInsertOrder;
    hide DoInsertClaim;
    hide DoCommit;
    match e
    case Begin(t, mode, user, orderNo) => if t !in s.txs { BeginKeepsInv(s, t, Tx(mode, user, orderNo, Started), initial, version); }
    case Load(t, onSale) => LoadKeepsInv(s, t, onSale, initial, version);
    case Decrement(t) => DecrementKeepsInv(s, t, initial, version);
    case InsertOrder(t) => InsertOrderKeepsInv(s, t, initial, version);
    case InsertClaim(t) => InsertClaimKeepsInv(s, t, initial, version);
    case Commit(t) => CommitKeepsInv(s, t, initial, version);
    case OtherOrder(orderNo) => if !Waiting(s, orderNo) { OtherOrderKeepsInv(s, orderNo, initial, version); }
    case Abort(t) => if t in s.txs { FinishKeepsInv(s, t, Aborted, initial, version); }
  }

  // ---------------------------------------------------------------- one abstract step for all modes

  datatype Stock = Stock(available: int, version: nat, claims: map<nat, string>)

  function View(s: State): (a: Stock) { Stock(s.row.available, s.row.version, s.claims) }

  predicate Enabled(a: Stock, user: nat) { user !in a.claims && a.available > 0 }

  /** Claim a unit if the user has none and there is one. */
  function Claim(a: Stock, user: nat, orderNo: string): (r: Stock) {
    if Enabled(a, user) then Stock(a.available - 1, a.version + 1, a.claims[user := orderNo]) else a
  }

  datatype Taken = Taken(user: nat, orderNo: string)

  predicate Commits(s: State, e: Event) { e.Commit? && e.tx in s.txs && s.txs[e.tx].phase.Claimed? }

  /** Whatever the mode, a step either changes nothing anyone can see or is one enabled claim. */
  lemma StepRefines(s: State, e: Event, initial: nat, version: nat)
    requires Inv(s, initial, version)
    ensures if Commits(s, e)
            then && Enabled(View(s), s.txs[e.tx].user)
                 && View(Exec(s, e)) == Claim(View(s), s.txs[e.tx].user, s.txs[e.tx].orderNo)
            else View(Exec(s, e)) == View(s)
  {
    if Commits(s, e) {
      assert TxOk(s, e.tx, s.txs[e.tx]);
    }
    hide Balanced;
  }

  /** The claims a run commits, in order. */
  function Trace(s: State, events: seq<Event>): (trace: seq<Taken>)
    decreases |events|
  {
    if events == [] then []
    else
      (if Commits(s, events[0]) then [Taken(s.txs[events[0].tx].user, s.txs[events[0].tx].orderNo)] else [])
      + Trace(Exec(s, events[0]), events[1..])
  }

  function Replay(a: Stock, trace: seq<Taken>): (r: Stock)
    decreases |trace|
  {
    if trace == [] then a else Replay(Claim(a, trace[0].user, trace[0].orderNo), trace[1..])
  }

  predicate AllEnabled(a: Stock, trace: seq<Taken>)
    decreases |trace|
  {
    trace == [] || (Enabled(a, trace[0].user) && AllEnabled(Claim(a, trace[0].user, trace[0].orderNo), trace[1..]))
  }

  lemma ReplayFirst(a: Stock, first: Taken, rest: seq<Taken>)
    ensures Replay(a, [first] + rest) == Replay(Claim(a, first.user, first.orderNo), rest)
    ensures AllEnabled(a, [first] + rest) <==> Enabled(a, first.user) && AllEnabled(Claim(a, first.user, first.orderNo), rest)
  {
    assert ([first] + rest)[1..] == rest;
  }

  /** Every interleaved run of transactions of all modes is, seen from outside, its committed claims one after
      the other, each of them enabled when it happens; and the stock stays balanced. */
  lemma {:induction false} RunRefines(s: State, events: seq<Event>, initial: nat, version: nat)
    requires Inv(s, initial, version)
    ensures Inv(Run(s, events), initial, version)
    ensures View(Run(s, events)) == Replay(View(s), Trace(s, events)) && AllEnabled(View(s), Trace(s, events))
    decreases |events|
  {
    hide Inv;
    hide Exec;
    hide Enabled;
    hide Claim;
    if events != [] {
      var s1 := Exec(s, events[0]);
      ExecKeepsInv(s, events[0], initial, version);
      StepRefines(s, events[0], initial, version);
      RunRefines(s1, events[1..], initial, version);
      if Commits(s, events[0]) {
        ReplayFirst(View(s), Taken(s.txs[events[0].tx].user, s.txs[events[0].tx].orderNo), Trace(s1, events[1..]));
      } else {
        assert Trace(s, events) == Trace(s1, events[1..]);
      }
    }
  }

  /** A stock row before any sale. */
  ghost predicate Initial(s: State) {
    s.forUpdate && s.claims == map[] && s.txs == map[] && s.lock.None? && 0 <= s.row.available
  }

  /** Never a unit too many, never a unit lost, one version per claim. */
  lemma StockIsConserved(s: State, events: seq<Event>)
    requires Initial(s)
    ensures var s' := Run(s, events);
            && 0 <= s'.row.available && s'.row.available + |s'.claims| == s.row.available
            && s'.row.version == s.row.version + |s'.claims|
            && View(s') == Replay(View(s), Trace(s, events)) && AllEnabled(View(s), Trace(s, events))
  {
    RunRefines(s, events, s.row.available, s.row.version);
    hide Run;
    hide Trace;
    hide Replay;
    hide AllEnabled;
  }

  // ---------------------------------------------------------------- why the pessimistic read must lock

  /** One unit, and a pessimistic read without FOR UPDATE. */
  const UNLOCKED: State := State(Row(1, 0), map[], {}, map[], None, false)

  function Buying(t: nat): (events: seq<Event>) { [Decrement(t), InsertOrder(t), InsertClaim(t), Commit(t)] }

  function Oversell(): (events: seq<Event>) {
    FirstFour() + Buying(1) + Buying(2)
  }

  lemma {:induction false} RunAppend(s: State, a: seq<Event>, b: seq<Event>)
    ensures Run(s, a + b) == Run(Run(s, a), b)
    decreases |a|
  {
    hide Exec;
    if a == [] {
      assert a + b == b;
    } else {
      assert (a + b)[1..] == a[1..] + b;
      RunAppend(Exec(s, a[0]), a[1..], b);
    }
  }

  lemma RunOne(s: State, e: Event, rest: seq<Event>)
    ensures Run(s, [e] + rest) == Run(Exec(s, e), rest)
  {
    hide Exec;
    assert ([e] + rest)[1..] == rest;
  }

  lemma RunFour(s: State, a: Event, b: Event, c: Event, d: Event)
    ensures Run(s, [a, b, c, d]) == Exec(Exec(Exec(Exec(s, a), b), c), d)
  {
    hide Exec;
    assert [a, b, c, d] == [a] + [b, c, d] && [b, c, d] == [b] + [c, d] && [c, d] == [c] + [d] && [d] == [d] + [];
    RunOne(s, a, [b, c, d]);
    RunOne(Exec(s, a), b, [c, d]);
    RunOne(Exec(Exec(s, a), b), c, [d]);
    RunOne(Exec(Exec(Exec(s, a), b), c), d, []);
  }

  lemma BuysBlindly(s: State, t: nat)
    requires t in s.txs && s.txs[t].mode.Pessimistic? && s.txs[t].phase.Loaded? && s.txs[t].phase.seen.available > 0 && s.lock.None?
    requires s.txs[t].orderNo !in s.orders && s.txs[t].user !in s.claims
    ensures var s' := Run(s, Buying(t)); var k := s.txs[t];
            && s'.row == Row(s.row.available - 1, s.row.version + 1) && s'.lock.None?
            && s'.claims == s.claims[k.user := k.orderNo] && s'.orders == s.orders + {k.orderNo}
            && (forall u :: u in s.txs && u != t ==> u in s'.txs && s'.txs[u] == s.txs[u])
  {
    RunFour(s, Decrement(t), InsertOrder(t), InsertClaim(t), Commit(t));
    hide Run;
  }

  function FirstFour(): (events: seq<Event>) {
    [Begin(1, Pessimistic, 7, "a"), Begin(2, Pessimistic, 8, "b"), Load(1, true), Load(2, true)]
  }

  lemma BothRead()
    ensures var s := Run(UNLOCKED, FirstFour());
            && s.row == Row(1, 0) && s.lock.None? && s.claims == map[] && s.orders == {}
            && s.txs == map[1 := Tx(Pessimistic, 7, "a", Loaded(Row(1, 0))), 2 := Tx(Pessimistic, 8, "b", Loaded(Row(1, 0)))]
  {
    RunFour(UNLOCKED, Begin(1, Pessimistic, 7, "a"), Begin(2, Pessimistic, 8, "b"), Load(1, true), Load(2, true));
    hide Run;
  }

  /** Two transactions that both read one unit, without the lock, sell it twice: the stock goes negative. */
  lemma UnlockedOversells()
    ensures Run(UNLOCKED, Oversell()).row.available == -1
  {
    BothRead();
    hide Run;
    hide Exec;
    RunAppend(UNLOCKED, FirstFour() + Buying(1), Buying(2));
    RunAppend(UNLOCKED, FirstFour(), Buying(1));
    hide Buying;
    hide FirstFour;
    var s1 := Run(UNLOCKED, FirstFour());
    BuysBlindly(s1, 1);
    BuysBlindly(Run(s1, Buying(1)), 2);
  }

  // ---------------------------------------------------------------- one transaction on the tables

  /** Stock, claims and the order numbers in use. */
  datatype Table = Table(stock: Stock, orders: set<string>)

  /** A purchase that commits if it can. */
  function Take(t: Table, k: Taken): (r: Table) {
    if Enabled(t.stock, k.user) && k.orderNo !in t.orders then Table(Claim(t.stock, k.user, k.orderNo), t.orders + {k.orderNo}) else t
  }

  /** Several purchases of other customers, one after the other. */
  function TakeAll(t: Table, ks: seq<Taken>): (r: Table) {
    if ks == [] then t else Take(TakeAll(t, ks[..|ks| - 1]), ks[|ks| - 1])
  }

  /** Stock only falls, and every purchase shows in the version. */
  lemma {:induction false} TakeAllSells(t: Table, ks: seq<Taken>)
    ensures var r := TakeAll(t, ks);
            && r.stock.available <= t.stock.available && t.stock.version <= r.stock.version
            && (r.stock.version == t.stock.version ==> r == t)
  {
    if ks != [] {
      TakeAllSells(t, ks[..|ks| - 1]);
    }
  }

  /** How one attempt ends when it read the table before the rivals' purchases and updates it after them; the
      pessimistic read locks, so it comes after them too. */
  function Attempt(mode: Mode, before: Table, after: Table, own: Taken, onSale: bool): (how: End) {
    var seen := if mode.Pessimistic? then after.stock else before.stock;
    if !onSale then Unavailable
    else if !mode.Atomic? && seen.available <= 0 then OutOfStock
    else if !Matches(mode, Row(after.stock.available, after.stock.version), Row(seen.available, seen.version))
    then (if mode.Optimistic? then Conflict else OutOfStock)
    else if own.orderNo in after.orders || own.user in after.stock.claims then Duplicate
    else Committed
  }

  /** Whatever the mode and the rivals: a commit is an enabled claim, out of stock means no unit is left, and a
      conflict means that a rival's purchase has come in between. */
  lemma AttemptMeans(mode: Mode, before: Table, rivals: seq<Taken>, own: Taken)
    ensures var after := TakeAll(before, rivals); var how := Attempt(mode, before, after, own, true);
            && (how.Committed? ==> Enabled(after.stock, own.user) && own.orderNo !in after.orders)
            && (how.OutOfStock? ==> after.stock.available <= 0)
            && (how.Conflict? ==> mode.Optimistic? && after != before)
            && (how.Duplicate? ==> own.orderNo in after.orders || own.user in after.stock.claims)
            && !how.Unavailable? && !how.Aborted?
  {
    TakeAllSells(before, rivals);
    hide TakeAll;
  }

  /** How an attempt ends, exactly, mode by mode: the optimistic one is out of stock by what it read and conflicts
      exactly when a rival's purchase came in between; the others go by what there is when they update. */
  lemma AttemptExactly(mode: Mode, before: Table, rivals: seq<Taken>, own: Taken)
    ensures var after := TakeAll(before, rivals); var how := Attempt(mode, before, after, own, true);
            var taken := own.orderNo in after.orders || own.user in after.stock.claims;
            if mode.Optimistic? then
              && (how.OutOfStock? <==> before.stock.available <= 0)
              && (how.Conflict? <==> 0 < before.stock.available && after != before)
              && (how.Duplicate? <==> 0 < before.stock.available && after == before && taken)
              && (how.Committed? <==> 0 < before.stock.available && after == before && !taken)
            else
              && (how.OutOfStock? <==> after.stock.available <= 0)
              && (how.Duplicate? <==> 0 < after.stock.available && taken)
              && (how.Committed? <==> 0 < after.stock.available && !taken)
  {
    TakeAllSells(before, rivals);
    hide TakeAll;
  }

  /** Undisturbed, the three modes end alike. */
  lemma AloneAllAlike(mode: Mode, other: Mode, t: Table, own: Taken, onSale: bool)
    ensures Attempt(mode, t, t, own, onSale) == Attempt(other, t, t, own, onSale)
  {
  }

  /** The statements of one transaction of the machine, with nothing in between. */
  function Statements(t: nat, mode: Mode, user: nat, orderNo: string, onSale: bool): (events: seq<Event>) {
    [Begin(t, mode, user, orderNo), Load(t, onSale), Decrement(t), InsertOrder(t), InsertClaim(t), Commit(t)]
  }

  lemma RunStatements(s: State, t: nat, mode: Mode, user: nat, orderNo: string, onSale: bool)
    ensures Run(s, Statements(t, mode, user, orderNo, onSale))
         == Exec(Exec(Exec(Exec(Exec(Exec(s, Begin(t, mode, user, orderNo)), Load(t, onSale)), Decrement(t)), InsertOrder(t)), InsertClaim(t)), Commit(t))
  {
    hide Exec;
    var es := Statements(t, mode, user, orderNo, onSale);
    var b, l := Begin(t, mode, user, orderNo), Load(t, onSale);
    assert es == [b] + [l, Decrement(t), InsertOrder(t), InsertClaim(t), Commit(t)];
    assert [l, Decrement(t), InsertOrder(t), InsertClaim(t), Commit(t)] == [l] + [Decrement(t), InsertOrder(t), InsertClaim(t), Commit(t)];
    RunOne(s, b, [l, Decrement(t), InsertOrder(t), InsertClaim(t), Commit(t)]);
    RunOne(Exec(s, b), l, [Decrement(t), InsertOrder(t), InsertClaim(t), Commit(t)]);
    RunFour(Exec(Exec(s, b), l), Decrement(t), InsertOrder(t), InsertClaim(t), Commit(t));
  }

  /** From every state of the machine in which nobody holds the row, a transaction of any mode that is left alone ends
      as an attempt on the tables does, with the claim exactly if it commits. */
  lemma AloneInMachine(s: State, t: nat, mode: Mode, user: nat, orderNo: string, onSale: bool)
    requires t !in s.txs && s.lock.None? && s.forUpdate
    ensures var s' := Run(s, Statements(t, mode, user, orderNo, onSale)); var table := Table(View(s), s.orders);
            var how := Attempt(mode, table, table, Taken(user, orderNo), onSale);
            && t in s'.txs && s'.txs[t].phase == Ended(how) && s'.lock.None?
            && View(s') == (if how.Committed? then Claim(View(s), user, orderNo) else View(s))
  {
    RunStatements(s, t, mode, user, orderNo, onSale);
    hide Run;
    hide Statements;
    AloneRead(s, t, mode, user, orderNo, onSale);
    var s2 := Exec(Exec(s, Begin(t, mode, user, orderNo)), Load(t, onSale));
    AloneRest(s, s2, t, mode, user, orderNo);
    hide Exec;
  }

  lemma AloneRead(s: State, t: nat, mode: Mode, user: nat, orderNo: string, onSale: bool)
    requires t !in s.txs && s.lock.None? && s.forUpdate
    ensures Exec(Exec(s, Begin(t, mode, user, orderNo)), Load(t, onSale)) ==
            s.(txs := s.txs[t := Tx(mode, user, orderNo, if onSale then Loaded(s.row) else Ended(Unavailable))],
               lock := if onSale && mode.Pessimistic? then Some(t) else None)
  {
  }

  lemma AloneUpdate(s: State, s2: State, t: nat, mode: Mode, user: nat, orderNo: string)
    requires s.lock.None? && t !in s.txs && s2.lock in {None, Some(t)}
    requires s2 == s.(txs := s.txs[t := Tx(mode, user, orderNo, Loaded(s.row))], lock := s2.lock)
    ensures Exec(s2, Decrement(t)) ==
            s.(txs := s.txs[t := Tx(mode, user, orderNo, if s.row.available <= 0 then Ended(OutOfStock) else Decremented(Row(s.row.available - 1, s.row.version + 1)))],
               lock := if s.row.available <= 0 then None else Some(t))
  {
  }

  lemma AloneInserts(s: State, s3: State, t: nat, mode: Mode, user: nat, orderNo: string, work: Row)
    requires s.lock.None? && t !in s.txs
    requires s3 == s.(txs := s.txs[t := Tx(mode, user, orderNo, Decremented(work))], lock := Some(t))
    ensures var dup := orderNo in s.orders || user in s.claims;
            Exec(Exec(s3, InsertOrder(t)), InsertClaim(t)) ==
            s.(txs := s.txs[t := Tx(mode, user, orderNo, if dup then Ended(Duplicate) else Claimed(work))], lock := if dup then None else Some(t))
  {
  }

  lemma EndedStays(s: State, t: nat)
    requires t in s.txs && s.txs[t].phase.Ended?
    ensures Exec(s, Decrement(t)) == s && Exec(s, InsertOrder(t)) == s && Exec(s, InsertClaim(t)) == s && Exec(s, Commit(t)) == s
  {
  }

  lemma AloneRest(s: State, s2: State, t: nat, mode: Mode, user: nat, orderNo: string)
    requires s.lock.None? && t !in s.txs
    requires t in s2.txs && s2.txs == s.txs[t := Tx(mode, user, orderNo, s2.txs[t].phase)] && s2 == s.(txs := s2.txs, lock := s2.lock)
    requires (s2.txs[t].phase == Loaded(s.row) && s2.lock in {None, Some(t)}) || (s2.txs[t].phase == Ended(Unavailable) && s2.lock.None?)
    ensures var s' := Exec(Exec(Exec(Exec(s2, Decrement(t)), InsertOrder(t)), InsertClaim(t)), Commit(t));
            var table := Table(View(s), s.orders); var how := Attempt(mode, table, table, Taken(user, orderNo), s2.txs[t].phase.Loaded?);
            && t in s'.txs && s'.txs[t].phase == Ended(how) && s'.lock.None?
            && View(s') == (if how.Committed? then Claim(View(s), user, orderNo) else View(s))
  {
    if s2.txs[t].phase.Ended? {
      EndedStays(s2, t);
      hide Exec;
    } else {
      AloneUpdate(s, s2, t, mode, user, orderNo);
      var s3 := Exec(s2, Decrement(t));
      if s.row.available <= 0 {
        EndedStays(s3, t);
        hide Exec;
      } else {
        AloneInserts(s, s3, t, mode, user, orderNo, Row(s.row.available - 1, s.row.version + 1));
        var s5 := Exec(Exec(s3, InsertOrder(t)), InsertClaim(t));
        AloneCommit(s5, t);
        hide Exec;
      }
    }
  }

  lemma AloneCommit(s: State, t: nat)
    requires t in s.txs && (s.txs[t].phase.Claimed? || s.txs[t].phase.Ended?)
    ensures s.txs[t].phase.Ended? ==> Exec(s, Commit(t)) == s
    ensures s.txs[t].phase.Claimed? ==>
              var k := s.txs[t]; var s' := Exec(s, Commit(t));
              && t in s'.txs && s'.txs[t].phase == Ended(Committed) && s'.row == k.phase.work && s'.claims == s.claims[k.user := k.orderNo]
              && s'.lock == if s.lock == Some(t) then None else s.lock
  {
  }

  class StockTable {
    var row: Row
    var claims: map<nat, string>
    var orders: set<string>

    ghost function View(): (t: Table)
      reads this
    {
      Table(Stock(row.available, row.version, claims), orders)
    }

    constructor (available: nat)
      ensures View() == Table(Stock(available, 0, map[]), {})
    {
      row, claims, orders := Row(available, 0), map[], {};
    }

    method Rivals(ks: seq<Taken>)
      modifies this
      ensures View() == TakeAll(old(View()), ks)
    {
      for i := 0 to |ks|
        invariant View() == TakeAll(old(View()), ks[..i])
      {
        assert ks[..i + 1][..i] == ks[..i];
        var k := ks[i];
        if k.user !in claims && row.available > 0 && k.orderNo !in orders {
          row := Row(row.available - 1, row.version + 1);
          claims := claims[k.user := k.orderNo];
          orders := orders + {k.orderNo};
        }
      }
      assert ks[..|ks|] == ks;
    }

    /** The update, the order and the claim, in that order; a duplicate key undoes what came before it. */
    method UpdateAndInsert(mode: Mode, seen: Row, user: nat, orderNo: string) returns (how: End)
      modifies this
      ensures how == if !Matches(mode, old(row), seen) then (if mode.Optimistic? then Conflict else OutOfStock)
                     else if orderNo in old(orders) || user in old(claims) then Duplicate else Committed
      ensures how.Committed? ==> row == Row(old(row.available) - 1, old(row.version) + 1) && claims == old(claims)[user := orderNo] && orders == old(orders) + {orderNo}
      ensures !how.Committed? ==> View() == old(View())
    {
      if !Matches(mode, row, seen) {
        return if mode.Optimistic? then Conflict else OutOfStock;
      }
      var savedRow, savedOrders := row, orders;
      row := Row(row.available - 1, row.version + 1);
      if orderNo in orders {
        row := savedRow;
        return Duplicate;
      }
      orders := orders + {orderNo};
      if user in claims {
        row, orders := savedRow, savedOrders;
        return Duplicate;
      }
      claims := claims[user := orderNo];
      return Committed;
    }

    /** The transaction of each mode, with rivals' purchases committing between its read and its update, or, when
        the read locks the row, before it. */
    method PurchaseOnce(mode: Mode, user: nat, orderNo: string, onSale: bool, rivals: seq<Taken>) returns (how: End)
      modifies this
      ensures how == Attempt(mode, old(View()), TakeAll(old(View()), rivals), Taken(user, orderNo), onSale)
      ensures View() == var after := TakeAll(old(View()), rivals); if how.Committed? then Take(after, Taken(user, orderNo)) else after
    {
      ghost var before := View();
      var seen := row;
      Rivals(rivals);
      ghost var after := View();
      AttemptMeans(mode, before, rivals, Taken(user, orderNo));
      hide TakeAll;
      if mode.Pessimistic? {
        seen := row;
      }
      if !onSale {
        return Unavailable;
      }
      if !mode.Atomic? && seen.available <= 0 {
        return OutOfStock;
      }
      how := UpdateAndInsert(mode, seen, user, orderNo);
    }

    /** Purchase: the user's earlier order if there is one; otherwise attempts, of which only those that met a
        version conflict are repeated, 32 at most and one in the other modes. Whatever rivals do in between, the
        answer is true of the tables at the end, and the tables are the rivals' purchases plus, on success, this
        one. */
    method Purchase(mode: Mode, user: nat, orderNo: string, onSale: bool, rivals: nat -> seq<Taken>, waits: nat -> bool)
      returns (r: Bought, attempts: nat)
      modifies this
      ensures attempts <= AttemptLimit(mode) && (attempts == 0 <==> user in old(claims))
      ensures View() == var after := Rounds(old(View()), rivals, attempts); if r.New? then Take(after, Taken(user, orderNo)) else after
      ensures forall a :: 0 <= a < attempts - 1 ==> Rounds(old(View()), rivals, a + 1) != Rounds(old(View()), rivals, a) && waits(a)
      ensures Holds(r, mode, user, orderNo, onSale, View(), attempts)
      ensures r.New? ==> Enabled(Rounds(old(View()), rivals, attempts).stock, user)
      ensures r.Busy? ==> Rounds(old(View()), rivals, attempts) != Rounds(old(View()), rivals, attempts - 1)
      ensures r.Cancelled? ==> !waits(attempts - 1)
    {
      hide Attempt;
      hide TakeAll;
      if user in claims {
        return Existing(claims[user]), 0;
      }
      var limit := if mode.Optimistic? then OPTIMISTIC_MAX_ATTEMPTS else 1;
      ghost var start := View();
      attempts := 0;
      while true
        invariant attempts < limit && View() == Rounds(start, rivals, attempts)
        invariant forall a :: 0 <= a < attempts ==> Rounds(start, rivals, a + 1) != Rounds(start, rivals, a) && waits(a)
        decreases limit - attempts
      {
        ghost var before := View();
        var how := PurchaseOnce(mode, user, orderNo, onSale, rivals(attempts));
        AttemptMeans(mode, before, rivals(attempts), Taken(user, orderNo));
        OffSale(mode, before, TakeAll(before, rivals(attempts)), Taken(user, orderNo));
        attempts := attempts + 1;
        match how {
          case Committed =>
            return New, attempts;
          case Duplicate =>
            return if user in claims then Existing(claims[user]) else NoWinner, attempts;
          case Conflict =>
            if attempts == limit {
              return Busy, attempts;
            }
            if !waits(attempts - 1) {
              return Cancelled, attempts;
            }
          case _ =>
            return Failed(how), attempts;
        }
      }
    }
  }

  const OPTIMISTIC_MAX_ATTEMPTS: nat := 32

  function AttemptLimit(mode: Mode): (n: nat) { if mode.Optimistic? then OPTIMISTIC_MAX_ATTEMPTS else 1 }

  datatype Bought = New | Existing(orderNo: string) | Busy | NoWinner | Cancelled | Failed(how: End)

  /** The tables after the rivals of the first n attempts. */
  ghost function Rounds(t: Table, rivals: nat -> seq<Taken>, n: nat): (r: Table) {
    if n == 0 then t else TakeAll(Rounds(t, rivals, n - 1), rivals(n - 1))
  }

  lemma OffSale(mode: Mode, before: Table, after: Table, own: Taken)
    ensures Attempt(mode, before, after, own, false).Unavailable?
  {
  }

  /** What each answer says about the tables at that moment. */
  ghost predicate Holds(r: Bought, mode: Mode, user: nat, orderNo: string, onSale: bool, t: Table, attempts: nat) {
    match r
    case New => onSale && user in t.stock.claims && t.stock.claims[user] == orderNo && orderNo in t.orders
    case Existing(o) => user in t.stock.claims && t.stock.claims[user] == o
    case NoWinner => onSale && user !in t.stock.claims && orderNo in t.orders
    case Busy => onSale && mode.Optimistic? && attempts == 32
    case Cancelled => onSale && mode.Optimistic? && 0 < attempts < 32
    case Failed(how) => (how.OutOfStock? && onSale && t.stock.available <= 0) || (how.Unavailable? && !onSale)
  }
}
