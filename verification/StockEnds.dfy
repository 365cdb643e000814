/** What the end of a transaction tells its customer, over every interleaving of the three stock modes. */
module StockEnds {
  import opened Text
  import opened StockModes

  /** What is true of the tables from the end of a transaction on; before it, what it read is not less than there is. */
  ghost predicate Tells(s: State, k: Tx) {
    match k.phase
    case Loaded(seen) => s.row.available <= seen.available
    case Ended(OutOfStock) => s.row.available == 0
    case Ended(Duplicate) => k.orderNo in s.orders || k.user in s.claims
    case Ended(Committed) => k.user in s.claims && s.claims[k.user] == k.orderNo && k.orderNo in s.orders
    case Ended(Conflict) => k.mode.Optimistic?
    case _ => true
  }

  ghost predicate AllTell(s: State) { forall t :: t in s.txs ==> Tells(s, s.txs[t]) }

  /** Stock only falls; orders and claims stay. */
  ghost predicate Sells(s: State, s': State) {
    && s'.row.available <= s.row.available && 0 <= s'.row.available && s.orders <= s'.orders
    && (forall u :: u in s.claims ==> u in s'.claims && s'.claims[u] == s.claims[u])
  }

  lemma TellsOn(s: State, s': State, k: Tx)
    requires Tells(s, k) && Sells(s, s')
    ensures Tells(s', k)
  {
  }

  lemma InvFacts(s: State, initial: nat, version: nat)
    requires Inv(s, initial, version)
    ensures 0 <= s.row.available && s.forUpdate
    ensures forall t :: t in s.txs ==> TxOk(s, t, s.txs[t])
  {
    hide TxOk;
    hide Filed;
  }

  lemma OrdersStay(s: State, e: Event)
    ensures s.orders <= Exec(s, e).orders
  {
    hide Waiting;
    hide Matches;
  }

  lemma ExecSells(s: State, e: Event, initial: nat, version: nat)
    requires Inv(s, initial, version)
    ensures Sells(s, Exec(s, e))
  {
    StepRefines(s, e, initial, version);
    OrdersStay(s, e);
    ExecKeepsInv(s, e, initial, version);
    hide Exec;
    InvFacts(s, initial, version);
    InvFacts(Exec(s, e), initial, version);
    hide Inv;
  }

  /** An event moves one transaction at most. */
  ghost function Mover(e: Event): (t: nat) { if e.OtherOrder? then 0 else e.tx }

  lemma OthersStay(s: State, e: Event, u: nat)
    requires u in Exec(s, e).txs && (u != Mover(e) || e.OtherOrder?)
    ensures u in s.txs && Exec(s, e).txs[u] == s.txs[u]
  {
    hide Waiting;
  }

  /** Where the update ends, exactly, with any number of others at work since the read: out of stock when the
      optimistic or pessimistic read saw none or, in the atomic mode, none is left; a conflict exactly in the
      optimistic mode when the version has moved; otherwise with a unit taken. */
  lemma DecrementExactly(s: State, t: nat, initial: nat, version: nat)
    requires Inv(s, initial, version) && t in s.txs && s.txs[t].phase.Loaded? && Free(s, t)
    ensures var k := s.txs[t]; var k' := Exec(s, Decrement(t)).txs[t];
            && (k'.phase == Ended(OutOfStock) <==> if k.mode.Optimistic? then k.phase.seen.available <= 0 else s.row.available == 0)
            && (k'.phase == Ended(Conflict) <==> k.mode.Optimistic? && 0 < k.phase.seen.available && k.phase.seen.version < s.row.version)
            && (k'.phase.Decremented? <==> 0 < s.row.available && (k.mode.Optimistic? ==> k.phase.seen.version == s.row.version))
  {
    InvFacts(s, initial, version);
    hide Inv;
    assert TxOk(s, t, s.txs[t]);
  }

  lemma MoverTells(s: State, e: Event, initial: nat, version: nat)
    requires Inv(s, initial, version) && AllTell(s) && !e.OtherOrder? && e.tx in Exec(s, e).txs
    ensures Tells(Exec(s, e), Exec(s, e).txs[e.tx])
  {
    InvFacts(s, initial, version);
    ExecSells(s, e, initial, version);
    hide Inv;
    if e.tx in s.txs {
      TellsOn(s, Exec(s, e), s.txs[e.tx]);
      assert TxOk(s, e.tx, s.txs[e.tx]);
    }
  }

  lemma ExecKeepsTelling(s: State, e: Event, initial: nat, version: nat)
    requires Inv(s, initial, version) && AllTell(s)
    ensures AllTell(Exec(s, e))
  {
    ExecSells(s, e, initial, version);
    var s' := Exec(s, e);
    forall u | u in s'.txs
      ensures Tells(s', s'.txs[u])
    {
      if u == Mover(e) && !e.OtherOrder? {
        MoverTells(s, e, initial, version);
      } else {
        OthersStay(s, e, u);
        TellsOn(s, s', s.txs[u]);
      }
      hide Exec;
    }
  }

  lemma {:induction false} RunKeepsTelling(s: State, events: seq<Event>, initial: nat, version: nat)
    requires Inv(s, initial, version) && AllTell(s)
    ensures AllTell(Run(s, events))
    decreases |events|
  {
    hide Inv;
    hide AllTell;
    hide Exec;
    if events != [] {
      ExecKeepsInv(s, events[0], initial, version);
      ExecKeepsTelling(s, events[0], initial, version);
      RunKeepsTelling(Exec(s, events[0]), events[1..], initial, version);
    }
  }

  /** Over every run of transactions of all three modes, whatever a transaction was told stays true: out of stock means
      that nothing is left, now and later; a duplicate has its order number or its user on file; a commit is on
      file under its own number; a conflict befalls the optimistic mode only. */
  lemma EndsAreTrue(s: State, events: seq<Event>, t: nat)
    requires Initial(s) && t in Run(s, events).txs && Run(s, events).txs[t].phase.Ended?
    ensures var s' := Run(s, events); var k := s'.txs[t];
            match k.phase.how
            case OutOfStock => s'.row.available == 0
            case Duplicate => k.orderNo in s'.orders || k.user in s'.claims
            case Committed => k.user in s'.claims && s'.claims[k.user] == k.orderNo && k.orderNo in s'.orders
            case Conflict => k.mode.Optimistic?
            case _ => true
  {
    assert Inv(s, s.row.available, s.row.version) && AllTell(s);
    RunKeepsTelling(s, events, s.row.available, s.row.version);
    hide Run;
    hide Inv;
    assert Tells(Run(s, events), Run(s, events).txs[t]);
  }
}
