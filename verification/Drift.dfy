/** The drift report over the synchronous sale (gate first, then one MySQL transaction): MySQL is read first,
    then the Redis state, then the number of buyers, each at its own moment of a running sale. */
module Drift {
  import opened Text
  import opened RedisSlot
  import Pipeline
  import StockModes

  // ---------------------------------------------------------------- the report

  datatype MySqlState = MySqlState(initial: int, available: int, claims: int)

  datatype RedisState = RedisState(present: bool, stock: int, buyers: int, ttl: int)

  datatype Status = Consistent | ReservedAhead | CacheMissing | DangerousDrift | Unknown

  function Classify(m: MySqlState, r: RedisState): (s: Status) {
    if !r.present then (if r.buyers > 0 then DangerousDrift else CacheMissing)
    else if r.stock < 0 || r.stock > m.available || r.buyers < m.claims || r.buyers > m.initial || r.ttl <= 0
            || m.available - r.stock != r.buyers - m.claims then DangerousDrift
    else if m.available == r.stock then Consistent
    else ReservedAhead
  }

  datatype Report = Report(status: Status, stockDelta: int, reservationDelta: int, mysqlFailed: bool, redisFailed: bool)

  /** Two reads in order; a failed read makes the whole report unknown. */
  method BuildReport(mysql: Option<MySqlState>, redis: Option<RedisState>) returns (report: Report)
    ensures report.mysqlFailed == mysql.None? && report.redisFailed == redis.None?
    ensures report.status.Unknown? <==> mysql.None? || redis.None?
    ensures mysql.Some? && redis.Some? ==>
              && report.status == Classify(mysql.value, redis.value)
              && report.stockDelta == mysql.value.available - redis.value.stock
              && report.reservationDelta == redis.value.buyers - mysql.value.claims
  {
    report := Report(Unknown, 0, 0, mysql.None?, redis.None?);
    if report.mysqlFailed || report.redisFailed {
      return;
    }
    var m, r := mysql.value, redis.value;
    report := report.(stockDelta := m.available - r.stock, reservationDelta := r.buyers - m.claims);
    if !r.present {
      report := report.(status := if r.buyers > 0 then DangerousDrift else CacheMissing);
    } else if r.stock < 0 || r.stock > m.available || r.buyers < m.claims || r.buyers > m.initial || r.ttl <= 0
              || report.stockDelta != report.reservationDelta {
      report := report.(status := DangerousDrift);
    } else if report.stockDelta == 0 {
      report := report.(status := Consistent);
    } else {
      report := report.(status := ReservedAhead);
    }
  }

  // ---------------------------------------------------------------- the sale

  /** A user the gate let through, on the way to MySQL. */
  datatype Ticket = Ticket(user: nat, orderNo: string)

  datatype State = State(
    clock: int, item: nat, sale: Pipeline.Sale,
    slot: Slot,
    preheats: set<int>,                 // stock figures read and not yet published
    db: StockModes.Stock,               // stock row and claims; the modes all refine this
    tickets: set<Ticket>)

  datatype Event =
    | Tick(to: int)
    | LoadPreheat
    | PublishStock(stock: int, generation: string)
    | InvalidateItem
    | Admit(user: nat, now: int, orderNo: string)
    | Buy(ticket: Ticket)

  function DoAdmit(s: State, user: nat, now: int, orderNo: string): (s': State) {
    if user == 0 || now > s.clock then s
    else
      var (slot', d) := Reserve(s.slot, user, now, orderNo);
      if d.Reserved? || d.AlreadyReserved? then s.(slot := slot', tickets := s.tickets + {Ticket(user, d.orderNo)})
      else s
  }

  function Exec(s: State, e: Event): (s': State) {
    match e
    case Tick(to) => if s.clock <= to then s.(clock := to) else s
    case LoadPreheat => if s.clock < s.sale.startAt then s.(preheats := s.preheats + {s.db.available}) else s
    case PublishStock(stock, generation) =>
      if stock in s.preheats then s.(slot := Publish(s.slot, Pipeline.HashOf(s.item, s.sale, stock, generation))) else s
    case InvalidateItem => s.(slot := Invalidate(s.slot))
    case Admit(user, now, orderNo) => DoAdmit(s, user, now, orderNo)
    case Buy(t) => if t in s.tickets then s.(db := StockModes.Claim(s.db, t.user, t.orderNo)) else s
  }

  function Run(s: State, events: seq<Event>): (s': State)
    decreases |events|
  {
    if events == [] then s else Run(Exec(s, events[0]), events[1..])
  }

  /** Publishing happens before the sale starts. */
  predicate Timely(s: State, e: Event) { e.PublishStock? ==> s.clock < s.sale.startAt }

  predicate TimelyRun(s: State, events: seq<Event>)
    decreases |events|
  {
    events == [] || (Timely(s, events[0]) && TimelyRun(Exec(s, events[0]), events[1..]))
  }

  // ---------------------------------------------------------------- what every step keeps

  ghost predicate Closed(slot: Slot) { slot.state == NO_STATE && slot.buyers == map[] }

  ghost predicate Open(s: State) {
    && s.slot.state.stock.Some? && s.slot.state.generation.Some?
    && s.slot.state == Pipeline.HashOf(s.item, s.sale, s.slot.state.stock.value, s.slot.state.generation.value)
    && 0 <= s.slot.state.stock.value && s.slot.state.stock.value + |s.slot.buyers| == s.sale.initial
    && (forall u :: u in s.db.claims ==> u in s.slot.buyers)
    && (forall t :: t in s.tickets ==> t.user in s.slot.buyers)
  }

  ghost predicate Inv(s: State) {
    && 0 <= s.db.available && s.db.available + |s.db.claims| == s.sale.initial
    && (s.clock < s.sale.startAt ==> s.tickets == {} && s.db.claims == map[])
    && (forall p :: p in s.preheats ==> p == s.sale.initial)
    && (Closed(s.slot) || Open(s))
  }

  lemma BuyKeepsInv(s: State, t: Ticket)
    requires Inv(s) && t in s.tickets
    ensures Inv(s.(db := StockModes.Claim(s.db, t.user, t.orderNo)))
  {
    if StockModes.Enabled(s.db, t.user) {
      StockModes.OneMoreClaim(s.db.claims, t.user, t.orderNo);
    }
    hide Pipeline.HashOf;
  }

  /** What the gate changes when it lets a user through, and when it does not. */
  lemma ReserveCases(slot: Slot, user: nat, now: int, orderNo: string)
    ensures var (slot', d) := Reserve(slot, user, now, orderNo);
            if d.Reserved? then
              && slot.state.ready && OnSale(slot.state, now) && user !in slot.buyers && slot.state.stock.Some? && 0 < slot.state.stock.value
              && slot' == slot.(state := slot.state.(stock := Some(slot.state.stock.value - 1)), buyers := slot.buyers[user := orderNo])
            else slot' == slot && (d.AlreadyReserved? ==> slot.state.ready && OnSale(slot.state, now) && user in slot.buyers)
  {
  }

  lemma TicketKeepsInv(s: State, user: nat, now: int, orderNo: string)
    requires Inv(s) && now <= s.clock && s.slot.state.ready && OnSale(s.slot.state, now) && user in s.slot.buyers
    ensures Inv(s.(tickets := s.tickets + {Ticket(user, orderNo)}))
  {
  }

  lemma TakeKeepsInv(s: State, user: nat, now: int, orderNo: string)
    requires Inv(s) && now <= s.clock && s.slot.state.ready && OnSale(s.slot.state, now)
    requires user !in s.slot.buyers && s.slot.state.stock.Some? && 0 < s.slot.state.stock.value
    ensures var slot' := s.slot.(state := s.slot.state.(stock := Some(s.slot.state.stock.value - 1)), buyers := s.slot.buyers[user := orderNo]);
            Inv(s.(slot := slot')) && OnSale(slot'.state, now) && slot'.state.ready
  {
    StockModes.OneMoreClaim(s.slot.buyers, user, orderNo);
  }

  lemma AdmitKeepsInv(s: State, user: nat, now: int, orderNo: string)
    requires Inv(s)
    ensures Inv(DoAdmit(s, user, now, orderNo))
  {
    hide Inv;
    hide OnSale;
    ReserveCases(s.slot, user, now, orderNo);
    var (slot', d) := Reserve(s.slot, user, now, orderNo);
    hide Reserve;
    if user != 0 && now <= s.clock {
      if d.Reserved? {
        TakeKeepsInv(s, user, now, orderNo);
        TicketKeepsInv(s.(slot := slot'), user, now, d.orderNo);
      } else if d.AlreadyReserved? {
        TicketKeepsInv(s, user, now, d.orderNo);
      }
    }
  }

  lemma PublishKeepsInv(s: State, stock: int, generation: string)
    requires Inv(s) && stock in s.preheats && s.clock < s.sale.startAt
    ensures Inv(Exec(s, PublishStock(stock, generation)))
  {
  }

  lemma ExecKeepsInv(s: State, e: Event)
    requires Inv(s) && Timely(s, e)
    ensures Inv(Exec(s, e))
  {
    hide DoAdmit;
    hide StockModes.Claim;
    match e
    case PublishStock(stock, generation) => if stock in s.preheats { PublishKeepsInv(s, stock, generation); }
    case Admit(user, now, orderNo) => AdmitKeepsInv(s, user, now, orderNo);
    case Buy(t) => if t in s.tickets { BuyKeepsInv(s, t); }
    case _ => hide Pipeline.HashOf;
  }

  /** Claims are permanent, and the sale itself is fixed. */
  ghost predicate Later(s: State, s': State) {
    s'.sale == s.sale && s.db.claims.Keys <= s'.db.claims.Keys
  }

  lemma ExecLater(s: State, e: Event)
    ensures Later(s, Exec(s, e))
  {
    hide Reserve;
    hide Pipeline.HashOf;
  }

  lemma {:induction false} RunKeepsInv(s: State, events: seq<Event>)
    requires Inv(s) && TimelyRun(s, events)
    ensures Inv(Run(s, events)) && Later(s, Run(s, events))
    decreases |events|
  {
    hide Inv;
    hide Exec;
    hide Timely;
    if events != [] {
      ExecKeepsInv(s, events[0]);
      ExecLater(s, events[0]);
      RunKeepsInv(Exec(s, events[0]), events[1..]);
    }
  }

  ghost predicate Initial(s: State) {
    && s.slot == EMPTY_SLOT && s.preheats == {} && s.tickets == {} && s.db == StockModes.Stock(s.sale.initial, 0, map[])
  }

  lemma InitialInv(s: State)
    requires Initial(s)
    ensures Inv(s)
  {
    hide Pipeline.HashOf;
  }

  lemma GateHasStock(s: State, now: int, user: nat)
    requires Inv(s) && Selling(s.slot.state, now) && 0 < s.slot.state.stock.value && user !in s.slot.buyers
    ensures 0 < s.db.available && user !in s.db.claims
  {
    assert Open(s) by { assert s.slot.state != NO_STATE; }
    KeysCount(s.db.claims, s.slot.buyers);
    hide Pipeline.HashOf;
  }

  /** Whoever the synchronous gate admits gets his claim: from every sound state, a newcomer at a selling gate with a
      unit left, once let through, finds a unit in MySQL and has it under the number he was admitted with. */
  lemma NewcomerBuys(s: State, user: nat, now: int, orderNo: string)
    requires Inv(s) && user != 0 && now <= s.clock && user !in s.slot.buyers && Selling(s.slot.state, now) && 0 < s.slot.state.stock.value
    ensures var s1 := Exec(s, Admit(user, now, orderNo)); var s2 := Exec(s1, Buy(Ticket(user, orderNo)));
            && Ticket(user, orderNo) in s1.tickets && user in s1.slot.buyers
            && user in s2.db.claims && s2.db.claims[user] == orderNo && s2.db.available == s.db.available - 1
  {
    GateHasStock(s, now, user);
    ReserveExactly(s.slot, user, now, orderNo);
    hide Reserve;
    hide Inv;
    hide Selling;
  }

  // ---------------------------------------------------------------- reading while the sale runs

  function ReadMySql(s: State): (m: MySqlState) { MySqlState(s.sale.initial, s.db.available, |s.db.claims|) }

  /** The state hash is read in s, the number of buyers later, in s'; an absent hash reads as zeros. */
  function ReadRedis(s: State, s': State, ttl: int): (r: RedisState) {
    if s.slot.state == NO_STATE then RedisState(false, 0, |s'.slot.buyers|, 0)
    else RedisState(true, if s.slot.state.stock.Some? then s.slot.state.stock.value else 0, |s'.slot.buyers|, ttl)
  }

  lemma KeysCount(a: map<nat, string>, b: map<nat, string>)
    requires a.Keys <= b.Keys
    ensures |a| <= |b|
  {
    assert |a.Keys| <= |b.Keys| by { SubsetCount(a.Keys, b.Keys); }
  }

  lemma SubsetCount(a: set<nat>, b: set<nat>)
    requires a <= b
    ensures |a| <= |b|
  {
    assert b == a + (b - a);
  }

  /** A hash that exists accounts for every unit and for every claim made before it was read. */
  lemma OpenCounts(s1: State, s2: State)
    requires Inv(s1) && Inv(s2) && Later(s1, s2)
    ensures s2.slot.state == NO_STATE ==> s2.slot.buyers == map[]
    ensures s2.slot.state != NO_STATE ==>
              && s2.slot.state.stock.Some? && 0 <= s2.slot.state.stock.value
              && s2.slot.state.stock.value + |s2.slot.buyers| == s1.sale.initial && |s1.db.claims| <= |s2.slot.buyers|
  {
    if s2.slot.state != NO_STATE {
      KeysCount(s1.db.claims, s2.db.claims);
      KeysCount(s2.db.claims, s2.slot.buyers);
    }
  }

  /** Over every sale: MySQL read in s1, the Redis state in s2, the buyers in s3, with any activity in between.
      The report answers DANGEROUS_DRIFT exactly when the number of buyers changed between the two Redis
      reads, or the key read has no time left to live. No gate write between them, no false alarm. It answers
      CONSISTENT exactly when every buyer had his claim already, RESERVED_AHEAD exactly when some had not, and
      CACHE_MISSING exactly when there was neither state nor buyer. */
  lemma ReportIsSound(start: State, before: seq<Event>, s1: State, between: seq<Event>, s2: State, after: seq<Event>, s3: State, ttl: int)
    requires Initial(start) && TimelyRun(start, before) && s1 == Run(start, before)
    requires TimelyRun(s1, between) && s2 == Run(s1, between) && s3 == Run(s2, after)
    ensures Classify(ReadMySql(s1), ReadRedis(s2, s3, ttl)).DangerousDrift?
       <==> |s3.slot.buyers| != |s2.slot.buyers| || (s2.slot.state != NO_STATE && ttl <= 0)
    ensures Classify(ReadMySql(s1), ReadRedis(s2, s3, ttl)).CacheMissing? <==> s2.slot.state == NO_STATE && |s3.slot.buyers| == 0
    ensures Classify(ReadMySql(s1), ReadRedis(s2, s3, ttl)).Consistent? <==>
              s2.slot.state != NO_STATE && ttl > 0 && |s3.slot.buyers| == |s2.slot.buyers| == |s1.db.claims|
    ensures Classify(ReadMySql(s1), ReadRedis(s2, s3, ttl)).ReservedAhead? <==>
              s2.slot.state != NO_STATE && ttl > 0 && |s3.slot.buyers| == |s2.slot.buyers| && |s1.db.claims| < |s2.slot.buyers|
  {
    hide Inv;
    hide Run;
    hide TimelyRun;
    InitialInv(start);
    RunKeepsInv(start, before);
    RunKeepsInv(s1, between);
    OpenCounts(s1, s2);
    InvBalance(s1);
  }

  lemma InvBalance(s: State)
    requires Inv(s)
    ensures s.db.available + |s.db.claims| == s.sale.initial
  {
    hide Pipeline.HashOf;
  }
}
