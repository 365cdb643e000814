/** The notification consumers of a topic and its retry topic. A session fetches one record at a time, handles
    or forwards it, and only then commits its offset. Sessions may crash at any point, and any number of them
    may work on the same partition. */
module Consumers {
  import opened Text
  import opened OrderEvents
  import opened Messages
  import Notifications

  datatype Part = Part(topic: Topic, index: nat)

  /** Ready: the record at the offset is still to be handled; Failed: it is to be forwarded; Settled: it may be committed. */
  datatype Phase = Ready | Failed | Settled

  datatype Session = Session(part: Part, offset: nat, phase: Phase)

  datatype State = State(
    logs: map<Part, seq<Record>>,
    committed: map<Part, nat>,
    sessions: map<nat, Session>,
    notif: Notifications.Db,
    maxAttempts: nat)

  /** A database call fails without effect, takes effect, or takes effect and still reports an error. */
  datatype Fault = NoFault | FailsBefore | FailsAfter

  datatype Event =
    | Append(part: Part, record: Record)
    | Join(session: nat, part: Part)
    | Handle(session: nat, fault: Fault)
    | Forward(session: nat, index: nat, acked: bool)
    | Commit(session: nat, answered: bool)
    | Leave(session: nat)

  function LogOf(s: State, p: Part): (log: seq<Record>) { if p in s.logs then s.logs[p] else [] }

  function CommittedOf(s: State, p: Part): (n: nat) { if p in s.committed then s.committed[p] else 0 }

  function DoAppend(s: State, p: Part, r: Record): (s': State) { s.(logs := s.logs[p := LogOf(s, p) + [r]]) }

  /** A session starts at the committed offset. The DLQ has no consumer. */
  function DoJoin(s: State, id: nat, p: Part): (s': State) {
    if id in s.sessions || p.topic.Dlq? then s else s.(sessions := s.sessions[id := Session(p, CommittedOf(s, p), Ready)])
  }

  predicate HasRecord(s: State, k: Session) { k.offset < |LogOf(s, k.part)| }

  /** The handler is not called when the attempt header is unreadable; a record that does not decode is refused
      for good; otherwise the event goes to the notification database. */
  function DoHandle(s: State, id: nat, fault: Fault): (s': State) {
    if id !in s.sessions || !s.sessions[id].phase.Ready? || !HasRecord(s, s.sessions[id]) then s
    else
      var k := s.sessions[id];
      var r := LogOf(s, k.part)[k.offset];
      if Poison(r) then s.(sessions := s.sessions[id := k.(phase := Failed)])
      else
        s.(notif := if fault.FailsBefore? then s.notif else Notifications.Consume(s.notif, Decode(r.value).event).0,
           sessions := s.sessions[id := k.(phase := if fault.NoFault? then Settled else Failed)])
  }

  /** The client refuses records without key or value. */
  predicate Publishable(r: Record) { r.key != "" && r.value != Junk("") }

  /** The copy is in its topic before the offset moves. Without an acknowledgement the session ends. */
  function DoForward(s: State, id: nat, index: nat, acked: bool): (s': State) {
    if id !in s.sessions || !s.sessions[id].phase.Failed? || !HasRecord(s, s.sessions[id])
       || !Publishable(LogOf(s, s.sessions[id].part)[s.sessions[id].offset]) then s
    else
      var k := s.sessions[id];
      var r := LogOf(s, k.part)[k.offset];
      DoAppend(s, Part(Target(r, s.maxAttempts), index), Copy(r))
        .(sessions := if acked then s.sessions[id := k.(phase := Settled)] else s.sessions - {id})
  }

  function DoCommit(s: State, id: nat, answered: bool): (s': State) {
    if id !in s.sessions || !s.sessions[id].phase.Settled? then s
    else
      var k := s.sessions[id];
      s.(committed := s.committed[k.part := k.offset + 1],
         sessions := if answered then s.sessions[id := Session(k.part, k.offset + 1, Ready)] else s.sessions - {id})
  }

  function Exec(s: State, e: Event): (s': State) {
    match e
    case Append(p, r) => DoAppend(s, p, r)
    case Join(id, p) => DoJoin(s, id, p)
    case Handle(id, fault) => DoHandle(s, id, fault)
    case Forward(id, index, acked) => DoForward(s, id, index, acked)
    case Commit(id, answered) => DoCommit(s, id, answered)
    case Leave(id) => s.(sessions := s.sessions - {id})
  }

  function Run(s: State, events: seq<Event>): (s': State)
    decreases |events|
  {
    if events == [] then s else Run(Exec(s, events[0]), events[1..])
  }

  // ---------------------------------------------------------------- what every step keeps

  ghost predicate Handled(ledger: map<string, nat>, r: Record) {
    Decode(r.value).Accepted? && Decode(r.value).event.eventId in ledger
  }

  ghost predicate HasCopy(s: State, r: Record) {
    exists p: Part, j: nat :: p.topic == Target(r, s.maxAttempts) && j < |LogOf(s, p)| && LogOf(s, p)[j] == Copy(r)
  }

  ghost predicate Done(s: State, r: Record) { Handled(s.notif.ledger, r) || HasCopy(s, r) }

  ghost predicate DoneAt(s: State, p: Part, i: nat) { i < |LogOf(s, p)| && Done(s, LogOf(s, p)[i]) }

  ghost predicate DoneBelow(s: State, p: Part, n: nat) { forall i: nat :: i < n ==> DoneAt(s, p, i) }

  ghost predicate SessionOk(s: State, k: Session) {
    && !k.part.topic.Dlq? && DoneBelow(s, k.part, k.offset)
    && (!k.phase.Ready? ==> HasRecord(s, k))
    && (k.phase.Settled? ==> DoneAt(s, k.part, k.offset))
  }

  ghost predicate SessionsOk(s: State) { forall id :: id in s.sessions ==> SessionOk(s, s.sessions[id]) }

  ghost predicate CommitsOk(s: State) { forall p :: DoneBelow(s, p, CommittedOf(s, p)) }

  ghost predicate Inv(s: State) {
    0 < s.maxAttempts <= MAX_INT64 && SessionsOk(s) && CommitsOk(s) && Notifications.Matched(s.notif)
  }

  /** Records stay where they are, consumed events stay consumed. */
  ghost predicate Later(s: State, s': State) {
    && s'.maxAttempts == s.maxAttempts
    && (forall p :: |LogOf(s, p)| <= |LogOf(s', p)| && forall i :: 0 <= i < |LogOf(s, p)| ==> LogOf(s', p)[i] == LogOf(s, p)[i])
    && Notifications.Keeps(s.notif, s'.notif)
  }

  lemma LogLater(s: State, s': State, p: Part, i: nat)
    requires Later(s, s') && i < |LogOf(s, p)|
    ensures i < |LogOf(s', p)| && LogOf(s', p)[i] == LogOf(s, p)[i]
  {
    hide LogOf;
  }

  lemma CopyStays(s: State, s': State, r: Record)
    requires Later(s, s') && HasCopy(s, r)
    ensures HasCopy(s', r)
  {
    hide LogOf;
    hide Target;
    hide Copy;
    var p: Part, j: nat :| p.topic == Target(r, s.maxAttempts) && j < |LogOf(s, p)| && LogOf(s, p)[j] == Copy(r);
    LogLater(s, s', p, j);
  }

  lemma DoneStays(s: State, s': State, p: Part, i: nat)
    requires Later(s, s') && DoneAt(s, p, i)
    ensures DoneAt(s', p, i)
  {
    hide HasCopy;
    hide Decode;
    LogLater(s, s', p, i);
    var r := LogOf(s, p)[i];
    hide LogOf;
    if HasCopy(s, r) {
      CopyStays(s, s', r);
    }
  }

  lemma DoneBelowStays(s: State, s': State, p: Part, n: nat)
    requires Later(s, s') && DoneBelow(s, p, n)
    ensures DoneBelow(s', p, n)
  {
    hide DoneAt;
    hide Later;
    forall i: nat | i < n
      ensures DoneAt(s', p, i)
    {
      DoneStays(s, s', p, i);
    }
  }

  lemma SessionStays(s: State, s': State, k: Session)
    requires Later(s, s') && SessionOk(s, k)
    ensures SessionOk(s', k)
  {
    hide DoneAt;
    hide DoneBelow;
    DoneBelowStays(s, s', k.part, k.offset);
    if HasRecord(s, k) {
      LogLater(s, s', k.part, k.offset);
    }
    if k.phase.Settled? {
      DoneStays(s, s', k.part, k.offset);
    }
    hide LogOf;
    hide Later;
  }

  lemma CommitsStay(s: State, s': State)
    requires Later(s, s') && CommitsOk(s) && s'.committed == s.committed
    ensures CommitsOk(s')
  {
    hide DoneBelow;
    hide Later;
    forall p
      ensures DoneBelow(s', p, CommittedOf(s', p))
    {
      DoneBelowStays(s, s', p, CommittedOf(s, p));
    }
  }

  lemma LaterReflexive(s: State, s': State)
    requires s'.logs == s.logs && s'.notif == s.notif && s'.maxAttempts == s.maxAttempts
    ensures Later(s, s')
  {
  }

  lemma LaterTransitive(a: State, b: State, c: State)
    requires Later(a, b) && Later(b, c)
    ensures Later(a, c)
  {
    hide LogOf;
    Notifications.KeepsTransitive(a.notif, b.notif, c.notif);
    hide Notifications.Keeps;
    forall p
      ensures |LogOf(a, p)| <= |LogOf(c, p)| && forall i :: 0 <= i < |LogOf(a, p)| ==> LogOf(c, p)[i] == LogOf(a, p)[i]
    {
      assert |LogOf(a, p)| <= |LogOf(b, p)| <= |LogOf(c, p)|;
    }
  }

  /** A step that changes at most one session, and moves the committed offset only past done records. */
  lemma StepKeepsInv(s: State, s': State, id: nat, k: Session)
    requires Inv(s) && Later(s, s') && Notifications.Matched(s'.notif) && s'.committed == s.committed
    requires s'.sessions == s.sessions || s'.sessions == s.sessions - {id} || (s'.sessions == s.sessions[id := k] && SessionOk(s', k))
    ensures Inv(s')
  {
    hide SessionOk;
    hide CommitsOk;
    hide Notifications.Matched;
    CommitsStay(s, s');
    forall x | x in s'.sessions
      ensures SessionOk(s', s'.sessions[x])
    {
      if x in s.sessions && s'.sessions[x] == s.sessions[x] {
        SessionStays(s, s', s.sessions[x]);
      }
    }
    assert s'.maxAttempts == s.maxAttempts by { hide LogOf; }
    hide Later;
  }

  lemma AppendLater(s: State, p: Part, r: Record)
    ensures Later(s, DoAppend(s, p, r))
    ensures var log := LogOf(DoAppend(s, p, r), p); |log| == |LogOf(s, p)| + 1 && log[|LogOf(s, p)|] == r
  {
  }

  lemma AppendKeepsInv(s: State, p: Part, r: Record)
    requires Inv(s)
    ensures Inv(DoAppend(s, p, r))
  {
    AppendLater(s, p, r);
    hide Later;
    hide Inv;
    InvMatched(s);
    StepKeepsInv(s, DoAppend(s, p, r), 0, Session(p, 0, Ready));
  }

  lemma InvMatched(s: State)
    requires Inv(s)
    ensures Notifications.Matched(s.notif)
  {
  }

  lemma JoinKeepsInv(s: State, id: nat, p: Part)
    requires Inv(s)
    ensures Inv(DoJoin(s, id, p)) && Later(s, DoJoin(s, id, p))
  {
    var s' := DoJoin(s, id, p);
    LaterReflexive(s, s');
    if s' != s {
      var k := Session(p, CommittedOf(s, p), Ready);
      assert SessionOk(s', k) by {
        assert DoneBelow(s, p, CommittedOf(s, p));
        DoneBelowStays(s, s', p, CommittedOf(s, p));
        hide DoneBelow;
        hide Later;
      }
      hide Later;
      hide SessionOk;
      StepKeepsInv(s, s', id, k);
    }
  }

  lemma LeaveKeepsInv(s: State, id: nat)
    requires Inv(s)
    ensures Inv(s.(sessions := s.sessions - {id})) && Later(s, s.(sessions := s.sessions - {id}))
  {
    var s' := s.(sessions := s.sessions - {id});
    LaterReflexive(s, s');
    InvMatched(s);
    hide Later;
    hide Inv;
    StepKeepsInv(s, s', id, Session(Part(Main, 0), 0, Ready));
  }

  /** Consuming an accepted event settles its record. */
  lemma ConsumeSettles(s: State, s': State, p: Part, i: nat)
    requires i < |LogOf(s, p)| && !Poison(LogOf(s, p)[i]) && s'.logs == s.logs && s'.maxAttempts == s.maxAttempts
    requires s'.notif == Notifications.Consume(s.notif, Decode(LogOf(s, p)[i].value).event).0
    ensures DoneAt(s', p, i) && Later(s, s')
    ensures Notifications.Matched(s.notif) ==> Notifications.Matched(s'.notif)
  {
    var r := LogOf(s, p)[i];
    var e := Decode(r.value).event;
    assert Validate(e).None?;
    hide AttemptOf;
    hide Validate;
    hide Notifications.Matched;
    hide HasCopy;
    Notifications.ConsumeOnce(s.notif, e, s'.notif);
    if Notifications.Matched(s.notif) {
      Notifications.ConsumeKeepsMatch(s.notif, e);
    }
    hide Notifications.Consume;
  }

  lemma SessionMoves(s: State, s': State, k: Session, phase: Phase)
    requires SessionOk(s, k) && Later(s, s') && !phase.Ready? && HasRecord(s, k)
    requires phase.Settled? ==> DoneAt(s', k.part, k.offset)
    ensures SessionOk(s', k.(phase := phase))
  {
    hide DoneAt;
    hide DoneBelow;
    DoneBelowStays(s, s', k.part, k.offset);
    LogLater(s, s', k.part, k.offset);
    hide Later;
    hide LogOf;
  }

  lemma SessionFacts(s: State, id: nat)
    requires Inv(s) && id in s.sessions
    ensures SessionOk(s, s.sessions[id])
  {
  }

  lemma HandleEffect(s: State, id: nat, fault: Fault)
    ensures var s' := DoHandle(s, id, fault);
            || s' == s
            || (&& id in s.sessions && HasRecord(s, s.sessions[id])
                && var k := s.sessions[id]; var r := LogOf(s, k.part)[k.offset];
                   || s' == s.(sessions := s.sessions[id := k.(phase := Failed)])
                   || (&& !Poison(r)
                       && var consumed := Notifications.Consume(s.notif, Decode(r.value).event).0;
                          || s' == s.(notif := consumed, sessions := s.sessions[id := k.(phase := Settled)])
                          || s' == s.(notif := consumed, sessions := s.sessions[id := k.(phase := Failed)])))
  {
    hide Poison;
    hide Decode;
    hide Notifications.Consume;
    hide LogOf;
  }

  lemma HandleKeepsInv(s: State, id: nat, fault: Fault)
    requires Inv(s)
    ensures Inv(DoHandle(s, id, fault)) && Later(s, DoHandle(s, id, fault))
  {
    hide *;
    HandleEffect(s, id, fault);
    LaterReflexive(s, s);
    var s' := DoHandle(s, id, fault);
    if s' != s {
      var k := s.sessions[id];
      SessionFacts(s, id);
      InvMatched(s);
      if s'.notif == s.notif {
        LaterReflexive(s, s');
      }
      if s' == s.(sessions := s.sessions[id := k.(phase := Failed)]) {
        SessionMoves(s, s', k, Failed);
        StepKeepsInv(s, s', id, k.(phase := Failed));
      } else {
        HandledRecord(s, s', k);
        SessionMoves(s, s', k, s'.sessions[id].phase);
        StepKeepsInv(s, s', id, s'.sessions[id]);
      }
    }
  }

  lemma HandledRecord(s: State, s': State, k: Session)
    requires HasRecord(s, k) && !Poison(LogOf(s, k.part)[k.offset]) && s'.logs == s.logs && s'.maxAttempts == s.maxAttempts
    requires s'.notif == Notifications.Consume(s.notif, Decode(LogOf(s, k.part)[k.offset].value).event).0
    ensures DoneAt(s', k.part, k.offset) && Later(s, s')
    ensures Notifications.Matched(s.notif) ==> Notifications.Matched(s'.notif)
  {
    hide Poison;
    hide Decode;
    hide DoneAt;
    hide Later;
    hide Notifications.Consume;
    hide Notifications.Matched;
    ConsumeSettles(s, s', k.part, k.offset);
  }

  lemma CopySettles(s: State, p: Part, i: nat, index: nat)
    requires i < |LogOf(s, p)|
    ensures var r := LogOf(s, p)[i]; DoneAt(DoAppend(s, Part(Target(r, s.maxAttempts), index), Copy(r)), p, i)
  {
    hide Target;
    hide Copy;
    var r := LogOf(s, p)[i];
    var q := Part(Target(r, s.maxAttempts), index);
    var s' := DoAppend(s, q, Copy(r));
    AppendLater(s, q, Copy(r));
    LogLater(s, s', p, i);
    assert s'.maxAttempts == s.maxAttempts;
    assert LogOf(s', q)[|LogOf(s, q)|] == Copy(r);
    hide LogOf;
    hide Later;
    hide DoAppend;
    hide Handled;
  }

  lemma ForwardEffect(s: State, id: nat, index: nat, acked: bool)
    ensures var s' := DoForward(s, id, index, acked);
            || s' == s
            || (&& id in s.sessions && HasRecord(s, s.sessions[id])
                && var k := s.sessions[id]; var r := LogOf(s, k.part)[k.offset];
                   var s1 := DoAppend(s, Part(Target(r, s.maxAttempts), index), Copy(r));
                   && s1.sessions == s.sessions && s1.committed == s.committed
                   && (s' == s1.(sessions := s1.sessions[id := k.(phase := Settled)]) || s' == s1.(sessions := s1.sessions - {id})))
  {
    hide Target;
    hide Copy;
    hide LogOf;
  }

  lemma SameLogs(s1: State, s': State, p: Part, i: nat)
    requires DoneAt(s1, p, i) && s'.logs == s1.logs && s'.notif == s1.notif && s'.maxAttempts == s1.maxAttempts
    ensures DoneAt(s', p, i)
  {
    hide DoneAt;
    LaterReflexive(s1, s');
    hide Later;
    DoneStays(s1, s', p, i);
  }

  lemma ForwardKeepsInv(s: State, id: nat, index: nat, acked: bool)
    requires Inv(s)
    ensures Inv(DoForward(s, id, index, acked)) && Later(s, DoForward(s, id, index, acked))
  {
    hide *;
    ForwardEffect(s, id, index, acked);
    LaterReflexive(s, s);
    var s' := DoForward(s, id, index, acked);
    if s' != s {
      var k := s.sessions[id];
      RecordAt(s, k);
      var r := LogOf(s, k.part)[k.offset];
      var q := Part(Target(r, s.maxAttempts), index);
      var s1 := DoAppend(s, q, Copy(r));
      SessionFacts(s, id);
      AppendLater(s, q, Copy(r));
      AppendKeepsInv(s, q, Copy(r));
      CopySettles(s, k.part, k.offset, index);
      LaterReflexive(s1, s');
      LaterTransitive(s, s1, s');
      SameLogs(s1, s', k.part, k.offset);
      SessionMoves(s, s', k, Settled);
      InvMatched(s1);
      StepKeepsInv(s1, s', id, k.(phase := Settled));
    }
  }

  lemma RecordAt(s: State, k: Session)
    requires HasRecord(s, k)
    ensures k.offset < |LogOf(s, k.part)|
  {
  }

  lemma CommitEffect(s: State, id: nat, answered: bool)
    ensures var s' := DoCommit(s, id, answered);
            || s' == s
            || (&& id in s.sessions && s.sessions[id].phase.Settled?
                && var k := s.sessions[id]; var s1 := s.(committed := s.committed[k.part := k.offset + 1]);
                   || s' == s1.(sessions := s.sessions[id := Session(k.part, k.offset + 1, Ready)])
                   || s' == s1.(sessions := s.sessions - {id}))
  {
  }

  lemma OneFurther(s: State, k: Session)
    requires SessionOk(s, k) && k.phase.Settled?
    ensures DoneBelow(s, k.part, k.offset + 1) && !k.part.topic.Dlq?
  {
    hide DoneAt;
  }

  lemma CommitsMove(s: State, p: Part, n: nat)
    requires CommitsOk(s) && DoneBelow(s, p, n)
    ensures CommitsOk(s.(committed := s.committed[p := n]))
  {
    var s1 := s.(committed := s.committed[p := n]);
    LaterReflexive(s, s1);
    hide DoneBelow;
    hide Later;
    forall q
      ensures DoneBelow(s1, q, CommittedOf(s1, q))
    {
      assert q != p ==> CommittedOf(s1, q) == CommittedOf(s, q);
      DoneBelowStays(s, s1, q, CommittedOf(s1, q));
    }
  }

  lemma SessionsStay(s: State, s': State)
    requires Later(s, s') && SessionsOk(s) && s'.sessions == s.sessions
    ensures SessionsOk(s')
  {
    hide Later;
    hide SessionOk;
    forall id | id in s'.sessions
      ensures SessionOk(s', s'.sessions[id])
    {
      SessionStays(s, s', s.sessions[id]);
    }
  }

  lemma NextSession(s: State, p: Part, n: nat)
    requires DoneBelow(s, p, n) && !p.topic.Dlq?
    ensures SessionOk(s, Session(p, n, Ready))
  {
    hide DoneBelow;
  }

  lemma InvParts(s: State)
    ensures Inv(s) <==> 0 < s.maxAttempts <= MAX_INT64 && SessionsOk(s) && CommitsOk(s) && Notifications.Matched(s.notif)
  {
  }

  lemma CommitMoves(s: State, k: Session)
    requires Inv(s) && SessionOk(s, k) && k.phase.Settled?
    ensures var s1 := s.(committed := s.committed[k.part := k.offset + 1]);
            Inv(s1) && Later(s, s1) && SessionOk(s1, Session(k.part, k.offset + 1, Ready))
  {
    hide *;
    var s1 := s.(committed := s.committed[k.part := k.offset + 1]);
    InvParts(s);
    LaterReflexive(s, s1);
    OneFurther(s, k);
    CommitsMove(s, k.part, k.offset + 1);
    SessionsStay(s, s1);
    DoneBelowStays(s, s1, k.part, k.offset + 1);
    NextSession(s1, k.part, k.offset + 1);
    InvParts(s1);
  }

  lemma CommitKeepsInv(s: State, id: nat, answered: bool)
    requires Inv(s)
    ensures Inv(DoCommit(s, id, answered)) && Later(s, DoCommit(s, id, answered))
  {
    hide *;
    CommitEffect(s, id, answered);
    LaterReflexive(s, s);
    var s' := DoCommit(s, id, answered);
    if s' != s {
      var k := s.sessions[id];
      SessionFacts(s, id);
      var s1 := s.(committed := s.committed[k.part := k.offset + 1]);
      CommitMoves(s, k);
      LaterReflexive(s1, s');
      LaterTransitive(s, s1, s');
      InvMatched(s1);
      var k' := Session(k.part, k.offset + 1, Ready);
      SessionStays(s1, s', k');
      StepKeepsInv(s1, s', id, k');
    }
  }

  lemma ExecKeepsInv(s: State, e: Event)
    requires Inv(s)
    ensures Inv(Exec(s, e)) && Later(s, Exec(s, e))
  {
    hide Inv;
    hide Later;
    hide DoAppend;
    hide DoJoin;
    hide DoHandle;
    hide DoForward;
    hide DoCommit;
    match e
    case Append(p, r) => AppendKeepsInv(s, p, r); AppendLater(s, p, r);
    case Join(id, p) => JoinKeepsInv(s, id, p);
    case Handle(id, fault) => HandleKeepsInv(s, id, fault);
    case Forward(id, index, acked) => ForwardKeepsInv(s, id, index, acked);
    case Commit(id, answered) => CommitKeepsInv(s, id, answered);
    case Leave(id) => LeaveKeepsInv(s, id);
  }

  lemma {:induction false} RunKeepsInv(s: State, events: seq<Event>)
    requires Inv(s)
    ensures Inv(Run(s, events)) && Later(s, Run(s, events))
    decreases |events|
  {
    hide Inv;
    hide Later;
    hide Exec;
    if events == [] {
      LaterReflexive(s, s);
    } else {
      ExecKeepsInv(s, events[0]);
      var s1 := Exec(s, events[0]);
      RunKeepsInv(s1, events[1..]);
      LaterTransitive(s, s1, Run(s1, events[1..]));
    }
  }

  // ---------------------------------------------------------------- what readers may rely on

  ghost predicate Initial(s: State) {
    && 0 < s.maxAttempts <= MAX_INT64 && s.logs == map[] && s.committed == map[] && s.sessions == map[]
    && s.notif == Notifications.Db(map[], map[], 1)
  }

  lemma InitialInv(s: State)
    requires Initial(s)
    ensures Inv(s)
  {
  }

  /** In every run, a record below its partition's committed offset was handled, or has a copy with the same
      key, value and other headers in the retry topic or the DLQ, whichever its attempt number calls for. */
  lemma CommittedIsDone(s: State, events: seq<Event>, p: Part, i: nat)
    requires Initial(s)
    requires i < CommittedOf(Run(s, events), p)
    ensures var s' := Run(s, events);
            && i < |LogOf(s', p)| && var r := LogOf(s', p)[i];
               Handled(s'.notif.ledger, r) || HasCopy(s', r)
  {
    InitialInv(s);
    RunKeepsInv(s, events);
    hide Run;
    hide Later;
    hide HasCopy;
    hide Handled;
    hide SessionsOk;
    hide Notifications.Matched;
    var s' := Run(s, events);
    assert DoneBelow(s', p, CommittedOf(s', p));
    assert DoneAt(s', p, i);
  }

  /** A record with this key and value that nobody has finished with: beyond the committed offset, or in the DLQ. */
  ghost predicate Waits(s: State, key: string, value: Payload) {
    exists p: Part, i: nat :: i < |LogOf(s, p)| && LogOf(s, p)[i].key == key && LogOf(s, p)[i].value == value
                              && (p.topic.Dlq? || CommittedOf(s, p) <= i)
  }

  ghost predicate Tracked(s: State, r: Record) { Handled(s.notif.ledger, r) || Waits(s, r.key, r.value) }

  lemma Witness(s: State, p: Part, i: nat)
    requires i < |LogOf(s, p)| && (p.topic.Dlq? || CommittedOf(s, p) <= i)
    ensures Waits(s, LogOf(s, p)[i].key, LogOf(s, p)[i].value)
  {
    hide LogOf;
    hide CommittedOf;
  }

  lemma DoneAtCommitted(s: State, p: Part, i: nat)
    requires Inv(s) && i < CommittedOf(s, p)
    ensures DoneAt(s, p, i)
  {
    hide DoneAt;
    hide SessionsOk;
    hide Notifications.Matched;
    assert DoneBelow(s, p, CommittedOf(s, p));
  }

  /** No record is lost along a chain of copies: its event is consumed, or a record with its key and value
      still waits or lies in the DLQ. */
  lemma {:induction false} RecordIsTracked(s: State, p: Part, i: nat)
    requires Inv(s) && i < |LogOf(s, p)|
    ensures Tracked(s, LogOf(s, p)[i])
    decreases Hops(LogOf(s, p)[i], s.maxAttempts)
  {
    hide *;
    var r := LogOf(s, p)[i];
    InvBounds(s);
    if p.topic.Dlq? || CommittedOf(s, p) <= i {
      Witness(s, p, i);
      TrackedIf(s, r);
    } else {
      DoneAtCommitted(s, p, i);
      DoneAtIs(s, p, i);
      TrackedIf(s, r);
      if !Handled(s.notif.ledger, r) {
        var q, j := FindCopy(s, r);
        CopyIs(r, s.maxAttempts);
        OneHop(r, s.maxAttempts);
        if q.topic.Dlq? {
          Witness(s, q, j);
        } else {
          RecordIsTracked(s, q, j);
          CopyTracked(s, r);
        }
      }
    }
  }

  lemma InvBounds(s: State)
    requires Inv(s)
    ensures 0 < s.maxAttempts <= MAX_INT64
  {
  }

  lemma TrackedIf(s: State, r: Record)
    ensures Handled(s.notif.ledger, r) || Waits(s, r.key, r.value) ==> Tracked(s, r)
  {
  }

  lemma DoneAtIs(s: State, p: Part, i: nat)
    requires DoneAt(s, p, i)
    ensures i < |LogOf(s, p)| && (Handled(s.notif.ledger, LogOf(s, p)[i]) || HasCopy(s, LogOf(s, p)[i]))
  {
    hide Handled;
    hide HasCopy;
  }

  lemma FindCopy(s: State, r: Record) returns (q: Part, j: nat)
    requires HasCopy(s, r)
    ensures q.topic == Target(r, s.maxAttempts) && j < |LogOf(s, q)| && LogOf(s, q)[j] == Copy(r)
  {
    hide LogOf;
    hide Target;
    hide Copy;
    q, j :| q.topic == Target(r, s.maxAttempts) && j < |LogOf(s, q)| && LogOf(s, q)[j] == Copy(r);
  }

  lemma CopyIs(r: Record, maxAttempts: nat)
    ensures Copy(r).key == r.key && Copy(r).value == r.value && !Target(r, maxAttempts).Main?
  {
  }

  lemma CopyTracked(s: State, r: Record)
    requires Tracked(s, Copy(r))
    ensures Tracked(s, r)
  {
    CopyIs(r, s.maxAttempts);
    hide Copy;
    hide Waits;
  }
}
