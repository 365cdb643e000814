/** When a consumer group can get past a record: always, except past one that can neither be handled nor be forwarded. */
module ConsumerProgress {
  import opened Text
  import opened OrderEvents
  import opened Messages
  import Notifications
  import opened Consumers

  /** No attempt can handle such a record, and the client refuses to send a copy of it. */
  ghost predicate Stuck(r: Record) { Poison(r) && (r.key == "" || r.value == Junk("")) }

  ghost predicate StuckAt(s: State, p: Part, i: nat) { i < |LogOf(s, p)| && Stuck(LogOf(s, p)[i]) }

  ghost predicate NotPast(k: Session, i: nat) { k.offset <= i && (k.offset == i ==> !k.phase.Settled?) }

  /** Neither the committed offset nor any session is past position i. */
  ghost predicate Behind(s: State, p: Part, i: nat) {
    CommittedOf(s, p) <= i && forall id :: id in s.sessions && s.sessions[id].part == p ==> NotPast(s.sessions[id], i)
  }

  ghost predicate AllBehind(s: State) { forall p: Part, i: nat :: StuckAt(s, p, i) ==> Behind(s, p, i) }

  // ---------------------------------------------------------------- nothing gets past a stuck record

  /** A record that is new at its place finds everybody behind it. */
  lemma EndIsAhead(s: State, p: Part)
    requires Inv(s)
    ensures Behind(s, p, |LogOf(s, p)|)
  {
    var n := |LogOf(s, p)|;
    if CommittedOf(s, p) > n {
      DoneAtCommitted(s, p, n);
    }
    forall id | id in s.sessions && s.sessions[id].part == p
      ensures NotPast(s.sessions[id], n)
    {
      SessionFacts(s, id);
      hide Inv;
      hide Done;
      assert !DoneAt(s, p, n);
    }
  }

  /** Sessions that change keep behind if they were. */
  lemma StaysBehind(s: State, s': State, p: Part, i: nat, id: nat)
    requires Behind(s, p, i) && s'.committed == s.committed
    requires s'.sessions.Keys <= s.sessions.Keys && forall x :: x in s'.sessions && x != id ==> s'.sessions[x] == s.sessions[x]
    requires id in s'.sessions ==> s'.sessions[id].part == s.sessions[id].part && (s'.sessions[id].part == p ==> NotPast(s'.sessions[id], i))
    ensures Behind(s', p, i)
  {
  }

  lemma AppendKeepsBehind(s: State, q: Part, r: Record)
    requires Inv(s) && AllBehind(s)
    ensures AllBehind(DoAppend(s, q, r))
  {
    var s' := DoAppend(s, q, r);
    forall p: Part, i: nat | StuckAt(s', p, i)
      ensures Behind(s', p, i)
    {
      if i == |LogOf(s, p)| {
        EndIsAhead(s, p);
      } else {
        assert StuckAt(s, p, i) by { hide Stuck; }
      }
      hide StuckAt;
    }
  }

  lemma JoinKeepsBehind(s: State, id: nat, q: Part)
    requires AllBehind(s)
    ensures AllBehind(DoJoin(s, id, q))
  {
    var s' := DoJoin(s, id, q);
    hide Stuck;
    forall p: Part, i: nat | StuckAt(s', p, i)
      ensures Behind(s', p, i)
    {
      assert StuckAt(s, p, i);
      hide StuckAt;
    }
  }

  lemma HandlePhase(s: State, id: nat, fault: Fault)
    ensures var s' := DoHandle(s, id, fault);
            && s'.logs == s.logs && s'.committed == s.committed && s'.sessions.Keys == s.sessions.Keys
            && (forall x :: x in s'.sessions && x != id ==> s'.sessions[x] == s.sessions[x])
            && (id in s.sessions ==>
                  var k, k' := s.sessions[id], s'.sessions[id];
                  && k'.part == k.part && k'.offset == k.offset
                  && (k'.phase.Settled? ==> k.phase.Settled? || (HasRecord(s, k) && !Poison(LogOf(s, k.part)[k.offset]))))
  {
    hide Poison;
    hide Notifications.Consume;
  }

  lemma HandleKeepsBehind(s: State, id: nat, fault: Fault)
    requires AllBehind(s)
    ensures AllBehind(DoHandle(s, id, fault))
  {
    HandlePhase(s, id, fault);
    var s' := DoHandle(s, id, fault);
    hide DoHandle;
    hide Poison;
    forall p: Part, i: nat | StuckAt(s', p, i)
      ensures Behind(s', p, i)
    {
      assert StuckAt(s, p, i);
      StaysBehind(s, s', p, i, id);
    }
  }

  lemma ForwardPhase(s: State, id: nat, index: nat, acked: bool)
    ensures var s' := DoForward(s, id, index, acked);
            || s' == s
            || (&& id in s.sessions && HasRecord(s, s.sessions[id])
                && var k := s.sessions[id]; var r := LogOf(s, k.part)[k.offset];
                   && Publishable(r)
                   && s' == DoAppend(s, Part(Target(r, s.maxAttempts), index), Copy(r))
                              .(sessions := if acked then s.sessions[id := k.(phase := Settled)] else s.sessions - {id}))
  {
    hide Target;
    hide Copy;
  }

  lemma ForwardKeepsBehind(s: State, id: nat, index: nat, acked: bool)
    requires Inv(s) && AllBehind(s)
    ensures AllBehind(DoForward(s, id, index, acked))
  {
    ForwardPhase(s, id, index, acked);
    var s' := DoForward(s, id, index, acked);
    hide DoForward;
    hide Target;
    hide Copy;
    hide Poison;
    if s' != s {
      var k := s.sessions[id];
      var r := LogOf(s, k.part)[k.offset];
      var q := Part(Target(r, s.maxAttempts), index);
      var s1 := DoAppend(s, q, Copy(r));
      AppendKeepsBehind(s, q, Copy(r));
      hide Inv;
      assert LogOf(s1, k.part)[k.offset] == r;
      forall p: Part, i: nat | StuckAt(s', p, i)
        ensures Behind(s', p, i)
      {
        assert StuckAt(s1, p, i);
        StaysBehind(s1, s', p, i, id);
      }
    }
  }

  lemma CommitKeepsBehind(s: State, id: nat, answered: bool)
    requires AllBehind(s)
    ensures AllBehind(DoCommit(s, id, answered))
  {
    var s' := DoCommit(s, id, answered);
    hide Stuck;
    forall p: Part, i: nat | StuckAt(s', p, i)
      ensures Behind(s', p, i)
    {
      assert StuckAt(s, p, i);
      hide StuckAt;
      if s' != s {
        assert s.sessions[id].part == p ==> NotPast(s.sessions[id], i);
      }
    }
  }

  lemma LeaveKeepsBehind(s: State, id: nat)
    requires AllBehind(s)
    ensures AllBehind(s.(sessions := s.sessions - {id}))
  {
    var s' := s.(sessions := s.sessions - {id});
    hide Stuck;
    forall p: Part, i: nat | StuckAt(s', p, i)
      ensures Behind(s', p, i)
    {
      assert StuckAt(s, p, i);
    }
  }

  lemma ExecKeepsBehind(s: State, e: Event)
    requires Inv(s) && AllBehind(s)
    ensures AllBehind(Exec(s, e))
  {
    hide Inv;
    hide AllBehind;
    hide DoAppend;
    hide DoJoin;
    hide DoHandle;
    hide DoForward;
    hide DoCommit;
    match e
    case Append(p, r) => AppendKeepsBehind(s, p, r);
    case Join(id, p) => JoinKeepsBehind(s, id, p);
    case Handle(id, fault) => HandleKeepsBehind(s, id, fault);
    case Forward(id, index, acked) => ForwardKeepsBehind(s, id, index, acked);
    case Commit(id, answered) => CommitKeepsBehind(s, id, answered);
    case Leave(id) => LeaveKeepsBehind(s, id);
  }

  lemma {:induction false} RunKeepsBehind(s: State, events: seq<Event>)
    requires Inv(s) && AllBehind(s)
    ensures Inv(Run(s, events)) && AllBehind(Run(s, events))
    decreases |events|
  {
    hide Inv;
    hide AllBehind;
    hide Exec;
    hide Later;
    if events != [] {
      ExecKeepsInv(s, events[0]);
      ExecKeepsBehind(s, events[0]);
      RunKeepsBehind(Exec(s, events[0]), events[1..]);
    }
  }

  /** In every state of every run the committed offset of a partition has not passed a stuck record. */
  lemma StuckIsNeverPassed(start: State, events: seq<Event>, p: Part, i: nat)
    requires Initial(start) && StuckAt(Run(start, events), p, i)
    ensures CommittedOf(Run(start, events), p) <= i
  {
    InitialInv(start);
    assert AllBehind(start);
    hide Initial;
    RunKeepsBehind(start, events);
    hide Run;
    hide Inv;
    hide StuckAt;
    assert Behind(Run(start, events), p, i);
  }

  // ---------------------------------------------------------------- everything else can be passed

  lemma RunThree(s: State, a: Event, b: Event, c: Event)
    ensures Run(s, [a, b, c]) == Exec(Exec(Exec(s, a), b), c)
  {
    hide Exec;
    var es := [a, b, c];
    assert es[1..] == [b, c] && [b, c][1..] == [c] && [c][1..] == [];
    assert Run(Exec(Exec(s, a), b), [c]) == Run(Exec(Exec(Exec(s, a), b), c), []);
    assert Run(Exec(s, a), [b, c]) == Run(Exec(Exec(s, a), b), [c]);
  }

  lemma RunFour(s: State, a: Event, b: Event, c: Event, d: Event)
    ensures Run(s, [a, b, c, d]) == Exec(Exec(Exec(Exec(s, a), b), c), d)
  {
    hide Exec;
    assert [a, b, c, d][1..] == [b, c, d];
    RunThree(Exec(s, a), b, c, d);
  }

  lemma HandledPasses(s: State, id: nat, p: Part)
    requires id !in s.sessions && !p.topic.Dlq? && CommittedOf(s, p) < |LogOf(s, p)| && !Poison(LogOf(s, p)[CommittedOf(s, p)])
    ensures CommittedOf(Exec(Exec(Exec(s, Join(id, p)), Handle(id, NoFault)), Commit(id, true)), p) == CommittedOf(s, p) + 1
  {
    hide Poison;
    hide Notifications.Consume;
    var s1 := Exec(s, Join(id, p));
    assert s1.sessions[id] == Session(p, CommittedOf(s, p), Ready) && LogOf(s1, p) == LogOf(s, p);
    var s2 := Exec(s1, Handle(id, NoFault));
    assert s2.sessions[id] == Session(p, CommittedOf(s, p), Settled);
  }

  lemma ForwardedPasses(s: State, id: nat, p: Part, index: nat)
    requires id !in s.sessions && !p.topic.Dlq? && CommittedOf(s, p) < |LogOf(s, p)|
    requires var r := LogOf(s, p)[CommittedOf(s, p)]; Poison(r) && r.key != "" && r.value != Junk("")
    ensures var s' := Exec(Exec(Exec(Exec(s, Join(id, p)), Handle(id, NoFault)), Forward(id, index, true)), Commit(id, true));
            var r := LogOf(s, p)[CommittedOf(s, p)]; var dlq := LogOf(s', Part(Dlq, index));
            CommittedOf(s', p) == CommittedOf(s, p) + 1 && dlq == LogOf(s, Part(Dlq, index)) + [Copy(r)]
  {
    var r := LogOf(s, p)[CommittedOf(s, p)];
    assert Target(r, s.maxAttempts) == Dlq;
    hide Poison;
    hide Target;
    hide Copy;
    hide Notifications.Consume;
    var s1 := Exec(s, Join(id, p));
    assert s1.sessions[id] == Session(p, CommittedOf(s, p), Ready) && LogOf(s1, p) == LogOf(s, p);
    var s2 := Exec(s1, Handle(id, NoFault));
    assert s2 == s1.(sessions := s1.sessions[id := Session(p, CommittedOf(s, p), Failed)]);
    var s3 := Exec(s2, Forward(id, index, true));
    assert s3.sessions[id] == Session(p, CommittedOf(s, p), Settled) && s3.committed == s.committed;
  }

  lemma {:induction false} FreshId(used: set<nat>) returns (n: nat)
    ensures forall x :: x in used ==> x < n
  {
    if used == {} {
      n := 0;
    } else {
      var x :| x in used;
      var m := FreshId(used - {x});
      n := if m <= x then x + 1 else m;
      assert forall y :: y in used ==> y == x || y in used - {x};
    }
  }

  lemma Passes(s: State, p: Part) returns (events: seq<Event>)
    requires !p.topic.Dlq? && CommittedOf(s, p) < |LogOf(s, p)| && !Stuck(LogOf(s, p)[CommittedOf(s, p)])
    ensures CommittedOf(Run(s, events), p) == CommittedOf(s, p) + 1
  {
    var id := FreshId(s.sessions.Keys);
    var r := LogOf(s, p)[CommittedOf(s, p)];
    hide Exec;
    hide Run;
    if Poison(r) {
      ForwardedPasses(s, id, p, 0);
      events := [Join(id, p), Handle(id, NoFault), Forward(id, 0, true), Commit(id, true)];
      RunFour(s, Join(id, p), Handle(id, NoFault), Forward(id, 0, true), Commit(id, true));
    } else {
      HandledPasses(s, id, p);
      events := [Join(id, p), Handle(id, NoFault), Commit(id, true)];
      RunThree(s, Join(id, p), Handle(id, NoFault), Commit(id, true));
    }
  }

  lemma {:induction false} RunInTwo(s: State, a: seq<Event>, b: seq<Event>)
    ensures Run(s, a + b) == Run(Run(s, a), b)
    decreases |a|
  {
    hide Exec;
    if a == [] {
      assert a + b == b;
    } else {
      assert (a + b)[1..] == a[1..] + b;
      RunInTwo(Exec(s, a[0]), a[1..], b);
    }
  }

  /** From every state of every run: a partition with a record to consume can get past it exactly when that record is
      not poison or has both key and value. A poison record without one of them holds its partition up for good,
      since it may not be committed before its copy is confirmed and no copy can be sent. */
  lemma PartitionMovesExactly(start: State, before: seq<Event>, s: State, p: Part)
    requires Initial(start) && s == Run(start, before) && !p.topic.Dlq? && CommittedOf(s, p) < |LogOf(s, p)|
    ensures (exists events :: CommittedOf(Run(s, events), p) > CommittedOf(s, p))
       <==> (var r := LogOf(s, p)[CommittedOf(s, p)]; !Poison(r) || (r.key != "" && r.value != Junk("")))
  {
    var i := CommittedOf(s, p);
    var r := LogOf(s, p)[i];
    if !Stuck(r) {
      var events := Passes(s, p);
      assert CommittedOf(Run(s, events), p) > i;
    } else {
      forall events: seq<Event>
        ensures CommittedOf(Run(s, events), p) <= i
      {
        InitialInv(start);
        RunKeepsInv(start, before);
        RunKeepsInv(s, events);
        LogLater(s, Run(s, events), p, i);
        RunInTwo(start, before, events);
        hide Run;
        hide Later;
        hide Inv;
        hide Initial;
        StuckIsNeverPassed(start, before + events, p, i);
      }
    }
  }
}
