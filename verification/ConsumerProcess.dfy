/** One consumer process working through a partition: fetch, handle or forward, commit, in that order. */
module ConsumerProcess {
  import opened Text
  import opened OrderEvents
  import opened Messages
  import Notifications
  import opened Consumers

  /** How a call to the broker ends. */
  datatype Reply = Confirmed | Unanswered | Failing

  function HandlePart(s: State, fault: Fault): (s': State) { DoHandle(s, 0, fault) }

  /** A record that could not be handled is forwarded; without the broker's confirmation the process ends. */
  function ForwardPart(s: State, index: nat, publish: Reply): (s': State) {
    if 0 !in s.sessions || !s.sessions[0].phase.Failed? || !HasRecord(s, s.sessions[0]) then s
    else if publish.Failing? || !Publishable(LogOf(s, s.sessions[0].part)[s.sessions[0].offset]) then s.(sessions := s.sessions - {0})
    else DoForward(s, 0, index, publish.Confirmed?)
  }

  function CommitPart(s: State, commit: Reply): (s': State) {
    if commit.Failing? then s.(sessions := s.sessions - {0}) else DoCommit(s, 0, commit.Confirmed?)
  }

  /** ProcessOne as steps of the consumer machine. */
  function ProcessOneSpec(s: State, fault: Fault, index: nat, publish: Reply, commit: Reply): (s': State) {
    CommitPart(ForwardPart(HandlePart(s, fault), index, publish), commit)
  }

  /** Between them the steps keep what the machine keeps, so a process that fails anywhere loses nothing. */
  lemma ProcessOneKeepsInv(s: State, fault: Fault, index: nat, publish: Reply, commit: Reply)
    requires Inv(s)
    ensures var s' := ProcessOneSpec(s, fault, index, publish, commit); Inv(s') && Later(s, s')
  {
    hide Inv;
    hide Later;
    hide DoHandle;
    hide DoForward;
    hide DoCommit;
    var s1 := HandlePart(s, fault);
    var s2 := ForwardPart(s1, index, publish);
    var s3 := CommitPart(s2, commit);
    HandleKeepsInv(s, 0, fault);
    LeaveKeepsInv(s1, 0);
    ForwardKeepsInv(s1, 0, index, publish.Confirmed?);
    LaterReflexive(s1, s1);
    assert Inv(s2) && Later(s1, s2);
    LeaveKeepsInv(s2, 0);
    CommitKeepsInv(s2, 0, commit.Confirmed?);
    LaterTransitive(s, s1, s2);
    LaterTransitive(s, s2, s3);
  }

  ghost predicate AtWork(s: State, part: Part, offset: nat) {
    s.sessions == map[0 := Session(part, offset, Ready)] && offset < |LogOf(s, part)|
  }

  function HandledNotif(notif: Notifications.Db, r: Record, fault: Fault): (n: Notifications.Db) {
    if Poison(r) || fault.FailsBefore? then notif else Notifications.Consume(notif, Decode(r.value).event).0
  }

  function Appended(logs: map<Part, seq<Record>>, p: Part, r: Record): (l: map<Part, seq<Record>>) {
    logs[p := (if p in logs then logs[p] else []) + [r]]
  }

  lemma HandleIs(s: State, part: Part, offset: nat, r: Record, fault: Fault)
    requires s.sessions == map[0 := Session(part, offset, Ready)] && part in s.logs && offset < |s.logs[part]| && r == s.logs[part][offset]
    ensures HandlePart(s, fault) ==
      s.(notif := HandledNotif(s.notif, r, fault),
         sessions := map[0 := Session(part, offset, if !Poison(r) && fault.NoFault? then Settled else Failed)])
  {
    hide AttemptOf;
    hide Decode;
    hide Notifications.Consume;
  }

  lemma ForwardIs(s: State, part: Part, offset: nat, r: Record, index: nat, publish: Reply)
    requires part in s.logs && offset < |s.logs[part]| && r == s.logs[part][offset]
    requires s.sessions == map[0 := Session(part, offset, Settled)] || s.sessions == map[0 := Session(part, offset, Failed)]
    ensures ForwardPart(s, index, publish) ==
      if s.sessions[0].phase.Settled? then s
      else if publish.Failing? || !Publishable(r) then s.(sessions := map[])
      else s.(logs := Appended(s.logs, Part(Target(r, s.maxAttempts), index), Copy(r)),
              sessions := if publish.Confirmed? then map[0 := Session(part, offset, Settled)] else map[])
  {
    hide Target;
    hide Copy;
    assert s.sessions - {0} == map[];
  }

  lemma CommitIs(s: State, part: Part, offset: nat, commit: Reply)
    ensures s.sessions == map[] ==> CommitPart(s, commit) == s
    ensures s.sessions == map[0 := Session(part, offset, Settled)] ==>
              CommitPart(s, commit) == (
                if commit.Failing? then s.(sessions := map[])
                else s.(committed := s.committed[part := offset + 1],
                        sessions := if commit.Confirmed? then map[0 := Session(part, offset + 1, Ready)] else map[]))
  {
    if s.sessions == map[] || s.sessions == map[0 := Session(part, offset, Settled)] {
      assert s.sessions - {0} == map[];
    }
  }

  predicate Passed(r: Record, fault: Fault, publish: Reply) {
    (!Poison(r) && fault.NoFault?) || (Publishable(r) && publish.Confirmed?)
  }

  /** The offset moves exactly when the record was handled or its copy confirmed, and the commit went out; and
      the process goes on exactly when that commit was confirmed too. */
  lemma CommitComesLast(s: State, part: Part, offset: nat, fault: Fault, index: nat, publish: Reply, commit: Reply)
    requires AtWork(s, part, offset)
    ensures var s' := ProcessOneSpec(s, fault, index, publish, commit); var passed := Passed(LogOf(s, part)[offset], fault, publish);
            && s'.committed == (if passed && !commit.Failing? then s.committed[part := offset + 1] else s.committed)
            && s'.sessions == (if passed && commit.Confirmed? then map[0 := Session(part, offset + 1, Ready)] else map[])
  {
    var r := LogOf(s, part)[offset];
    hide HandlePart;
    hide ForwardPart;
    hide CommitPart;
    hide Poison;
    hide HandledNotif;
    hide Appended;
    hide Target;
    hide Copy;
    HandleIs(s, part, offset, r, fault);
    var s1 := HandlePart(s, fault);
    ForwardIs(s1, part, offset, r, index, publish);
    CommitIs(ForwardPart(s1, index, publish), part, offset, commit);
  }

  lemma CommittedRecordIsDone(s: State, part: Part, offset: nat, fault: Fault, index: nat, publish: Reply, commit: Reply)
    requires Inv(s) && AtWork(s, part, offset) && Passed(LogOf(s, part)[offset], fault, publish) && !commit.Failing?
    ensures DoneAt(ProcessOneSpec(s, fault, index, publish, commit), part, offset)
  {
    hide *;
    ProcessOneKeepsInv(s, fault, index, publish, commit);
    CommitComesLast(s, part, offset, fault, index, publish, commit);
    var s' := ProcessOneSpec(s, fault, index, publish, commit);
    Offset(s', part, offset + 1);
    DoneAtCommitted(s', part, offset);
  }

  lemma Offset(s: State, part: Part, n: nat)
    requires part in s.committed && s.committed[part] == n
    ensures CommittedOf(s, part) == n
  {
  }

  // ---------------------------------------------------------------- the process itself

  lemma SpecIs(s: State, s1: State, fault: Fault, index: nat, publish: Reply, commit: Reply)
    requires s1 == HandlePart(s, fault)
    ensures ProcessOneSpec(s, fault, index, publish, commit) == CommitPart(ForwardPart(s1, index, publish), commit)
  {
  }

  class Consumer {
    var logs: map<Part, seq<Record>>
    var committed: map<Part, nat>
    var notif: Notifications.Db
    var offset: nat
    var running: bool
    const part: Part
    const maxAttempts: nat

    ghost function View(): (s: State)
      reads this
    {
      State(logs, committed, if running then map[0 := Session(part, offset, Ready)] else map[], notif, maxAttempts)
    }

    constructor (logs: map<Part, seq<Record>>, committed: map<Part, nat>, notif: Notifications.Db, part: Part, maxAttempts: nat)
      ensures running && offset == (if part in committed then committed[part] else 0)
      ensures View() == State(logs, committed, map[0 := Session(part, offset, Ready)], notif, maxAttempts)
    {
      this.logs, this.committed, this.notif, this.part, this.maxAttempts := logs, committed, notif, part, maxAttempts;
      offset := if part in committed then committed[part] else 0;
      running := true;
    }

    /** The handler runs unless the attempt header already condemns the record. */
    method HandleRecord(r: Record, fault: Fault) returns (handled: bool)
      modifies this`notif
      ensures notif == HandledNotif(old(notif), r, fault)
      ensures handled <==> !Poison(r) && fault.NoFault?
    {
      hide AttemptOf;
      hide Notifications.Consume;
      if Poison(r) {
        return false;
      }
      if !fault.FailsBefore? {
        notif := Notifications.Consume(notif, Decode(r.value).event).0;
      }
      return fault.NoFault?;
    }

    method Publish(target: Part, r: Record)
      modifies this`logs
      ensures logs == Appended(old(logs), target, r)
    {
      logs := logs[target := (if target in logs then logs[target] else []) + [r]];
    }

    /** Forward and have it confirmed; otherwise the process ends. */
    method ForwardRecord(r: Record, index: nat, publish: Reply) returns (confirmed: bool)
      modifies this`logs, this`running
      ensures confirmed <==> !publish.Failing? && Publishable(r) && publish.Confirmed?
      ensures running == (old(running) && confirmed)
      ensures logs == if publish.Failing? || !Publishable(r) then old(logs) else Appended(old(logs), Part(Target(r, maxAttempts), index), Copy(r))
    {
      if publish.Failing? || !Publishable(r) {
        running := false;
        return false;
      }
      Publish(Part(Target(r, maxAttempts), index), Copy(r));
      if publish.Unanswered? {
        running := false;
        return false;
      }
      return true;
    }

    /** The offset goes out last; without a confirmation the process ends. */
    method CommitOffset(commit: Reply) returns (confirmed: bool)
      modifies this`committed, this`running, this`offset
      ensures confirmed <==> commit.Confirmed?
      ensures running == (old(running) && confirmed) && offset == old(offset) + if confirmed then 1 else 0
      ensures committed == if commit.Failing? then old(committed) else old(committed)[part := old(offset) + 1]
    {
      if !commit.Failing? {
        committed := committed[part := offset + 1];
      }
      if !commit.Confirmed? {
        running := false;
        return false;
      }
      offset := offset + 1;
      return true;
    }

    /** The strict order of ProcessOne: handle, then forward and have it confirmed, then commit. */
    method ProcessOne(fault: Fault, index: nat, publish: Reply, commit: Reply) returns (ok: bool)
      requires running && part in logs && offset < |logs[part]|
      modifies this
      ensures View() == ProcessOneSpec(old(View()), fault, index, publish, commit)
      ensures ok == running
    {
      hide HandlePart;
      hide ForwardPart;
      hide CommitPart;
      hide ProcessOneSpec;
      hide HandledNotif;
      hide Appended;
      hide Poison;
      hide Publishable;
      hide Target;
      hide Copy;
      ghost var s0 := View();
      var r := logs[part][offset];
      var handled := HandleRecord(r, fault);
      HandleIs(s0, part, offset, r, fault);
      ghost var s1 := HandlePart(s0, fault);
      ForwardIs(s1, part, offset, r, index, publish);
      SpecIs(s0, s1, fault, index, publish, commit);
      CommitIs(ForwardPart(s1, index, publish), part, offset, commit);
      if !handled {
        ok := ForwardRecord(r, index, publish);
        if !ok {
          return;
        }
      }
      ok := CommitOffset(commit);
    }
  }
}
