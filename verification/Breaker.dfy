/** The circuit breaker and retry loop around remote calls. Every decision of the breaker is a function of its
    history: what was admitted, refused and recorded so far. */
module Breaker {
  import opened Text

  // ---------------------------------------------------------------- failure classes

  datatype Code = Ok | Canceled | InvalidArgument | DeadlineExceeded | NotFound | AlreadyExists | PermissionDenied
                | ResourceExhausted | FailedPrecondition | Unavailable | Unauthenticated | Internal | Other

  /** An error chain may hold a cancelled context whatever its code says. */
  datatype CallError = CallError(code: Code, contextCanceled: bool)

  datatype Class = Success | Business | Cancellation | DependencyTimeout | DependencyUnavailable | InternalFailure

  function Classify(e: Option<CallError>): (c: Class) {
    if e.None? then Success
    else if e.value.contextCanceled || e.value.code.Canceled? then Cancellation
    else
      match e.value.code
      case InvalidArgument => Business
      case NotFound => Business
      case AlreadyExists => Business
      case FailedPrecondition => Business
      case Unauthenticated => Business
      case PermissionDenied => Business
      case ResourceExhausted => Business
      case DeadlineExceeded => DependencyTimeout
      case Unavailable => DependencyUnavailable
      case _ => InternalFailure
  }

  predicate DependencyFailure(c: Class) { c.DependencyTimeout? || c.DependencyUnavailable? }

  /** The dependency answered, with a result or with a refusal. */
  predicate Answered(c: Class) { c.Success? || c.Business? }

  /** An error that says the dependency did not answer: a timeout or an unavailable service, not cancelled by us. */
  predicate NoAnswer(e: Option<CallError>) {
    e.Some? && !e.value.contextCanceled && (e.value.code.DeadlineExceeded? || e.value.code.Unavailable?)
  }

  /** The classes by codes: exactly timeouts and unavailability count against the dependency; exactly success and the
      seven business refusals count for it; cancellations and all else count neither way. */
  lemma ClassifyExactly(e: Option<CallError>)
    ensures DependencyFailure(Classify(e)) <==> NoAnswer(e)
    ensures Answered(Classify(e)) <==>
              e.None? || (!e.value.contextCanceled && e.value.code in
                {InvalidArgument, NotFound, AlreadyExists, FailedPrecondition, Unauthenticated, PermissionDenied, ResourceExhausted})
    ensures Classify(e).Cancellation? <==> e.Some? && (e.value.contextCanceled || e.value.code.Canceled?)
    ensures Classify(e).DependencyTimeout? <==> e.Some? && !e.value.contextCanceled && e.value.code.DeadlineExceeded?
  {
  }

  // ---------------------------------------------------------------- histories

  datatype Entry = Admitted(at: int) | Refused(at: int) | Recorded(kind: Class, at: int)

  predicate Fails(e: Entry) { e.Recorded? && DependencyFailure(e.kind) }

  predicate Closes(e: Entry) { e.Recorded? && Answered(e.kind) }

  /** Dependency failures since the last answer. */
  function Failures(h: seq<Entry>): (n: nat) {
    if h == [] then 0
    else
      var last := h[|h| - 1];
      if Closes(last) then 0 else Failures(h[..|h| - 1]) + if Fails(last) then 1 else 0
  }

  /** The time of the latest dependency failure. */
  function LastFailure(h: seq<Entry>): (t: int) {
    if h == [] then 0 else if Fails(h[|h| - 1]) then h[|h| - 1].at else LastFailure(h[..|h| - 1])
  }

  predicate IsOpen(h: seq<Entry>, threshold: nat) { Failures(h) >= threshold }

  /** A probe was admitted while open and neither an answer nor a dependency failure has been recorded since. */
  function ProbeOut(h: seq<Entry>, threshold: nat): (b: bool) {
    if h == [] then false
    else
      var n := |h| - 1;
      if Fails(h[n]) || Closes(h[n]) then false
      else ProbeOut(h[..n], threshold) || (h[n].Admitted? && IsOpen(h[..n], threshold))
  }

  /** The admission rule. */
  predicate Admits(h: seq<Entry>, now: int, threshold: nat, openPeriod: int) {
    !IsOpen(h, threshold) || (now - LastFailure(h) >= openPeriod && !ProbeOut(h, threshold))
  }

  ghost predicate LawfulAt(h: seq<Entry>, i: nat, threshold: nat, openPeriod: int)
    requires i < |h|
  {
    !h[i].Recorded? ==> (h[i].Admitted? <==> Admits(h[..i], h[i].at, threshold, openPeriod))
  }

  /** Every decision in the history was the rule's. */
  ghost predicate Lawful(h: seq<Entry>, threshold: nat, openPeriod: int) {
    forall i: nat :: i < |h| ==> LawfulAt(h, i, threshold, openPeriod)
  }

  lemma LawfulGrows(h: seq<Entry>, e: Entry, threshold: nat, openPeriod: int)
    requires Lawful(h, threshold, openPeriod)
    requires !e.Recorded? ==> (e.Admitted? <==> Admits(h, e.at, threshold, openPeriod))
    ensures Lawful(h + [e], threshold, openPeriod)
  {
    hide Admits;
    var h' := h + [e];
    forall i: nat | i < |h'|
      ensures LawfulAt(h', i, threshold, openPeriod)
    {
      if i < |h| {
        assert LawfulAt(h, i, threshold, openPeriod);
        assert h'[..i] == h[..i];
      } else {
        assert h'[..i] == h;
      }
    }
  }

  lemma Grown(h: seq<Entry>, e: Entry, threshold: nat)
    ensures var h' := h + [e];
            && Failures(h') == (if Closes(e) then 0 else Failures(h) + if Fails(e) then 1 else 0)
            && LastFailure(h') == (if Fails(e) then e.at else LastFailure(h))
            && ProbeOut(h', threshold) == (!Fails(e) && !Closes(e) && (ProbeOut(h, threshold) || (e.Admitted? && IsOpen(h, threshold))))
  {
    assert (h + [e])[..|h|] == h;
  }

  // ---------------------------------------------------------------- the breaker

  class CircuitBreaker {
    var consecutiveFailures: nat
    var openedAt: Option<int>
    var halfOpenInFlight: bool
    ghost var history: seq<Entry>
    const threshold: nat
    const openPeriod: int

    /** The three fields are exactly what the history says. */
    ghost predicate Valid()
      reads this
    {
      && threshold > 0 && Lawful(history, threshold, openPeriod)
      && consecutiveFailures == Failures(history)
      && openedAt == (if IsOpen(history, threshold) then Some(LastFailure(history)) else None)
      && halfOpenInFlight == ProbeOut(history, threshold)
    }

    constructor (threshold: nat, openPeriod: int)
      requires threshold > 0
      ensures Valid() && history == [] && this.threshold == threshold && this.openPeriod == openPeriod
    {
      this.threshold, this.openPeriod := threshold, openPeriod;
      consecutiveFailures, openedAt, halfOpenInFlight, history := 0, None, false, [];
    }

    method Allow(now: int) returns (granted: bool)
      requires Valid()
      modifies this
      ensures Valid()
      ensures granted <==> Admits(old(history), now, threshold, openPeriod)
      ensures history == old(history) + [if granted then Admitted(now) else Refused(now)]
    {
      hide Lawful;
      hide ProbeOut;
      hide Failures;
      hide LastFailure;
      Grown(history, Admitted(now), threshold);
      Grown(history, Refused(now), threshold);
      granted := openedAt.None? || (now - openedAt.value >= openPeriod && !halfOpenInFlight);
      LawfulGrows(history, if granted then Admitted(now) else Refused(now), threshold, openPeriod);
      if openedAt.Some? && granted {
        halfOpenInFlight := true;
      }
      history := history + [if granted then Admitted(now) else Refused(now)];
    }

    method Record(kind: Class, now: int)
      requires Valid()
      modifies this
      ensures Valid()
      ensures history == old(history) + [Recorded(kind, now)]
    {
      hide Lawful;
      hide ProbeOut;
      hide Failures;
      hide LastFailure;
      Grown(history, Recorded(kind, now), threshold);
      LawfulGrows(history, Recorded(kind, now), threshold, openPeriod);
      history := history + [Recorded(kind, now)];
      if DependencyFailure(kind) {
        halfOpenInFlight := false;
        consecutiveFailures := consecutiveFailures + 1;
        if consecutiveFailures >= threshold {
          openedAt := Some(now);
        }
        return;
      }
      if Answered(kind) {
        consecutiveFailures := 0;
        openedAt := None;
        halfOpenInFlight := false;
      }
    }
  }

  // ---------------------------------------------------------------- what a history shows

  ghost predicate NoClose(h: seq<Entry>, from: nat, to: nat)
    requires from <= to <= |h|
  {
    forall k :: from <= k < to ==> !Closes(h[k])
  }

  /** The set of dependency failures in a stretch of the history. */
  ghost function FailuresIn(h: seq<Entry>, from: nat, to: nat): (r: set<int>)
    requires from <= to <= |h|
  {
    set k | from <= k < to && Fails(h[k])
  }

  lemma FailuresInLast(h: seq<Entry>, from: nat, to: nat)
    requires from < to <= |h|
    ensures |FailuresIn(h, from, to)| == |FailuresIn(h, from, to - 1)| + if Fails(h[to - 1]) then 1 else 0
  {
    var before := FailuresIn(h, from, to - 1);
    assert FailuresIn(h, from, to) == before + if Fails(h[to - 1]) then {to - 1} else {};
  }

  /** The counter is the number of dependency failures after the last answer, wherever that was. */
  lemma {:induction false} FailuresCounted(h: seq<Entry>, from: nat)
    requires from <= |h| && NoClose(h, from, |h|) && (from == 0 || Closes(h[from - 1]))
    ensures Failures(h) == |FailuresIn(h, from, |h|)|
  {
    if from == |h| {
      assert FailuresIn(h, from, |h|) == {};
    } else {
      var n := |h| - 1;
      FailuresCounted(h[..n], from);
      assert FailuresIn(h[..n], from, n) == FailuresIn(h, from, n);
      FailuresInLast(h, from, |h|);
    }
  }

  /** While open, the time remembered is that of the latest dependency failure. */
  lemma {:induction false} LastFailureIs(h: seq<Entry>, k: nat)
    requires k < |h| && Fails(h[k]) && forall j :: k < j < |h| ==> !Fails(h[j])
    ensures LastFailure(h) == h[k].at
  {
    if k < |h| - 1 {
      assert h[..|h| - 1][k] == h[k];
      LastFailureIs(h[..|h| - 1], k);
    }
  }

  /** An admission while open comes at least the open period after the latest dependency failure. */
  lemma OpenAdmissionWaits(h: seq<Entry>, threshold: nat, openPeriod: int, i: nat, k: nat)
    requires Lawful(h, threshold, openPeriod) && k < i < |h| && h[i].Admitted? && IsOpen(h[..i], threshold)
    requires Fails(h[k]) && forall j :: k < j < i ==> !Fails(h[j])
    ensures h[i].at - h[k].at >= openPeriod
  {
    assert LawfulAt(h, i, threshold, openPeriod);
    LastFailureIs(h[..i], k);
  }

  lemma {:induction false} ProbeStays(h: seq<Entry>, threshold: nat, i: nat, j: nat)
    requires i < j <= |h| && h[i].Admitted? && IsOpen(h[..i], threshold)
    requires forall k :: i < k < j ==> !Fails(h[k]) && !Closes(h[k])
    ensures ProbeOut(h[..j], threshold)
    decreases j
  {
    assert h[..j][..j - 1] == h[..j - 1];
    if i + 1 < j {
      ProbeStays(h, threshold, i, j - 1);
    }
  }

  /** Two admissions of one open phase have a dependency failure recorded between them: one probe at a time. */
  lemma OneProbeAtATime(h: seq<Entry>, threshold: nat, openPeriod: int, i: nat, j: nat)
    requires Lawful(h, threshold, openPeriod) && i < j < |h| && h[i].Admitted? && h[j].Admitted?
    requires IsOpen(h[..i], threshold) && IsOpen(h[..j], threshold) && NoClose(h, i, j)
    ensures exists k :: i < k < j && Fails(h[k])
  {
    assert LawfulAt(h, j, threshold, openPeriod);
    if forall k :: i < k < j ==> !Fails(h[k]) {
      ProbeStays(h, threshold, i, j);
    }
  }

  lemma {:induction false} StaysOpen(h: seq<Entry>, threshold: nat, i: nat, j: nat)
    requires i <= j <= |h| && IsOpen(h[..i], threshold) && NoClose(h, i, j)
    ensures IsOpen(h[..j], threshold)
    decreases j
  {
    if i < j {
      StaysOpen(h, threshold, i, j - 1);
      assert h[..j][..j - 1] == h[..j - 1];
    }
  }

  /** A probe that ends in cancellation or an internal failure is never reported back: as long as nothing else
      is recorded, no call is admitted again, at any time. */
  lemma LostProbeBlocks(h: seq<Entry>, threshold: nat, openPeriod: int, i: nat, j: nat)
    requires Lawful(h, threshold, openPeriod) && i < j < |h| && h[i].Admitted? && IsOpen(h[..i], threshold)
    requires forall k :: i < k < j ==> !Fails(h[k]) && !Closes(h[k])
    ensures !h[j].Admitted?
  {
    assert LawfulAt(h, j, threshold, openPeriod);
    ProbeStays(h, threshold, i, j);
    StaysOpen(h, threshold, i, j);
  }

  /** An answer or a dependency failure recorded after the probe. */
  ghost predicate Reported(h: seq<Entry>, i: nat, j: nat)
    requires i < j <= |h|
  {
    exists k :: i < k < j && (Fails(h[k]) || Closes(h[k]))
  }

  /** No further probe goes out in between. */
  ghost predicate LastProbe(h: seq<Entry>, threshold: nat, i: nat, j: nat)
    requires i < j <= |h|
  {
    && h[i].Admitted? && IsOpen(h[..i], threshold)
    && forall k: nat :: i < k < j && h[k].Admitted? ==> !IsOpen(h[..k], threshold)
  }

  lemma {:induction false} ReportClears(h: seq<Entry>, threshold: nat, k: nat, j: nat)
    requires k < j <= |h| && (Fails(h[k]) || Closes(h[k]))
    requires forall m: nat :: k < m < j && h[m].Admitted? ==> !IsOpen(h[..m], threshold)
    ensures !ProbeOut(h[..j], threshold)
    decreases j
  {
    assert h[..j][..j - 1] == h[..j - 1];
    hide IsOpen;
    if k + 1 < j {
      ReportClears(h, threshold, k, j - 1);
    }
  }

  /** What a probe leads to, exactly: the next decision after the last probe admits the call if and only if an answer
      or a dependency failure was recorded since and, if the breaker is still open, the open period has passed
      since the latest dependency failure. */
  lemma ProbeDecides(h: seq<Entry>, threshold: nat, openPeriod: int, i: nat, j: nat)
    requires Lawful(h, threshold, openPeriod) && i < j < |h| && LastProbe(h, threshold, i, j) && !h[j].Recorded?
    ensures h[j].Admitted? <==> Reported(h, i, j) && (IsOpen(h[..j], threshold) ==> h[j].at - LastFailure(h[..j]) >= openPeriod)
  {
    assert LawfulAt(h, j, threshold, openPeriod);
    hide Lawful;
    hide LastFailure;
    if Reported(h, i, j) {
      var k :| i < k < j && (Fails(h[k]) || Closes(h[k]));
      hide IsOpen;
      ReportClears(h, threshold, k, j);
    } else {
      ProbeStays(h, threshold, i, j);
      StaysOpen(h, threshold, i, j);
    }
  }

  /** The blocking at an input: threshold one, open period ten. A call times out at time 1, the probe of time 11 is
      cancelled at time 12, and from then on no time whatever admits a call. */
  const CANCELLED_PROBE: seq<Entry> := [Admitted(0), Recorded(DependencyTimeout, 1), Admitted(11), Recorded(Cancellation, 12)]

  lemma CancelledProbeBlocks(now: int)
    ensures Lawful(CANCELLED_PROBE, 1, 10) && !Admits(CANCELLED_PROBE, now, 1, 10)
  {
    var h := CANCELLED_PROBE;
    assert h[..0] == [] && h[..1] == [Admitted(0)] && h[..2] == [Admitted(0)] + [Recorded(DependencyTimeout, 1)];
    assert h[..3] == h[..2] + [Admitted(11)] && h == h[..3] + [Recorded(Cancellation, 12)];
    Grown([], Admitted(0), 1);
    Grown(h[..1], Recorded(DependencyTimeout, 1), 1);
    Grown(h[..2], Admitted(11), 1);
    Grown(h[..3], Recorded(Cancellation, 12), 1);
    assert [] + [Admitted(0)] == h[..1] && h[..1] + [Recorded(DependencyTimeout, 1)] == h[..2];
    LawfulGrows([], Admitted(0), 1, 10);
    LawfulGrows(h[..1], Recorded(DependencyTimeout, 1), 1, 10);
    LawfulGrows(h[..2], Admitted(11), 1, 10);
    LawfulGrows(h[..3], Recorded(Cancellation, 12), 1, 10);
  }

  /** Once an answer or a dependency failure is recorded, the next call after the open period is admitted:
      progress needs exactly such a record. */
  lemma ReportedProbeFrees(h: seq<Entry>, threshold: nat, openPeriod: int, now: int)
    requires h != [] && (Closes(h[|h| - 1]) || (Fails(h[|h| - 1]) && now - h[|h| - 1].at >= openPeriod)) && threshold > 0
    ensures Admits(h, now, threshold, openPeriod)
  {
  }

  // ---------------------------------------------------------------- the retry loop

  datatype Result = Returned(error: Option<CallError>) | CircuitOpen | ContextDone

  /** What the breaker sees of the first n attempts: each admitted, then its outcome recorded. */
  function Exchanges(call: nat -> Option<CallError>, clock: nat -> int, n: nat): (h: seq<Entry>) {
    if n == 0 then []
    else Exchanges(call, clock, n - 1) + [Admitted(clock(2 * (n - 1))), Recorded(Classify(call(n - 1)), clock(2 * (n - 1) + 1))]
  }

  /** Positions in a shared history at which one caller's entries stand, in order. */
  ghost predicate Threaded(h: seq<Entry>, from: nat, own: seq<nat>, entries: seq<Entry>) {
    && |own| == |entries| && from <= |h|
    && (forall i :: 0 <= i < |own| ==> from <= own[i] < |h| && h[own[i]] == entries[i])
    && (forall i, j :: 0 <= i < j < |own| ==> own[i] < own[j])
  }

  ghost predicate Extends(h: seq<Entry>, h': seq<Entry>) { |h| <= |h'| && h'[..|h|] == h }

  lemma ThreadStays(h: seq<Entry>, h': seq<Entry>, from: nat, own: seq<nat>, entries: seq<Entry>)
    requires Threaded(h, from, own, entries) && Extends(h, h')
    ensures Threaded(h', from, own, entries)
  {
    forall i | 0 <= i < |own|
      ensures h'[own[i]] == entries[i]
    {
      assert h'[own[i]] == h'[..|h|][own[i]];
    }
  }

  lemma ThreadGrows(h: seq<Entry>, from: nat, own: seq<nat>, entries: seq<Entry>, e: Entry)
    requires Threaded(h, from, own, entries)
    ensures Threaded(h + [e], from, own + [|h|], entries + [e])
  {
  }

  lemma ExtendsStep(a: seq<Entry>, h: seq<Entry>, h': seq<Entry>)
    requires Extends(a, h) && Extends(h, h')
    ensures Extends(a, h')
  {
    assert h'[..|a|] == h'[..|h|][..|a|];
  }

  lemma ExtendsOne(h: seq<Entry>, e: Entry)
    ensures Extends(h, h + [e])
  {
  }

  lemma ExchangesStep(call: nat -> Option<CallError>, clock: nat -> int, n: nat)
    ensures Exchanges(call, clock, n + 1) == Exchanges(call, clock, n) + [Admitted(clock(2 * n))] + [Recorded(Classify(call(n)), clock(2 * n + 1))]
    ensures Exchanges(call, clock, 0) == []
  {
    hide Classify;
  }

  lemma NoAnswerIsError(e: Option<CallError>)
    ensures NoAnswer(e) ==> e.Some?
  {
  }

  /** What another caller does to the same breaker. */
  datatype Other = Asks(now: int) | Reports(kind: Class, now: int)

  method Interfere(breaker: CircuitBreaker, ops: seq<Other>)
    requires breaker.Valid()
    modifies breaker
    ensures breaker.Valid() && Extends(old(breaker.history), breaker.history)
  {
    hide *;
    Itself(breaker.history);
    for i := 0 to |ops|
      invariant breaker.Valid() && Extends(old(breaker.history), breaker.history)
    {
      ghost var h := breaker.history;
      if ops[i].Asks? {
        var granted := breaker.Allow(ops[i].now);
        ExtendsOne(h, if granted then Admitted(ops[i].now) else Refused(ops[i].now));
      } else {
        breaker.Record(ops[i].kind, ops[i].now);
        ExtendsOne(h, Recorded(ops[i].kind, ops[i].now));
      }
      ExtendsStep(old(breaker.history), h, breaker.history);
    }
  }

  lemma Itself(h: seq<Entry>)
    ensures Extends(h, h)
  {
  }

  lemma EmptyThread(h: seq<Entry>, h': seq<Entry>)
    requires Extends(h, h')
    ensures Threaded(h', |h|, [], [])
  {
  }

  /** One admission round as the caller's own thread in the shared history. */
  method AskFor(breaker: CircuitBreaker, now: int, ops: seq<Other>, ghost from: nat, ghost own: seq<nat>, ghost entries: seq<Entry>)
    returns (granted: bool, ghost own': seq<nat>)
    requires breaker.Valid() && Threaded(breaker.history, from, own, entries)
    modifies breaker
    ensures breaker.Valid() && Extends(old(breaker.history), breaker.history)
    ensures Threaded(breaker.history, from, own', entries + [if granted then Admitted(now) else Refused(now)])
  {
    hide *;
    Interfere(breaker, ops);
    ghost var h := breaker.history;
    ThreadStays(old(breaker.history), h, from, own, entries);
    granted := breaker.Allow(now);
    ghost var e := if granted then Admitted(now) else Refused(now);
    ThreadGrows(h, from, own, entries, e);
    own' := own + [|h|];
    ExtendsOne(h, e);
    ExtendsStep(old(breaker.history), h, breaker.history);
  }

  method ReportOutcome(breaker: CircuitBreaker, kind: Class, now: int, ops: seq<Other>, ghost from: nat, ghost own: seq<nat>, ghost entries: seq<Entry>)
    returns (ghost own': seq<nat>)
    requires breaker.Valid() && Threaded(breaker.history, from, own, entries)
    modifies breaker
    ensures breaker.Valid() && Extends(old(breaker.history), breaker.history)
    ensures Threaded(breaker.history, from, own', entries + [Recorded(kind, now)])
  {
    hide *;
    Interfere(breaker, ops);
    ghost var h := breaker.history;
    ThreadStays(old(breaker.history), h, from, own, entries);
    breaker.Record(kind, now);
    ThreadGrows(h, from, own, entries, Recorded(kind, now));
    own' := own + [|h|];
    ExtendsOne(h, Recorded(kind, now));
    ExtendsStep(old(breaker.history), h, breaker.history);
  }

  /** Do on a breaker that other callers use meanwhile, given what each call answers, the clock before and after
      it, whether the context is still alive and whether each pause is sat out. Only dependency failures of
      idempotent calls are repeated, and in the shared history this caller's entries are exactly its calls:
      each admitted, then its outcome, and at the end a refusal if the circuit was open. */
  method Do(breaker: CircuitBreaker, maxAttempts: nat, idempotent: bool, call: nat -> Option<CallError>, clock: nat -> int, alive: nat -> bool, waits: nat -> bool,
            others: nat -> seq<Other>)
    returns (r: Result, attempts: nat, ghost own: seq<nat>)
    requires breaker.Valid() && maxAttempts > 0
    modifies breaker
    ensures breaker.Valid() && Extends(old(breaker.history), breaker.history)
    ensures attempts <= (if idempotent then maxAttempts else 1)
    ensures forall a :: 0 <= a < attempts - 1 ==> NoAnswer(call(a)) && waits(a)
    ensures r.Returned? ==> attempts > 0 && r.error == call(attempts - 1)
    ensures r.Returned? && NoAnswer(r.error) ==> attempts == if idempotent then maxAttempts else 1
    ensures r.ContextDone? ==> (attempts < (if idempotent then maxAttempts else 1) && !alive(attempts)) || (attempts > 0 && NoAnswer(call(attempts - 1)) && !waits(attempts - 1))
    ensures r.CircuitOpen? ==> attempts < (if idempotent then maxAttempts else 1) && alive(attempts)
    ensures Threaded(breaker.history, |old(breaker.history)|, own,
                     Exchanges(call, clock, attempts) + if r.CircuitOpen? then [Refused(clock(2 * attempts))] else [])
  {
    hide *;
    ExchangesStep(call, clock, 0);
    var limit := if idempotent then maxAttempts else 1;
    ghost var from := |breaker.history|;
    attempts, own := 0, [];
    Itself(breaker.history);
    EmptyThread(breaker.history, breaker.history);
    while true
      invariant attempts < limit && breaker.Valid() && Extends(old(breaker.history), breaker.history)
      invariant forall a :: 0 <= a < attempts ==> NoAnswer(call(a)) && waits(a)
      invariant Threaded(breaker.history, from, own, Exchanges(call, clock, attempts))
      decreases limit - attempts
    {
      ghost var entries := Exchanges(call, clock, attempts);
      assert entries + [] == entries;
      if !alive(attempts) {
        return ContextDone, attempts, own;
      }
      ExchangesStep(call, clock, attempts);
      ghost var h := breaker.history;
      var granted;
      granted, own := AskFor(breaker, clock(2 * attempts), others(2 * attempts), from, own, entries);
      ExtendsStep(old(breaker.history), h, breaker.history);
      if !granted {
        return CircuitOpen, attempts, own;
      }
      var error := call(attempts);
      var kind := Classify(error);
      ClassifyExactly(error);
      NoAnswerIsError(error);
      h := breaker.history;
      own := ReportOutcome(breaker, kind, clock(2 * attempts + 1), others(2 * attempts + 1), from, own, entries + [Admitted(clock(2 * attempts))]);
      ExtendsStep(old(breaker.history), h, breaker.history);
      attempts := attempts + 1;
      entries := Exchanges(call, clock, attempts);
      assert entries + [] == entries;
      if error.None? || !DependencyFailure(kind) || attempts == limit {
        return Returned(error), attempts, own;
      }
      if !waits(attempts - 1) {
        return ContextDone, attempts, own;
      }
    }
  }
}
