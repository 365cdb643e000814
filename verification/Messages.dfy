/** Kafka records and their attempt header: how a consumer counts attempts and where it forwards a record
    that it could not handle. */
module Messages {
  import opened Text
  import opened OrderEvents

  /** The attempt header, apart from all other headers. */
  datatype Headers = Headers(attempt: Option<string>, others: map<string, string>)

  datatype Record = Record(key: string, value: Payload, headers: Headers)

  datatype Attempt = Attempt(number: nat, valid: bool)

  datatype Topic = Main | Retry | Dlq

  const NO_HEADERS: Headers := Headers(None, map[])

  /** A missing or blank header means a first attempt; one that is no number, or negative, is a poison record. */
  function AttemptOf(h: Headers): (a: Attempt)
    ensures a.number <= MAX_INT64
  {
    var text := TrimSpace(if h.attempt.Some? then h.attempt.value else "");
    if text == "" then Attempt(0, true)
    else
      var p := ParseInt(text);
      if !p.ok || p.value < 0 then Attempt(0, false) else Attempt(p.value, true)
  }

  function WithAttempt(r: Record, attempt: int): (c: Record) {
    r.(headers := r.headers.(attempt := Some(FormatInt(attempt))))
  }

  lemma FormatIntTrimmed(i: int)
    ensures Trimmed(FormatInt(i))
  {
    var s := FormatInt(i);
    assert IsDigit(s[|s| - 1]);
  }

  /** Every attempt number written is read back, except a negative one, which makes the record poison. */
  lemma AttemptRoundTrip(r: Record, attempt: Int64)
    ensures AttemptOf(WithAttempt(r, attempt).headers) == if 0 <= attempt then Attempt(attempt, true) else Attempt(0, false)
  {
    FormatIntTrimmed(attempt);
    Trims(FormatInt(attempt));
    ParseFormatInt(attempt);
    hide TrimSpace;
    hide Trimmed;
    hide FormatInt;
    hide ParseInt;
  }

  /** Which headers count as which attempt: none or a blank one as the first; decimal digits, possibly with a sign, as
      their number if it is neither negative nor beyond 64 bits; and anything else makes the record poison. */
  lemma AttemptExactly(h: Headers)
    ensures var text := TrimSpace(if h.attempt.Some? then h.attempt.value else "");
            var digits := if text != "" && (text[0] == '-' || text[0] == '+') then text[1..] else text;
            && (AttemptOf(h).valid <==>
                  text == "" || (digits != "" && AllDigits(digits) && NumberOf(digits) <= if text[0] == '-' then 0 else MAX_INT64))
            && AttemptOf(h).number == if text == "" || !AttemptOf(h).valid then 0 else NumberOf(digits)
  {
    ParseIntExactly(TrimSpace(if h.attempt.Some? then h.attempt.value else ""));
    hide TrimSpace;
    hide ParseInt;
    hide NumberOf;
  }

  // ---------------------------------------------------------------- forwarding

  /** No repetition can heal such a record. */
  predicate Poison(r: Record) { !AttemptOf(r.headers).valid || Decode(r.value).Rejected? }

  /** The increment is unchecked: the largest attempt number wraps round. */
  function NextAttempt(r: Record): (n: int) { Wrap64(AttemptOf(r.headers).number + 1) }

  function Target(r: Record, maxAttempts: nat): (t: Topic)
    ensures !t.Main?
  {
    if Poison(r) || NextAttempt(r) >= maxAttempts then Dlq else Retry
  }

  function Copy(r: Record): (c: Record)
    ensures c.key == r.key && c.value == r.value && c.headers.others == r.headers.others
  {
    WithAttempt(r, NextAttempt(r))
  }

  lemma WrapsAtMax(n: nat)
    requires n <= MAX_INT64
    ensures Wrap64(n + 1) == if n < MAX_INT64 then n + 1 else MIN_INT64
  {
  }

  /** The copy's attempt number is one higher, exactly unless the number was already the largest there is;
      then the copy is unreadable and thus poison. */
  lemma AttemptRises(r: Record)
    ensures var n := AttemptOf(r.headers).number;
            AttemptOf(Copy(r).headers) == if n < MAX_INT64 then Attempt(n + 1, true) else Attempt(0, false)
  {
    hide AttemptOf;
    AttemptRoundTrip(r, NextAttempt(r));
    WrapsAtMax(AttemptOf(r.headers).number);
    hide Wrap64;
  }

  ghost function Budget(r: Record, maxAttempts: nat): (b: nat) {
    var n := AttemptOf(r.headers).number;
    if Poison(r) then 0 else if n == MAX_INT64 then 1 else if n < maxAttempts then maxAttempts - n + 1 else 0
  }

  lemma CopySpendsBudget(r: Record, maxAttempts: nat)
    requires maxAttempts <= MAX_INT64 && Target(r, maxAttempts).Retry?
    ensures Budget(Copy(r), maxAttempts) < Budget(r, maxAttempts)
  {
    AttemptRises(r);
    WrapsAtMax(AttemptOf(r.headers).number);
    hide AttemptOf;
    hide Decode;
    hide Wrap64;
    hide WithAttempt;
  }

  /** The number of times a record that is never handled is forwarded before it lies in the DLQ. */
  ghost function Hops(r: Record, maxAttempts: nat): (n: nat)
    requires maxAttempts <= MAX_INT64
    decreases Budget(r, maxAttempts)
  {
    if Target(r, maxAttempts).Dlq? then 1
    else
      CopySpendsBudget(r, maxAttempts);
      1 + Hops(Copy(r), maxAttempts)
  }

  lemma OneHop(r: Record, maxAttempts: nat)
    requires maxAttempts <= MAX_INT64
    ensures Target(r, maxAttempts).Dlq? ==> Hops(r, maxAttempts) == 1
    ensures Target(r, maxAttempts).Retry? ==> Hops(r, maxAttempts) == 1 + Hops(Copy(r), maxAttempts)
  {
    hide Target;
    hide Copy;
  }

  lemma TargetOf(r: Record, maxAttempts: nat)
    requires maxAttempts <= MAX_INT64
    ensures var n := AttemptOf(r.headers).number;
            Target(r, maxAttempts) == if Poison(r) || (n < MAX_INT64 && n + 1 >= maxAttempts) then Dlq else Retry
    ensures Poison(Copy(r)) <==> AttemptOf(r.headers).number == MAX_INT64 || Decode(r.value).Rejected?
  {
    WrapsAtMax(AttemptOf(r.headers).number);
    AttemptRises(r);
    hide AttemptOf;
    hide Decode;
    hide Wrap64;
    hide WithAttempt;
  }

  /** The exact length of a chain of copies. */
  lemma {:induction false} HopsExactly(r: Record, maxAttempts: nat)
    requires 0 < maxAttempts <= MAX_INT64
    ensures var n := AttemptOf(r.headers).number;
            Hops(r, maxAttempts) ==
              if Poison(r) then 1 else if n == MAX_INT64 then 2 else if n + 1 >= maxAttempts then 1 else maxAttempts - n
    decreases Budget(r, maxAttempts)
  {
    hide AttemptOf;
    hide Decode;
    OneHop(r, maxAttempts);
    TargetOf(r, maxAttempts);
    AttemptRises(r);
    hide Hops;
    hide Poison;
    if Target(r, maxAttempts).Retry? {
      CopySpendsBudget(r, maxAttempts);
      HopsExactly(Copy(r), maxAttempts);
      hide Target;
      assert Poison(r) <==> !AttemptOf(r.headers).valid || Decode(r.value).Rejected? by { PoisonIs(r); }
      PoisonIs(Copy(r));
    }
  }

  lemma PoisonIs(r: Record)
    ensures Poison(r) <==> !AttemptOf(r.headers).valid || Decode(r.value).Rejected?
  {
  }

  /** A chain ends within the attempts allowed, except in one case: a single attempt is allowed and the
      record arrives with the largest attempt number. */
  lemma ChainWithinAttempts(r: Record, maxAttempts: nat)
    requires 0 < maxAttempts <= MAX_INT64
    ensures Hops(r, maxAttempts) <= maxAttempts
       <==> !(maxAttempts == 1 && !Poison(r) && AttemptOf(r.headers).number == MAX_INT64)
  {
    HopsExactly(r, maxAttempts);
    hide Hops;
    hide AttemptOf;
    hide Poison;
  }

  /** A valid event that starts without a header is tried exactly as often as allowed. */
  lemma FreshChain(r: Record, maxAttempts: nat)
    requires 0 < maxAttempts <= MAX_INT64 && r.headers.attempt.None? && Decode(r.value).Accepted?
    ensures Hops(r, maxAttempts) == maxAttempts
  {
    assert AttemptOf(r.headers) == Attempt(0, true);
    HopsExactly(r, maxAttempts);
    hide Hops;
    hide AttemptOf;
    hide Decode;
  }

  /** The one exception at an input: a valid event whose header holds the largest attempt number is forwarded
      twice although a single attempt is allowed, and passes through the retry topic unreadable. */
  lemma WrappedChain() returns (r: Record)
    ensures AttemptOf(r.headers) == Attempt(MAX_INT64, true) && Decode(r.value).Accepted?
    ensures Target(r, 1).Retry? && Target(Copy(r), 1).Dlq? && Hops(r, 1) == 2
  {
    var e := OrderCreated(StableEventId("A1"), EVENT_TYPE, VERSION, "A1", 7, SOURCE_NORMAL, 100, 1);
    ShortEventIsValid(e);
    var plain := Record("A1", Encoded(e), NO_HEADERS);
    r := WithAttempt(plain, MAX_INT64);
    AttemptRoundTrip(plain, MAX_INT64);
    assert Decode(r.value) == Accepted(e);
    hide AttemptOf;
    hide Decode;
    hide WithAttempt;
    HopsExactly(r, 1);
    TargetOf(r, 1);
    AttemptRises(r);
    TargetOf(Copy(r), 1);
    hide Hops;
  }

  lemma ShortEventIsValid(e: OrderCreated)
    requires e == OrderCreated(StableEventId("A1"), EVENT_TYPE, VERSION, "A1", 7, SOURCE_NORMAL, 100, 1)
    ensures Validate(e).None?
  {
    Trims("A1");
    assert TrimSpace("A1") == "A1";
    var id := StableEventId("A1");
    assert id[0] == 'o' && id[|id| - 1] == '1';
    Trims(id);
    hide TrimSpace;
  }
}
