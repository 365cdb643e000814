/** Order numbers of the synchronous path (S...) and of the stream path (T...), and the parsers that
    read the reservation time or the item back out of them. Times are Unix milliseconds. */
module OrderNumbers {
  import opened Text

  /** Go's zero time, 1 January of year 1, in Unix milliseconds. */
  const ZERO_TIME: int := -62_135_596_800_000

  type Random = r: seq<Byte> | |r| == 8 witness [0, 0, 0, 0, 0, 0, 0, 0]

  predicate FitsInt64(i: int) { MIN_INT64 <= i <= MAX_INT64 }

  function NewOrderNo(now: int, random: Random): (r: Option<string>)
    ensures r.None? <==> now == ZERO_TIME
  {
    if now == ZERO_TIME then None else Some("S" + FormatInt(now) + HexEncode(random))
  }

  function ReservedAtFromOrderNo(orderNo: string): (r: Option<int>)
    ensures r.Some? ==> 0 < r.value <= MAX_INT64
  {
    if |orderNo| <= 17 || orderNo[0] != 'S' then None
    else
      var ms := ParseInt(orderNo[1..|orderNo| - 16]);
      if !ms.ok || ms.value <= 0 then None
      else if !HexDecodes(orderNo[|orderNo| - 16..]) then None
      else Some(ms.value)
  }

  /** The text of a stream order number: T, the time, the item and the random suffix. */
  function StreamOrderText(now: int, item: nat, random: Random): (r: string)
    ensures r != "" && r[0] == 'T'
  {
    "T" + FormatInt(now) + "-" + FormatUint(item) + "-" + HexEncode(random)
  }

  function NewStreamOrderNo(now: int, item: nat, random: Random): (r: Option<string>)
    ensures r.None? <==> now == ZERO_TIME || item == 0
  {
    if now == ZERO_TIME || item == 0 then None else Some(StreamOrderText(now, item, random))
  }

  function StreamOrderItemId(orderNo: string): (r: Option<nat>)
    ensures r.Some? ==> 0 < r.value <= MAX_UINT64
  {
    var parts := Split(TrimSpace(orderNo), '-');
    if |parts| != 3 || |parts[0]| < 2 || parts[0][0] != 'T' || |parts[2]| != 16 then None
    else if !ParseInt(parts[0][1..]).ok then None
    else
      var item := ParseUint(parts[1]);
      if !item.ok || item.value == 0 then None
      else if !HexDecodes(parts[2]) then None
      else Some(item.value)
  }

  lemma StreamOrderTextTrimmed(now: int, item: nat, random: Random)
    ensures Trimmed(StreamOrderText(now, item, random))
  {
    var text := StreamOrderText(now, item, random);
    assert text[|text| - 1] == HexEncode(random)[15];
  }

  lemma DigitsNotDash(n: nat)
    ensures '-' !in FormatUint(n)
  {
  }

  lemma HexNotDash(random: Random)
    ensures '-' !in HexEncode(random)
  {
  }

  lemma SplitStreamOrder(now: int, item: nat, random: Random)
    requires 0 <= now
    ensures Split(StreamOrderText(now, item, random), '-')
         == ["T" + FormatUint(now), FormatUint(item), HexEncode(random)]
  {
    var t, i, h := FormatUint(now), FormatUint(item), HexEncode(random);
    DigitsNotDash(now);
    DigitsNotDash(item);
    HexNotDash(random);
    SplitThree("T" + t, '-', i, h);
    assert StreamOrderText(now, item, random) == "T" + t + "-" + i + "-" + h;
  }

  lemma NegativeStreamOrderText(now: int, item: nat, random: Random)
    requires now < 0
    ensures StreamOrderText(now, item, random)
         == "T" + "-" + (FormatUint(-now) + "-" + FormatUint(item) + "-" + HexEncode(random))
  {
    hide FormatUint;
    hide HexEncode;
    assert "T" + ("-" + FormatUint(-now)) == "T" + "-" + FormatUint(-now);
  }

  lemma SplitNegativeStreamOrder(now: int, item: nat, random: Random)
    requires now < 0
    ensures |Split(StreamOrderText(now, item, random), '-')| == 4
  {
    hide StreamOrderText;
    hide Split;
    DigitsNotDash(-now);
    DigitsNotDash(item);
    HexNotDash(random);
    SplitThree(FormatUint(-now), '-', FormatUint(item), HexEncode(random));
    SplitFirst("T", '-', FormatUint(-now) + "-" + FormatUint(item) + "-" + HexEncode(random));
    NegativeStreamOrderText(now, item, random);
  }

  /** The item is recovered from a stream order number exactly when the clock is not before 1970:
      a minus sign in the time adds a fourth dash-separated part. */
  lemma StreamOrderNoRoundTrip(now: int, item: nat, random: Random)
    requires FitsInt64(now) && 0 < item <= MAX_UINT64
    ensures StreamOrderItemId(StreamOrderText(now, item, random)) == (if 0 <= now then Some(item) else None)
    ensures NewStreamOrderNo(now, item, random) == (if now == ZERO_TIME then None else Some(StreamOrderText(now, item, random)))
  {
    StreamOrderTextTrimmed(now, item, random);
    Trims(StreamOrderText(now, item, random));
    hide TrimSpace;
    hide Trimmed;
    hide StreamOrderText;
    if 0 <= now {
      SplitStreamOrder(now, item, random);
      ParseFormatInt(now);
      ParseFormatUint(item);
      assert ("T" + FormatUint(now))[1..] == FormatInt(now);
    } else {
      SplitNegativeStreamOrder(now, item, random);
    }
  }

  /** Equal stream order numbers of non-negative times name the same item. */
  lemma StreamOrderNoNamesItem(now: int, item: nat, random: Random, now': int, item': nat, random': Random)
    requires FitsInt64(now) && FitsInt64(now') && 0 <= now && 0 <= now'
    requires 0 < item <= MAX_UINT64 && 0 < item' <= MAX_UINT64
    requires StreamOrderText(now, item, random) == StreamOrderText(now', item', random')
    ensures item == item'
  {
    StreamOrderNoRoundTrip(now, item, random);
    StreamOrderNoRoundTrip(now', item', random');
  }

  /** The reservation time is recovered from a synchronous order number exactly when it is positive. */
  lemma OrderNoRoundTrip(now: int, random: Random)
    requires FitsInt64(now) && now != ZERO_TIME
    ensures ReservedAtFromOrderNo(NewOrderNo(now, random).value) == (if 0 < now then Some(now) else None)
  {
    var text := NewOrderNo(now, random).value;
    assert text[1..|text| - 16] == FormatInt(now);
    assert text[|text| - 16..] == HexEncode(random);
    ParseFormatInt(now);
  }

  /** A number from which an item is read has the form of a stream order number: T and a 64-bit number, the item, and
      eight bytes in hexadecimal, joined by dashes. */
  lemma ReadItemHasForm(orderNo: string) returns (time: string, item: string, suffix: string)
    requires StreamOrderItemId(orderNo).Some?
    ensures TrimSpace(orderNo) == "T" + time + "-" + item + "-" + suffix
    ensures ParseInt(time).ok && item != "" && AllDigits(item) && NumberOf(item) == StreamOrderItemId(orderNo).value
    ensures |suffix| == 16 && HexDecodes(suffix)
  {
    var text := TrimSpace(orderNo);
    var parts := Split(text, '-');
    JoinSplit(text, '-');
    time, item, suffix := parts[0][1..], parts[1], parts[2];
    ParseUintExactly(item);
    hide ParseInt;
    hide ParseUint;
    hide Split;
    hide TrimSpace;
    assert parts[0] == "T" + time;
    assert parts[1..][1..] == [suffix] && parts[1..][0] == item;
    assert Join(parts, '-') == parts[0] + "-" + Join(parts[1..], '-');
    assert Join(parts[1..], '-') == item + "-" + Join([suffix], '-');
    assert "T" + time + "-" + (item + "-" + suffix) == "T" + time + "-" + item + "-" + suffix;
  }

  /** A number from which a time is read is S, that time and eight bytes in hexadecimal. */
  lemma ReadTimeHasForm(orderNo: string) returns (time: string, suffix: string)
    requires ReservedAtFromOrderNo(orderNo).Some?
    ensures orderNo == "S" + time + suffix && |suffix| == 16 && HexDecodes(suffix)
    ensures ParseInt(time).ok && ParseInt(time).value == ReservedAtFromOrderNo(orderNo).value
  {
    time, suffix := orderNo[1..|orderNo| - 16], orderNo[|orderNo| - 16..];
    hide ParseInt;
  }

  // ---------------------------------------------------------------- the supply of numbers

  function Bytes(n: nat, len: nat): (r: seq<Byte>)
    ensures |r| == len
  {
    if len == 0 then [] else [n % 256] + Bytes(n / 256, len - 1)
  }

  function Value(bytes: seq<Byte>): (n: nat) {
    if bytes == [] then 0 else bytes[0] + 256 * Value(bytes[1..])
  }

  function Pow256(len: nat): (n: nat) { if len == 0 then 1 else 256 * Pow256(len - 1) }

  lemma {:induction false} ValueOfBytes(n: nat, len: nat)
    requires n < Pow256(len)
    ensures Value(Bytes(n, len)) == n
  {
    if len > 0 {
      ValueOfBytes(n / 256, len - 1);
      assert Bytes(n, len)[1..] == Bytes(n / 256, len - 1);
    }
  }

  /** The n-th draw. */
  function Draw(n: nat): (r: Random) { Bytes(n, 8) }

  lemma DrawsDiffer(now: int, item: nat, a: nat, b: nat)
    requires a <= MAX_UINT64 && b <= MAX_UINT64 && StreamOrderText(now, item, Draw(a)) == StreamOrderText(now, item, Draw(b))
    ensures a == b
  {
    hide FormatInt;
    hide FormatUint;
    var head := "T" + FormatInt(now) + "-" + FormatUint(item) + "-";
    var x, y := HexEncode(Draw(a)), HexEncode(Draw(b));
    assert (head + x)[|head|..] == x && (head + y)[|head|..] == y;
    HexNames(Draw(a), Draw(b));
    hide HexEncode;
    assert Pow256(8) == MAX_UINT64 + 1;
    ValueOfBytes(a, 8);
    ValueOfBytes(b, 8);
  }

  /** The numbers of the first k draws for one time and item. */
  ghost function Numbers(now: int, item: nat, k: nat): (r: set<string>) {
    if k == 0 then {} else Numbers(now, item, k - 1) + {StreamOrderText(now, item, Draw(k - 1))}
  }

  lemma {:induction false} NumbersAre(now: int, item: nat, k: nat, o: string)
    ensures o in Numbers(now, item, k) <==> exists i: nat :: i < k && o == StreamOrderText(now, item, Draw(i))
  {
    hide StreamOrderText;
    hide Draw;
    if k > 0 {
      NumbersAre(now, item, k - 1, o);
    }
  }

  /** They are all different. */
  lemma {:induction false} NumbersCount(now: int, item: nat, k: nat)
    requires k <= MAX_UINT64 + 1
    ensures |Numbers(now, item, k)| == k
  {
    hide StreamOrderText;
    hide Draw;
    if k > 0 {
      NumbersCount(now, item, k - 1);
      var o := StreamOrderText(now, item, Draw(k - 1));
      NumbersAre(now, item, k - 1, o);
      if o in Numbers(now, item, k - 1) {
        var i: nat :| i < k - 1 && o == StreamOrderText(now, item, Draw(i));
        DrawsDiffer(now, item, i, k - 1);
      }
    }
  }
}
