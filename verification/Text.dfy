/** Text handling shared by every service: white space trimming, 64-bit decimal numbers,
    splitting on a separator and hexadecimal suffixes, as the Go standard library does them. */
module Text {

  datatype Option<+T> = None | Some(value: T)

  const MAX_INT64: int := 0x7FFF_FFFF_FFFF_FFFF
  const MIN_INT64: int := -0x8000_0000_0000_0000
  const MAX_UINT64: int := 0xFFFF_FFFF_FFFF_FFFF

  type Int64 = i: int | MIN_INT64 <= i <= MAX_INT64

  /** Arithmetic whose every intermediate result must be shown to fit 64 bits. */
  newtype int64 = x: int | -0x8000_0000_0000_0000 <= x <= 0x7FFF_FFFF_FFFF_FFFF

  /** Signed 64-bit wrap-around, for the additions and doublings the source leaves unchecked. */
  function Wrap64(x: int): (r: int)
    ensures MIN_INT64 <= r <= MAX_INT64
    ensures MIN_INT64 <= x <= MAX_INT64 ==> r == x
    ensures (r - x) % 0x1_0000_0000_0000_0000 == 0
  {
    var m := x % 0x1_0000_0000_0000_0000;
    if m > MAX_INT64 then m - 0x1_0000_0000_0000_0000 else m
  }

  // ---------------------------------------------------------------- white space

  /** The Unicode White_Space property. */
  predicate IsSpace(c: char) {
    || '\U{0009}' <= c <= '\U{000D}' || c == ' ' || c == '\U{0085}' || c == '\U{00A0}'
    || c == '\U{1680}' || '\U{2000}' <= c <= '\U{200A}' || c == '\U{2028}' || c == '\U{2029}'
    || c == '\U{202F}' || c == '\U{205F}' || c == '\U{3000}'
  }

  /** A text that neither starts nor ends with white space. */
  predicate Trimmed(s: string) {
    s == "" || (!IsSpace(s[0]) && !IsSpace(s[|s| - 1]))
  }

  function TrimLeft(s: string): (r: string) {
    if s != "" && IsSpace(s[0]) then TrimLeft(s[1..]) else s
  }

  function TrimRight(s: string): (r: string) {
    if s != "" && IsSpace(s[|s| - 1]) then TrimRight(s[..|s| - 1]) else s
  }

  function TrimSpace(s: string): (r: string) {
    TrimRight(TrimLeft(s))
  }

  lemma {:induction false} TrimLeftEnds(s: string)
    ensures var r := TrimLeft(s); |r| <= |s| && r == s[|s| - |r|..] && (r == "" || !IsSpace(r[0]))
  {
    hide IsSpace;
    if s != "" && IsSpace(s[0]) {
      TrimLeftEnds(s[1..]);
    }
  }

  lemma {:induction false} TrimRightEnds(s: string)
    ensures var r := TrimRight(s); |r| <= |s| && r == s[..|r|] && (r == "" || !IsSpace(r[|r| - 1]))
  {
    hide IsSpace;
    if s != "" && IsSpace(s[|s| - 1]) {
      TrimRightEnds(s[..|s| - 1]);
    }
  }

  /** Trimming yields a trimmed text and leaves a trimmed text alone, hence trimming twice is trimming once. */
  lemma Trims(s: string)
    ensures Trimmed(TrimSpace(s))
    ensures Trimmed(s) ==> TrimSpace(s) == s
  {
    hide IsSpace;
    TrimLeftEnds(s);
    TrimRightEnds(TrimLeft(s));
  }

  ghost predicate Blank(s: string) { forall i :: 0 <= i < |s| ==> IsSpace(s[i]) }

  lemma {:induction false} TrimLeftExactly(s: string)
    ensures |TrimLeft(s)| <= |s| && Blank(s[..|s| - |TrimLeft(s)|]) && s == s[..|s| - |TrimLeft(s)|] + TrimLeft(s)
  {
    hide IsSpace;
    if s != "" && IsSpace(s[0]) {
      TrimLeftExactly(s[1..]);
      var r := TrimLeft(s[1..]);
      assert s[..|s| - |r|] == [s[0]] + s[1..][..|s| - 1 - |r|];
    }
  }

  lemma {:induction false} TrimRightExactly(s: string)
    ensures |TrimRight(s)| <= |s| && Blank(s[|TrimRight(s)|..]) && s == TrimRight(s) + s[|TrimRight(s)|..]
  {
    hide IsSpace;
    if s != "" && IsSpace(s[|s| - 1]) {
      var t := s[..|s| - 1];
      TrimRightExactly(t);
      var r := TrimRight(t);
      assert s[|r|..] == t[|r|..] + [s[|s| - 1]];
    }
  }

  /** What is cut off is white space and nothing else. */
  lemma TrimsOnlySpace(s: string) returns (left: string, right: string)
    ensures s == left + TrimSpace(s) + right && Blank(left) && Blank(right)
  {
    hide Blank;
    hide TrimLeft;
    hide TrimRight;
    TrimLeftExactly(s);
    var t := TrimLeft(s);
    TrimRightExactly(t);
    var r := TrimRight(t);
    left, right := s[..|s| - |t|], t[|r|..];
    assert left + r + right == left + (r + right);
  }

  // ---------------------------------------------------------------- decimal numbers

  predicate IsDigit(c: char) { '0' <= c <= '9' }

  ghost predicate AllDigits(s: string) { forall i :: 0 <= i < |s| ==> IsDigit(s[i]) }

  function Digit(d: nat): (c: char)
    requires d < 10
    ensures IsDigit(c) && c as int - '0' as int == d
  {
    ('0' as int + d) as char
  }

  function FormatUint(n: nat): (s: string)
    ensures s != "" && AllDigits(s)
  {
    if n < 10 then [Digit(n)] else FormatUint(n / 10) + [Digit(n % 10)]
  }

  function FormatInt(i: int): (s: string)
    ensures s != ""
  {
    if i < 0 then "-" + FormatUint(-i) else FormatUint(i)
  }

  /** A parse hands back a value even when it fails: 0 on a syntax error, the bound on a range error. */
  datatype Parsed = Parsed(value: int, ok: bool, syntax: bool)

  function ScanDigits(s: string, acc: nat): (p: Parsed)
    requires acc <= MAX_UINT64
    ensures 0 <= p.value <= MAX_UINT64
  {
    if s == "" then Parsed(acc, true, false)
    else if !IsDigit(s[0]) then Parsed(0, false, true)
    else
      var next := acc * 10 + (s[0] as int - '0' as int);
      if next > MAX_UINT64 then Parsed(MAX_UINT64, false, false) else ScanDigits(s[1..], next)
  }

  function ParseUint(s: string): (p: Parsed)
    ensures 0 <= p.value <= MAX_UINT64
  {
    if s == "" then Parsed(0, false, true) else ScanDigits(s, 0)
  }

  function ParseInt(s: string): (p: Parsed)
    ensures MIN_INT64 <= p.value <= MAX_INT64
  {
    if s == "" then Parsed(0, false, true)
    else
      var negative := s[0] == '-';
      var u := ParseUint(if s[0] == '-' || s[0] == '+' then s[1..] else s);
      if u.syntax then Parsed(0, false, true)
      else if !negative && u.value > MAX_INT64 then Parsed(MAX_INT64, false, false)
      else if negative && u.value > MAX_INT64 + 1 then Parsed(MIN_INT64, false, false)
      else Parsed(if negative then -u.value else u.value, true, false)
  }

  lemma {:induction false} ScanAppend(s: string, c: char, acc: nat)
    requires acc <= MAX_UINT64 && ScanDigits(s, acc).ok && IsDigit(c)
    requires ScanDigits(s, acc).value * 10 + (c as int - '0' as int) <= MAX_UINT64
    ensures ScanDigits(s + [c], acc) == Parsed(ScanDigits(s, acc).value * 10 + (c as int - '0' as int), true, false)
  {
    if s == "" {
      assert ScanDigits((s + [c])[1..], acc * 10 + (c as int - '0' as int)).ok;
    } else {
      assert (s + [c])[1..] == s[1..] + [c];
      ScanAppend(s[1..], c, acc * 10 + (s[0] as int - '0' as int));
    }
  }

  lemma {:induction false} ScanFormat(n: nat)
    requires n <= MAX_UINT64
    ensures ScanDigits(FormatUint(n), 0) == Parsed(n, true, false)
  {
    if n < 10 {
      assert ScanDigits([Digit(n)][1..], n).ok;
    } else {
      ScanFormat(n / 10);
      ScanAppend(FormatUint(n / 10), Digit(n % 10), 0);
    }
  }

  /** Every unsigned 64-bit number is recovered from its decimal form, so the form identifies the number. */
  lemma ParseFormatUint(n: nat)
    requires n <= MAX_UINT64
    ensures ParseUint(FormatUint(n)) == Parsed(n, true, false)
  {
    ScanFormat(n);
  }

  lemma ParseFormatInt(i: int)
    requires MIN_INT64 <= i <= MAX_INT64
    ensures ParseInt(FormatInt(i)) == Parsed(i, true, false)
  {
    if i < 0 {
      ParseFormatUint(-i);
      assert FormatInt(i)[1..] == FormatUint(-i);
    } else {
      ParseFormatUint(i);
      assert IsDigit(FormatInt(i)[0]);
    }
  }

  /** The number a text of digits stands for. */
  ghost function NumberOf(s: string): (n: nat)
    requires AllDigits(s)
  {
    if s == "" then 0 else NumberOf(s[..|s| - 1]) * 10 + (s[|s| - 1] as int - '0' as int)
  }

  lemma {:induction false} NumberMonotone(s: string, n: nat)
    requires AllDigits(s) && n <= |s|
    ensures AllDigits(s[..n]) && NumberOf(s[..n]) <= NumberOf(s)
  {
    if n < |s| {
      NumberMonotone(s[..|s| - 1], n);
      assert s[..|s| - 1][..n] == s[..n];
    } else {
      assert s[..n] == s;
    }
  }

  /** The scanner after a prefix of digits: it has read the prefix's number and goes on with the rest. */
  lemma {:induction false} ScanFrom(s: string, n: nat)
    requires n <= |s| && AllDigits(s[..n]) && NumberOf(s[..n]) <= MAX_UINT64
    ensures ScanDigits(s, 0) == ScanDigits(s[n..], NumberOf(s[..n]))
  {
    if n == 0 {
      assert s[n..] == s;
    } else {
      var t := s[..n - 1];
      assert s[..n][..n - 1] == t && t == s[..n - 1];
      assert AllDigits(t) by { assert forall i :: 0 <= i < |t| ==> t[i] == s[..n][i]; }
      assert s[..n][n - 1] == s[n - 1] && IsDigit(s[n - 1]);
      ScanFrom(s, n - 1);
      assert s[n - 1..][0] == s[n - 1] && s[n - 1..][1..] == s[n..];
    }
  }

  /** Exactly the non-empty texts of digits up to 64 bits are numbers, and they are read as what they say. */
  lemma ParseUintExactly(s: string)
    ensures ParseUint(s).ok <==> s != "" && AllDigits(s) && NumberOf(s) <= MAX_UINT64
    ensures ParseUint(s).ok ==> ParseUint(s).value == NumberOf(s)
  {
    if s != "" {
      if AllDigits(s) && NumberOf(s) <= MAX_UINT64 {
        assert s[..|s|] == s;
        ScanFrom(s, |s|);
      } else {
        ScanStops(s, 0);
        assert s[0..] == s;
      }
    }
  }

  lemma {:induction false} ScanStops(s: string, n: nat)
    requires n <= |s| && AllDigits(s[..n]) && NumberOf(s[..n]) <= MAX_UINT64
    requires !(AllDigits(s) && NumberOf(s) <= MAX_UINT64)
    ensures !ScanDigits(s[n..], NumberOf(s[..n])).ok
    decreases |s| - n
  {
    assert s[..|s|] == s;
    if n < |s| && IsDigit(s[n]) {
      assert s[..n + 1][..n] == s[..n] && s[..n + 1][n] == s[n];
      assert s[n..][0] == s[n] && s[n..][1..] == s[n + 1..];
      assert NumberOf(s[..n + 1]) == NumberOf(s[..n]) * 10 + (s[n] as int - '0' as int);
      if NumberOf(s[..n + 1]) <= MAX_UINT64 {
        ScanStops(s, n + 1);
      }
    }
  }

  /** Signed numbers: an optional sign before such a text, within the signed range. */
  lemma ParseIntExactly(s: string)
    ensures var digits := if s != "" && (s[0] == '-' || s[0] == '+') then s[1..] else s;
            && (ParseInt(s).ok <==> digits != "" && AllDigits(digits) && NumberOf(digits) <= (if s[0] == '-' then MAX_INT64 + 1 else MAX_INT64))
            && (ParseInt(s).ok ==> ParseInt(s).value == (if s[0] == '-' then -1 else 1) * NumberOf(digits))
  {
    var digits := if s != "" && (s[0] == '-' || s[0] == '+') then s[1..] else s;
    ParseUintExactly(digits);
    ParseUintFails(digits);
    hide ParseUint;
  }

  /** A failed parse of digits is a matter of range, of anything else one of syntax. */
  lemma ParseUintFails(s: string)
    ensures s == "" || !AllDigits(s) ==> ParseUint(s).syntax || ParseUint(s).value == MAX_UINT64
    ensures !ParseUint(s).ok && !ParseUint(s).syntax ==> ParseUint(s).value == MAX_UINT64
    ensures ParseUint(s).syntax ==> !ParseUint(s).ok
  {
    if s != "" {
      ScanFails(s, 0);
    }
    ParseUintExactly(s);
  }

  lemma {:induction false} ScanFails(s: string, acc: nat)
    requires acc <= MAX_UINT64
    ensures !ScanDigits(s, acc).ok && !ScanDigits(s, acc).syntax ==> ScanDigits(s, acc).value == MAX_UINT64
    ensures ScanDigits(s, acc).syntax ==> !ScanDigits(s, acc).ok
    decreases |s|
  {
    if s != "" && IsDigit(s[0]) && acc * 10 + (s[0] as int - '0' as int) <= MAX_UINT64 {
      ScanFails(s[1..], acc * 10 + (s[0] as int - '0' as int));
    }
  }

  // ---------------------------------------------------------------- splitting

  function Split(s: string, sep: char): (parts: seq<string>)
    ensures |parts| >= 1
  {
    if s == "" then [""]
    else
      var rest := Split(s[1..], sep);
      if s[0] == sep then [""] + rest else [[s[0]] + rest[0]] + rest[1..]
  }

  lemma {:induction false} SplitWhole(a: string, sep: char)
    requires sep !in a
    ensures Split(a, sep) == [a]
  {
    if a != "" {
      SplitWhole(a[1..], sep);
      assert [a[0]] + a[1..] == a;
    }
  }

  /** Splitting peels off a separator-free first part. */
  lemma {:induction false} SplitFirst(a: string, sep: char, b: string)
    requires sep !in a
    ensures Split(a + [sep] + b, sep) == [a] + Split(b, sep)
  {
    var whole := a + [sep] + b;
    if a == "" {
      assert whole[1..] == b;
    } else {
      SplitFirst(a[1..], sep, b);
      assert whole[1..] == a[1..] + [sep] + b;
      assert [a[0]] + a[1..] == a;
    }
  }

  ghost function Join(parts: seq<string>, sep: char): (s: string)
    requires |parts| >= 1
  {
    if |parts| == 1 then parts[0] else parts[0] + [sep] + Join(parts[1..], sep)
  }

  lemma JoinLonger(c: char, parts: seq<string>, sep: char)
    requires |parts| >= 1
    ensures Join([[c] + parts[0]] + parts[1..], sep) == [c] + Join(parts, sep)
  {
    var longer := [[c] + parts[0]] + parts[1..];
    assert longer[1..] == parts[1..];
    if |parts| > 1 {
      var tail := [sep] + Join(parts[1..], sep);
      assert Join(parts, sep) == parts[0] + tail;
      assert Join(longer, sep) == longer[0] + tail;
      assert ([c] + parts[0]) + tail == [c] + (parts[0] + tail);
    }
  }

  /** The parts joined with the separator are the text again, and no part holds the separator. */
  lemma {:induction false} JoinSplit(s: string, sep: char)
    ensures Join(Split(s, sep), sep) == s
    ensures forall i :: 0 <= i < |Split(s, sep)| ==> sep !in Split(s, sep)[i]
  {
    if s != "" {
      JoinSplit(s[1..], sep);
      var rest, parts := Split(s[1..], sep), Split(s, sep);
      assert s == [s[0]] + s[1..];
      if s[0] == sep {
        assert parts[1..] == rest;
      } else {
        JoinLonger(s[0], rest, sep);
        hide Join;
        assert forall i :: 1 <= i < |parts| ==> parts[i] == rest[i];
      }
    }
  }

  lemma SplitThree(a: string, sep: char, b: string, c: string)
    requires sep !in a && sep !in b && sep !in c
    ensures Split(a + [sep] + b + [sep] + c, sep) == [a, b, c]
  {
    SplitFirst(a, sep, b + [sep] + c);
    SplitFirst(b, sep, c);
    SplitWhole(c, sep);
    assert a + [sep] + b + [sep] + c == a + [sep] + (b + [sep] + c);
  }

  // ---------------------------------------------------------------- hexadecimal

  type Byte = b: int | 0 <= b < 256

  predicate IsHex(c: char) { IsDigit(c) || 'a' <= c <= 'f' || 'A' <= c <= 'F' }

  ghost predicate AllHex(s: string) { forall i :: 0 <= i < |s| ==> IsHex(s[i]) }

  function HexDigit(d: nat): (c: char)
    requires d < 16
    ensures IsHex(c)
  {
    if d < 10 then Digit(d) else ('a' as int + d - 10) as char
  }

  function HexEncode(bytes: seq<Byte>): (s: string)
    ensures |s| == 2 * |bytes| && AllHex(s)
  {
    if bytes == [] then ""
    else [HexDigit(bytes[0] / 16), HexDigit(bytes[0] % 16)] + HexEncode(bytes[1..])
  }

  lemma HexDigitNames(a: nat, b: nat)
    requires a < 16 && b < 16 && HexDigit(a) == HexDigit(b)
    ensures a == b
  {
  }

  /** The hexadecimal form identifies the bytes. */
  lemma {:induction false} HexNames(a: seq<Byte>, b: seq<Byte>)
    requires |a| == |b| && HexEncode(a) == HexEncode(b)
    ensures a == b
  {
    if a != [] {
      var x, y := HexEncode(a), HexEncode(b);
      assert x[0] == y[0] && x[1] == y[1];
      HexDigitNames(a[0] / 16, b[0] / 16);
      HexDigitNames(a[0] % 16, b[0] % 16);
      assert x[2..] == HexEncode(a[1..]) && y[2..] == HexEncode(b[1..]);
      HexNames(a[1..], b[1..]);
      assert a == [a[0]] + a[1..] && b == [b[0]] + b[1..];
    }
  }

  /** Decoding succeeds exactly on an even number of hexadecimal digits of either case. */
  predicate HexDecodes(s: string) {
    |s| % 2 == 0 && forall i :: 0 <= i < |s| ==> IsHex(s[i])
  }
}
