/** Sequence numbers of names, as they are printed and read: eight digits, shifted
  * by an offset and permuted into two groups, after an optional leading group. */
module SeqId {
  import opened Wrappers

  const OFFSET: nat := 23071990
  const TEN8: nat := 1_0000_0000
  const U32: nat := 0x1_0000_0000

  datatype ParseError =
    | InvalidChar | EmptySegmentStart | EmptySegmentEnd | InvalidSegment
    | TooFewSegments | TooManySegments | Overflow

  predicate IsDigit(c: char) { '0' <= c <= '9' }
  predicate AllDigits(s: string) { forall i :: 0 <= i < |s| ==> IsDigit(s[i]) }

  function DigitChar(d: nat): (c: char)
    requires d < 10
    ensures IsDigit(c) && DigitValue(c) == d
  {
    '0' + d as char
  }

  function DigitValue(c: char): (d: nat)
    requires IsDigit(c)
    ensures d < 10
  {
    c as int - '0' as int
  }

  function Pow10(k: nat): nat { if k == 0 then 1 else 10 * Pow10(k - 1) }

  /** The last `k` decimal digits of a number. */
  function Digits(n: nat, k: nat): (s: string)
    ensures |s| == k && AllDigits(s)
    decreases k
  {
    if k == 0 then "" else Digits(n / 10, k - 1) + [DigitChar(n % 10)]
  }

  function Number(s: string): nat
    requires AllDigits(s)
  {
    if s == "" then 0 else 10 * Number(s[..|s| - 1]) + DigitValue(s[|s| - 1])
  }

  lemma {:induction false} NumberOfDigits(n: nat, k: nat)
    requires n < Pow10(k)
    ensures Number(Digits(n, k)) == n
    decreases k
  {
    if k > 0 {
      NumberOfDigits(n / 10, k - 1);
      assert Digits(n, k)[..k - 1] == Digits(n / 10, k - 1);
    }
  }

  lemma {:induction false} DigitsOfNumber(s: string)
    requires AllDigits(s)
    ensures Number(s) < Pow10(|s|) && Digits(Number(s), |s|) == s
    decreases |s|
  {
    if s != "" {
      var front, last := s[..|s| - 1], DigitValue(s[|s| - 1]);
      DigitsOfNumber(front);
      assert Number(s) / 10 == Number(front) && Number(s) % 10 == last;
      CharOfValue(s[|s| - 1]);
      assert s == front + [s[|s| - 1]];
    }
  }

  lemma CharOfValue(c: char)
    requires IsDigit(c)
    ensures DigitChar(DigitValue(c)) == c
  {
  }

  lemma Pow10Values()
    ensures Pow10(0) == 1 && Pow10(1) == 10 && Pow10(2) == 100 && Pow10(3) == 1000 && Pow10(4) == 10000
    ensures Pow10(5) == 100000 && Pow10(6) == 1000000 && Pow10(7) == 10000000 && Pow10(8) == TEN8
  {
  }

  // ----- the permutation -----

  function First(d: string): string
    requires |d| == 8
  {
    [d[4], d[3], d[1], d[6]]
  }

  function Second(d: string): string
    requires |d| == 8
  {
    [d[2], d[7], d[0], d[5]]
  }

  function Restore(s0: string, s1: string): string
    requires |s0| == 4 && |s1| == 4
  {
    [s1[2], s0[2], s1[0], s0[1], s0[0], s1[3], s0[3], s1[1]]
  }

  lemma RestorePermutes(d: string)
    requires |d| == 8
    ensures Restore(First(d), Second(d)) == d
  {
  }

  lemma PermuteRestores(s0: string, s1: string)
    requires |s0| == 4 && |s1| == 4
    ensures First(Restore(s0, s1)) == s0 && Second(Restore(s0, s1)) == s1
    ensures AllDigits(s0) && AllDigits(s1) ==> AllDigits(Restore(s0, s1))
  {
  }

  // ----- printing -----

  function Shift(n: nat): nat { (n % TEN8 + OFFSET) % TEN8 }

  function Unshift(m: nat): nat
    requires m < TEN8
  {
    if m >= OFFSET then m - OFFSET else TEN8 - (OFFSET - m)
  }

  lemma ShiftInverse(m: nat)
    requires m < TEN8
    ensures Unshift(Shift(m)) == m && Unshift(m) < TEN8 && Shift(Unshift(m)) == m
  {
  }

  function Display(n: nat): string {
    var d := Digits(Shift(n), 8);
    (if n / TEN8 > 0 then Digits(n / TEN8, 4) + "-" else "") + First(d) + "-" + Second(d)
  }

  // ----- what is read -----

  /** `n` groups of four digits with dashes between them. */
  predicate Groups(s: string, n: nat) {
    |s| + 1 == 5 * n && forall i :: 0 <= i < |s| ==> if i % 5 == 4 then s[i] == '-' else IsDigit(s[i])
  }

  function LowPart(s0: string, s1: string): nat
    requires |s0| == 4 && |s1| == 4 && AllDigits(s0) && AllDigits(s1)
  {
    PermuteRestores(s0, s1);
    DigitsOfNumber(Restore(s0, s1));
    Pow10Values();
    Unshift(Number(Restore(s0, s1)))
  }

  /** The number that a well-formed string encodes. */
  ghost function Encoded(s: string): Option<nat> {
    if Groups(s, 2) then Some(LowPart(s[..4], s[5..]))
    else if Groups(s, 3) then Some(Number(s[..4]) * TEN8 + LowPart(s[5..9], s[10..]))
    else None
  }

  // ----- reading -----

  /** Where the first dash is. */
  method FindDash(s: string) returns (r: Option<nat>)
    ensures r.None? ==> '-' !in s
    ensures r.Some? ==> r.value < |s| && s[r.value] == '-' && '-' !in s[..r.value]
  {
    for i := 0 to |s|
      invariant '-' !in s[..i]
    {
      if s[i] == '-' { return Some(i); }
      assert s[..i + 1] == s[..i] + [s[i]];
    }
    assert s[..|s|] == s;
    return None;
  }

  method AllDigitsOf(s: string) returns (ok: bool)
    ensures ok <==> AllDigits(s)
  {
    for i := 0 to |s|
      invariant forall k :: 0 <= k < i ==> IsDigit(s[k])
    {
      if !IsDigit(s[i]) { return false; }
    }
    return true;
  }

  /** A segment is four digits. */
  method ParseSegment(s: string) returns (r: Result<string, ParseError>)
    ensures r == if |s| == 4 && AllDigits(s) then Ok(s) else Err(InvalidSegment)
  {
    var digits := AllDigitsOf(s);
    return if digits && |s| == 4 then Ok(s) else Err(InvalidSegment);
  }

  /** The first `|segments|` groups have been read. */
  ghost predicate Read(input: string, segments: seq<string>, rest: string) {
    var k := |segments|;
    && |input| == 5 * k + |rest| && rest == input[5 * k..]
    && forall j :: 0 <= j < k ==>
         && segments[j] == input[5 * j..5 * j + 4] && AllDigits(segments[j])
         && input[5 * j + 4] == '-'
  }

  lemma ReadMore(input: string, segments: seq<string>, rest: string)
    requires Read(input, segments, rest) && |rest| > 4 && rest[4] == '-' && AllDigits(rest[..4])
    ensures Read(input, segments + [rest[..4]], rest[5..])
  {
    var k := |segments|;
    assert rest[..4] == input[5 * k..5 * k + 4] && rest[5..] == input[5 * (k + 1)..];
  }

  /** More characters than one group hold a dash. */
  lemma DashWithin(input: string, n: nat, k: nat, rest: string, m: nat)
    requires Groups(input, n) && 5 * k <= |input| && rest == input[5 * k..] && m <= |rest|
    ensures m > 4 ==> '-' in rest[..m]
  {
    if m > 4 {
      assert (5 * k + 4) % 5 == 4;
      assert rest[..m][4] == input[5 * k + 4];
    }
  }

  /** In a well-formed string the next dash ends a group. */
  lemma NextDash(input: string, n: nat, k: nat, rest: string, m: nat)
    requires Groups(input, n) && 5 * k <= |input| && rest == input[5 * k..]
    requires m < |rest| && rest[m] == '-' && '-' !in rest[..m]
    ensures m == 4 && AllDigits(rest[..4]) && k + 1 < n
  {
    assert input[5 * k + m] == '-';
    assert (5 * k + m) % 5 == 4;
    DashWithin(input, n, k, rest, m);
    forall i | 0 <= i < 4 ensures IsDigit(rest[..4][i]) {
      assert (5 * k + i) % 5 == i && rest[i] == input[5 * k + i];
    }
  }

  lemma LastGroup(input: string, n: nat, k: nat, rest: string)
    requires Groups(input, n) && 5 * k <= |input| && rest == input[5 * k..] && '-' !in rest
    ensures |rest| == 4 && AllDigits(rest) && n == k + 1
  {
    assert rest[..|rest|] == rest;
    DashWithin(input, n, k, rest, |rest|);
    forall i | 0 <= i < |rest| ensures IsDigit(rest[i]) {
      assert (5 * k + i) % 5 == i && rest[i] == input[5 * k + i];
    }
  }

  lemma AllRead(input: string, segments: seq<string>, rest: string)
    requires Read(input, segments, rest) && |rest| == 4 && AllDigits(rest)
    ensures Groups(input, |segments| + 1)
  {
    var k := |segments|;
    forall i | 0 <= i < |input| ensures if i % 5 == 4 then input[i] == '-' else IsDigit(input[i]) {
      var j := i / 5;
      assert i == 5 * j + i % 5;
      if j < k {
        assert segments[j] == input[5 * j..5 * j + 4];
        if i % 5 < 4 { assert segments[j][i % 5] == input[i]; }
      } else {
        assert rest[i - 5 * k] == input[i];
      }
    }
  }

  lemma GroupsChars(s: string, n: nat)
    requires Groups(s, n) && n > 0
    ensures s != "" && IsDigit(s[0]) && IsDigit(s[|s| - 1])
    ensures forall i :: 0 <= i < |s| ==> IsDigit(s[i]) || s[i] == '-'
  {
    assert (|s| - 1) % 5 == 3;
  }

  /** Splits into segments, at most three. */
  method Segments(input: string) returns (r: Result<seq<string>, ParseError>)
    ensures r.Ok? ==>
              && 1 <= |r.value| <= 3 && Groups(input, |r.value|)
              && forall j :: 0 <= j < |r.value| ==> r.value[j] == input[5 * j..5 * j + 4]
    ensures r.Err? ==> !Groups(input, 1) && !Groups(input, 2) && !Groups(input, 3)
  {
    hide Groups, AllDigits;
    var segments: seq<string>, rest := [], input;
    var dash: Option<nat> := FindDash(rest);
    while dash.Some?
      invariant Read(input, segments, rest) && |segments| <= 2
      invariant dash.None? ==> '-' !in rest
      invariant dash.Some? ==> dash.value < |rest| && rest[dash.value] == '-' && '-' !in rest[..dash.value]
      decreases |rest|
    {
      forall n: nat | Groups(input, n)
        ensures dash.value == 4 && AllDigits(rest[..4]) && |segments| + 1 < n
      {
        NextDash(input, n, |segments|, rest, dash.value);
      }
      var segment := ParseSegment(rest[..dash.value]);
      if segment.Err? { return Err(segment.error); }
      ReadMore(input, segments, rest);
      segments := segments + [segment.value];
      if |segments| > 2 { return Err(TooManySegments); }
      rest := rest[dash.value + 1..];
      dash := FindDash(rest);
    }
    forall n: nat | Groups(input, n) ensures |rest| == 4 && AllDigits(rest) && n == |segments| + 1 {
      LastGroup(input, n, |segments|, rest);
    }
    var last := ParseSegment(rest);
    if last.Err? { return Err(last.error); }
    AllRead(input, segments, rest);
    return Ok(segments + [last.value]);
  }

  method HasInvalidChar(s: string) returns (bad: bool)
    ensures bad <==> exists i :: 0 <= i < |s| && !IsDigit(s[i]) && s[i] != '-'
  {
    for i := 0 to |s|
      invariant forall k :: 0 <= k < i ==> IsDigit(s[k]) || s[k] == '-'
    {
      if !IsDigit(s[i]) && s[i] != '-' { return true; }
    }
    return false;
  }

  /** Accepts exactly two or three groups of four digits whose leading group times
    * 10^8 fits in 32 bits; the sum wraps around. */
  method Parse(s: string) returns (r: Result<nat, ParseError>)
    ensures r.Ok? <==> Groups(s, 2) || (Groups(s, 3) && Number(s[..4]) * TEN8 < U32)
    ensures r.Ok? ==> Encoded(s).Some? && r.value == Encoded(s).value % U32
    ensures Groups(s, 3) && Number(s[..4]) * TEN8 >= U32 ==> r == Err(Overflow)
  {
    hide Groups, LowPart, Number;
    if Groups(s, 2) { GroupsChars(s, 2); }
    if Groups(s, 3) { GroupsChars(s, 3); }
    LengthsDiffer(s);
    var bad := HasInvalidChar(s);
    if bad { return Err(InvalidChar); }
    if s != "" && s[0] == '-' { return Err(EmptySegmentStart); }
    if s != "" && s[|s| - 1] == '-' { return Err(EmptySegmentEnd); }
    var segments := Segments(s);
    if segments.Err? { return Err(segments.error); }
    var g := segments.value;
    if |g| == 1 { return Err(TooFewSegments); }
    GroupParts(s, |g|);
    if |g| == 2 {
      LowBound(g[0], g[1]);
      return Ok(LowPart(g[0], g[1]));
    }
    var high := Number(g[0]) * TEN8;
    if high >= U32 { return Err(Overflow); }
    return Ok((high + LowPart(g[1], g[2])) % U32);
  }

  lemma LengthsDiffer(s: string)
    ensures !(Groups(s, 1) && Groups(s, 2)) && !(Groups(s, 1) && Groups(s, 3)) && !(Groups(s, 2) && Groups(s, 3))
  {
  }

  lemma LowBound(s0: string, s1: string)
    requires |s0| == 4 && |s1| == 4 && AllDigits(s0) && AllDigits(s1)
    ensures LowPart(s0, s1) < TEN8 < U32
  {
    PermuteRestores(s0, s1);
    DigitsOfNumber(Restore(s0, s1));
    Pow10Values();
  }

  lemma GroupParts(s: string, n: nat)
    requires Groups(s, n) && 2 <= n <= 3
    ensures n == 2 ==> |s| == 9 && s[5..] == s[5..9] && AllDigits(s[..4]) && AllDigits(s[5..9]) && s[..4] == s[0..4]
    ensures n == 3 ==>
              && |s| == 14 && s[10..] == s[10..14] && s[..4] == s[0..4]
              && AllDigits(s[..4]) && AllDigits(s[5..9]) && AllDigits(s[10..14])
  {
  }

  // ----- round trips -----

  lemma DisplayShape(n: nat)
    requires n < U32
    ensures Groups(Display(n), if n / TEN8 > 0 then 3 else 2)
    ensures Encoded(Display(n)) == Some(n)
  {
    hide Digits, Number, Pow10, Restore;
    var d := Digits(Shift(n), 8);
    Pow10Values();
    NumberOfDigits(Shift(n), 8);
    RestorePermutes(d);
    ShiftInverse(n % TEN8);
    var s := Display(n);
    if n / TEN8 > 0 {
      NumberOfDigits(n / TEN8, 4);
      assert s[..4] == Digits(n / TEN8, 4) && s[5..9] == First(d) && s[10..] == Second(d);
    } else {
      assert s[..4] == First(d) && s[5..] == Second(d);
    }
  }

  lemma DivTwice(n: nat, p: nat)
    requires p > 0
    ensures n / 10 / p == n / (10 * p)
  {
    var q := n / 10 / p;
    var r := n / 10 - q * p;
    assert 0 <= r < p;
    assert n == 10 * p * q + (10 * r + n % 10);
    assert 0 <= 10 * r + n % 10 < 10 * p;
    QuotientUnique(n, 10 * p, q, 10 * r + n % 10);
  }

  lemma QuotientUnique(n: nat, p: nat, q: nat, r: nat)
    requires p > 0 && n == p * q + r && r < p
    ensures n / p == q
  {
    var d, e := n / p, n % p;
    assert n == p * d + e;
    assert p * (q - d) == e - r && p * (d - q) == r - e;
    if d < q { AtLeast(p, q - d); }
    if d > q { AtLeast(p, d - q); }
  }

  lemma AtLeast(p: nat, k: nat)
    requires k > 0
    ensures p * k >= p
  {
  }

  lemma {:induction false} DigitAt(n: nat, k: nat, j: nat)
    requires j < k
    ensures Pow10(k - 1 - j) > 0 && DigitValue(Digits(n, k)[j]) == n / Pow10(k - 1 - j) % 10
    decreases k
  {
    if j < k - 1 {
      DigitAt(n / 10, k - 1, j);
      DivTwice(n, Pow10(k - 2 - j));
    }
  }

  /** The character is the last decimal digit of `d`. */
  predicate Shows(c: char, d: nat) { IsDigit(c) && DigitValue(c) == d % 10 }

  /** The digits of `m` in the order 5, 4, 2, 7 and 3, 8, 1, 6, of eight digits. */
  predicate ShowsDigits(t: string, m: nat) {
    && |t| == 9 && t[4] == '-'
    && Shows(t[0], m / 1000) && Shows(t[1], m / 10000) && Shows(t[2], m / 1000000) && Shows(t[3], m / 10)
    && Shows(t[5], m / 100000) && Shows(t[6], m) && Shows(t[7], m / 10000000) && Shows(t[8], m / 100)
  }

  lemma ShowsPermuted(m: nat)
    ensures ShowsDigits(First(Digits(m, 8)) + "-" + Second(Digits(m, 8)), m)
  {
    hide Digits, Pow10;
    Pow10Values();
    DigitAt(m, 8, 0);
    DigitAt(m, 8, 1);
    DigitAt(m, 8, 2);
    DigitAt(m, 8, 3);
    DigitAt(m, 8, 4);
    DigitAt(m, 8, 5);
    DigitAt(m, 8, 6);
    DigitAt(m, 8, 7);
  }

  /** Digit by digit: the number is shifted by the offset within eight digits, and
    * their digits are printed in a fixed order, behind the hundred millions as four
    * digits if there are any. */
  lemma PrintedDigits(n: nat)
    requires n < U32
    ensures |Display(n)| == (if n < 1_0000_0000 then 9 else 14)
    ensures ShowsDigits(Display(n)[|Display(n)| - 9..], (n % 1_0000_0000 + 23071990) % 1_0000_0000)
    ensures n >= 1_0000_0000 ==>
              Display(n)[4] == '-' && AllDigits(Display(n)[..4]) && Number(Display(n)[..4]) == n / 1_0000_0000
  {
    hide Digits, Number, Pow10, ShowsDigits;
    Pow10Values();
    var d := Digits(Shift(n), 8);
    var t := First(d) + "-" + Second(d);
    ShowsPermuted(Shift(n));
    if n >= TEN8 {
      NumberOfDigits(n / TEN8, 4);
      var head := Digits(n / TEN8, 4);
      assert Display(n) == head + "-" + t;
      assert Display(n)[..4] == head && Display(n)[5..] == t;
    } else {
      assert Display(n) == t && t[0..] == t;
    }
  }

  /** Reading what was printed gives the number back, for every 32-bit number. */
  method PrintThenParse(n: nat) returns (r: Result<nat, ParseError>)
    requires n < U32
    ensures r == Ok(n)
  {
    hide Display, Groups, Number, LowPart;
    DisplayShape(n);
    DisplayHigh(n);
    r := Parse(Display(n));
  }

  lemma DisplayHigh(n: nat)
    requires n < U32
    ensures Groups(Display(n), 3) ==> n / TEN8 > 0 && Number(Display(n)[..4]) == n / TEN8
  {
    hide Digits, Number, Pow10;
    Pow10Values();
    DisplayShape(n);
    LengthsDiffer(Display(n));
    if n / TEN8 > 0 {
      NumberOfDigits(n / TEN8, 4);
      assert Display(n)[..4] == Digits(n / TEN8, 4);
    }
  }

  /** The two groups that print the low part. */
  lemma LowPrints(n: nat, s0: string, s1: string)
    requires |s0| == 4 && |s1| == 4 && AllDigits(s0) && AllDigits(s1) && n % TEN8 == LowPart(s0, s1)
    ensures First(Digits(Shift(n), 8)) == s0 && Second(Digits(Shift(n), 8)) == s1
  {
    hide Digits, Number, Pow10;
    var d := Restore(s0, s1);
    PermuteRestores(s0, s1);
    DigitsOfNumber(d);
    Pow10Values();
    ShiftInverse(Number(d));
  }

  lemma FitsPrints(s: string)
    requires Encoded(s).Some? && Encoded(s).value < U32
    ensures Display(Encoded(s).value) == s <==> !(Groups(s, 3) && Number(s[..4]) == 0)
  {
    hide Digits, Number, Pow10, LowPart, Shift, First, Second;
    var n := Encoded(s).value;
    if Groups(s, 2) {
      GroupParts(s, 2);
      LowBound(s[..4], s[5..]);
      LowPrints(n, s[..4], s[5..]);
      assert s == s[..4] + "-" + s[5..];
      LengthsDiffer(s);
    } else {
      GroupParts(s, 3);
      var high := Number(s[..4]);
      LowBound(s[5..9], s[10..]);
      assert n / TEN8 == high && n % TEN8 == LowPart(s[5..9], s[10..]);
      LowPrints(n, s[5..9], s[10..]);
      DigitsOfNumber(s[..4]);
      assert s == s[..4] + "-" + s[5..9] + "-" + s[10..];
      DisplayLength(n);
    }
  }

  lemma DisplayLength(n: nat)
    ensures |Display(n)| == if n / TEN8 > 0 then 14 else 9
  {
    hide Digits;
  }

  /** Printing what was read gives the string back exactly when the encoded number
    * fits in 32 bits and the string has no leading group of zeros. */
  lemma ParseThenPrint(s: string)
    requires Encoded(s).Some?
    ensures Display(Encoded(s).value % U32) == s <==>
            Encoded(s).value < U32 && !(Groups(s, 3) && Number(s[..4]) == 0)
  {
    hide Display, Encoded, Groups, Number;
    if Encoded(s).value < U32 {
      FitsPrints(s);
    } else {
      DisplayShape(Encoded(s).value % U32);
    }
  }
}
