/** Option and Result, used by every other module for Go's "value, ok" and "value, err" pairs. */
module Wrappers {
  datatype Option<+T> = None | Some(value: T)

  datatype Result<+T, +E> = Success(value: T) | Failure(error: E)
}

/**
 Go strings are byte sequences. A `byte` is a character below 256, so a literal can be used as a
 string and no lemma below has to assume anything about the bytes it is given.
 */
module ByteStrings {
  import opened Wrappers

  type byte = c: char | c as int < 256 witness 'a'
  type Bytes = seq<byte>

  /** An octet of file data, where only its numeric value matters. */
  type octet = x: int | 0 <= x < 256

  const MAX_INT64 := 0x7FFF_FFFF_FFFF_FFFF
  const MIN_INT64 := -0x8000_0000_0000_0000

  /** Two's complement wrap-around of Go's int64 arithmetic. */
  function Wrap64(x: int): int {
    (x - MIN_INT64) % 0x1_0000_0000_0000_0000 + MIN_INT64
  }

  lemma Regroup(a: Bytes, b: Bytes, c: Bytes)
    ensures a + b + c == a + (b + c)
  {
  }

  predicate HasPrefix(s: Bytes, prefix: Bytes) {
    prefix <= s
  }

  /** strings.TrimPrefix for a one byte prefix. */
  function TrimByte(s: Bytes, c: byte): Bytes {
    if s != [] && s[0] == c then s[1..] else s
  }

  /** strings.Cut for a one byte separator: text before, text after, and whether it was found. */
  function Cut(s: Bytes, sep: byte): (r: (Bytes, Bytes, bool))
    ensures |r.0| + |r.1| <= |s| && (r.2 ==> |r.1| < |s|) && (!r.2 ==> r.1 == [])
  {
    if s == [] then ([], [], false)
    else if s[0] == sep then ([], s[1..], true)
    else
      var t := Cut(s[1..], sep);
      ([s[0]] + t.0, t.1, t.2)
  }

  /** Cut splits at the first separator. */
  lemma {:induction false} CutAt(before: Bytes, sep: byte, after: Bytes)
    requires sep !in before
    ensures Cut(before + [sep] + after, sep) == (before, after, true)
  {
    var s := before + [sep] + after;
    if before == [] {
      assert s[1..] == after;
    } else {
      assert s[1..] == before[1..] + [sep] + after;
      CutAt(before[1..], sep, after);
      assert [s[0]] + before[1..] == before;
    }
  }

  lemma {:induction false} CutAbsent(s: Bytes, sep: byte)
    requires sep !in s
    ensures Cut(s, sep) == (s, [], false)
  {
    if s != [] {
      CutAbsent(s[1..], sep);
      assert [s[0]] + s[1..] == s;
    }
  }

  /** strings.Split with a one byte separator: at least one piece, and none holds the separator. */
  function Split(s: Bytes, sep: byte): (pieces: seq<Bytes>)
    ensures |pieces| >= 1 && Join(pieces, sep) == s
    ensures forall p :: p in pieces ==> sep !in p
  {
    if s == [] then [[]]
    else
      var rest := Split(s[1..], sep);
      if s[0] == sep then [[]] + rest else [[s[0]] + rest[0]] + rest[1..]
  }

  /** strings.Join with a one byte separator. */
  function Join(pieces: seq<Bytes>, sep: byte): Bytes {
    if pieces == [] then [] else if |pieces| == 1 then pieces[0] else pieces[0] + [sep] + Join(pieces[1..], sep)
  }

  lemma {:induction false} SplitAbsent(s: Bytes, sep: byte)
    requires sep !in s
    ensures Split(s, sep) == [s]
  {
    if s != [] {
      SplitAbsent(s[1..], sep);
      assert [s[0]] + s[1..] == s;
    }
  }

  lemma {:induction false} SplitAt(before: Bytes, sep: byte, after: Bytes)
    requires sep !in before && sep !in after
    ensures Split(before + [sep] + after, sep) == [before, after]
  {
    var s := before + [sep] + after;
    SplitAbsent(after, sep);
    if before == [] {
      assert s[1..] == after;
    } else {
      assert s[1..] == before[1..] + [sep] + after;
      SplitAt(before[1..], sep, after);
      assert [before[0]] + before[1..] == before;
    }
  }

  /** strings.ToLower, on ASCII letters. */
  function LowerByte(c: byte): (r: byte) {
    if 'A' <= c <= 'Z' then ((c as int) + 32) as char else c
  }

  function ToLower(s: Bytes): (r: Bytes)
    ensures |r| == |s|
    ensures forall i :: 0 <= i < |s| ==> r[i] == LowerByte(s[i])
  {
    if s == [] then [] else [LowerByte(s[0])] + ToLower(s[1..])
  }

  lemma ToLowerFixes(s: Bytes)
    requires forall c :: c in s ==> !('A' <= c <= 'Z')
    ensures ToLower(s) == s
  {
    assert forall i :: 0 <= i < |s| ==> s[i] in s;
  }

  predicate IsSpace(c: byte) {
    c == ' ' || 9 <= c as int <= 13
  }

  function TrimLeft(s: Bytes): Bytes {
    if s != [] && IsSpace(s[0]) then TrimLeft(s[1..]) else s
  }

  function TrimRight(s: Bytes): Bytes {
    if s != [] && IsSpace(s[|s| - 1]) then TrimRight(s[..|s| - 1]) else s
  }

  /** strings.TrimSpace, on ASCII white space. */
  function TrimSpace(s: Bytes): Bytes {
    TrimRight(TrimLeft(s))
  }

  lemma TrimSpaceFixes(s: Bytes)
    requires s == [] || (!IsSpace(s[0]) && !IsSpace(s[|s| - 1]))
    ensures TrimSpace(s) == s
  {
  }

  /** Go's `<` on strings: byte-wise lexicographic order. */
  predicate Less(a: Bytes, b: Bytes) {
    b != [] && (a == [] || a[0] < b[0] || (a[0] == b[0] && Less(a[1..], b[1..])))
  }

  lemma {:induction false} LessIsTotal(a: Bytes, b: Bytes)
    ensures Less(a, b) || a == b || Less(b, a)
    ensures !(Less(a, b) && Less(b, a))
    ensures !Less(a, a)
  {
    if a != [] {
      LessIsTotal(a[1..], if b == [] then [] else b[1..]);
      if b != [] && a[0] == b[0] && a[1..] == b[1..] {
        assert a == [a[0]] + a[1..] == [b[0]] + b[1..] == b;
      }
    }
  }

  lemma {:induction false} LessIsTransitive(a: Bytes, b: Bytes, c: Bytes)
    requires Less(a, b) && Less(b, c)
    ensures Less(a, c)
  {
    if a != [] && a[0] == b[0] == c[0] {
      LessIsTransitive(a[1..], b[1..], c[1..]);
    }
  }
}

/** strconv.Itoa and strconv.Atoi (ParseInt in base 10 with 64 bits). */
module Decimal {
  import opened Wrappers
  import opened ByteStrings

  predicate IsDigit(c: byte) {
    '0' <= c <= '9'
  }

  function DigitValue(c: byte): (v: nat)
    requires IsDigit(c)
  {
    (c as int) - ('0' as int)
  }

  function Digits(n: nat): (s: Bytes)
    ensures s != []
    ensures forall i :: 0 <= i < |s| ==> IsDigit(s[i])
    decreases n
  {
    var last: byte := ('0' as int + n % 10) as char;
    if n < 10 then [last] else Digits(n / 10) + [last]
  }

  function Itoa(n: int): Bytes {
    if n < 0 then "-" + Digits(-n) else Digits(n)
  }

  function DigitsValue(s: Bytes): (v: Option<nat>) {
    if s == [] then Some(0)
    else
      var rest := DigitsValue(s[..|s| - 1]);
      if rest.None? || !IsDigit(s[|s| - 1]) then None
      else Some(10 * rest.value + DigitValue(s[|s| - 1]))
  }

  /** None stands for Go's syntax and range errors. */
  function Atoi(s: Bytes): (v: Option<int>)
    ensures v.Some? ==> MIN_INT64 <= v.value <= MAX_INT64
  {
    var negative := s != [] && s[0] == '-';
    var digits := if s != [] && (s[0] == '-' || s[0] == '+') then s[1..] else s;
    var value := DigitsValue(digits);
    if digits == [] || value.None? then None
    else
      var v: int := value.value;
      var n := if negative then -v else v;
      if MIN_INT64 <= n <= MAX_INT64 then Some(n) else None
  }

  lemma {:induction false} DigitsRoundTrip(n: nat)
    ensures DigitsValue(Digits(n)) == Some(n)
    decreases n
  {
    var s := Digits(n);
    if n < 10 {
      assert s[..|s| - 1] == [];
    } else {
      DigitsRoundTrip(n / 10);
      assert s[..|s| - 1] == Digits(n / 10);
    }
  }

  /** Reading a printed integer gives it back exactly when it fits 64 bits. */
  lemma AtoiOfItoa(n: int)
    ensures Atoi(Itoa(n)) == if MIN_INT64 <= n <= MAX_INT64 then Some(n) else None
  {
    var s := Itoa(n);
    if n < 0 {
      DigitsRoundTrip(-n);
      assert s[1..] == Digits(-n);
    } else {
      DigitsRoundTrip(n);
      assert IsDigit(s[0]);
    }
  }
}
