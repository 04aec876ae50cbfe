/** The optional-value wrapper used for Python's `None`. */
module Wrappers {

  datatype Option<+T> = None | Some(value: T) {

    /** Returns the value in Some, or `default` for None (Python's `d.get(key, default)`). */
    function GetOr(default: T): T {
      match this
      case Some(v) => v
      case None => default
    }
  }
}

/**
 String helpers shared by the whole model: Python truthiness of an optional
 string, `str.join`, and the decimal rendering `str(n)` of a natural number.
 */
module Text {
  import opened Wrappers

  /** Python truthiness of a value that is either `None` or a string: both `None` and "" are false. */
  predicate Truthy(s: Option<string>) {
    s.Some? && |s.value| > 0
  }

  /** Sum of the lengths of `parts`. */
  function TotalLength(parts: seq<string>): nat {
    if |parts| == 0 then 0 else |parts[0]| + TotalLength(parts[1..])
  }

  /** Python's `sep.join(parts)`. */
  function Join(parts: seq<string>, sep: string): (r: string)
    ensures |parts| == 0 ==> r == ""
    ensures |parts| > 0 ==> parts[0] <= r
  {
    if |parts| == 0 then ""
    else if |parts| == 1 then parts[0]
    else parts[0] + sep + Join(parts[1..], sep)
  }

  /** A join is as long as its parts together plus one separator between each pair of parts. */
  lemma {:induction false} JoinLength(parts: seq<string>, sep: string)
    requires |parts| > 0
    ensures |Join(parts, sep)| == TotalLength(parts) + (|parts| - 1) * |sep|
  {
    if |parts| > 1 {
      JoinLength(parts[1..], sep);
    }
  }

  /** Where the `i`-th part starts inside `Join(parts, sep)`: every earlier part plus one separator each. */
  function Offset(parts: seq<string>, sep: string, i: nat): nat
    requires i <= |parts|
  {
    if i == 0 then 0 else Offset(parts, sep, i - 1) + |parts[i - 1]| + |sep|
  }

  lemma {:induction false} OffsetTail(parts: seq<string>, sep: string, i: nat)
    requires 1 <= i <= |parts|
    ensures Offset(parts, sep, i) == |parts[0]| + |sep| + Offset(parts[1..], sep, i - 1)
  {
    if i > 1 {
      OffsetTail(parts, sep, i - 1);
    }
  }

  lemma SliceAfter(a: string, b: string, x: nat, y: nat)
    requires x <= y <= |b|
    ensures (a + b)[|a| + x..|a| + y] == b[x..y]
  {
  }

  /** The `i`-th part of a join sits at `Offset(parts, sep, i)`. */
  lemma {:induction false} JoinPart(parts: seq<string>, sep: string, i: nat)
    requires i < |parts|
    ensures Offset(parts, sep, i) + |parts[i]| <= |Join(parts, sep)|
    ensures Join(parts, sep)[Offset(parts, sep, i)..Offset(parts, sep, i) + |parts[i]|] == parts[i]
  {
    if i > 0 {
      var rest := parts[1..];
      var o := Offset(rest, sep, i - 1);
      assert Join(parts, sep) == (parts[0] + sep) + Join(rest, sep);
      JoinPart(rest, sep, i - 1);
      OffsetTail(parts, sep, i);
      SliceAfter(parts[0] + sep, Join(rest, sep), o, o + |rest[i - 1]|);
    }
  }

  /** Between the `i`-th and the next part of a join stands exactly one separator. */
  lemma {:induction false} JoinSeparator(parts: seq<string>, sep: string, i: nat)
    requires i + 1 < |parts|
    ensures Offset(parts, sep, i + 1) <= |Join(parts, sep)|
    ensures Join(parts, sep)[Offset(parts, sep, i) + |parts[i]|..Offset(parts, sep, i + 1)] == sep
  {
    JoinPart(parts, sep, i + 1);
    var rest := parts[1..];
    assert Join(parts, sep) == (parts[0] + sep) + Join(rest, sep);
    if i > 0 {
      var o := Offset(rest, sep, i - 1);
      JoinSeparator(rest, sep, i - 1);
      OffsetTail(parts, sep, i);
      OffsetTail(parts, sep, i + 1);
      SliceAfter(parts[0] + sep, Join(rest, sep), o + |rest[i - 1]|, Offset(rest, sep, i));
    }
  }

  /** `JoinPart` for a string already known to be the join, so callers need not unfold `Join`. */
  lemma JoinPartOf(parts: seq<string>, sep: string, r: string, i: nat)
    requires r == Join(parts, sep) && i < |parts|
    ensures Offset(parts, sep, i) + |parts[i]| <= |r|
    ensures r[Offset(parts, sep, i)..Offset(parts, sep, i) + |parts[i]|] == parts[i]
  {
    JoinPart(parts, sep, i);
  }

  /** `JoinSeparator` for a string already known to be the join. */
  lemma JoinSeparatorOf(parts: seq<string>, sep: string, r: string, i: nat)
    requires r == Join(parts, sep) && i + 1 < |parts|
    ensures Offset(parts, sep, i + 1) <= |r|
    ensures r[Offset(parts, sep, i) + |parts[i]|..Offset(parts, sep, i + 1)] == sep
  {
    JoinSeparator(parts, sep, i);
  }

  /** The last part of a join ends the string. */
  lemma {:induction false} JoinLast(parts: seq<string>, sep: string)
    requires |parts| > 0
    ensures Offset(parts, sep, |parts| - 1) + |parts[|parts| - 1]| == |Join(parts, sep)|
  {
    if |parts| > 1 {
      var rest := parts[1..];
      assert Join(parts, sep) == (parts[0] + sep) + Join(rest, sep);
      JoinLast(rest, sep);
      OffsetTail(parts, sep, |parts| - 1);
    }
  }

  /** The character of a single decimal digit. */
  function DigitChar(d: nat): (c: char)
    requires d < 10
    ensures '0' <= c <= '9'
  {
    (('0' as int) + d) as char
  }

  predicate IsDigit(c: char) {
    '0' <= c <= '9'
  }

  /** Python's `str(n)` for a natural number: decimal digits, no leading zero. */
  function Decimal(n: nat): (r: string)
    ensures |r| >= 1
    ensures forall k :: 0 <= k < |r| ==> IsDigit(r[k])
    ensures |r| > 1 ==> r[0] != '0'
    ensures n < 10 <==> |r| == 1
  {
    if n < 10 then [DigitChar(n)] else Decimal(n / 10) + [DigitChar(n % 10)]
  }

  /** Reads back a string of decimal digits; the inverse of `Decimal`. */
  function ParseDecimal(s: string): nat
    requires forall k :: 0 <= k < |s| ==> IsDigit(s[k])
  {
    if |s| == 0 then 0
    else
      assert IsDigit(s[|s| - 1]);
      ParseDecimal(s[..|s| - 1]) * 10 + ((s[|s| - 1] as int) - ('0' as int))
  }

  lemma {:induction false} DecimalRoundTrip(n: nat)
    ensures ParseDecimal(Decimal(n)) == n
  {
    if n >= 10 {
      var r := Decimal(n);
      assert r[..|r| - 1] == Decimal(n / 10);
      DecimalRoundTrip(n / 10);
    }
  }

  /** Distinct numbers render as distinct strings. */
  lemma DecimalInjective(m: nat, n: nat)
    requires Decimal(m) == Decimal(n)
    ensures m == n
  {
    DecimalRoundTrip(m);
    DecimalRoundTrip(n);
  }
}
