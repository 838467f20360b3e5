/**
 * The handful of Python string operations the booking code relies on,
 * restricted to ASCII: character classes, str(n), int(s), endswith,
 * replace(c, ""), strip(), split(sep) and sep.join(parts).
 */
module Text {
  import opened Wrappers

  predicate IsDigit(c: char) { '0' <= c <= '9' }
  predicate IsUpper(c: char) { 'A' <= c <= 'Z' }
  predicate IsLower(c: char) { 'a' <= c <= 'z' }

  /** The ASCII characters str.strip() removes: space, \t, \n, \v, \f, \r. */
  predicate IsSpace(c: char) { c == ' ' || '\t' <= c <= '\r' }

  predicate AllDigits(s: string) { forall i :: 0 <= i < |s| ==> IsDigit(s[i]) }

  /** str.isdigit(): a non-empty string of digits. */
  predicate IsDigits(s: string) { |s| > 0 && AllDigits(s) }

  predicate EndsWith(s: string, suffix: string) {
    |suffix| <= |s| && s[|s| - |suffix|..] == suffix
  }

  function DigitValue(c: char): nat
    requires IsDigit(c)
  {
    c as int - '0' as int
  }

  function DigitChar(d: nat): (c: char)
    requires d < 10
    ensures IsDigit(c) && DigitValue(c) == d
  {
    ('0' as int + d) as char
  }

  /** The value of a string of decimal digits (most significant first). */
  function ParseNat(s: string): nat
    requires AllDigits(s)
    decreases |s|
  {
    if s == [] then 0 else ParseNat(s[..|s| - 1]) * 10 + DigitValue(s[|s| - 1])
  }

  /** str(n) for n >= 0: decimal digits without leading zeros. */
  function NatToString(n: nat): (s: string)
    ensures IsDigits(s)
    ensures n < 10 <==> |s| == 1
    ensures |s| == 1 ==> s == [DigitChar(n)]
  {
    if n < 10 then [DigitChar(n)] else NatToString(n / 10) + [DigitChar(n % 10)]
  }

  lemma {:induction false} ParseNatToString(n: nat)
    ensures ParseNat(NatToString(n)) == n
  {
    if n >= 10 {
      var s := NatToString(n / 10);
      var t := s + [DigitChar(n % 10)];
      assert t[..|t| - 1] == s;
      ParseNatToString(n / 10);
    }
  }

  /** f"{n:02d}" for 0 <= n < 100. */
  function Pad2(n: nat): (s: string)
    requires n < 100
    ensures |s| == 2 && AllDigits(s) && ParseNat(s) == n
  {
    var a, b := DigitChar(n / 10), DigitChar(n % 10);
    var s := [a, b];
    assert s[..1] == [a] && [a][..0] == [];
    assert ParseNat([a]) == DigitValue(a);
    s
  }

  /** int(s): an optional sign followed by ASCII digits; None where Python raises ValueError. */
  function ParseInt(s: string): Option<int> {
    if IsDigits(s) then Some(ParseNat(s))
    else if |s| >= 2 && (s[0] == '-' || s[0] == '+') && IsDigits(s[1..]) then
      var v: int := ParseNat(s[1..]);
      Some(if s[0] == '-' then -v else v)
    else None
  }

  lemma ParseIntOfNat(n: nat)
    ensures ParseInt(NatToString(n)) == Some(n)
  {
    ParseNatToString(n);
  }

  /** s.replace(c, ""). */
  function RemoveAll(s: string, c: char): (r: string)
    ensures c !in r
    ensures forall x :: x in r ==> x in s
    ensures forall x :: x in s && x != c ==> x in r
    ensures |r| <= |s|
  {
    if s == [] then [] else (if s[0] == c then [] else [s[0]]) + RemoveAll(s[1..], c)
  }

  lemma {:induction false} RemoveAllConcat(a: string, b: string, c: char)
    ensures RemoveAll(a + b, c) == RemoveAll(a, c) + RemoveAll(b, c)
  {
    if a != [] {
      assert (a + b)[1..] == a[1..] + b;
      RemoveAllConcat(a[1..], b, c);
    } else {
      assert a + b == b;
    }
  }

  function StripLeft(s: string): string {
    if s != [] && IsSpace(s[0]) then StripLeft(s[1..]) else s
  }

  function StripRight(s: string): string {
    if s != [] && IsSpace(s[|s| - 1]) then StripRight(s[..|s| - 1]) else s
  }

  /** str.strip(). */
  function Strip(s: string): string {
    StripRight(StripLeft(s))
  }

  /** t occurs in s as a contiguous substring (Python's `t in s`). */
  predicate ContainsSub(s: string, t: string)
    decreases |s|
  {
    |t| <= |s| && (s[..|t|] == t || ContainsSub(s[1..], t))
  }

  /** s.split(sep) for a non-empty separator: the pieces between non-overlapping occurrences, leftmost first. */
  function SplitOn(s: string, sep: string): (parts: seq<string>)
    requires |sep| > 0
    ensures |parts| >= 1
    ensures ContainsSub(s, sep) <==> |parts| >= 2
    ensures !ContainsSub(s, sep) ==> parts == [s]
    decreases |s|
  {
    if |s| < |sep| then [s]
    else if s[..|sep|] == sep then [""] + SplitOn(s[|sep|..], sep)
    else
      var rest := SplitOn(s[1..], sep);
      assert s == [s[0]] + s[1..];
      [[s[0]] + rest[0]] + rest[1..]
  }

  /** sep.join(parts). */
  function Join(parts: seq<string>, sep: string): string
    decreases |parts|
  {
    if |parts| == 0 then ""
    else if |parts| == 1 then parts[0]
    else parts[0] + sep + Join(parts[1..], sep)
  }

  /** A prefix free of the separator's first character is glued onto the first piece. */
  lemma {:induction false} SplitPrefix(e: string, t: string, sep: string)
    requires |sep| > 0 && sep[0] !in e
    ensures SplitOn(e + t, sep) == [e + SplitOn(t, sep)[0]] + SplitOn(t, sep)[1..]
    decreases |e|
  {
    var r := SplitOn(t, sep);
    if e == [] {
      assert e + t == t;
      assert e + r[0] == r[0];
      assert [e + r[0]] + r[1..] == r;
    } else {
      var s := e + t;
      assert s[0] == e[0];
      assert s[1..] == e[1..] + t;
      if |s| >= |sep| {
        assert s[..|sep|] != sep;
      }
      SplitPrefix(e[1..], t, sep);
      assert [e[0]] + (e[1..] + r[0]) == e + r[0];
    }
  }

  /** Splitting a join gives back the parts when no part holds the separator's first character. */
  lemma {:induction false} SplitJoin(parts: seq<string>, sep: string)
    requires |sep| > 0 && |parts| >= 1
    requires forall i :: 0 <= i < |parts| ==> sep[0] !in parts[i]
    ensures SplitOn(Join(parts, sep), sep) == parts
    decreases |parts|
  {
    if |parts| == 1 {
      SplitPrefix(parts[0], "", sep);
      assert parts[0] + "" == parts[0];
    } else {
      var j := Join(parts[1..], sep);
      SplitJoin(parts[1..], sep);
      var t := sep + j;
      assert Join(parts, sep) == parts[0] + t;
      assert t[..|sep|] == sep && t[|sep|..] == j;
      assert SplitOn(t, sep) == [""] + parts[1..];
      SplitPrefix(parts[0], t, sep);
      assert parts[0] + "" == parts[0];
      assert parts == [parts[0]] + parts[1..];
    }
  }

  /** The first occurrence of sep in a + sep + b is the one right after a. */
  lemma {:induction false} SplitAt(a: string, sep: string, b: string)
    requires |sep| > 0 && !ContainsSub(a + sep[..|sep| - 1], sep)
    ensures SplitOn(a + sep + b, sep) == [a] + SplitOn(b, sep)
    decreases |a|
  {
    var s := a + sep + b;
    if a == [] {
      assert s == sep + b;
      assert s[..|sep|] == sep && s[|sep|..] == b;
    } else {
      var x := a + sep[..|sep| - 1];
      assert x[..|sep|] == s[..|sep|];
      assert x[1..] == a[1..] + sep[..|sep| - 1];
      assert s[1..] == a[1..] + sep + b;
      SplitAt(a[1..], sep, b);
      assert [a[0]] + a[1..] == a;
    }
  }

  /** No occurrence of sep can start inside a prefix that avoids sep's first character. */
  lemma {:induction false} NoStartIn(a: string, sep: string)
    requires |sep| > 0 && sep[0] !in a
    ensures !ContainsSub(a + sep[..|sep| - 1], sep)
    decreases |a|
  {
    var x := a + sep[..|sep| - 1];
    if a != [] {
      assert x[0] == a[0];
      assert x[1..] == a[1..] + sep[..|sep| - 1];
      NoStartIn(a[1..], sep);
    }
  }
}
