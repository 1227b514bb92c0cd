/**
 * String helpers the builders rely on: the separator join that every
 * `ToClass`/`ToStyle` loop performs with its `first` flag, `IndexOf`, the
 * split that inverts the join, and invariant-culture decimal rendering.
 */
module Strings {

  /** Index of the first `c` in `s`, or -1 when `s` has none (C# `string.IndexOf(char)`). */
  function IndexOf(s: string, c: char): (r: int)
    ensures -1 <= r < |s|
    ensures r == -1 <==> c !in s
    ensures r >= 0 ==> s[r] == c && c !in s[..r]
  {
    if |s| == 0 then -1
    else if s[0] == c then 0
    else
      var k := IndexOf(s[1..], c);
      assert s[1..][..if k < 0 then 0 else k] == s[1..if k < 0 then 1 else k + 1];
      if k < 0 then -1 else k + 1
  }

  /** The first occurrence is the only position with `c` before which there is no `c`. */
  lemma IndexOfUnique(s: string, c: char, k: nat)
    requires k < |s| && s[k] == c && c !in s[..k]
    ensures IndexOf(s, c) == k
  {
  }

  /** A prefix free of `c` shifts the first occurrence by its length. */
  lemma IndexOfAfter(a: string, b: string, c: char)
    requires c !in a && c in b
    ensures IndexOf(a + b, c) == |a| + IndexOf(b, c)
  {
    var k := IndexOf(b, c);
    var s := a + b;
    assert s[..|a| + k] == a + b[..k];
    IndexOfUnique(s, c, |a| + k);
  }

  /** A prefix that contains `c` decides the first occurrence alone. */
  lemma IndexOfWithin(a: string, b: string, c: char)
    requires c in a
    ensures IndexOf(a + b, c) == IndexOf(a, c)
  {
    var k := IndexOf(a, c);
    assert (a + b)[..k] == a[..k];
    IndexOfUnique(a + b, c, k);
  }

  /** `parts` joined with `sep` between neighbours: what a string builder holds after appending `sep` before every part but the first. */
  function Join(parts: seq<string>, sep: string): (r: string)
    ensures |parts| == 0 ==> r == ""
    ensures |parts| > 0 ==> parts[0] <= r && |r| >= |parts[0]| + (|parts| - 1) * |sep|
  {
    if |parts| == 0 then ""
    else if |parts| == 1 then parts[0]
    else parts[0] + sep + Join(parts[1..], sep)
  }

  /** Joining a concatenation puts one separator between the two joins. */
  lemma {:induction false} JoinAppend(a: seq<string>, b: seq<string>, sep: string)
    requires |a| > 0 && |b| > 0
    ensures Join(a + b, sep) == Join(a, sep) + sep + Join(b, sep)
    decreases |a|
  {
    if |a| == 1 {
      assert (a + b)[1..] == b;
    } else {
      assert (a + b)[1..] == a[1..] + b;
      JoinAppend(a[1..], b, sep);
    }
  }

  /** Two rendered lists glued the way the builder loops glue them: the separator only between two non-empty outputs. */
  function Glue(x: string, y: string, sep: string): (r: string)
    ensures x == "" ==> r == y
    ensures y == "" ==> r == x
    ensures x != "" && y != "" ==> |r| == |x| + |sep| + |y| && x <= r
  {
    if x == "" then y else if y == "" then x else x + sep + y
  }

  /** `s` cut at every `c`; the inverse of `Join` with the one-character separator `[c]`. */
  function Split(s: string, c: char): (r: seq<string>)
    ensures |r| > 0
    ensures forall i :: 0 <= i < |r| ==> c !in r[i]
    decreases |s|
  {
    var k := IndexOf(s, c);
    if k < 0 then [s] else [s[..k]] + Split(s[k + 1..], c)
  }

  /** Splitting a join recovers the parts when no part contains the separator. */
  lemma {:induction false} SplitJoin(parts: seq<string>, c: char)
    requires |parts| > 0
    requires forall i :: 0 <= i < |parts| ==> c !in parts[i]
    ensures Split(Join(parts, [c]), c) == parts
    decreases |parts|
  {
    if |parts| > 1 {
      var head, tail := parts[0], parts[1..];
      var rest := Join(tail, [c]);
      var s := head + ([c] + rest);
      assert parts == [head] + tail;
      JoinCons(head, tail, [c]);
      assert c !in head;
      assert IndexOf([c] + rest, c) == 0;
      IndexOfAfter(head, [c] + rest, c);
      SplitStep(s, c, |head|);
      assert s[..|head|] == head;
      assert s[|head| + 1..] == rest;
      SplitJoin(tail, c);
    }
  }

  /** One step of `Split` at the first occurrence `k`. */
  lemma SplitStep(s: string, c: char, k: nat)
    requires IndexOf(s, c) == k
    ensures Split(s, c) == [s[..k]] + Split(s[k + 1..], c)
  {
  }

  /** Joining a split restores the string. */
  lemma {:induction false} JoinSplit(s: string, c: char)
    ensures Join(Split(s, c), [c]) == s
    decreases |s|
  {
    var k := IndexOf(s, c);
    if k >= 0 {
      var tail := Split(s[k + 1..], c);
      SplitStep(s, c, k);
      JoinSplit(s[k + 1..], c);
      JoinCons(s[..k], tail, [c]);
      assert s == s[..k] + ([c] + s[k + 1..]);
    }
  }

  /** Joining a part in front of a non-empty list. */
  lemma JoinCons(head: string, tail: seq<string>, sep: string)
    requires |tail| > 0
    ensures Join([head] + tail, sep) == head + (sep + Join(tail, sep))
  {
    assert ([head] + tail)[1..] == tail;
  }

  predicate IsAsciiDigit(ch: char) { '0' <= ch <= '9' }

  /** Non-empty and made of decimal digits only. */
  predicate IsNumeric(s: string)
  {
    |s| > 0 && forall i :: 0 <= i < |s| ==> IsAsciiDigit(s[i])
  }

  function DigitChar(d: nat): (ch: char)
    requires d < 10
    ensures IsAsciiDigit(ch) && ch as int - '0' as int == d
  {
    ('0' as int + d) as char
  }

  /** Decimal digits of `n`, most significant first, with no leading zero. */
  function NatToString(n: nat): (s: string)
    ensures IsNumeric(s)
    ensures |s| > 1 ==> s[0] != '0'
    decreases n
  {
    if n < 10 then [DigitChar(n)] else NatToString(n / 10) + [DigitChar(n % 10)]
  }

  /** Value of a string of decimal digits. */
  function ParseNat(s: string): (n: nat)
    requires forall i :: 0 <= i < |s| ==> IsAsciiDigit(s[i])
  {
    if |s| == 0 then 0
    else
      assert IsAsciiDigit(s[|s| - 1]);
      10 * ParseNat(s[..|s| - 1]) + (s[|s| - 1] as int - '0' as int)
  }

  /** Rendering then parsing a natural number gives it back. */
  lemma {:induction false} ParseNatToString(n: nat)
    ensures ParseNat(NatToString(n)) == n
    decreases n
  {
    if n >= 10 {
      var s := NatToString(n);
      assert s[..|s| - 1] == NatToString(n / 10);
      ParseNatToString(n / 10);
    }
  }

  /** Invariant-culture `int.ToString()`: a minus sign before the digits of a negative number. */
  function IntToString(n: int): (s: string)
    ensures n >= 0 ==> IsNumeric(s) && ParseNat(s) == n
    ensures n < 0 ==> |s| > 1 && s[0] == '-' && IsNumeric(s[1..]) && ParseNat(s[1..]) == -n
    ensures n >= 0 ==> (|s| > 1 ==> s[0] != '0')
    ensures n < 0 ==> (|s| > 2 ==> s[1] != '0')
  {
    if n >= 0 then
      ParseNatToString(n);
      NatToString(n)
    else
      ParseNatToString(-n);
      assert ("-" + NatToString(-n))[1..] == NatToString(-n);
      "-" + NatToString(-n)
  }
}
