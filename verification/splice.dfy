/**
 * The two ways a builder puts a breakpoint token into a class name: the
 * first-hyphen splice (`text-center` at `md` is `text-md-center`, a class
 * without an inner hyphen is prefixed) and the unconditional prefix of the
 * screen-reader, stretched-link, truncate and clearfix builders.
 */
module Splice {
  import opened Options
  import opened Strings

  /**
   * Where the first-hyphen splice inserts `bp + "-"`: just after the first
   * hyphen when that hyphen is not the first character, at the front otherwise.
   */
  function SplicePoint(cls: string): (p: nat)
    ensures p <= |cls|
    ensures p == 0 <==> IndexOf(cls, '-') <= 0
    ensures p > 0 ==> cls[p - 1] == '-' && '-' !in cls[..p - 1]
  {
    var k := IndexOf(cls, '-');
    if k > 0 then k + 1 else 0
  }

  /** The first-hyphen splice: `prefix + "-" + bp + rest` when the first hyphen is at index k > 0, else `bp + "-" + cls`. */
  function InsertBreakpoint(cls: string, bp: string): (r: string)
    ensures |r| == |cls| + |bp| + 1
  {
    var k := IndexOf(cls, '-');
    if k > 0 then cls[..k] + "-" + bp + cls[k..] else bp + "-" + cls
  }

  /**
   * Both branches of the splice are one operation: `bp + "-"` is inserted at
   * the splice point, so everything before it and everything after it are kept.
   */
  lemma InsertAtSplicePoint(cls: string, bp: string)
    ensures var p := SplicePoint(cls);
      InsertBreakpoint(cls, bp) == cls[..p] + bp + "-" + cls[p..]
  {
    var k := IndexOf(cls, '-');
    if k > 0 {
      assert cls[k..] == "-" + cls[k + 1..];
      assert cls[..k + 1] == cls[..k] + "-";
    }
  }

  /** A splice adds the token's characters and one hyphen, nothing else. */
  lemma CharsOfInsert(cls: string, bp: string, ch: char)
    ensures ch in InsertBreakpoint(cls, bp) <==> ch in cls || ch in bp || ch == '-'
  {
    var p := SplicePoint(cls);
    InsertAtSplicePoint(cls, bp);
    assert cls == cls[..p] + cls[p..];
    assert InsertBreakpoint(cls, bp) == cls[..p] + bp + "-" + cls[p..];
  }

  /** The unconditional prefix `bp + "-" + cls`. */
  function Prepend(cls: string, bp: string): (r: string)
    ensures |r| == |bp| + 1 + |cls|
    ensures r[..|bp|] == bp && r[|bp|] == '-' && r[|bp| + 1..] == cls
  {
    bp + "-" + cls
  }

  /** On a class with no hyphen after its first character the two splices agree. */
  lemma SpliceIsPrependWithoutInnerHyphen(cls: string, bp: string)
    requires IndexOf(cls, '-') <= 0
    ensures InsertBreakpoint(cls, bp) == Prepend(cls, bp)
  {
  }

  /** The splice at a known first hyphen. */
  lemma SpliceAt(cls: string, bp: string, k: nat)
    requires 0 < k < |cls| && cls[k] == '-' && '-' !in cls[..k]
    ensures InsertBreakpoint(cls, bp) == cls[..k] + "-" + bp + cls[k..]
  {
    IndexOfUnique(cls, '-', k);
  }

  /** An empty token is not the identity: `a-b` becomes `a--b`, which is why callers splice only non-empty tokens. */
  lemma EmptyTokenIsNotIdentity()
    ensures InsertBreakpoint("a-b", "") == "a--b"
  {
    SpliceAt("a-b", "", 1);
  }

  /** `r` reads as `bp + "-" + cls` for a class `cls` without an inner hyphen. */
  predicate PrefixShape(r: string, bp: string)
  {
    |bp| < |r| && r[..|bp|] == bp && r[|bp|] == '-' && IndexOf(r[|bp| + 1..], '-') <= 0
  }

  /** `r` carries `bp + "-"` just after its first hyphen, which sits at `j > 0`. */
  predicate InnerShape(r: string, bp: string, j: int)
  {
    0 < j && j + 1 + |bp| < |r| && r[j + 1..j + 1 + |bp|] == bp && r[j + 1 + |bp|] == '-'
  }

  /** A string is its prefix, one character, a middle of length `m` and the rest. */
  lemma Reassemble(r: string, j: nat, m: nat)
    requires j + 1 + m <= |r|
    ensures r == r[..j] + [r[j]] + r[j + 1..j + 1 + m] + r[j + 1 + m..]
  {
    assert r[j..] == [r[j]] + r[j + 1..];
    assert r[j + 1..] == r[j + 1..j + 1 + m] + r[j + 1 + m..];
    assert r == r[..j] + r[j..];
  }

  /** The pieces of `a + "-" + x + t` read back by position. */
  lemma Pieces(a: string, x: string, t: string)
    ensures var r := a + "-" + x + t;
      r[..|a|] == a && r[|a|] == '-' && r[|a| + 1..|a| + 1 + |x|] == x && r[|a| + 1 + |x|..] == t
      && r[|a| + 1..] == x + t && (|t| > 0 ==> r[|a| + 1 + |x|] == t[0])
  {
  }

  /** The class a breakpoint-first splice was applied to, read back. */
  lemma UndoPrefix(r: string, bp: string)
    requires PrefixShape(r, bp)
    ensures InsertBreakpoint(r[|bp| + 1..], bp) == r
  {
    assert r == bp + "-" + r[|bp| + 1..];
  }

  /** The class an inner splice was applied to, read back: drop `bp + "-"` after the first hyphen. */
  lemma UndoInner(r: string, bp: string, j: int)
    requires IndexOf(r, '-') == j && InnerShape(r, bp, j)
    ensures InsertBreakpoint(r[..j] + r[j + 1 + |bp|..], bp) == r
  {
    var a, t := r[..j], r[j + 1 + |bp|..];
    var c := a + t;
    assert c[..j] == a && c[j..] == t;
    assert t[0] == '-';
    SpliceAt(c, bp, j);
    Reassemble(r, j, |bp|);
  }

  /**
   * Recovers the class a splice was applied to, or None when `r` is not the
   * splice of any class with token `bp`.
   */
  function RemoveBreakpoint(r: string, bp: string): (c: Option<string>)
    ensures c.Some? ==> InsertBreakpoint(c.value, bp) == r
  {
    if PrefixShape(r, bp) then
      UndoPrefix(r, bp);
      Some(r[|bp| + 1..])
    else
      var j := IndexOf(r, '-');
      if InnerShape(r, bp, j) then
        UndoInner(r, bp, j);
        Some(r[..j] + r[j + 1 + |bp|..])
      else
        None
  }

  /** After an inner splice the first hyphen is still the class's first hyphen. */
  lemma InnerSpliceShape(cls: string, bp: string, k: nat)
    requires 0 < k && IndexOf(cls, '-') == k
    ensures InsertBreakpoint(cls, bp) == cls[..k] + ("-" + bp + "-" + cls[k + 1..])
    ensures IndexOf(InsertBreakpoint(cls, bp), '-') == k
  {
    assert cls[k..] == "-" + cls[k + 1..];
    assert cls[..k] + "-" + bp + cls[k..] == cls[..k] + ("-" + bp + "-" + cls[k + 1..]);
    IndexOfAfter(cls[..k], "-" + bp + "-" + cls[k + 1..], '-');
  }

  /** An inner splice with a real token never looks like a prefix splice. */
  lemma InnerSpliceIsNotPrefix(cls: string, bp: string, k: nat)
    requires bp != "" && '-' !in bp
    requires 0 < k && IndexOf(cls, '-') == k
    ensures !PrefixShape(InsertBreakpoint(cls, bp), bp)
  {
    var r := InsertBreakpoint(cls, bp);
    var a, t := cls[..k], cls[k..];
    InnerSpliceIsInner(cls, bp, k);
    SpliceAt(cls, bp, k);
    Pieces(a, bp, t);
    assert t[0] == '-';
    IndexOfAfter(bp, t, '-');
  }

  /** An inner splice with a real token is read back as one. */
  lemma InnerSpliceIsInner(cls: string, bp: string, k: nat)
    requires 0 < k && IndexOf(cls, '-') == k
    ensures var r := InsertBreakpoint(cls, bp);
      IndexOf(r, '-') == k && InnerShape(r, bp, k) && r[..k] + r[k + 1 + |bp|..] == cls
  {
    var a, t := cls[..k], cls[k..];
    SpliceAt(cls, bp, k);
    Pieces(a, bp, t);
    assert cls == a + t;
    IndexOfUnique(InsertBreakpoint(cls, bp), '-', k);
  }

  /** Every splice with a real token (non-empty, hyphen-free) can be undone. */
  lemma RemoveInsert(cls: string, bp: string)
    requires bp != "" && '-' !in bp
    ensures RemoveBreakpoint(InsertBreakpoint(cls, bp), bp) == Some(cls)
  {
    var k := IndexOf(cls, '-');
    var r := InsertBreakpoint(cls, bp);
    if k > 0 {
      InnerSpliceIsNotPrefix(cls, bp, k);
      InnerSpliceIsInner(cls, bp, k);
    } else {
      assert r == bp + "-" + cls;
      assert r[..|bp|] == bp && r[|bp| + 1..] == cls;
      assert PrefixShape(r, bp);
    }
  }
}
