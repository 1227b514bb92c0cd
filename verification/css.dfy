/** CSS declarations as the builders write them: `property + ": " + value`. */
module Css {
  import opened Options
  import opened Strings

  datatype Declaration = Declaration(property: string, value: string)

  /** The text a builder appends for one declaration. */
  function Format(d: Declaration): (s: string)
    ensures |s| == |d.property| + 2 + |d.value|
  {
    d.property + ": " + d.value
  }

  /** Shorthand for a formatted declaration. */
  function Decl(property: string, value: string): (s: string)
    ensures s == Format(Declaration(property, value))
  {
    property + ": " + value
  }

  /** Reads a declaration back: the property ends at the first colon, which a space follows. */
  function Parse(s: string): (d: Option<Declaration>)
    ensures d.Some? ==> Format(d.value) == s && ':' !in d.value.property
  {
    var k := IndexOf(s, ':');
    if k < 0 || k + 1 >= |s| || s[k + 1] != ' ' then None
    else
      assert s == s[..k] + ": " + s[k + 2..];
      Some(Declaration(s[..k], s[k + 2..]))
  }

  /** Formatting then parsing gives the declaration back when its property has no colon. */
  lemma ParseFormat(d: Declaration)
    requires ':' !in d.property
    ensures Parse(Format(d)) == Some(d)
  {
    var p, rest := d.property, ": " + d.value;
    var s := p + rest;
    assert s == Format(d);
    assert IndexOf(rest, ':') == 0;
    IndexOfAfter(p, rest, ':');
    var k := IndexOf(s, ':');
    assert k == |p|;
    assert s[k + 1] == ' ';
    assert s[..k] == p;
    assert s[k + 2..] == d.value;
  }

  /** Zero or one declaration for a value a style table may not know (C# `null` skips). */
  function Optional(property: string, value: Option<string>): (ds: seq<string>)
    requires ':' !in property
    ensures value.None? ==> ds == []
    ensures value.Some? ==> |ds| == 1 && Parse(ds[0]) == Some(Declaration(property, value.value))
  {
    match value
    case None => []
    case Some(v) =>
      ParseFormat(Declaration(property, v));
      [Decl(property, v)]
  }

  /** One declaration for every non-empty raw value, none for the empty one. */
  function NonEmpty(property: string, value: string): (ds: seq<string>)
    requires ':' !in property
    ensures |ds| == (if value == "" then 0 else 1)
    ensures forall d <- ds :: Parse(d) == Some(Declaration(property, value))
  {
    Optional(property, if value == "" then None else Some(value))
  }
}
