/**
 * The protocol the padding, margin and border builders share: rules carry a
 * size and an element side, a side method re-targets a trailing `All` rule in
 * place, and the class `base + side + "-" + (bp + "-")? + size` is built
 * directly rather than spliced.
 */
module Spacings {
  import opened Options
  import opened Strings
  import opened Breakpoints
  import opened Rules
  import Css
  import Render
  import Splice

  /** The element sides; `Unlisted` stands for any other member, which both side switches send to their default branch. */
  datatype Side = All | Top | Right | Bottom | Left | Horizontal | LeftRight | Vertical | TopBottom | InlineStart | InlineEnd | Unlisted

  datatype Spacing = Spacing(size: string, side: Side)

  /**
   * A side method (`FromTop`, `OnX`, ...). It reuses the last rule's size and
   * breakpoint (the default size and no breakpoint on an empty list). A
   * trailing `All` rule is re-targeted in place; otherwise a rule is appended.
   */
  function AddSide(rules: seq<Rule<Spacing>>, side: Side, defaultSize: string): (r: seq<Rule<Spacing>>)
    ensures |rules| == 0 ==> r == [Rule(Spacing(defaultSize, side), None)]
    ensures |rules| > 0 ==>
      var last := rules[|rules| - 1];
      && |r| == (if last.payload.side.All? then |rules| else |rules| + 1)
      && r[..|rules| - 1] == rules[..|rules| - 1]
      && r[|r| - 1] == Rule(Spacing(last.payload.size, side), last.bp)
      && (!last.payload.side.All? ==> r[|rules| - 1] == last)
  {
    var size := if |rules| > 0 then rules[|rules| - 1].payload.size else defaultSize;
    var bp := if |rules| > 0 then rules[|rules| - 1].bp else None;
    if |rules| > 0 && rules[|rules| - 1].payload.side.All? then
      rules[..|rules| - 1] + [Rule(Spacing(size, side), bp)]
    else
      rules + [Rule(Spacing(size, side), bp)]
  }

  /** A size method: a rule for all sides, without a breakpoint, is appended. */
  function ChainSize(rules: seq<Rule<Spacing>>, size: string): (r: seq<Rule<Spacing>>)
    ensures r == rules + [Rule(Spacing(size, All), None)]
  {
    Chain(rules, Spacing(size, All))
  }

  /** A size followed by a side gives one rule for that side: the side re-targets the size's `All` rule. */
  lemma SizeThenSide(rules: seq<Rule<Spacing>>, size: string, side: Side, defaultSize: string)
    ensures AddSide(ChainSize(rules, size), side, defaultSize) == rules + [Rule(Spacing(size, side), None)]
  {
    var chained := ChainSize(rules, size);
    assert chained[..|chained| - 1] == rules;
  }

  /** A breakpoint method; an empty list gets `(defaultSize, All, bp)`. */
  function ChainBreakpoint(rules: seq<Rule<Spacing>>, b: Breakpoint, defaultSize: string): (r: seq<Rule<Spacing>>)
    ensures |rules| == 0 ==> r == [Rule(Spacing(defaultSize, All), Some(b))]
    ensures |rules| > 0 ==> |r| == |rules| && r[..|r| - 1] == rules[..|rules| - 1]
    ensures |rules| > 0 ==> r[|r| - 1] == Rule(rules[|rules| - 1].payload, Some(b))
  {
    SetBreakpoint(rules, b, Spacing(defaultSize, All))
  }

  /** The side letter of a class name: Bootstrap's `t e b s x y`, with the logical sides sharing `s`/`e`. */
  function SideToken(side: Side): (t: string)
    ensures |t| <= 1 && '-' !in t && ' ' !in t
    ensures t == "" <==> side.All? || side.Unlisted?
  {
    match side
    case All => ""
    case Top => "t"
    case Right => "e"
    case Bottom => "b"
    case Left => "s"
    case Horizontal | LeftRight => "x"
    case Vertical | TopBottom => "y"
    case InlineStart => "s"
    case InlineEnd => "e"
    case Unlisted => ""
  }

  /** The class of one rule as the builder writes it: `base side - (bp -)? size`. */
  function SpacingClass(base: string, side: Side, bpToken: string, sizeToken: string): string
  {
    base + SideToken(side) + "-" + (if bpToken != "" then bpToken + "-" else "") + sizeToken
  }

  /**
   * Building the class directly is the first-hyphen splice of the breakpoint
   * token into `base side - size`.
   */
  lemma ClassIsSplice(base: string, side: Side, bpToken: string, sizeToken: string)
    requires base != "" && '-' !in base && bpToken != ""
    ensures SpacingClass(base, side, bpToken, sizeToken)
         == Splice.InsertBreakpoint(base + SideToken(side) + "-" + sizeToken, bpToken)
  {
    var t := SideToken(side);
    var stem := base + t;
    assert '-' !in stem by {
      assert forall i :: 0 <= i < |stem| ==> stem[i] in base || stem[i] in t;
    }
    var cls := stem + "-" + sizeToken;
    var k := |stem|;
    assert cls[..k] == stem && cls[k] == '-' && cls[k..] == "-" + sizeToken;
    Splice.SpliceAt(cls, bpToken, k);
  }

  /** The candidate class of a rule before any breakpoint: none when the size has no token. */
  function Stems(base: string, sizeToken: string -> string): Spacing -> seq<string>
  {
    (p: Spacing) => var t := sizeToken(p.size); if t == "" then [] else [base + SideToken(p.side) + "-" + t]
  }

  /** The class names of a rule list, as the builder loop writes them. */
  function Classes(rules: seq<Rule<Spacing>>, base: string, sizeToken: string -> string): seq<string>
    decreases |rules|
  {
    if |rules| == 0 then []
    else
      var last := rules[|rules| - 1];
      var t := sizeToken(last.payload.size);
      Classes(rules[..|rules| - 1], base, sizeToken)
        + (if t == "" then [] else [SpacingClass(base, last.payload.side, Token(last.bp), t)])
  }

  /** `ToClass` of a spacing builder: empty exactly when no rule's size has a class token. */
  function ToClass(rules: seq<Rule<Spacing>>, base: string, sizeToken: string -> string): (r: string)
    ensures r == "" <==> Classes(rules, base, sizeToken) == []
    ensures r == "" <==> forall i :: 0 <= i < |rules| ==> sizeToken(rules[i].payload.size) == ""
  {
    ClassesNonEmpty(rules, base, sizeToken);
    ClassesNil(rules, base, sizeToken);
    Join(Classes(rules, base, sizeToken), " ")
  }

  /** The loop writes no class exactly when no rule's size has a token. */
  lemma {:induction false} ClassesNil(rules: seq<Rule<Spacing>>, base: string, sizeToken: string -> string)
    ensures Classes(rules, base, sizeToken) == [] <==> forall i :: 0 <= i < |rules| ==> sizeToken(rules[i].payload.size) == ""
    decreases |rules|
  {
    if |rules| > 0 {
      var init := rules[..|rules| - 1];
      ClassesNil(init, base, sizeToken);
      assert forall i :: 0 <= i < |init| ==> init[i] == rules[i];
    }
  }

  lemma {:induction false} ClassesNonEmpty(rules: seq<Rule<Spacing>>, base: string, sizeToken: string -> string)
    ensures forall i :: 0 <= i < |Classes(rules, base, sizeToken)| ==> Classes(rules, base, sizeToken)[i] != ""
    decreases |rules|
  {
    if |rules| > 0 {
      ClassesNonEmpty(rules[..|rules| - 1], base, sizeToken);
    }
  }

  /**
   * The direct construction agrees with the generic renderer over the stems
   * with the first-hyphen splice, so every property of the generic renderer
   * holds for the spacing builders too.
   */
  lemma {:induction false} ClassesAreGeneric(rules: seq<Rule<Spacing>>, base: string, sizeToken: string -> string)
    requires base != "" && '-' !in base
    ensures Classes(rules, base, sizeToken) == Render.ClassTokens(rules, Stems(base, sizeToken), Render.FirstHyphen)
    decreases |rules|
  {
    if |rules| > 0 {
      ClassesAreGeneric(rules[..|rules| - 1], base, sizeToken);
      var last := rules[|rules| - 1];
      var t := sizeToken(last.payload.size);
      var stems := Stems(base, sizeToken)(last.payload);
      if t != "" {
        var tok := Token(last.bp);
        var stem := base + SideToken(last.payload.side) + "-" + t;
        assert stems == [stem];
        assert Render.NonEmpty(stems) == [stem];
        var placed := Render.Place(stem, tok, Render.FirstHyphen);
        if tok != "" {
          ClassIsSplice(base, last.payload.side, tok, t);
        }
        assert placed == SpacingClass(base, last.payload.side, tok, t);
        assert Render.RuleClasses(last, Stems(base, sizeToken), Render.FirstHyphen)[0] == placed;
        assert Render.RuleClasses(last, Stems(base, sizeToken), Render.FirstHyphen)
            == [SpacingClass(base, last.payload.side, tok, t)];
      } else {
        assert stems == [];
      }
    }
  }

  /** The CSS properties one rule sets: the two sides of an axis, one side, or the shorthand. */
  function SideProperties(property: string, suffix: string, side: Side): (ps: seq<string>)
    ensures |ps| == (if IsAxis(side) then 2 else 1)
    ensures forall p <- ps :: property <= p
  {
    match side
    case All => [property + suffix]
    case Top => [property + "-top" + suffix]
    case Right => [property + "-right" + suffix]
    case Bottom => [property + "-bottom" + suffix]
    case Left => [property + "-left" + suffix]
    case Horizontal | LeftRight => [property + "-left" + suffix, property + "-right" + suffix]
    case Vertical | TopBottom => [property + "-top" + suffix, property + "-bottom" + suffix]
    case InlineStart => [property + "-inline-start" + suffix]
    case InlineEnd => [property + "-inline-end" + suffix]
    case Unlisted => [property + suffix]
  }

  /** `prop: value` for each property, in order. */
  function Decls(props: seq<string>, value: string): (ds: seq<string>)
    ensures |ds| == |props|
    ensures forall i :: 0 <= i < |props| ==> ds[i] == Css.Decl(props[i], value)
  {
    if |props| == 0 then [] else [Css.Decl(props[0], value)] + Decls(props[1..], value)
  }

  /** The declarations of one rule: none when the size has no style value. */
  function StylesOf(property: string, suffix: string, sizeValue: string -> Option<string>): Spacing -> seq<string>
  {
    (p: Spacing) => match sizeValue(p.size)
      case None => []
      case Some(v) => Decls(SideProperties(property, suffix, p.side), v)
  }

  /** `ToStyle` of a spacing builder: empty exactly when no rule's size has a style value. */
  function ToStyle(rules: seq<Rule<Spacing>>, property: string, suffix: string, sizeValue: string -> Option<string>): (r: string)
    ensures r == "" <==> forall i :: 0 <= i < |rules| ==> sizeValue(rules[i].payload.size).None?
  {
    StylesShape(property, suffix, sizeValue);
    Render.ToStyleEmptyIff(rules, StylesOf(property, suffix, sizeValue));
    Render.ToStyle(rules, StylesOf(property, suffix, sizeValue))
  }

  /** A rule's declarations are never empty, and a rule has some exactly when its size has a style value. */
  lemma StylesShape(property: string, suffix: string, sizeValue: string -> Option<string>)
    ensures forall p: Spacing, k :: 0 <= k < |StylesOf(property, suffix, sizeValue)(p)| ==> StylesOf(property, suffix, sizeValue)(p)[k] != ""
    ensures forall p: Spacing :: StylesOf(property, suffix, sizeValue)(p) == [] <==> sizeValue(p.size).None?
  {
    forall p: Spacing, k | 0 <= k < |StylesOf(property, suffix, sizeValue)(p)|
      ensures StylesOf(property, suffix, sizeValue)(p)[k] != ""
    {
      var ps := SideProperties(property, suffix, p.side);
      assert StylesOf(property, suffix, sizeValue)(p) == Decls(ps, sizeValue(p.size).value);
    }
  }

  /** Whether a side names an axis, which sets two properties. */
  predicate IsAxis(side: Side)
  {
    side.Horizontal? || side.LeftRight? || side.Vertical? || side.TopBottom?
  }

  /** One rule whose size has a value renders as the declarations of its side's properties. */
  lemma RuleStyle(rule: Rule<Spacing>, property: string, suffix: string, sizeValue: string -> Option<string>, v: string)
    requires sizeValue(rule.payload.size) == Some(v)
    ensures ToStyle([rule], property, suffix, sizeValue) == Join(Decls(SideProperties(property, suffix, rule.payload.side), v), "; ")
  {
    Render.ToStyleOne(rule, StylesOf(property, suffix, sizeValue));
  }

  /** A one-side rule renders as a single declaration. */
  lemma SideStyle(rule: Rule<Spacing>, property: string, suffix: string, sizeValue: string -> Option<string>, v: string)
    requires sizeValue(rule.payload.size) == Some(v) && !IsAxis(rule.payload.side)
    ensures ToStyle([rule], property, suffix, sizeValue) == Css.Decl(SideProperties(property, suffix, rule.payload.side)[0], v)
  {
    RuleStyle(rule, property, suffix, sizeValue, v);
    var ps := SideProperties(property, suffix, rule.payload.side);
    assert Decls(ps, v) == [Css.Decl(ps[0], v)];
  }

  /** An axis rule renders as the declarations of its two sides, separated by "; ". */
  lemma AxisStyle(rule: Rule<Spacing>, property: string, suffix: string, sizeValue: string -> Option<string>, v: string)
    requires sizeValue(rule.payload.size) == Some(v) && IsAxis(rule.payload.side)
    ensures var ps := SideProperties(property, suffix, rule.payload.side);
      ToStyle([rule], property, suffix, sizeValue) == Css.Decl(ps[0], v) + "; " + Css.Decl(ps[1], v)
  {
    RuleStyle(rule, property, suffix, sizeValue, v);
    var ps := SideProperties(property, suffix, rule.payload.side);
    var ds := Decls(ps, v);
    assert ds == [ds[0], ds[1]];
    assert ds[1..] == [ds[1]];
  }

  /** A rule whose size has no value renders no declaration. */
  lemma NoValueStyle(rule: Rule<Spacing>, property: string, suffix: string, sizeValue: string -> Option<string>)
    requires sizeValue(rule.payload.size) == None
    ensures ToStyle([rule], property, suffix, sizeValue) == ""
  {
    Render.ToStyleOne(rule, StylesOf(property, suffix, sizeValue));
  }
}
