/**
 * The dual renderer shared by the builders. `ToClass` maps every rule through
 * the builder's class table, drops empty names, places the rule's breakpoint
 * token and joins with single spaces; `ToStyle` maps every rule through the
 * style table and joins the declarations with "; ". Tables are parameters, so
 * one rule yields any number of classes or declarations.
 */
module Render {
  import opened Options
  import opened Strings
  import opened Breakpoints
  import opened Rules
  import Splice

  /** How a builder puts a breakpoint token into a class name. */
  datatype SpliceKind = FirstHyphen | AlwaysPrepend

  /** A class name with a breakpoint token placed; an empty token is never spliced. */
  function Place(cls: string, token: string, kind: SpliceKind): (r: string)
    ensures token == "" ==> r == cls
    ensures token != "" ==> |r| == |cls| + |token| + 1
    ensures |r| >= |cls|
    ensures forall ch :: ch in r ==> ch in cls || ch in token || ch == '-'
  {
    if token == "" then cls
    else match kind
      case FirstHyphen =>
        assert forall ch :: ch in Splice.InsertBreakpoint(cls, token) ==> ch in cls || ch in token || ch == '-' by {
          forall ch | ch in Splice.InsertBreakpoint(cls, token) {
            Splice.CharsOfInsert(cls, token, ch);
          }
        }
        Splice.InsertBreakpoint(cls, token)
      case AlwaysPrepend => Splice.Prepend(cls, token)
  }

  /** The non-empty candidates, in table order. */
  function NonEmpty(cs: seq<string>): (r: seq<string>)
    ensures forall c :: c in r <==> c in cs && c != ""
    ensures forall i :: 0 <= i < |r| ==> r[i] != ""
    ensures |r| <= |cs|
  {
    if |cs| == 0 then [] else (if cs[0] == "" then [] else [cs[0]]) + NonEmpty(cs[1..])
  }

  /** The class names one rule contributes, each with the rule's breakpoint token placed. */
  function RuleClasses<P>(rule: Rule<P>, classesOf: P -> seq<string>, kind: SpliceKind): (r: seq<string>)
    ensures |r| == |NonEmpty(classesOf(rule.payload))|
    ensures forall i :: 0 <= i < |r| ==> r[i] != ""
  {
    var cs := NonEmpty(classesOf(rule.payload));
    seq(|cs|, i requires 0 <= i < |cs| => Place(cs[i], Token(rule.bp), kind))
  }

  /** All class names of a rule list, rule by rule. */
  function ClassTokens<P>(rules: seq<Rule<P>>, classesOf: P -> seq<string>, kind: SpliceKind): (r: seq<string>)
    ensures forall i :: 0 <= i < |r| ==> r[i] != ""
    decreases |rules|
  {
    if |rules| == 0 then []
    else ClassTokens(rules[..|rules| - 1], classesOf, kind) + RuleClasses(rules[|rules| - 1], classesOf, kind)
  }

  /** `ToClass`: the class names joined by single spaces; empty exactly when no rule has a class. */
  function ToClass<P>(rules: seq<Rule<P>>, classesOf: P -> seq<string>, kind: SpliceKind): (r: string)
    ensures r == "" <==> ClassTokens(rules, classesOf, kind) == []
  {
    Join(ClassTokens(rules, classesOf, kind), " ")
  }

  /** One more rule adds its own class names at the end. */
  lemma ClassTokensSnoc<P>(rules: seq<Rule<P>>, last: Rule<P>, classesOf: P -> seq<string>, kind: SpliceKind)
    ensures ClassTokens(rules + [last], classesOf, kind) == ClassTokens(rules, classesOf, kind) + RuleClasses(last, classesOf, kind)
  {
    var rs := rules + [last];
    assert rs[..|rs| - 1] == rules && rs[|rs| - 1] == last;
  }

  /** Class names are produced rule by rule: the names of a concatenation are the concatenated names. */
  lemma {:induction false} ClassTokensAppend<P>(a: seq<Rule<P>>, b: seq<Rule<P>>, classesOf: P -> seq<string>, kind: SpliceKind)
    ensures ClassTokens(a + b, classesOf, kind) == ClassTokens(a, classesOf, kind) + ClassTokens(b, classesOf, kind)
    decreases |b|
  {
    if |b| == 0 {
      assert a + b == a;
    } else {
      var init, last := b[..|b| - 1], b[|b| - 1];
      var ta, ti, tl := ClassTokens(a, classesOf, kind), ClassTokens(init, classesOf, kind), RuleClasses(last, classesOf, kind);
      calc {
        ClassTokens(a + b, classesOf, kind);
        == { assert a + b == (a + init) + [last]; ClassTokensSnoc(a + init, last, classesOf, kind); }
        ClassTokens(a + init, classesOf, kind) + tl;
        == { ClassTokensAppend(a, init, classesOf, kind); }
        ta + ti + tl;
        == ta + (ti + tl);
        == { assert b == init + [last]; ClassTokensSnoc(init, last, classesOf, kind); }
        ta + ClassTokens(b, classesOf, kind);
      }
    }
  }

  /** Rendering respects rule order: the class string of a concatenation glues the two class strings with one space. */
  lemma ToClassAppend<P>(a: seq<Rule<P>>, b: seq<Rule<P>>, classesOf: P -> seq<string>, kind: SpliceKind)
    ensures ToClass(a + b, classesOf, kind) == Glue(ToClass(a, classesOf, kind), ToClass(b, classesOf, kind), " ")
  {
    var ta, tb := ClassTokens(a, classesOf, kind), ClassTokens(b, classesOf, kind);
    ClassTokensAppend(a, b, classesOf, kind);
    if |ta| > 0 && |tb| > 0 {
      JoinAppend(ta, tb, " ");
    } else if |ta| == 0 {
      assert ta + tb == tb;
    } else {
      assert ta + tb == ta;
    }
  }

  /** A one-class rule renders alone as its class with its breakpoint placed, or as nothing when the table has no class. */
  lemma ToClassOne<P>(rule: Rule<P>, classesOf: P -> seq<string>, kind: SpliceKind)
    requires |classesOf(rule.payload)| == 1
    ensures var c := classesOf(rule.payload)[0];
      ToClass([rule], classesOf, kind) == if c == "" then "" else Place(c, Token(rule.bp), kind)
  {
    var cs := classesOf(rule.payload);
    assert [rule][..0] == [];
    assert cs[1..] == [];
    assert ClassTokens([rule], classesOf, kind) == RuleClasses(rule, classesOf, kind);
  }

  /** A rule with two present classes renders alone as the two names, each with the breakpoint placed, one space between. */
  lemma ToClassPair<P>(rule: Rule<P>, classesOf: P -> seq<string>, kind: SpliceKind)
    requires |classesOf(rule.payload)| == 2
    requires classesOf(rule.payload)[0] != "" && classesOf(rule.payload)[1] != ""
    ensures var cs, t := classesOf(rule.payload), Token(rule.bp);
      ToClass([rule], classesOf, kind) == Place(cs[0], t, kind) + " " + Place(cs[1], t, kind)
  {
    var cs := classesOf(rule.payload);
    assert [rule][..0] == [];
    assert NonEmpty(cs) == cs by {
      assert cs[1..][1..] == [];
      assert NonEmpty(cs[1..]) == [cs[1]];
      assert cs == [cs[0]] + [cs[1]];
    }
    var t := Token(rule.bp);
    var placed := [Place(cs[0], t, kind), Place(cs[1], t, kind)];
    assert ClassTokens([rule], classesOf, kind) == RuleClasses(rule, classesOf, kind) == placed;
    assert Join(placed, " ") == placed[0] + " " + Join(placed[1..], " ");
  }

  /** Rules whose tables yield no class name contribute no class at all. */
  lemma {:induction false} NoClassNoTokens<P>(rules: seq<Rule<P>>, classesOf: P -> seq<string>, kind: SpliceKind)
    requires forall i :: 0 <= i < |rules| ==> NonEmpty(classesOf(rules[i].payload)) == []
    ensures ClassTokens(rules, classesOf, kind) == []
    ensures ToClass(rules, classesOf, kind) == ""
    decreases |rules|
  {
    if |rules| > 0 {
      NoClassNoTokens(rules[..|rules| - 1], classesOf, kind);
    }
  }

  /** The filter keeps nothing exactly when every candidate is empty. */
  lemma NonEmptyNil(cs: seq<string>)
    ensures NonEmpty(cs) == [] <==> forall j :: 0 <= j < |cs| ==> cs[j] == ""
  {
    if NonEmpty(cs) != [] {
      assert NonEmpty(cs)[0] in NonEmpty(cs);
    }
    forall j | 0 <= j < |cs| && cs[j] != ""
      ensures NonEmpty(cs) != []
    {
      assert cs[j] in cs;
    }
  }

  /** No class name at all exactly when no rule's table yields a non-empty candidate. */
  lemma {:induction false} ClassTokensNil<P>(rules: seq<Rule<P>>, classesOf: P -> seq<string>, kind: SpliceKind)
    ensures ClassTokens(rules, classesOf, kind) == [] <==> forall i :: 0 <= i < |rules| ==> NonEmpty(classesOf(rules[i].payload)) == []
    decreases |rules|
  {
    if |rules| > 0 {
      var init := rules[..|rules| - 1];
      ClassTokensNil(init, classesOf, kind);
      assert forall i :: 0 <= i < |init| ==> init[i] == rules[i];
    }
  }

  /** The class string is empty exactly when every rule's table yields only empty names. */
  lemma ToClassEmptyIff<P>(rules: seq<Rule<P>>, classesOf: P -> seq<string>, kind: SpliceKind)
    ensures ToClass(rules, classesOf, kind) == ""
        <==> forall i, j :: 0 <= i < |rules| && 0 <= j < |classesOf(rules[i].payload)| ==> classesOf(rules[i].payload)[j] == ""
  {
    ClassTokensNil(rules, classesOf, kind);
    forall i | 0 <= i < |rules| {
      NonEmptyNil(classesOf(rules[i].payload));
    }
  }

  /** With a one-name table: the class string is empty exactly when no rule's name is present. */
  lemma ToClassEmptyIffOne<P>(rules: seq<Rule<P>>, classesOf: P -> seq<string>, kind: SpliceKind)
    requires forall v: P :: |classesOf(v)| == 1
    ensures ToClass(rules, classesOf, kind) == "" <==> forall i :: 0 <= i < |rules| ==> classesOf(rules[i].payload)[0] == ""
  {
    ToClassEmptyIff(rules, classesOf, kind);
  }

  /** With a two-name table: the class string is empty exactly when no rule has either name present. */
  lemma ToClassEmptyIffPair<P>(rules: seq<Rule<P>>, classesOf: P -> seq<string>, kind: SpliceKind)
    requires forall v: P :: |classesOf(v)| == 2
    ensures ToClass(rules, classesOf, kind) == ""
        <==> forall i :: 0 <= i < |rules| ==> classesOf(rules[i].payload)[0] == "" && classesOf(rules[i].payload)[1] == ""
  {
    ToClassEmptyIff(rules, classesOf, kind);
  }

  lemma {:induction false} TokensSpaceFree<P>(rules: seq<Rule<P>>, classesOf: P -> seq<string>, kind: SpliceKind)
    requires forall v: P, i :: 0 <= i < |classesOf(v)| ==> ' ' !in classesOf(v)[i]
    requires forall j :: 0 <= j < |rules| ==> ' ' !in Token(rules[j].bp)
    ensures forall i :: 0 <= i < |ClassTokens(rules, classesOf, kind)| ==> ' ' !in ClassTokens(rules, classesOf, kind)[i]
    decreases |rules|
  {
    if |rules| > 0 {
      var init, last := rules[..|rules| - 1], rules[|rules| - 1];
      TokensSpaceFree(init, classesOf, kind);
      var cs := NonEmpty(classesOf(last.payload));
      var rc := RuleClasses(last, classesOf, kind);
      forall i | 0 <= i < |rc|
        ensures ' ' !in rc[i]
      {
        assert cs[i] in classesOf(last.payload);
        assert ' ' !in Token(rules[|rules| - 1].bp);
      }
    }
  }

  /**
   * The class string can be read back: splitting it at spaces gives the class
   * names of the rules, in order, when no name and no token has a space.
   */
  lemma ToClassDecodes<P>(rules: seq<Rule<P>>, classesOf: P -> seq<string>, kind: SpliceKind)
    requires forall v: P, i :: 0 <= i < |classesOf(v)| ==> ' ' !in classesOf(v)[i]
    requires forall j :: 0 <= j < |rules| ==> ' ' !in Token(rules[j].bp)
    requires ClassTokens(rules, classesOf, kind) != []
    ensures Split(ToClass(rules, classesOf, kind), ' ') == ClassTokens(rules, classesOf, kind)
  {
    TokensSpaceFree(rules, classesOf, kind);
    SplitJoin(ClassTokens(rules, classesOf, kind), ' ');
  }

  /** A class whose first hyphen ends a non-empty head takes the token right after that head. */
  lemma PlaceSplice(head: string, rest: string, token: string)
    requires head != "" && '-' !in head && |rest| > 0 && rest[0] == '-' && token != ""
    ensures Place(head + rest, token, FirstHyphen) == head + "-" + token + rest
  {
    var cls := head + rest;
    assert cls[..|head|] == head && cls[|head|..] == rest;
    Splice.SpliceAt(cls, token, |head|);
  }

  /** A one-class rule at a breakpoint renders as its class with the token spliced after the class's first hyphen. */
  lemma SpliceOne<P>(v: P, b: Breakpoint, classesOf: P -> seq<string>, head: string, rest: string)
    requires classesOf(v) == [head + rest] && b.value != ""
    requires head != "" && '-' !in head && |rest| > 0 && rest[0] == '-'
    ensures ToClass([Rule(v, Some(b))], classesOf, FirstHyphen) == head + "-" + b.value + rest
  {
    var cls := head + rest;
    ToClassOne(Rule(v, Some(b)), classesOf, FirstHyphen);
    assert cls[..|head|] == head && cls[|head|..] == rest;
    Splice.SpliceAt(cls, b.value, |head|);
  }

  /** A one-class rule at a breakpoint renders as the token, a hyphen and the class when the class has no inner hyphen or the builder always prefixes. */
  lemma PrefixOne<P>(v: P, b: Breakpoint, classesOf: P -> seq<string>, cls: string, kind: SpliceKind)
    requires classesOf(v) == [cls] && cls != "" && b.value != ""
    requires kind.FirstHyphen? ==> '-' !in cls
    ensures ToClass([Rule(v, Some(b))], classesOf, kind) == b.value + "-" + cls
  {
    ToClassOne(Rule(v, Some(b)), classesOf, kind);
  }

  /** A table that yields one non-empty class for every payload skips no rule: one class per rule. */
  lemma {:induction false} OneClassPerRule<P>(rules: seq<Rule<P>>, classesOf: P -> seq<string>, kind: SpliceKind)
    requires forall v: P :: |classesOf(v)| == 1 && classesOf(v)[0] != ""
    ensures |ClassTokens(rules, classesOf, kind)| == |rules|
    decreases |rules|
  {
    if |rules| > 0 {
      var cs := classesOf(rules[|rules| - 1].payload);
      assert cs == [cs[0]];
      assert NonEmpty(cs) == [cs[0]] + NonEmpty(cs[1..]);
      OneClassPerRule(rules[..|rules| - 1], classesOf, kind);
    }
  }

  /** All declarations of a rule list, rule by rule. */
  function StyleDecls<P>(rules: seq<Rule<P>>, stylesOf: P -> seq<string>): (r: seq<string>)
    ensures forall d :: d in r ==> exists i :: 0 <= i < |rules| && d in stylesOf(rules[i].payload)
    decreases |rules|
  {
    if |rules| == 0 then []
    else
      var init := rules[..|rules| - 1];
      var r := StyleDecls(init, stylesOf) + stylesOf(rules[|rules| - 1].payload);
      assert forall i :: 0 <= i < |init| ==> init[i] == rules[i];
      r
  }

  /** `ToStyle`: the declarations joined by "; ". */
  function ToStyle<P>(rules: seq<Rule<P>>, stylesOf: P -> seq<string>): (r: string)
    ensures |rules| == 0 ==> r == ""
  {
    Join(StyleDecls(rules, stylesOf), "; ")
  }

  /** A single rule renders as its own declarations joined by "; ". */
  lemma ToStyleOne<P>(rule: Rule<P>, stylesOf: P -> seq<string>)
    ensures ToStyle([rule], stylesOf) == Join(stylesOf(rule.payload), "; ")
  {
    assert [rule][..0] == [];
    assert StyleDecls([rule], stylesOf) == [] + stylesOf(rule.payload);
    assert [] + stylesOf(rule.payload) == stylesOf(rule.payload);
  }

  /** A rule whose table yields exactly one declaration renders as that declaration. */
  lemma ToStyleSingle<P>(rule: Rule<P>, stylesOf: P -> seq<string>, d: string)
    requires stylesOf(rule.payload) == [d]
    ensures ToStyle([rule], stylesOf) == d
  {
    ToStyleOne(rule, stylesOf);
  }

  /** Declarations are produced rule by rule. */
  lemma {:induction false} StyleDeclsAppend<P>(a: seq<Rule<P>>, b: seq<Rule<P>>, stylesOf: P -> seq<string>)
    ensures StyleDecls(a + b, stylesOf) == StyleDecls(a, stylesOf) + StyleDecls(b, stylesOf)
    decreases |b|
  {
    if |b| == 0 {
      assert a + b == a;
    } else {
      var ab := a + b;
      assert ab[..|ab| - 1] == a + b[..|b| - 1];
      StyleDeclsAppend(a, b[..|b| - 1], stylesOf);
    }
  }

  /** Rendering respects rule order: the style string of a concatenation is the two style strings with "; " between. */
  lemma ToStyleAppend<P>(a: seq<Rule<P>>, b: seq<Rule<P>>, stylesOf: P -> seq<string>)
    requires StyleDecls(a, stylesOf) != [] && StyleDecls(b, stylesOf) != []
    ensures ToStyle(a + b, stylesOf) == ToStyle(a, stylesOf) + "; " + ToStyle(b, stylesOf)
  {
    StyleDeclsAppend(a, b, stylesOf);
    JoinAppend(StyleDecls(a, stylesOf), StyleDecls(b, stylesOf), "; ");
  }

  /** Styles ignore breakpoints: two lists with the same payloads render the same declarations. */
  lemma {:induction false} StyleIgnoresBreakpoints<P>(a: seq<Rule<P>>, b: seq<Rule<P>>, stylesOf: P -> seq<string>)
    requires Payloads(a) == Payloads(b)
    ensures StyleDecls(a, stylesOf) == StyleDecls(b, stylesOf)
    decreases |a|
  {
    if |a| > 0 {
      assert |b| == |a|;
      assert a[|a| - 1].payload == Payloads(a)[|a| - 1];
      assert Payloads(a[..|a| - 1]) == Payloads(b[..|b| - 1]) by {
        assert Payloads(a)[..|a| - 1] == Payloads(a[..|a| - 1]);
        assert Payloads(b)[..|b| - 1] == Payloads(b[..|b| - 1]);
      }
      StyleIgnoresBreakpoints(a[..|a| - 1], b[..|b| - 1], stylesOf);
    }
  }

  /** A table that always yields one declaration gives exactly one declaration per rule. */
  lemma {:induction false} OneDeclPerRule<P>(rules: seq<Rule<P>>, stylesOf: P -> seq<string>)
    requires forall v: P :: |stylesOf(v)| == 1
    ensures |StyleDecls(rules, stylesOf)| == |rules|
    decreases |rules|
  {
    if |rules| > 0 {
      OneDeclPerRule(rules[..|rules| - 1], stylesOf);
    }
  }

  /** A table that never yields a declaration renders every rule list as the empty style string. */
  lemma {:induction false} NoDeclNoStyle<P>(rules: seq<Rule<P>>, stylesOf: P -> seq<string>)
    requires forall v: P :: stylesOf(v) == []
    ensures StyleDecls(rules, stylesOf) == []
    ensures ToStyle(rules, stylesOf) == ""
    decreases |rules|
  {
    if |rules| > 0 {
      NoDeclNoStyle(rules[..|rules| - 1], stylesOf);
    }
  }

  /** No declaration at all exactly when no rule's table yields one. */
  lemma {:induction false} StyleDeclsNil<P>(rules: seq<Rule<P>>, stylesOf: P -> seq<string>)
    ensures StyleDecls(rules, stylesOf) == [] <==> forall i :: 0 <= i < |rules| ==> stylesOf(rules[i].payload) == []
    decreases |rules|
  {
    if |rules| > 0 {
      var init := rules[..|rules| - 1];
      StyleDeclsNil(init, stylesOf);
      assert forall i :: 0 <= i < |init| ==> init[i] == rules[i];
    }
  }

  /** Every declaration of every rule is in the rendered list. */
  lemma {:induction false} StyleDeclsHas<P>(rules: seq<Rule<P>>, stylesOf: P -> seq<string>, i: nat, d: string)
    requires i < |rules| && d in stylesOf(rules[i].payload)
    ensures d in StyleDecls(rules, stylesOf)
    decreases |rules|
  {
    if i < |rules| - 1 {
      var init := rules[..|rules| - 1];
      assert init[i] == rules[i];
      StyleDeclsHas(init, stylesOf, i, d);
    }
  }

  /** The style string is empty exactly when there is no declaration or only one empty declaration. */
  lemma ToStyleEmptyShape<P>(rules: seq<Rule<P>>, stylesOf: P -> seq<string>)
    ensures ToStyle(rules, stylesOf) == "" <==> StyleDecls(rules, stylesOf) == [] || StyleDecls(rules, stylesOf) == [""]
  {
  }

  /** A non-empty declaration of any rule makes the style string non-empty. */
  lemma ToStyleHasDecl<P>(rules: seq<Rule<P>>, stylesOf: P -> seq<string>, i: nat, d: string)
    requires i < |rules| && d in stylesOf(rules[i].payload) && d != ""
    ensures ToStyle(rules, stylesOf) != ""
  {
    StyleDeclsHas(rules, stylesOf, i, d);
    ToStyleEmptyShape(rules, stylesOf);
  }

  /** With tables that never yield an empty declaration: the style string is empty exactly when no rule has a declaration. */
  lemma ToStyleEmptyIff<P>(rules: seq<Rule<P>>, stylesOf: P -> seq<string>)
    requires forall v: P, k :: 0 <= k < |stylesOf(v)| ==> stylesOf(v)[k] != ""
    ensures ToStyle(rules, stylesOf) == "" <==> forall i :: 0 <= i < |rules| ==> stylesOf(rules[i].payload) == []
  {
    StyleDeclsNil(rules, stylesOf);
    ToStyleEmptyShape(rules, stylesOf);
    var ds := StyleDecls(rules, stylesOf);
    if |ds| > 0 {
      assert ds[0] in ds;
    }
  }

  /** `ToString` of the builders that prefer classes: empty list "", else the class string when it is non-empty, else the style string. */
  function ClassElseStyle<P>(rules: seq<Rule<P>>, classesOf: P -> seq<string>, kind: SpliceKind, stylesOf: P -> seq<string>): (r: string)
    ensures r == "" || r == ToClass(rules, classesOf, kind) || r == ToStyle(rules, stylesOf)
    ensures ClassTokens(rules, classesOf, kind) != [] ==> r == ToClass(rules, classesOf, kind)
    ensures ClassTokens(rules, classesOf, kind) == [] ==> r == ToStyle(rules, stylesOf)
  {
    if |rules| == 0 then ""
    else
      var c := ToClass(rules, classesOf, kind);
      if c != "" then c else ToStyle(rules, stylesOf)
  }
}
