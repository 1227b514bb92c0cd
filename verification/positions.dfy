/** The position builder (src/Positions/PositionBuilder.cs). */
module Positions {
  import opened Options
  import opened Breakpoints
  import opened Rules
  import Keywords
  import Render
  import Css

  /** The position values that have a `position-*` class. */
  const Values: set<string> := {"static", "relative", "absolute", "fixed", "sticky"}

  /** The rule a breakpoint call adds to an empty builder. */
  const Default := "static"

  /** The class table: `position-` and the value for the values above; none for keywords or anything else. */
  function ClassOf(v: string): (c: string)
    ensures c == (if v in Values then "position-" + v else "")
  {
    match v
    case "static" => "position-static"
    case "relative" => "position-relative"
    case "absolute" => "position-absolute"
    case "fixed" => "position-fixed"
    case "sticky" => "position-sticky"
    case _ => ""
  }

  function Classes(v: string): seq<string> { [ClassOf(v)] }

  /** The style: `position: v` for every non-empty value, keywords included. */
  function StylesOf(v: string): (ds: seq<string>)
    ensures |ds| == (if v == "" then 0 else 1)
    ensures forall d <- ds :: Css.Parse(d) == Some(Css.Declaration("position", v))
  {
    Css.NonEmpty("position", v)
  }

  /** A breakpoint call; an empty builder first gets the default rule. */
  function OnBreakpoint(rules: seq<Rule<string>>, b: Breakpoint): (r: seq<Rule<string>>)
    ensures |rules| == 0 ==> r == [Rule("static", Some(b))]
    ensures |rules| > 0 ==> Payloads(r) == Payloads(rules) && r[|r| - 1].bp == Some(b)
  {
    SetBreakpoint(rules, b, Default)
  }

  /** `ToClass`: the class names of the rules; empty exactly when no rule's value has a class. */
  function ToClass(rules: seq<Rule<string>>): (r: string)
    ensures r == "" <==> forall i :: 0 <= i < |rules| ==> ClassOf(rules[i].payload) == ""
  {
    Render.ToClassEmptyIffOne(rules, Classes, Render.FirstHyphen);
    Render.ToClass(rules, Classes, Render.FirstHyphen)
  }

  /** `ToStyle`: the declarations of the rules; empty exactly when every rule's value is empty. */
  function ToStyle(rules: seq<Rule<string>>): (r: string)
    ensures r == "" <==> forall i :: 0 <= i < |rules| ==> rules[i].payload == ""
  {
    Render.ToStyleEmptyIff(rules, StylesOf);
    Render.ToStyle(rules, StylesOf)
  }

  /** A global keyword has no class but is still written as the property's value. */
  lemma KeywordIsStyleOnly(v: string)
    requires v in Keywords.Global
    ensures ClassOf(v) == "" && StylesOf(v) == [Css.Decl("position", v)]
  {
  }

  /** Only the first hyphen takes the breakpoint: `position-fixed` at `md` is `position-md-fixed`. */
  lemma SpliceExample()
    ensures ToClass([Rule("fixed", Some(Breakpoint("md")))]) == "position" + "-" + "md" + "-fixed"
  {
    assert Classes("fixed") == ["position" + "-fixed"] by {
      assert ClassOf("fixed") == "position-fixed" == "position" + "-fixed";
    }
    Render.SpliceOne("fixed", Breakpoint("md"), Classes, "position", "-fixed");
  }

  /** The declaration is the property and the raw value. */
  lemma StyleExample()
    ensures ToStyle([Rule("sticky", None)]) == Css.Decl("position", "sticky")
  {
    assert StylesOf("sticky") == [Css.Decl("position", "sticky")];
    Render.ToStyleSingle(Rule("sticky", None), StylesOf, Css.Decl("position", "sticky"));
  }
}
