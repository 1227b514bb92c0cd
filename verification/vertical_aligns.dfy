/** The vertical-align builder (src/VerticalAligns/VerticalAlignBuilder.cs). */
module VerticalAligns {
  import opened Options
  import opened Breakpoints
  import opened Rules
  import Keywords
  import Render
  import Css

  /** The vertical-align values that have an `align-*` class. */
  const Values: set<string> := {"baseline", "top", "middle", "bottom", "text-top", "text-bottom"}

  /** The rule a breakpoint call adds to an empty builder. */
  const Default := "baseline"

  /** The class table: `align-` and the value for the values above; none for keywords or anything else. */
  function ClassOf(v: string): (c: string)
    ensures c == (if v in Values then "align-" + v else "")
  {
    match v
    case "baseline" => "align-baseline"
    case "top" => "align-top"
    case "middle" => "align-middle"
    case "bottom" => "align-bottom"
    case "text-top" => "align-text-top"
    case "text-bottom" => "align-text-bottom"
    case _ => ""
  }

  function Classes(v: string): seq<string> { [ClassOf(v)] }

  /** The style: `vertical-align: v` for every non-empty value, keywords included. */
  function StylesOf(v: string): (ds: seq<string>)
    ensures |ds| == (if v == "" then 0 else 1)
    ensures forall d <- ds :: Css.Parse(d) == Some(Css.Declaration("vertical-align", v))
  {
    Css.NonEmpty("vertical-align", v)
  }

  /** A breakpoint call; an empty builder first gets the default rule. */
  function OnBreakpoint(rules: seq<Rule<string>>, b: Breakpoint): (r: seq<Rule<string>>)
    ensures |rules| == 0 ==> r == [Rule("baseline", Some(b))]
    ensures |rules| > 0 ==> Payloads(r) == Payloads(rules) && r[|r| - 1].bp == Some(b)
  {
    SetBreakpoint(rules, b, Default)
  }

  /** `ToClass`: the class names of the rules; empty exactly when no rule's value has a class. */
  function ToClass(rules: seq<Rule<string>>): (r: string)
    ensures r == "" <==> forall i :: 0 <= i < |rules| ==> ClassOf(rules[i].payload) == ""
  {
    Render.ToClassEmptyIffOne(rules, Classes, Render.FirstHyphen);
    Render.ToClass(rules, Classes, Render.FirstHyphen)
  }

  /** `ToStyle`: the declarations of the rules; empty exactly when every rule's value is empty. */
  function ToStyle(rules: seq<Rule<string>>): (r: string)
    ensures r == "" <==> forall i :: 0 <= i < |rules| ==> rules[i].payload == ""
  {
    Render.ToStyleEmptyIff(rules, StylesOf);
    Render.ToStyle(rules, StylesOf)
  }

  /** A global keyword has no class but is still written as the property's value. */
  lemma KeywordIsStyleOnly(v: string)
    requires v in Keywords.Global
    ensures ClassOf(v) == "" && StylesOf(v) == [Css.Decl("vertical-align", v)]
  {
  }

  /** Only the first hyphen takes the breakpoint: `align-text-top` at `md` is `align-md-text-top`. */
  lemma SpliceExample()
    ensures ToClass([Rule("text-top", Some(Breakpoint("md")))]) == "align" + "-" + "md" + "-text-top"
  {
    assert Classes("text-top") == ["align" + "-text-top"] by {
      assert ClassOf("text-top") == "align-text-top" == "align" + "-text-top";
    }
    Render.SpliceOne("text-top", Breakpoint("md"), Classes, "align", "-text-top");
  }

  /** The declaration is the property and the raw value. */
  lemma StyleExample()
    ensures ToStyle([Rule("middle", None)]) == Css.Decl("vertical-align", "middle")
  {
    assert StylesOf("middle") == [Css.Decl("vertical-align", "middle")];
    Render.ToStyleSingle(Rule("middle", None), StylesOf, Css.Decl("vertical-align", "middle"));
  }
}
