/** The display builder (src/Displays/DisplayBuilder.cs). */
module Displays {
  import opened Options
  import opened Breakpoints
  import opened Rules
  import Keywords
  import Render
  import Css

  /** The display values that have a `d-*` class. */
  const Values: set<string> := {"none", "inline", "inline-block", "block", "flex", "inline-flex", "grid", "inline-grid", "table", "table-cell", "table-row"}

  /** The rule a breakpoint call adds to an empty builder. */
  const Default := "block"

  /** The class table: `d-` and the value for the values above; none for keywords or anything else. */
  function ClassOf(v: string): (c: string)
    ensures c == (if v in Values then "d-" + v else "")
  {
    match v
    case "none" => "d-none"
    case "inline" => "d-inline"
    case "inline-block" => "d-inline-block"
    case "block" => "d-block"
    case "flex" => "d-flex"
    case "inline-flex" => "d-inline-flex"
    case "grid" => "d-grid"
    case "inline-grid" => "d-inline-grid"
    case "table" => "d-table"
    case "table-cell" => "d-table-cell"
    case "table-row" => "d-table-row"
    case _ => ""
  }

  function Classes(v: string): seq<string> { [ClassOf(v)] }

  /** The style: `display: v` for every non-empty value, keywords included. */
  function StylesOf(v: string): (ds: seq<string>)
    ensures |ds| == (if v == "" then 0 else 1)
    ensures forall d <- ds :: Css.Parse(d) == Some(Css.Declaration("display", v))
  {
    Css.NonEmpty("display", v)
  }

  /** A breakpoint call; an empty builder first gets the default rule. */
  function OnBreakpoint(rules: seq<Rule<string>>, b: Breakpoint): (r: seq<Rule<string>>)
    ensures |rules| == 0 ==> r == [Rule("block", Some(b))]
    ensures |rules| > 0 ==> Payloads(r) == Payloads(rules) && r[|r| - 1].bp == Some(b)
  {
    SetBreakpoint(rules, b, Default)
  }

  /** `ToClass`: the class names of the rules; empty exactly when no rule's value has a class. */
  function ToClass(rules: seq<Rule<string>>): (r: string)
    ensures r == "" <==> forall i :: 0 <= i < |rules| ==> ClassOf(rules[i].payload) == ""
  {
    Render.ToClassEmptyIffOne(rules, Classes, Render.FirstHyphen);
    Render.ToClass(rules, Classes, Render.FirstHyphen)
  }

  /** `ToStyle`: the declarations of the rules; empty exactly when every rule's value is empty. */
  function ToStyle(rules: seq<Rule<string>>): (r: string)
    ensures r == "" <==> forall i :: 0 <= i < |rules| ==> rules[i].payload == ""
  {
    Render.ToStyleEmptyIff(rules, StylesOf);
    Render.ToStyle(rules, StylesOf)
  }

  /** A global keyword has no class but is still written as the property's value. */
  lemma KeywordIsStyleOnly(v: string)
    requires v in Keywords.Global
    ensures ClassOf(v) == "" && StylesOf(v) == [Css.Decl("display", v)]
  {
  }

  /** Only the first hyphen takes the breakpoint: `d-inline-flex` at `md` is `d-md-inline-flex`. */
  lemma SpliceExample()
    ensures ToClass([Rule("inline-flex", Some(Breakpoint("md")))]) == "d" + "-" + "md" + "-inline-flex"
  {
    assert Classes("inline-flex") == ["d" + "-inline-flex"] by {
      assert ClassOf("inline-flex") == "d-inline-flex" == "d" + "-inline-flex";
    }
    Render.SpliceOne("inline-flex", Breakpoint("md"), Classes, "d", "-inline-flex");
  }

  /** The declaration is the property and the raw value. */
  lemma StyleExample()
    ensures ToStyle([Rule("flex", None)]) == Css.Decl("display", "flex")
  {
    assert StylesOf("flex") == [Css.Decl("display", "flex")];
    Render.ToStyleSingle(Rule("flex", None), StylesOf, Css.Decl("display", "flex"));
  }
}
