/** The overflow builder (src/Overflows/OverflowBuilder.cs). */
module Overflows {
  import opened Options
  import opened Breakpoints
  import opened Rules
  import Keywords
  import Render
  import Css

  /** The overflow values that have an `overflow-*` class. */
  const Values: set<string> := {"auto", "hidden", "visible", "scroll"}

  /** The rule a breakpoint call adds to an empty builder. */
  const Default := "auto"

  /** The class table: `overflow-` and the value for the values above; none for keywords or anything else. */
  function ClassOf(v: string): (c: string)
    ensures c == (if v in Values then "overflow-" + v else "")
  {
    match v
    case "auto" => "overflow-auto"
    case "hidden" => "overflow-hidden"
    case "visible" => "overflow-visible"
    case "scroll" => "overflow-scroll"
    case _ => ""
  }

  function Classes(v: string): seq<string> { [ClassOf(v)] }

  /** The style: `overflow: v` for every non-empty value, keywords included. */
  function StylesOf(v: string): (ds: seq<string>)
    ensures |ds| == (if v == "" then 0 else 1)
    ensures forall d <- ds :: Css.Parse(d) == Some(Css.Declaration("overflow", v))
  {
    Css.NonEmpty("overflow", v)
  }

  /** A breakpoint call; an empty builder first gets the default rule. */
  function OnBreakpoint(rules: seq<Rule<string>>, b: Breakpoint): (r: seq<Rule<string>>)
    ensures |rules| == 0 ==> r == [Rule("auto", Some(b))]
    ensures |rules| > 0 ==> Payloads(r) == Payloads(rules) && r[|r| - 1].bp == Some(b)
  {
    SetBreakpoint(rules, b, Default)
  }

  /** `ToClass`: the class names of the rules; empty exactly when no rule's value has a class. */
  function ToClass(rules: seq<Rule<string>>): (r: string)
    ensures r == "" <==> forall i :: 0 <= i < |rules| ==> ClassOf(rules[i].payload) == ""
  {
    Render.ToClassEmptyIffOne(rules, Classes, Render.FirstHyphen);
    Render.ToClass(rules, Classes, Render.FirstHyphen)
  }

  /** `ToStyle`: the declarations of the rules; empty exactly when every rule's value is empty. */
  function ToStyle(rules: seq<Rule<string>>): (r: string)
    ensures r == "" <==> forall i :: 0 <= i < |rules| ==> rules[i].payload == ""
  {
    Render.ToStyleEmptyIff(rules, StylesOf);
    Render.ToStyle(rules, StylesOf)
  }

  /** A global keyword has no class but is still written as the property's value. */
  lemma KeywordIsStyleOnly(v: string)
    requires v in Keywords.Global
    ensures ClassOf(v) == "" && StylesOf(v) == [Css.Decl("overflow", v)]
  {
  }

  /** Only the first hyphen takes the breakpoint: `overflow-hidden` at `md` is `overflow-md-hidden`. */
  lemma SpliceExample()
    ensures ToClass([Rule("hidden", Some(Breakpoint("md")))]) == "overflow" + "-" + "md" + "-hidden"
  {
    assert Classes("hidden") == ["overflow" + "-hidden"] by {
      assert ClassOf("hidden") == "overflow-hidden" == "overflow" + "-hidden";
    }
    Render.SpliceOne("hidden", Breakpoint("md"), Classes, "overflow", "-hidden");
  }

  /** The declaration is the property and the raw value. */
  lemma StyleExample()
    ensures ToStyle([Rule("scroll", None)]) == Css.Decl("overflow", "scroll")
  {
    assert StylesOf("scroll") == [Css.Decl("overflow", "scroll")];
    Render.ToStyleSingle(Rule("scroll", None), StylesOf, Css.Decl("overflow", "scroll"));
  }
}
