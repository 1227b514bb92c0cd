/** The transition builder (src/Transitions/TransitionBuilder.cs). */
module Transitions {
  import opened Options
  import opened Breakpoints
  import opened Rules
  import Render
  import Css

  /** The transitions that have a `transition-*` class. */
  const Values: set<string> := {"none", "all", "colors", "opacity", "shadow", "transform"}

  /** The rule a breakpoint call adds to an empty builder. */
  const Default := "none"

  /** The class table: `transition-` and the value for the values above; nothing for anything else. */
  function ClassOf(v: string): (c: string)
    ensures c == (if v in Values then "transition-" + v else "")
  {
    match v
    case "none" => "transition-none"
    case "all" => "transition-all"
    case "colors" => "transition-colors"
    case "opacity" => "transition-opacity"
    case "shadow" => "transition-shadow"
    case "transform" => "transition-transform"
    case _ => ""
  }

  function Classes(v: string): seq<string> { [ClassOf(v)] }

  /** The style table; it knows exactly the values that have a class. */
  function StyleValue(v: string): (r: Option<string>)
    ensures r.Some? <==> v in Values
    ensures v == "none" ==> r == Some("none")
  {
    match v
    case "none" => Some("none")
    case "all" => Some("all 150ms ease-in-out")
    case "colors" => Some("color 150ms ease-in-out, background-color 150ms ease-in-out, border-color 150ms ease-in-out")
    case "opacity" => Some("opacity 150ms ease-in-out")
    case "shadow" => Some("box-shadow 150ms ease-in-out")
    case "transform" => Some("transform 150ms ease-in-out")
    case _ => None
  }

  /** The style: `transition: ` and the table's value; nothing for a value the table does not know. */
  function StylesOf(v: string): (ds: seq<string>)
    ensures StyleValue(v).None? ==> ds == []
    ensures StyleValue(v).Some? ==> |ds| == 1 && Css.Parse(ds[0]) == Some(Css.Declaration("transition", StyleValue(v).value))
  {
    Css.Optional("transition", StyleValue(v))
  }

  /** A breakpoint call; an empty builder first gets the default rule. */
  function OnBreakpoint(rules: seq<Rule<string>>, b: Breakpoint): (r: seq<Rule<string>>)
    ensures |rules| == 0 ==> r == [Rule("none", Some(b))]
    ensures |rules| > 0 ==> Payloads(r) == Payloads(rules) && r[|r| - 1].bp == Some(b)
  {
    SetBreakpoint(rules, b, Default)
  }

  /** `ToClass`: the class names of the rules; empty exactly when no rule's value has a class. */
  function ToClass(rules: seq<Rule<string>>): (r: string)
    ensures r == "" <==> forall i :: 0 <= i < |rules| ==> ClassOf(rules[i].payload) == ""
  {
    Render.ToClassEmptyIffOne(rules, Classes, Render.FirstHyphen);
    Render.ToClass(rules, Classes, Render.FirstHyphen)
  }

  /** `ToStyle`: the declarations of the rules; empty exactly when no rule's value is in the style table. */
  function ToStyle(rules: seq<Rule<string>>): (r: string)
    ensures r == "" <==> forall i :: 0 <= i < |rules| ==> StyleValue(rules[i].payload).None?
  {
    Render.ToStyleEmptyIff(rules, StylesOf);
    Render.ToStyle(rules, StylesOf)
  }

  /** `ToString` is the class string, never the style string. */
  function ToString(rules: seq<Rule<string>>): (r: string)
    ensures r == ToClass(rules)
    ensures r == "" <==> forall i :: 0 <= i < |rules| ==> ClassOf(rules[i].payload) == ""
  {
    ToClass(rules)
  }

  /** Class and style tables know the same values: a value has a class exactly when it has a declaration. */
  lemma ClassIffStyle(v: string)
    ensures ClassOf(v) != "" <==> |StylesOf(v)| == 1
    ensures ClassOf(v) == "" <==> StylesOf(v) == []
  {
  }

  /** Only the first hyphen takes the breakpoint: `transition-all` at `md` is `transition-md-all`. */
  lemma SpliceExample()
    ensures ToClass([Rule("all", Some(Breakpoint("md")))]) == "transition" + "-" + "md" + "-all"
  {
    assert Classes("all") == ["transition" + "-all"] by {
      assert ClassOf("all") == "transition-all" == "transition" + "-all";
    }
    Render.SpliceOne("all", Breakpoint("md"), Classes, "transition", "-all");
  }

  /** The declaration carries the table's value. */
  lemma StyleExample()
    ensures ToStyle([Rule("opacity", None)]) == Css.Decl("transition", "opacity 150ms ease-in-out")
  {
    assert StylesOf("opacity") == [Css.Decl("transition", "opacity 150ms ease-in-out")] by {
      assert StyleValue("opacity") == Some("opacity 150ms ease-in-out");
    }
    Render.ToStyleSingle(Rule("opacity", None), StylesOf, Css.Decl("transition", "opacity 150ms ease-in-out"));
  }
}
