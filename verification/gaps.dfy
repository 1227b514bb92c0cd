/** The gap builder (src/Gaps/GapBuilder.cs). */
module Gaps {
  import opened Options
  import opened Breakpoints
  import opened Rules
  import Render
  import Css
  import Paddings
  import Margins

  /** The scale steps that have a `gap-*` class. */
  const Values: set<string> := {"0", "1", "2", "3", "4", "5"}

  /** The rule a breakpoint call adds to an empty builder. */
  const Default := "0"

  /** The constructor: an empty size gives a builder with no rule at all. */
  function New(size: string, bp: Option<Breakpoint>): (r: seq<Rule<string>>)
    ensures r == [] <==> size == ""
    ensures r != [] ==> r == [Rule(size, bp)]
  {
    if size == "" then [] else [Rule(size, bp)]
  }

  /** The class table: `gap-` and the value for the values above; nothing for anything else. */
  function ClassOf(v: string): (c: string)
    ensures c == (if v in Values then "gap-" + v else "")
  {
    match v
    case "0" => "gap-0"
    case "1" => "gap-1"
    case "2" => "gap-2"
    case "3" => "gap-3"
    case "4" => "gap-4"
    case "5" => "gap-5"
    case _ => ""
  }

  function Classes(v: string): seq<string> { [ClassOf(v)] }

  /** The style table; it knows exactly the values that have a class. */
  function StyleValue(v: string): (r: Option<string>)
    ensures r.Some? <==> v in Values
    ensures v == "0" ==> r == Some("0")
    ensures v == "1" ==> r == Some("0.25rem")
    ensures v == "2" ==> r == Some("0.5rem")
    ensures v == "3" ==> r == Some("1rem")
    ensures v == "4" ==> r == Some("1.5rem")
    ensures v == "5" ==> r == Some("3rem")
  {
    match v
    case "0" => Some("0")
    case "1" => Some("0.25rem")
    case "2" => Some("0.5rem")
    case "3" => Some("1rem")
    case "4" => Some("1.5rem")
    case "5" => Some("3rem")
    case _ => None
  }

  /** The style: `gap: ` and the table's value; nothing for a value the table does not know. */
  function StylesOf(v: string): (ds: seq<string>)
    ensures StyleValue(v).None? ==> ds == []
    ensures StyleValue(v).Some? ==> |ds| == 1 && Css.Parse(ds[0]) == Some(Css.Declaration("gap", StyleValue(v).value))
  {
    Css.Optional("gap", StyleValue(v))
  }

  /** A breakpoint call; an empty builder first gets the default rule. */
  function OnBreakpoint(rules: seq<Rule<string>>, b: Breakpoint): (r: seq<Rule<string>>)
    ensures |rules| == 0 ==> r == [Rule("0", Some(b))]
    ensures |rules| > 0 ==> Payloads(r) == Payloads(rules) && r[|r| - 1].bp == Some(b)
  {
    SetBreakpoint(rules, b, Default)
  }

  /** `ToClass`: the class names of the rules; empty exactly when no rule's value has a class. */
  function ToClass(rules: seq<Rule<string>>): (r: string)
    ensures r == "" <==> forall i :: 0 <= i < |rules| ==> ClassOf(rules[i].payload) == ""
  {
    Render.ToClassEmptyIffOne(rules, Classes, Render.FirstHyphen);
    Render.ToClass(rules, Classes, Render.FirstHyphen)
  }

  /** `ToStyle`: the declarations of the rules; empty exactly when no rule's value is in the style table. */
  function ToStyle(rules: seq<Rule<string>>): (r: string)
    ensures r == "" <==> forall i :: 0 <= i < |rules| ==> StyleValue(rules[i].payload).None?
  {
    Render.ToStyleEmptyIff(rules, StylesOf);
    Render.ToStyle(rules, StylesOf)
  }

  /** Class and style tables know the same values: a value has a class exactly when it has a declaration. */
  lemma ClassIffStyle(v: string)
    ensures ClassOf(v) != "" <==> |StylesOf(v)| == 1
    ensures ClassOf(v) == "" <==> StylesOf(v) == []
  {
  }

  /** Only the first hyphen takes the breakpoint: `gap-3` at `md` is `gap-md-3`. */
  lemma SpliceExample()
    ensures ToClass([Rule("3", Some(Breakpoint("md")))]) == "gap" + "-" + "md" + "-3"
  {
    assert Classes("3") == ["gap" + "-3"] by {
      assert ClassOf("3") == "gap-3" == "gap" + "-3";
    }
    Render.SpliceOne("3", Breakpoint("md"), Classes, "gap", "-3");
  }

  /** The declaration carries the table's value. */
  lemma StyleExample()
    ensures ToStyle([Rule("3", None)]) == Css.Decl("gap", "1rem")
  {
    assert StylesOf("3") == [Css.Decl("gap", "1rem")] by {
      assert StyleValue("3") == Some("1rem");
    }
    Render.ToStyleSingle(Rule("3", None), StylesOf, Css.Decl("gap", "1rem"));
  }

  /** A gap step has the rem value of the same padding and margin step: the builders share one spacing scale. */
  lemma SharesSpacingScale(v: string)
    requires v in Values
    ensures StyleValue(v).Some? && StyleValue(v) == Paddings.SizeValue(v) == Margins.SizeValue(v)
  {
  }
}
