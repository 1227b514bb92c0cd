/** The float builder (src/Floats/FloatBuilder.cs). */
module Floats {
  import opened Options
  import opened Breakpoints
  import opened Rules
  import Keywords
  import Render
  import Css

  /** The float values that have a class. */
  const Values: set<string> := {"left", "inline-start", "right", "inline-end", "none"}

  /** The rule a breakpoint call adds to an empty builder. */
  const Default := "none"

  /** The class table: physical and logical sides share the logical class (`float-start`, `float-end`). */
  function ClassOf(v: string): (c: string)
    ensures c != "" <==> v in Values
    ensures v in Values ==> c == "float-" + (if v == "none" then "none" else if v in {"left", "inline-start"} then "start" else "end")
  {
    match v
    case "left" => "float-start"
    case "inline-start" => "float-start"
    case "right" => "float-end"
    case "inline-end" => "float-end"
    case "none" => "float-none"
    case _ => ""
  }

  function Classes(v: string): seq<string> { [ClassOf(v)] }

  /** The style table: the five float values and the five global keywords are written as they are; anything else has no declaration. */
  function StyleValue(v: string): (r: Option<string>)
    ensures r.Some? <==> v in Values || v in Keywords.Global
    ensures r.Some? ==> r.value == v
  {
    match v
    case "left" => Some("left")
    case "inline-start" => Some("inline-start")
    case "right" => Some("right")
    case "inline-end" => Some("inline-end")
    case "none" => Some("none")
    case "inherit" => Some("inherit")
    case "initial" => Some("initial")
    case "unset" => Some("unset")
    case "revert" => Some("revert")
    case "revert-layer" => Some("revert-layer")
    case _ => None
  }

  /** The style: `float: ` and the table's value; nothing for a value the table does not know. */
  function StylesOf(v: string): (ds: seq<string>)
    ensures StyleValue(v).None? ==> ds == []
    ensures StyleValue(v).Some? ==> |ds| == 1 && Css.Parse(ds[0]) == Some(Css.Declaration("float", StyleValue(v).value))
  {
    Css.Optional("float", StyleValue(v))
  }

  /** A breakpoint call; an empty builder first gets the default rule. */
  function OnBreakpoint(rules: seq<Rule<string>>, b: Breakpoint): (r: seq<Rule<string>>)
    ensures |rules| == 0 ==> r == [Rule("none", Some(b))]
    ensures |rules| > 0 ==> Payloads(r) == Payloads(rules) && r[|r| - 1].bp == Some(b)
  {
    SetBreakpoint(rules, b, Default)
  }

  /** `ToClass`: the class names of the rules; empty exactly when no rule's value has a class. */
  function ToClass(rules: seq<Rule<string>>): (r: string)
    ensures r == "" <==> forall i :: 0 <= i < |rules| ==> ClassOf(rules[i].payload) == ""
  {
    Render.ToClassEmptyIffOne(rules, Classes, Render.FirstHyphen);
    Render.ToClass(rules, Classes, Render.FirstHyphen)
  }

  /** `ToStyle`: the declarations of the rules; empty exactly when no rule's value is in the style table. */
  function ToStyle(rules: seq<Rule<string>>): (r: string)
    ensures r == "" <==> forall i :: 0 <= i < |rules| ==> StyleValue(rules[i].payload).None?
  {
    Render.ToStyleEmptyIff(rules, StylesOf);
    Render.ToStyle(rules, StylesOf)
  }

  /** A global keyword has no class but is written as the property's value. */
  lemma KeywordIsStyleOnly(v: string)
    requires v in Keywords.Global
    ensures ClassOf(v) == "" && StylesOf(v) == [Css.Decl("float", v)]
  {
  }

  /** The class collapses a physical side onto its logical one, but the style keeps the value apart. */
  lemma SidesShareClassNotStyle()
    ensures ClassOf("left") == ClassOf("inline-start") && StylesOf("left") != StylesOf("inline-start")
    ensures ClassOf("right") == ClassOf("inline-end") && StylesOf("right") != StylesOf("inline-end")
  {
    assert StyleValue("left") == Some("left") && StyleValue("inline-start") == Some("inline-start");
    assert StyleValue("right") == Some("right") && StyleValue("inline-end") == Some("inline-end");
  }

  /** `left` at `md` is `float-md-start`. */
  lemma SpliceExample()
    ensures ToClass([Rule("left", Some(Breakpoint("md")))]) == "float" + "-" + "md" + "-start"
  {
    assert Classes("left") == ["float" + "-start"] by {
      assert ClassOf("left") == "float-start" == "float" + "-start";
    }
    Render.SpliceOne("left", Breakpoint("md"), Classes, "float", "-start");
  }

  /** A logical side is written as it is. */
  lemma StyleExample()
    ensures ToStyle([Rule("inline-end", None)]) == Css.Decl("float", "inline-end")
  {
    assert StylesOf("inline-end") == [Css.Decl("float", "inline-end")] by {
      assert StyleValue("inline-end") == Some("inline-end");
    }
    Render.ToStyleSingle(Rule("inline-end", None), StylesOf, Css.Decl("float", "inline-end"));
  }
}
