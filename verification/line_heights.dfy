/** The line-height builder (src/LineHeights/LineHeightBuilder.cs). */
module LineHeights {
  import opened Options
  import opened Breakpoints
  import opened Rules
  import Render
  import Css

  /** The line heights that have an `lh-*` class. */
  const Values: set<string> := {"1", "sm", "base", "lg"}

  /** The rule a breakpoint call adds to an empty builder. */
  const Default := "base"

  /** The class table: `lh-` and the value for the values above; nothing for anything else. */
  function ClassOf(v: string): (c: string)
    ensures c == (if v in Values then "lh-" + v else "")
  {
    match v
    case "1" => "lh-1"
    case "sm" => "lh-sm"
    case "base" => "lh-base"
    case "lg" => "lh-lg"
    case _ => ""
  }

  function Classes(v: string): seq<string> { [ClassOf(v)] }

  /** The style table; it knows exactly the values that have a class. */
  function StyleValue(v: string): (r: Option<string>)
    ensures r.Some? <==> v in Values
    ensures v == "1" ==> r == Some("1")
    ensures v == "sm" ==> r == Some("1.25")
    ensures v == "base" ==> r == Some("1.5")
    ensures v == "lg" ==> r == Some("2")
  {
    match v
    case "1" => Some("1")
    case "sm" => Some("1.25")
    case "base" => Some("1.5")
    case "lg" => Some("2")
    case _ => None
  }

  /** The style: `line-height: ` and the table's value; nothing for a value the table does not know. */
  function StylesOf(v: string): (ds: seq<string>)
    ensures StyleValue(v).None? ==> ds == []
    ensures StyleValue(v).Some? ==> |ds| == 1 && Css.Parse(ds[0]) == Some(Css.Declaration("line-height", StyleValue(v).value))
  {
    Css.Optional("line-height", StyleValue(v))
  }

  /** A breakpoint call; an empty builder first gets the default rule. */
  function OnBreakpoint(rules: seq<Rule<string>>, b: Breakpoint): (r: seq<Rule<string>>)
    ensures |rules| == 0 ==> r == [Rule("base", Some(b))]
    ensures |rules| > 0 ==> Payloads(r) == Payloads(rules) && r[|r| - 1].bp == Some(b)
  {
    SetBreakpoint(rules, b, Default)
  }

  /** `ToClass`: the class names of the rules; empty exactly when no rule's value has a class. */
  function ToClass(rules: seq<Rule<string>>): (r: string)
    ensures r == "" <==> forall i :: 0 <= i < |rules| ==> ClassOf(rules[i].payload) == ""
  {
    Render.ToClassEmptyIffOne(rules, Classes, Render.FirstHyphen);
    Render.ToClass(rules, Classes, Render.FirstHyphen)
  }

  /** `ToStyle`: the declarations of the rules; empty exactly when no rule's value is in the style table. */
  function ToStyle(rules: seq<Rule<string>>): (r: string)
    ensures r == "" <==> forall i :: 0 <= i < |rules| ==> StyleValue(rules[i].payload).None?
  {
    Render.ToStyleEmptyIff(rules, StylesOf);
    Render.ToStyle(rules, StylesOf)
  }

  /** Class and style tables know the same values: a value has a class exactly when it has a declaration. */
  lemma ClassIffStyle(v: string)
    ensures ClassOf(v) != "" <==> |StylesOf(v)| == 1
    ensures ClassOf(v) == "" <==> StylesOf(v) == []
  {
  }

  /** Only the first hyphen takes the breakpoint: `lh-sm` at `md` is `lh-md-sm`. */
  lemma SpliceExample()
    ensures ToClass([Rule("sm", Some(Breakpoint("md")))]) == "lh" + "-" + "md" + "-sm"
  {
    assert Classes("sm") == ["lh" + "-sm"] by {
      assert ClassOf("sm") == "lh-sm" == "lh" + "-sm";
    }
    Render.SpliceOne("sm", Breakpoint("md"), Classes, "lh", "-sm");
  }

  /** The declaration carries the table's value. */
  lemma StyleExample()
    ensures ToStyle([Rule("lg", None)]) == Css.Decl("line-height", "2")
  {
    assert StylesOf("lg") == [Css.Decl("line-height", "2")] by {
      assert StyleValue("lg") == Some("2");
    }
    Render.ToStyleSingle(Rule("lg", None), StylesOf, Css.Decl("line-height", "2"));
  }
}
