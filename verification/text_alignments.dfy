/** The text-alignment builder (src/TextAlignments/TextAlignmentBuilder.cs). */
module TextAlignments {
  import opened Options
  import opened Breakpoints
  import opened Rules
  import Keywords
  import Render
  import Css

  /** The alignments that have a `text-*` class. */
  const Values: set<string> := {"start", "center", "end"}

  /** The rule a breakpoint call adds to an empty builder. */
  const Default := "start"

  /** The class table: `text-` and the value for the values above; none for keywords or anything else. */
  function ClassOf(v: string): (c: string)
    ensures c == (if v in Values then "text-" + v else "")
  {
    match v
    case "start" => "text-start"
    case "center" => "text-center"
    case "end" => "text-end"
    case _ => ""
  }

  function Classes(v: string): seq<string> { [ClassOf(v)] }

  /** The style table: the values above and the five global keywords are written as they are; anything else has no declaration. */
  function StyleValue(v: string): (r: Option<string>)
    ensures r.Some? <==> v in Values || v in Keywords.Global
    ensures r.Some? ==> r.value == v
  {
    match v
    case "start" => Some("start")
    case "center" => Some("center")
    case "end" => Some("end")
    case "inherit" => Some("inherit")
    case "initial" => Some("initial")
    case "unset" => Some("unset")
    case "revert" => Some("revert")
    case "revert-layer" => Some("revert-layer")
    case _ => None
  }

  /** The style: `text-align: ` and the table's value; nothing for a value the table does not know. */
  function StylesOf(v: string): (ds: seq<string>)
    ensures StyleValue(v).None? ==> ds == []
    ensures StyleValue(v).Some? ==> |ds| == 1 && Css.Parse(ds[0]) == Some(Css.Declaration("text-align", StyleValue(v).value))
  {
    Css.Optional("text-align", StyleValue(v))
  }

  /** A breakpoint call; an empty builder first gets the default rule. */
  function OnBreakpoint(rules: seq<Rule<string>>, b: Breakpoint): (r: seq<Rule<string>>)
    ensures |rules| == 0 ==> r == [Rule("start", Some(b))]
    ensures |rules| > 0 ==> Payloads(r) == Payloads(rules) && r[|r| - 1].bp == Some(b)
  {
    SetBreakpoint(rules, b, Default)
  }

  /** `ToClass`: the class names of the rules; empty exactly when no rule's value has a class. */
  function ToClass(rules: seq<Rule<string>>): (r: string)
    ensures r == "" <==> forall i :: 0 <= i < |rules| ==> ClassOf(rules[i].payload) == ""
  {
    Render.ToClassEmptyIffOne(rules, Classes, Render.FirstHyphen);
    Render.ToClass(rules, Classes, Render.FirstHyphen)
  }

  /** `ToStyle`: the declarations of the rules; empty exactly when no rule's value is in the style table. */
  function ToStyle(rules: seq<Rule<string>>): (r: string)
    ensures r == "" <==> forall i :: 0 <= i < |rules| ==> StyleValue(rules[i].payload).None?
  {
    Render.ToStyleEmptyIff(rules, StylesOf);
    Render.ToStyle(rules, StylesOf)
  }

  /** A global keyword has no class but is written as the property's value. */
  lemma KeywordIsStyleOnly(v: string)
    requires v in Keywords.Global
    ensures ClassOf(v) == "" && StylesOf(v) == [Css.Decl("text-align", v)]
  {
  }

  /** Every value with a class also has a declaration. */
  lemma ClassImpliesStyle(v: string)
    requires ClassOf(v) != ""
    ensures StylesOf(v) == [Css.Decl("text-align", v)]
  {
  }

  /** Only the first hyphen takes the breakpoint: `text-center` at `md` is `text-md-center`. */
  lemma SpliceExample()
    ensures ToClass([Rule("center", Some(Breakpoint("md")))]) == "text" + "-" + "md" + "-center"
  {
    assert Classes("center") == ["text" + "-center"] by {
      assert ClassOf("center") == "text-center" == "text" + "-center";
    }
    Render.SpliceOne("center", Breakpoint("md"), Classes, "text", "-center");
  }

  /** A known value is written as it is. */
  lemma StyleExample()
    ensures ToStyle([Rule("center", None)]) == Css.Decl("text-align", "center")
  {
    assert StylesOf("center") == [Css.Decl("text-align", "center")] by {
      assert StyleValue("center") == Some("center");
    }
    Render.ToStyleSingle(Rule("center", None), StylesOf, Css.Decl("text-align", "center"));
  }
}
