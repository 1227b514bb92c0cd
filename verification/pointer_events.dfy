/** The pointer-events builder (src/PointerEventss/PointerEventsBuilder.cs). */
module PointerEvents {
  import opened Options
  import opened Breakpoints
  import opened Rules
  import Keywords
  import Render
  import Css

  /** The pointer-events values that have a `pe-*` class. */
  const Values: set<string> := {"none", "auto"}

  /** The rule a breakpoint call adds to an empty builder. */
  const Default := "auto"

  /** The class table: `pe-` and the value for the values above; none for keywords or anything else. */
  function ClassOf(v: string): (c: string)
    ensures c == (if v in Values then "pe-" + v else "")
  {
    match v
    case "none" => "pe-none"
    case "auto" => "pe-auto"
    case _ => ""
  }

  function Classes(v: string): seq<string> { [ClassOf(v)] }

  /** The style table: the values above and the five global keywords are written as they are; anything else has no declaration. */
  function StyleValue(v: string): (r: Option<string>)
    ensures r.Some? <==> v in Values || v in Keywords.Global
    ensures r.Some? ==> r.value == v
  {
    match v
    case "none" => Some("none")
    case "auto" => Some("auto")
    case "inherit" => Some("inherit")
    case "initial" => Some("initial")
    case "unset" => Some("unset")
    case "revert" => Some("revert")
    case "revert-layer" => Some("revert-layer")
    case _ => None
  }

  /** The style: `pointer-events: ` and the table's value; nothing for a value the table does not know. */
  function StylesOf(v: string): (ds: seq<string>)
    ensures StyleValue(v).None? ==> ds == []
    ensures StyleValue(v).Some? ==> |ds| == 1 && Css.Parse(ds[0]) == Some(Css.Declaration("pointer-events", StyleValue(v).value))
  {
    Css.Optional("pointer-events", StyleValue(v))
  }

  /** A breakpoint call; an empty builder first gets the default rule. */
  function OnBreakpoint(rules: seq<Rule<string>>, b: Breakpoint): (r: seq<Rule<string>>)
    ensures |rules| == 0 ==> r == [Rule("auto", Some(b))]
    ensures |rules| > 0 ==> Payloads(r) == Payloads(rules) && r[|r| - 1].bp == Some(b)
  {
    SetBreakpoint(rules, b, Default)
  }

  /** `ToClass`: the class names of the rules; empty exactly when no rule's value has a class. */
  function ToClass(rules: seq<Rule<string>>): (r: string)
    ensures r == "" <==> forall i :: 0 <= i < |rules| ==> ClassOf(rules[i].payload) == ""
  {
    Render.ToClassEmptyIffOne(rules, Classes, Render.FirstHyphen);
    Render.ToClass(rules, Classes, Render.FirstHyphen)
  }

  /** `ToStyle`: the declarations of the rules; empty exactly when no rule's value is in the style table. */
  function ToStyle(rules: seq<Rule<string>>): (r: string)
    ensures r == "" <==> forall i :: 0 <= i < |rules| ==> StyleValue(rules[i].payload).None?
  {
    Render.ToStyleEmptyIff(rules, StylesOf);
    Render.ToStyle(rules, StylesOf)
  }

  /** A global keyword has no class but is written as the property's value. */
  lemma KeywordIsStyleOnly(v: string)
    requires v in Keywords.Global
    ensures ClassOf(v) == "" && StylesOf(v) == [Css.Decl("pointer-events", v)]
  {
  }

  /** Every value with a class also has a declaration. */
  lemma ClassImpliesStyle(v: string)
    requires ClassOf(v) != ""
    ensures StylesOf(v) == [Css.Decl("pointer-events", v)]
  {
  }

  /** Only the first hyphen takes the breakpoint: `pe-auto` at `md` is `pe-md-auto`. */
  lemma SpliceExample()
    ensures ToClass([Rule("auto", Some(Breakpoint("md")))]) == "pe" + "-" + "md" + "-auto"
  {
    assert Classes("auto") == ["pe" + "-auto"] by {
      assert ClassOf("auto") == "pe-auto" == "pe" + "-auto";
    }
    Render.SpliceOne("auto", Breakpoint("md"), Classes, "pe", "-auto");
  }

  /** A known value is written as it is. */
  lemma StyleExample()
    ensures ToStyle([Rule("none", None)]) == Css.Decl("pointer-events", "none")
  {
    assert StylesOf("none") == [Css.Decl("pointer-events", "none")] by {
      assert StyleValue("none") == Some("none");
    }
    Render.ToStyleSingle(Rule("none", None), StylesOf, Css.Decl("pointer-events", "none"));
  }
}
