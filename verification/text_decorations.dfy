/** The text-decoration builder (src/TextDecorations/TextDecorationBuilder.cs). */
module TextDecorations {
  import opened Options
  import opened Breakpoints
  import opened Rules
  import Keywords
  import Render
  import Css

  /** The decoration lines that have a `text-decoration-*` class. */
  const Values: set<string> := {"none", "underline", "line-through"}

  /** The rule a breakpoint call adds to an empty builder. */
  const Default := "none"

  /** The class table: `text-decoration-` and the value for the values above; none for keywords or anything else. */
  function ClassOf(v: string): (c: string)
    ensures c == (if v in Values then "text-decoration-" + v else "")
  {
    match v
    case "none" => "text-decoration-none"
    case "underline" => "text-decoration-underline"
    case "line-through" => "text-decoration-line-through"
    case _ => ""
  }

  function Classes(v: string): seq<string> { [ClassOf(v)] }

  /** The style table: the values above and the five global keywords are written as they are; anything else has no declaration. */
  function StyleValue(v: string): (r: Option<string>)
    ensures r.Some? <==> v in Values || v in Keywords.Global
    ensures r.Some? ==> r.value == v
  {
    match v
    case "none" => Some("none")
    case "underline" => Some("underline")
    case "line-through" => Some("line-through")
    case "inherit" => Some("inherit")
    case "initial" => Some("initial")
    case "unset" => Some("unset")
    case "revert" => Some("revert")
    case "revert-layer" => Some("revert-layer")
    case _ => None
  }

  /** The style: `text-decoration-line: ` and the table's value; nothing for a value the table does not know. */
  function StylesOf(v: string): (ds: seq<string>)
    ensures StyleValue(v).None? ==> ds == []
    ensures StyleValue(v).Some? ==> |ds| == 1 && Css.Parse(ds[0]) == Some(Css.Declaration("text-decoration-line", StyleValue(v).value))
  {
    Css.Optional("text-decoration-line", StyleValue(v))
  }

  /** A breakpoint call; an empty builder first gets the default rule. */
  function OnBreakpoint(rules: seq<Rule<string>>, b: Breakpoint): (r: seq<Rule<string>>)
    ensures |rules| == 0 ==> r == [Rule("none", Some(b))]
    ensures |rules| > 0 ==> Payloads(r) == Payloads(rules) && r[|r| - 1].bp == Some(b)
  {
    SetBreakpoint(rules, b, Default)
  }

  /** `ToClass`: the class names of the rules; empty exactly when no rule's value has a class. */
  function ToClass(rules: seq<Rule<string>>): (r: string)
    ensures r == "" <==> forall i :: 0 <= i < |rules| ==> ClassOf(rules[i].payload) == ""
  {
    Render.ToClassEmptyIffOne(rules, Classes, Render.FirstHyphen);
    Render.ToClass(rules, Classes, Render.FirstHyphen)
  }

  /** `ToStyle`: the declarations of the rules; empty exactly when no rule's value is in the style table. */
  function ToStyle(rules: seq<Rule<string>>): (r: string)
    ensures r == "" <==> forall i :: 0 <= i < |rules| ==> StyleValue(rules[i].payload).None?
  {
    Render.ToStyleEmptyIff(rules, StylesOf);
    Render.ToStyle(rules, StylesOf)
  }

  /** A global keyword has no class but is written as the property's value. */
  lemma KeywordIsStyleOnly(v: string)
    requires v in Keywords.Global
    ensures ClassOf(v) == "" && StylesOf(v) == [Css.Decl("text-decoration-line", v)]
  {
  }

  /** Every value with a class also has a declaration. */
  lemma ClassImpliesStyle(v: string)
    requires ClassOf(v) != ""
    ensures StylesOf(v) == [Css.Decl("text-decoration-line", v)]
  {
  }

  /** Only the first hyphen takes the breakpoint: `text-decoration-underline` at `md` is `text-md-decoration-underline`. */
  lemma SpliceExample()
    ensures ToClass([Rule("underline", Some(Breakpoint("md")))]) == "text" + "-" + "md" + "-decoration-underline"
  {
    assert Classes("underline") == ["text" + "-decoration-underline"] by {
      assert ClassOf("underline") == "text-decoration-underline" == "text" + "-decoration-underline";
    }
    Render.SpliceOne("underline", Breakpoint("md"), Classes, "text", "-decoration-underline");
  }

  /** A known value is written as it is. */
  lemma StyleExample()
    ensures ToStyle([Rule("line-through", None)]) == Css.Decl("text-decoration-line", "line-through")
  {
    assert StylesOf("line-through") == [Css.Decl("text-decoration-line", "line-through")] by {
      assert StyleValue("line-through") == Some("line-through");
    }
    Render.ToStyleSingle(Rule("line-through", None), StylesOf, Css.Decl("text-decoration-line", "line-through"));
  }
}
