/** The clip-path builder (src/ClipPaths/ClipPathBuilder.cs). */
module ClipPaths {
  import opened Options
  import opened Breakpoints
  import opened Rules
  import Render
  import Css

  /** The shapes that have a `clip-path-*` class. */
  const Values: set<string> := {"none", "circle", "ellipse", "inset", "polygon"}

  /** The rule a breakpoint call adds to an empty builder. */
  const Default := "none"

  /** The class table: `clip-path-` and the value for the values above; nothing for anything else. */
  function ClassOf(v: string): (c: string)
    ensures c == (if v in Values then "clip-path-" + v else "")
  {
    match v
    case "none" => "clip-path-none"
    case "circle" => "clip-path-circle"
    case "ellipse" => "clip-path-ellipse"
    case "inset" => "clip-path-inset"
    case "polygon" => "clip-path-polygon"
    case _ => ""
  }

  function Classes(v: string): seq<string> { [ClassOf(v)] }

  /** The style table; it knows exactly the values that have a class. */
  function StyleValue(v: string): (r: Option<string>)
    ensures r.Some? <==> v in Values
    ensures v == "none" ==> r == Some("none")
  {
    match v
    case "none" => Some("none")
    case "circle" => Some("circle(50%)")
    case "ellipse" => Some("ellipse(50% 50%)")
    case "inset" => Some("inset(10%)")
    case "polygon" => Some("polygon(0% 0%, 100% 0%, 100% 100%, 0% 100%)")
    case _ => None
  }

  /** The style: `clip-path: ` and the table's value; nothing for a value the table does not know. */
  function StylesOf(v: string): (ds: seq<string>)
    ensures StyleValue(v).None? ==> ds == []
    ensures StyleValue(v).Some? ==> |ds| == 1 && Css.Parse(ds[0]) == Some(Css.Declaration("clip-path", StyleValue(v).value))
  {
    Css.Optional("clip-path", StyleValue(v))
  }

  /** A breakpoint call; an empty builder first gets the default rule. */
  function OnBreakpoint(rules: seq<Rule<string>>, b: Breakpoint): (r: seq<Rule<string>>)
    ensures |rules| == 0 ==> r == [Rule("none", Some(b))]
    ensures |rules| > 0 ==> Payloads(r) == Payloads(rules) && r[|r| - 1].bp == Some(b)
  {
    SetBreakpoint(rules, b, Default)
  }

  /** `ToClass`: the class names of the rules; empty exactly when no rule's value has a class. */
  function ToClass(rules: seq<Rule<string>>): (r: string)
    ensures r == "" <==> forall i :: 0 <= i < |rules| ==> ClassOf(rules[i].payload) == ""
  {
    Render.ToClassEmptyIffOne(rules, Classes, Render.FirstHyphen);
    Render.ToClass(rules, Classes, Render.FirstHyphen)
  }

  /** `ToStyle`: the declarations of the rules; empty exactly when no rule's value is in the style table. */
  function ToStyle(rules: seq<Rule<string>>): (r: string)
    ensures r == "" <==> forall i :: 0 <= i < |rules| ==> StyleValue(rules[i].payload).None?
  {
    Render.ToStyleEmptyIff(rules, StylesOf);
    Render.ToStyle(rules, StylesOf)
  }

  /** `ToString` is the class string, never the style string. */
  function ToString(rules: seq<Rule<string>>): (r: string)
    ensures r == ToClass(rules)
    ensures r == "" <==> forall i :: 0 <= i < |rules| ==> ClassOf(rules[i].payload) == ""
  {
    ToClass(rules)
  }

  /** Class and style tables know the same values: a value has a class exactly when it has a declaration. */
  lemma ClassIffStyle(v: string)
    ensures ClassOf(v) != "" <==> |StylesOf(v)| == 1
    ensures ClassOf(v) == "" <==> StylesOf(v) == []
  {
  }

  /** Only the first hyphen takes the breakpoint: `clip-path-circle` at `md` is `clip-md-path-circle`. */
  lemma SpliceExample()
    ensures ToClass([Rule("circle", Some(Breakpoint("md")))]) == "clip" + "-" + "md" + "-path-circle"
  {
    assert Classes("circle") == ["clip" + "-path-circle"] by {
      assert ClassOf("circle") == "clip-path-circle" == "clip" + "-path-circle";
    }
    Render.SpliceOne("circle", Breakpoint("md"), Classes, "clip", "-path-circle");
  }

  /** The declaration carries the table's value. */
  lemma StyleExample()
    ensures ToStyle([Rule("circle", None)]) == Css.Decl("clip-path", "circle(50%)")
  {
    assert StylesOf("circle") == [Css.Decl("clip-path", "circle(50%)")] by {
      assert StyleValue("circle") == Some("circle(50%)");
    }
    Render.ToStyleSingle(Rule("circle", None), StylesOf, Css.Decl("clip-path", "circle(50%)"));
  }
}
