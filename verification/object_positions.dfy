/** The object-position builder (src/ObjectPositions/ObjectPositionBuilder.cs). */
module ObjectPositions {
  import opened Options
  import opened Breakpoints
  import opened Rules
  import Render
  import Css

  /** The positions that have an `object-*` class. */
  const Values: set<string> := {"center", "top", "right", "bottom", "left", "top-left", "top-right", "bottom-left", "bottom-right"}

  /** Reference for the style value: the class suffix with every hyphen read as a space. */
  predicate Spaced(v: string, w: string)
  {
    |w| == |v| && forall i :: 0 <= i < |v| ==> w[i] == (if v[i] == '-' then ' ' else v[i])
  }

  /** The rule a breakpoint call adds to an empty builder. */
  const Default := "center"

  /** The class table: `object-` and the position. */
  function ClassOf(v: string): (c: string)
    ensures c == (if v in Values then "object-" + v else "")
  {
    match v
    case "center" => "object-center"
    case "top" => "object-top"
    case "right" => "object-right"
    case "bottom" => "object-bottom"
    case "left" => "object-left"
    case "top-left" => "object-top-left"
    case "top-right" => "object-top-right"
    case "bottom-left" => "object-bottom-left"
    case "bottom-right" => "object-bottom-right"
    case _ => ""
  }

  function Classes(v: string): seq<string> { [ClassOf(v)] }

  /** The style table: the position with its hyphen turned into a space (`top-left` is `top left`). */
  function StyleValue(v: string): (r: Option<string>)
    ensures r.Some? <==> v in Values
    ensures r.Some? ==> Spaced(v, r.value)
  {
    match v
    case "center" => Some("center")
    case "top" => Some("top")
    case "right" => Some("right")
    case "bottom" => Some("bottom")
    case "left" => Some("left")
    case "top-left" => Some("top left")
    case "top-right" => Some("top right")
    case "bottom-left" => Some("bottom left")
    case "bottom-right" => Some("bottom right")
    case _ => None
  }

  /** The style: `object-position: ` and the table's value; nothing for a value the table does not know. */
  function StylesOf(v: string): (ds: seq<string>)
    ensures StyleValue(v).None? ==> ds == []
    ensures StyleValue(v).Some? ==> |ds| == 1 && Css.Parse(ds[0]) == Some(Css.Declaration("object-position", StyleValue(v).value))
  {
    Css.Optional("object-position", StyleValue(v))
  }

  /** A breakpoint call; an empty builder first gets the default rule. */
  function OnBreakpoint(rules: seq<Rule<string>>, b: Breakpoint): (r: seq<Rule<string>>)
    ensures |rules| == 0 ==> r == [Rule("center", Some(b))]
    ensures |rules| > 0 ==> Payloads(r) == Payloads(rules) && r[|r| - 1].bp == Some(b)
  {
    SetBreakpoint(rules, b, Default)
  }

  /** `ToClass`: the class names of the rules; empty exactly when no rule's value has a class. */
  function ToClass(rules: seq<Rule<string>>): (r: string)
    ensures r == "" <==> forall i :: 0 <= i < |rules| ==> ClassOf(rules[i].payload) == ""
  {
    Render.ToClassEmptyIffOne(rules, Classes, Render.FirstHyphen);
    Render.ToClass(rules, Classes, Render.FirstHyphen)
  }

  /** `ToStyle`: the declarations of the rules; empty exactly when no rule's value is in the style table. */
  function ToStyle(rules: seq<Rule<string>>): (r: string)
    ensures r == "" <==> forall i :: 0 <= i < |rules| ==> StyleValue(rules[i].payload).None?
  {
    Render.ToStyleEmptyIff(rules, StylesOf);
    Render.ToStyle(rules, StylesOf)
  }

  /** `ToString` is the class string, never the style string. */
  function ToString(rules: seq<Rule<string>>): (r: string)
    ensures r == ToClass(rules)
    ensures r == "" <==> forall i :: 0 <= i < |rules| ==> ClassOf(rules[i].payload) == ""
  {
    ToClass(rules)
  }

  /** Class and style tables know the same values: a value has a class exactly when it has a declaration. */
  lemma ClassIffStyle(v: string)
    ensures ClassOf(v) != "" <==> |StylesOf(v)| == 1
    ensures ClassOf(v) == "" <==> StylesOf(v) == []
  {
  }

  /** Only the first hyphen takes the breakpoint: `object-top-left` at `md` is `object-md-top-left`. */
  lemma SpliceExample()
    ensures ToClass([Rule("top-left", Some(Breakpoint("md")))]) == "object" + "-" + "md" + "-top-left"
  {
    assert Classes("top-left") == ["object" + "-top-left"] by {
      assert ClassOf("top-left") == "object-top-left" == "object" + "-top-left";
    }
    Render.SpliceOne("top-left", Breakpoint("md"), Classes, "object", "-top-left");
  }

  /** A two-word position is written with a space. */
  lemma StyleExample()
    ensures ToStyle([Rule("bottom-right", None)]) == Css.Decl("object-position", "bottom right")
  {
    assert StylesOf("bottom-right") == [Css.Decl("object-position", "bottom right")] by {
      assert StyleValue("bottom-right") == Some("bottom right");
    }
    Render.ToStyleSingle(Rule("bottom-right", None), StylesOf, Css.Decl("object-position", "bottom right"));
  }
}
