/** The transform builder (src/Transforms/TransformBuilder.cs). */
module Transforms {
  import opened Options
  import opened Breakpoints
  import opened Rules
  import Render
  import Css

  /** The transforms that have a class. */
  const Values: set<string> := {"none", "scale", "rotate", "translate", "skew"}

  /** The rule a breakpoint call adds to an empty builder. */
  const Default := "none"

  /** The class table: `transform-none`, and the bare function name for the others. */
  function ClassOf(v: string): (c: string)
    ensures c != "" <==> v in Values
    ensures v in Values ==> c == (if v == "none" then "transform-none" else v)
  {
    match v
    case "none" => "transform-none"
    case "scale" => "scale"
    case "rotate" => "rotate"
    case "translate" => "translate"
    case "skew" => "skew"
    case _ => ""
  }

  function Classes(v: string): seq<string> { [ClassOf(v)] }

  /** The style table: the identity call of each transform function. */
  function StyleValue(v: string): (r: Option<string>)
    ensures r.Some? <==> v in Values
    ensures v == "none" ==> r == Some("none")
  {
    match v
    case "none" => Some("none")
    case "scale" => Some("scale(1)")
    case "rotate" => Some("rotate(0deg)")
    case "translate" => Some("translate(0, 0)")
    case "skew" => Some("skew(0deg, 0deg)")
    case _ => None
  }

  /** The style: `transform: ` and the table's value; nothing for a value the table does not know. */
  function StylesOf(v: string): (ds: seq<string>)
    ensures StyleValue(v).None? ==> ds == []
    ensures StyleValue(v).Some? ==> |ds| == 1 && Css.Parse(ds[0]) == Some(Css.Declaration("transform", StyleValue(v).value))
  {
    Css.Optional("transform", StyleValue(v))
  }

  /** A breakpoint call; an empty builder first gets the default rule. */
  function OnBreakpoint(rules: seq<Rule<string>>, b: Breakpoint): (r: seq<Rule<string>>)
    ensures |rules| == 0 ==> r == [Rule("none", Some(b))]
    ensures |rules| > 0 ==> Payloads(r) == Payloads(rules) && r[|r| - 1].bp == Some(b)
  {
    SetBreakpoint(rules, b, Default)
  }

  /** `ToClass`: the class names of the rules; empty exactly when no rule's value has a class. */
  function ToClass(rules: seq<Rule<string>>): (r: string)
    ensures r == "" <==> forall i :: 0 <= i < |rules| ==> ClassOf(rules[i].payload) == ""
  {
    Render.ToClassEmptyIffOne(rules, Classes, Render.FirstHyphen);
    Render.ToClass(rules, Classes, Render.FirstHyphen)
  }

  /** `ToStyle`: the declarations of the rules; empty exactly when no rule's value is in the style table. */
  function ToStyle(rules: seq<Rule<string>>): (r: string)
    ensures r == "" <==> forall i :: 0 <= i < |rules| ==> StyleValue(rules[i].payload).None?
  {
    Render.ToStyleEmptyIff(rules, StylesOf);
    Render.ToStyle(rules, StylesOf)
  }

  /** `ToString` is the class string, never the style string. */
  function ToString(rules: seq<Rule<string>>): (r: string)
    ensures r == ToClass(rules)
    ensures r == "" <==> forall i :: 0 <= i < |rules| ==> ClassOf(rules[i].payload) == ""
  {
    ToClass(rules)
  }

  /** Class and style tables know the same values: a value has a class exactly when it has a declaration. */
  lemma ClassIffStyle(v: string)
    ensures ClassOf(v) != "" <==> |StylesOf(v)| == 1
    ensures ClassOf(v) == "" <==> StylesOf(v) == []
  {
  }

  /** A class without a hyphen takes the token in front: `scale` at `md` is `md-scale`. */
  lemma PrefixExample()
    ensures ToClass([Rule("scale", Some(Breakpoint("md")))]) == "md" + "-" + "scale"
  {
    assert Classes("scale") == ["scale"];
    Render.PrefixOne("scale", Breakpoint("md"), Classes, "scale", Render.FirstHyphen);
  }

  /** `transform-none` at `md` is `transform-md-none`. */
  lemma SpliceExample()
    ensures ToClass([Rule("none", Some(Breakpoint("md")))]) == "transform" + "-" + "md" + "-none"
  {
    assert Classes("none") == ["transform" + "-none"] by {
      assert ClassOf("none") == "transform-none" == "transform" + "-none";
    }
    Render.SpliceOne("none", Breakpoint("md"), Classes, "transform", "-none");
  }

  /** The declaration carries the identity call. */
  lemma StyleExample()
    ensures ToStyle([Rule("rotate", None)]) == Css.Decl("transform", "rotate(0deg)")
  {
    assert StylesOf("rotate") == [Css.Decl("transform", "rotate(0deg)")] by {
      assert StyleValue("rotate") == Some("rotate(0deg)");
    }
    Render.ToStyleSingle(Rule("rotate", None), StylesOf, Css.Decl("transform", "rotate(0deg)"));
  }
}
