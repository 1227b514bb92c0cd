/** The visibility builder (src/Visibilities/VisibilityBuilder.cs). */
module Visibilities {
  import opened Options
  import opened Breakpoints
  import opened Rules
  import Keywords
  import Render
  import Css

  /** The visibility values, each its own class. */
  const Values: set<string> := {"invisible", "visible"}

  /** The rule a breakpoint call adds to an empty builder. */
  const Default := "visible"

  /** The class table: `invisible` and `visible` are their own classes. */
  function ClassOf(v: string): (c: string)
    ensures c == (if v in Values then v else "")
  {
    match v
    case "invisible" => "invisible"
    case "visible" => "visible"
    case _ => ""
  }

  function Classes(v: string): seq<string> { [ClassOf(v)] }

  /** The style table: `invisible` is `hidden`; `visible` and the global keywords are written as they are. */
  function StyleValue(v: string): (r: Option<string>)
    ensures r.Some? <==> v in Values || v in Keywords.Global
    ensures v == "invisible" ==> r == Some("hidden")
    ensures v != "invisible" && r.Some? ==> r.value == v
  {
    match v
    case "invisible" => Some("hidden")
    case "visible" => Some("visible")
    case "inherit" => Some("inherit")
    case "initial" => Some("initial")
    case "unset" => Some("unset")
    case "revert" => Some("revert")
    case "revert-layer" => Some("revert-layer")
    case _ => None
  }

  /** The style: `visibility: ` and the table's value; nothing for a value the table does not know. */
  function StylesOf(v: string): (ds: seq<string>)
    ensures StyleValue(v).None? ==> ds == []
    ensures StyleValue(v).Some? ==> |ds| == 1 && Css.Parse(ds[0]) == Some(Css.Declaration("visibility", StyleValue(v).value))
  {
    Css.Optional("visibility", StyleValue(v))
  }

  /** A breakpoint call; an empty builder first gets the default rule. */
  function OnBreakpoint(rules: seq<Rule<string>>, b: Breakpoint): (r: seq<Rule<string>>)
    ensures |rules| == 0 ==> r == [Rule("visible", Some(b))]
    ensures |rules| > 0 ==> Payloads(r) == Payloads(rules) && r[|r| - 1].bp == Some(b)
  {
    SetBreakpoint(rules, b, Default)
  }

  /** `ToClass`: the class names of the rules; empty exactly when no rule's value has a class. */
  function ToClass(rules: seq<Rule<string>>): (r: string)
    ensures r == "" <==> forall i :: 0 <= i < |rules| ==> ClassOf(rules[i].payload) == ""
  {
    Render.ToClassEmptyIffOne(rules, Classes, Render.FirstHyphen);
    Render.ToClass(rules, Classes, Render.FirstHyphen)
  }

  /** `ToStyle`: the declarations of the rules; empty exactly when no rule's value is in the style table. */
  function ToStyle(rules: seq<Rule<string>>): (r: string)
    ensures r == "" <==> forall i :: 0 <= i < |rules| ==> StyleValue(rules[i].payload).None?
  {
    Render.ToStyleEmptyIff(rules, StylesOf);
    Render.ToStyle(rules, StylesOf)
  }

  /** A global keyword has no class but is written as the property's value. */
  lemma KeywordIsStyleOnly(v: string)
    requires v in Keywords.Global
    ensures ClassOf(v) == "" && StylesOf(v) == [Css.Decl("visibility", v)]
  {
  }

  /** A class without a hyphen takes the token in front: `invisible` at `md` is `md-invisible`. */
  lemma PrefixExample()
    ensures ToClass([Rule("invisible", Some(Breakpoint("md")))]) == "md" + "-" + "invisible"
  {
    assert Classes("invisible") == ["invisible"];
    Render.PrefixOne("invisible", Breakpoint("md"), Classes, "invisible", Render.FirstHyphen);
  }

  /** `invisible` hides the element. */
  lemma StyleExample()
    ensures ToStyle([Rule("invisible", None)]) == Css.Decl("visibility", "hidden")
  {
    assert StylesOf("invisible") == [Css.Decl("visibility", "hidden")] by {
      assert StyleValue("invisible") == Some("hidden");
    }
    Render.ToStyleSingle(Rule("invisible", None), StylesOf, Css.Decl("visibility", "hidden"));
  }
}
