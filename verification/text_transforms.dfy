/** The text-transform builder (src/TextTransforms/TextTransformBuilder.cs). */
module TextTransforms {
  import opened Options
  import opened Breakpoints
  import opened Rules
  import Keywords
  import Render
  import Css

  /** The text-transform values that have a `text-*` class. */
  const Values: set<string> := {"lowercase", "uppercase", "capitalize"}

  /** The rule a breakpoint call adds to an empty builder. */
  const Default := "lowercase"

  /** The class table: `text-` and the value for the values above; none for keywords or anything else. */
  function ClassOf(v: string): (c: string)
    ensures c == (if v in Values then "text-" + v else "")
  {
    match v
    case "lowercase" => "text-lowercase"
    case "uppercase" => "text-uppercase"
    case "capitalize" => "text-capitalize"
    case _ => ""
  }

  function Classes(v: string): seq<string> { [ClassOf(v)] }

  /** The style: `text-transform: v` for every non-empty value, keywords included. */
  function StylesOf(v: string): (ds: seq<string>)
    ensures |ds| == (if v == "" then 0 else 1)
    ensures forall d <- ds :: Css.Parse(d) == Some(Css.Declaration("text-transform", v))
  {
    Css.NonEmpty("text-transform", v)
  }

  /** A breakpoint call; an empty builder first gets the default rule. */
  function OnBreakpoint(rules: seq<Rule<string>>, b: Breakpoint): (r: seq<Rule<string>>)
    ensures |rules| == 0 ==> r == [Rule("lowercase", Some(b))]
    ensures |rules| > 0 ==> Payloads(r) == Payloads(rules) && r[|r| - 1].bp == Some(b)
  {
    SetBreakpoint(rules, b, Default)
  }

  /** `ToClass`: the class names of the rules; empty exactly when no rule's value has a class. */
  function ToClass(rules: seq<Rule<string>>): (r: string)
    ensures r == "" <==> forall i :: 0 <= i < |rules| ==> ClassOf(rules[i].payload) == ""
  {
    Render.ToClassEmptyIffOne(rules, Classes, Render.FirstHyphen);
    Render.ToClass(rules, Classes, Render.FirstHyphen)
  }

  /** `ToStyle`: the declarations of the rules; empty exactly when every rule's value is empty. */
  function ToStyle(rules: seq<Rule<string>>): (r: string)
    ensures r == "" <==> forall i :: 0 <= i < |rules| ==> rules[i].payload == ""
  {
    Render.ToStyleEmptyIff(rules, StylesOf);
    Render.ToStyle(rules, StylesOf)
  }

  /** A global keyword has no class but is still written as the property's value. */
  lemma KeywordIsStyleOnly(v: string)
    requires v in Keywords.Global
    ensures ClassOf(v) == "" && StylesOf(v) == [Css.Decl("text-transform", v)]
  {
  }

  /** Only the first hyphen takes the breakpoint: `text-uppercase` at `md` is `text-md-uppercase`. */
  lemma SpliceExample()
    ensures ToClass([Rule("uppercase", Some(Breakpoint("md")))]) == "text" + "-" + "md" + "-uppercase"
  {
    assert Classes("uppercase") == ["text" + "-uppercase"] by {
      assert ClassOf("uppercase") == "text-uppercase" == "text" + "-uppercase";
    }
    Render.SpliceOne("uppercase", Breakpoint("md"), Classes, "text", "-uppercase");
  }

  /** The declaration is the property and the raw value. */
  lemma StyleExample()
    ensures ToStyle([Rule("capitalize", None)]) == Css.Decl("text-transform", "capitalize")
  {
    assert StylesOf("capitalize") == [Css.Decl("text-transform", "capitalize")];
    Render.ToStyleSingle(Rule("capitalize", None), StylesOf, Css.Decl("text-transform", "capitalize"));
  }
}
