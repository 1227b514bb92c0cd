/** The stretched link builder (src/StretchedLinks/StretchedLinkBuilder.cs): rules carry only a breakpoint. */
module StretchedLinks {
  import opened Options
  import opened Breakpoints
  import opened Rules
  import Render

  /** The one class every rule renders. */
  const Class := "stretched-link"

  /** The one declaration block every rule renders. */
  const Style := "position: absolute; top: 0; right: 0; bottom: 0; left: 0; z-index: 1; pointer-events: auto; content: \"\";"

  function Classes(u: ()): seq<string> { [Class] }

  function StylesOf(u: ()): seq<string> { [Style] }

  /** A breakpoint call: an empty builder gets a rule; otherwise the last rule's breakpoint is replaced. */
  function OnBreakpoint(rules: seq<Rule<()>>, b: Breakpoint): (r: seq<Rule<()>>)
    ensures |r| == if |rules| == 0 then 1 else |rules|
    ensures r[..|r| - 1] == rules[..|r| - 1] && r[|r| - 1].bp == Some(b)
  {
    SetBreakpoint(rules, b, ())
  }

  /** `ToClass`: one class per rule, so empty exactly when there is no rule. */
  function ToClass(rules: seq<Rule<()>>): (r: string)
    ensures r == "" <==> |rules| == 0
  {
    Render.ToClassEmptyIffOne(rules, Classes, Render.AlwaysPrepend);
    Render.ToClass(rules, Classes, Render.AlwaysPrepend)
  }

  /** `ToStyle`: one declaration block per rule, so empty exactly when there is no rule. */
  function ToStyle(rules: seq<Rule<()>>): (r: string)
    ensures r == "" <==> |rules| == 0
  {
    Render.ToStyleEmptyIff(rules, StylesOf);
    Render.ToStyle(rules, StylesOf)
  }

  /** `ToString` is the class string, never the style string. */
  function ToString(rules: seq<Rule<()>>): (r: string)
    ensures r == ToClass(rules)
    ensures r == "" <==> |rules| == 0
  {
    ToClass(rules)
  }

  /** Every rule renders one class and one declaration block, however many rules there are. */
  lemma OnePerRule(rules: seq<Rule<()>>)
    ensures |Render.ClassTokens(rules, Classes, Render.AlwaysPrepend)| == |rules|
    ensures |Render.StyleDecls(rules, StylesOf)| == |rules|
  {
    Render.OneClassPerRule(rules, Classes, Render.AlwaysPrepend);
    Render.OneDeclPerRule(rules, StylesOf);
  }

  /** The token always goes in front of the class. */
  lemma PrefixExample()
    ensures ToClass([Rule((), Some(Breakpoint("md")))]) == "md-stretched-link"
  {
    assert "md" + "-" + Class == "md-stretched-link";
    Render.PrefixOne((), Breakpoint("md"), Classes, Class, Render.AlwaysPrepend);
  }
}
