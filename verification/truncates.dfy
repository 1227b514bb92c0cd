/** The truncate builder (src/Truncates/TruncateBuilder.cs): rules carry only a breakpoint. */
module Truncates {
  import opened Options
  import opened Breakpoints
  import opened Rules
  import Render

  /** The one class every rule renders. */
  const Class := "text-truncate"

  /** The one declaration block every rule renders. */
  const Style := "overflow: hidden; text-overflow: ellipsis; white-space: nowrap;"

  function Classes(u: ()): seq<string> { [Class] }

  function StylesOf(u: ()): seq<string> { [Style] }

  /** A breakpoint call: an empty builder gets a rule; otherwise the last rule's breakpoint is replaced. */
  function OnBreakpoint(rules: seq<Rule<()>>, b: Breakpoint): (r: seq<Rule<()>>)
    ensures |r| == if |rules| == 0 then 1 else |rules|
    ensures r[..|r| - 1] == rules[..|r| - 1] && r[|r| - 1].bp == Some(b)
  {
    SetBreakpoint(rules, b, ())
  }

  /** `ToClass`: one class per rule, so empty exactly when there is no rule. */
  function ToClass(rules: seq<Rule<()>>): (r: string)
    ensures r == "" <==> |rules| == 0
  {
    Render.ToClassEmptyIffOne(rules, Classes, Render.AlwaysPrepend);
    Render.ToClass(rules, Classes, Render.AlwaysPrepend)
  }

  /** `ToStyle`: one declaration block per rule, so empty exactly when there is no rule. */
  function ToStyle(rules: seq<Rule<()>>): (r: string)
    ensures r == "" <==> |rules| == 0
  {
    Render.ToStyleEmptyIff(rules, StylesOf);
    Render.ToStyle(rules, StylesOf)
  }

  /** `ToString` is the class string, never the style string. */
  function ToString(rules: seq<Rule<()>>): (r: string)
    ensures r == ToClass(rules)
    ensures r == "" <==> |rules| == 0
  {
    ToClass(rules)
  }

  /** Every rule renders one class and one declaration block, however many rules there are. */
  lemma OnePerRule(rules: seq<Rule<()>>)
    ensures |Render.ClassTokens(rules, Classes, Render.AlwaysPrepend)| == |rules|
    ensures |Render.StyleDecls(rules, StylesOf)| == |rules|
  {
    Render.OneClassPerRule(rules, Classes, Render.AlwaysPrepend);
    Render.OneDeclPerRule(rules, StylesOf);
  }

  /** The token always goes in front of the class. */
  lemma PrefixExample()
    ensures ToClass([Rule((), Some(Breakpoint("md")))]) == "md-text-truncate"
  {
    assert "md" + "-" + Class == "md-text-truncate";
    Render.PrefixOne((), Breakpoint("md"), Classes, Class, Render.AlwaysPrepend);
  }
}
