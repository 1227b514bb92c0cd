/** The screen-reader builder (src/ScreenReaders/ScreenReaderBuilder.cs): the one builder with a string payload that always prefixes the breakpoint. */
module ScreenReaders {
  import opened Options
  import opened Breakpoints
  import opened Rules
  import Render
  import Css

  /** The screen-reader modes. */
  const Values: set<string> := {"only", "only-focusable"}

  /** The visually-hidden declarations of `sr-only`. */
  const OnlyStyle := "position: absolute; width: 1px; height: 1px; padding: 0; margin: -1px; overflow: hidden; clip: rect(0, 0, 0, 0); white-space: nowrap; border: 0"

  /** `sr-only-focusable`: the same declarations, then a focus rule that undoes them. */
  const FocusableStyle := OnlyStyle + "; &:focus { position: static; width: auto; height: auto; padding: inherit; margin: inherit; overflow: visible; clip: auto; white-space: normal; }"

  /** The rule a breakpoint call adds to an empty builder. */
  const Default := "only"

  /** The class table: `sr-` and the mode. */
  function ClassOf(v: string): (c: string)
    ensures c != "" <==> v in Values
    ensures v in Values ==> c == "sr-" + v
  {
    match v
    case "only" => "sr-only"
    case "only-focusable" => "sr-only-focusable"
    case _ => ""
  }

  function Classes(v: string): seq<string> { [ClassOf(v)] }

  /** The style table: one literal block per mode, nothing for anything else. */
  function StylesOf(v: string): (ds: seq<string>)
    ensures |ds| == (if v in Values then 1 else 0)
    ensures v == "only" ==> ds == [OnlyStyle]
    ensures v == "only-focusable" ==> ds == [FocusableStyle]
  {
    match v
    case "only" => [OnlyStyle]
    case "only-focusable" => [FocusableStyle]
    case _ => []
  }

  /** A breakpoint call; an empty builder first gets the default rule. */
  function OnBreakpoint(rules: seq<Rule<string>>, b: Breakpoint): (r: seq<Rule<string>>)
    ensures |rules| == 0 ==> r == [Rule("only", Some(b))]
    ensures |rules| > 0 ==> Payloads(r) == Payloads(rules) && r[|r| - 1].bp == Some(b)
  {
    SetBreakpoint(rules, b, Default)
  }

  /** `ToClass`: the class names of the rules; empty exactly when no rule's value has a class. */
  function ToClass(rules: seq<Rule<string>>): (r: string)
    ensures r == "" <==> forall i :: 0 <= i < |rules| ==> ClassOf(rules[i].payload) == ""
  {
    Render.ToClassEmptyIffOne(rules, Classes, Render.AlwaysPrepend);
    Render.ToClass(rules, Classes, Render.AlwaysPrepend)
  }

  /** `ToStyle`: the declaration blocks of the rules; empty exactly when no rule names a mode. */
  function ToStyle(rules: seq<Rule<string>>): (r: string)
    ensures r == "" <==> forall i :: 0 <= i < |rules| ==> rules[i].payload !in Values
  {
    Render.ToStyleEmptyIff(rules, StylesOf);
    Render.ToStyle(rules, StylesOf)
  }

  /** `ToString` is the class string, never the style string. */
  function ToString(rules: seq<Rule<string>>): (r: string)
    ensures r == ToClass(rules)
    ensures r == "" <==> forall i :: 0 <= i < |rules| ==> rules[i].payload !in Values
  {
    ToClass(rules)
  }

  /** The focusable block is the visually-hidden block followed by a focus rule. */
  lemma FocusableExtendsOnly()
    ensures |FocusableStyle| > |OnlyStyle| && FocusableStyle[..|OnlyStyle|] == OnlyStyle
  {
  }

  /** Both tables know the two modes: a mode has a class exactly when it has a declaration block. */
  lemma ClassIffStyle(v: string)
    ensures ClassOf(v) != "" <==> |StylesOf(v)| == 1
    ensures ClassOf(v) == "" <==> StylesOf(v) == []
  {
  }

  /** Even a hyphenated class takes the token in front: `md-sr-only`. */
  lemma PrefixExample()
    ensures ToClass([Rule("only", Some(Breakpoint("md")))]) == "md" + "-" + "sr-only"
  {
    assert Classes("only") == ["sr-only"];
    Render.PrefixOne("only", Breakpoint("md"), Classes, "sr-only", Render.AlwaysPrepend);
  }
}
