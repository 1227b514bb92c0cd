/** The box-shadow builder (src/BoxShadows/BoxShadowBuilder.cs): classes only; its style string is always empty. */
module BoxShadows {
  import opened Options
  import opened Breakpoints
  import opened Rules
  import Render
  import Css

  /** The shadows that have a class. */
  const Values: set<string> := {"none", "base", "sm", "lg"}

  /** The rule a breakpoint call adds to an empty builder. */
  const Default := "base"

  /** The class table: `shadow` for the base shadow, `shadow-` and the size for the others. */
  function ClassOf(v: string): (c: string)
    ensures c != "" <==> v in Values
    ensures v in Values ==> c == "shadow" + (if v == "base" then "" else "-" + v)
  {
    match v
    case "none" => "shadow-none"
    case "base" => "shadow"
    case "sm" => "shadow-sm"
    case "lg" => "shadow-lg"
    case _ => ""
  }

  function Classes(v: string): seq<string> { [ClassOf(v)] }

  /** No shadow has an inline declaration. */
  function StylesOf(v: string): seq<string> { [] }

  /** A breakpoint call; an empty builder first gets the default rule. */
  function OnBreakpoint(rules: seq<Rule<string>>, b: Breakpoint): (r: seq<Rule<string>>)
    ensures |rules| == 0 ==> r == [Rule("base", Some(b))]
    ensures |rules| > 0 ==> Payloads(r) == Payloads(rules) && r[|r| - 1].bp == Some(b)
  {
    SetBreakpoint(rules, b, Default)
  }

  /** `ToClass`: the class names of the rules; empty exactly when no rule's value has a class. */
  function ToClass(rules: seq<Rule<string>>): (r: string)
    ensures r == "" <==> forall i :: 0 <= i < |rules| ==> ClassOf(rules[i].payload) == ""
  {
    Render.ToClassEmptyIffOne(rules, Classes, Render.FirstHyphen);
    Render.ToClass(rules, Classes, Render.FirstHyphen)
  }

  /** `ToStyle`: no shadow has a declaration, so the style string is empty whatever the rules. */
  function ToStyle(rules: seq<Rule<string>>): (r: string)
    ensures r == ""
  {
    Render.NoDeclNoStyle(rules, StylesOf);
    Render.ToStyle(rules, StylesOf)
  }

  /** The style string is empty whatever the rules. */
  lemma NoStyle(rules: seq<Rule<string>>)
    ensures ToStyle(rules) == ""
  {
    Render.NoDeclNoStyle(rules, StylesOf);
  }

  /** The base shadow has no hyphen, so the token goes in front: `md-shadow`. */
  lemma PrefixExample()
    ensures ToClass([Rule("base", Some(Breakpoint("md")))]) == "md" + "-" + "shadow"
  {
    assert Classes("base") == ["shadow"];
    Render.PrefixOne("base", Breakpoint("md"), Classes, "shadow", Render.FirstHyphen);
  }

  /** `shadow-lg` at `md` is `shadow-md-lg`. */
  lemma SpliceExample()
    ensures ToClass([Rule("lg", Some(Breakpoint("md")))]) == "shadow" + "-" + "md" + "-lg"
  {
    assert Classes("lg") == ["shadow" + "-lg"] by {
      assert ClassOf("lg") == "shadow-lg" == "shadow" + "-lg";
    }
    Render.SpliceOne("lg", Breakpoint("md"), Classes, "shadow", "-lg");
  }
}
