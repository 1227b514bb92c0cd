/** The animation builder (src/Animations/AnimationBuilder.cs). */
module Animations {
  import opened Options
  import opened Breakpoints
  import opened Rules
  import Render
  import Css

  /** The animations that have an `animate-*` class. */
  const Values: set<string> := {"none", "spin", "ping", "pulse", "bounce"}

  /** The rule a breakpoint call adds to an empty builder. */
  const Default := "none"

  /** The class table: `animate-` and the value for the values above; nothing for anything else. */
  function ClassOf(v: string): (c: string)
    ensures c == (if v in Values then "animate-" + v else "")
  {
    match v
    case "none" => "animate-none"
    case "spin" => "animate-spin"
    case "ping" => "animate-ping"
    case "pulse" => "animate-pulse"
    case "bounce" => "animate-bounce"
    case _ => ""
  }

  function Classes(v: string): seq<string> { [ClassOf(v)] }

  /** The style table; it knows exactly the values that have a class. */
  function StyleValue(v: string): (r: Option<string>)
    ensures r.Some? <==> v in Values
    ensures v == "none" ==> r == Some("none")
  {
    match v
    case "none" => Some("none")
    case "spin" => Some("spin 1s linear infinite")
    case "ping" => Some("ping 1s cubic-bezier(0, 0, 0.2, 1) infinite")
    case "pulse" => Some("pulse 2s cubic-bezier(0.4, 0, 0.6, 1) infinite")
    case "bounce" => Some("bounce 1s infinite")
    case _ => None
  }

  /** The style: `animation: ` and the table's value; nothing for a value the table does not know. */
  function StylesOf(v: string): (ds: seq<string>)
    ensures StyleValue(v).None? ==> ds == []
    ensures StyleValue(v).Some? ==> |ds| == 1 && Css.Parse(ds[0]) == Some(Css.Declaration("animation", StyleValue(v).value))
  {
    Css.Optional("animation", StyleValue(v))
  }

  /** A breakpoint call; an empty builder first gets the default rule. */
  function OnBreakpoint(rules: seq<Rule<string>>, b: Breakpoint): (r: seq<Rule<string>>)
    ensures |rules| == 0 ==> r == [Rule("none", Some(b))]
    ensures |rules| > 0 ==> Payloads(r) == Payloads(rules) && r[|r| - 1].bp == Some(b)
  {
    SetBreakpoint(rules, b, Default)
  }

  /** `ToClass`: the class names of the rules; empty exactly when no rule's value has a class. */
  function ToClass(rules: seq<Rule<string>>): (r: string)
    ensures r == "" <==> forall i :: 0 <= i < |rules| ==> ClassOf(rules[i].payload) == ""
  {
    Render.ToClassEmptyIffOne(rules, Classes, Render.FirstHyphen);
    Render.ToClass(rules, Classes, Render.FirstHyphen)
  }

  /** `ToStyle`: the declarations of the rules; empty exactly when no rule's value is in the style table. */
  function ToStyle(rules: seq<Rule<string>>): (r: string)
    ensures r == "" <==> forall i :: 0 <= i < |rules| ==> StyleValue(rules[i].payload).None?
  {
    Render.ToStyleEmptyIff(rules, StylesOf);
    Render.ToStyle(rules, StylesOf)
  }

  /** `ToString` is the class string, never the style string. */
  function ToString(rules: seq<Rule<string>>): (r: string)
    ensures r == ToClass(rules)
    ensures r == "" <==> forall i :: 0 <= i < |rules| ==> ClassOf(rules[i].payload) == ""
  {
    ToClass(rules)
  }

  /** Class and style tables know the same values: a value has a class exactly when it has a declaration. */
  lemma ClassIffStyle(v: string)
    ensures ClassOf(v) != "" <==> |StylesOf(v)| == 1
    ensures ClassOf(v) == "" <==> StylesOf(v) == []
  {
  }

  /** Only the first hyphen takes the breakpoint: `animate-spin` at `md` is `animate-md-spin`. */
  lemma SpliceExample()
    ensures ToClass([Rule("spin", Some(Breakpoint("md")))]) == "animate" + "-" + "md" + "-spin"
  {
    assert Classes("spin") == ["animate" + "-spin"] by {
      assert ClassOf("spin") == "animate-spin" == "animate" + "-spin";
    }
    Render.SpliceOne("spin", Breakpoint("md"), Classes, "animate", "-spin");
  }

  /** The declaration carries the table's value. */
  lemma StyleExample()
    ensures ToStyle([Rule("spin", None)]) == Css.Decl("animation", "spin 1s linear infinite")
  {
    assert StylesOf("spin") == [Css.Decl("animation", "spin 1s linear infinite")] by {
      assert StyleValue("spin") == Some("spin 1s linear infinite");
    }
    Render.ToStyleSingle(Rule("spin", None), StylesOf, Css.Decl("animation", "spin 1s linear infinite"));
  }
}
