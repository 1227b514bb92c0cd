/** The interaction builder (src/Interactions/InteractionBuilder.cs): one rule sets user-select and pointer-events together. */
module Interactions {
  import opened Options
  import opened Breakpoints
  import opened Rules
  import Strings
  import Render
  import Css

  /** The two values one interaction rule carries. */
  datatype Interaction = Interaction(userSelect: string, pointerEvents: string)

  /** The presets of the fluent API: `None`, `All`, `NoSelect`, `NoPointer`, `Text`, `AllText`. */
  const PresetNone := Interaction("none", "none")
  const PresetAll := Interaction("auto", "auto")
  const PresetNoSelect := Interaction("none", "auto")
  const PresetNoPointer := Interaction("auto", "none")
  const PresetText := Interaction("text", "auto")
  const PresetAllText := Interaction("all", "auto")

  /** The rule a breakpoint call adds to an empty builder: both properties `auto`. */
  const Default := PresetAll

  const UserSelectValues: set<string> := {"none", "auto", "text", "all"}
  const PointerEventsValues: set<string> := {"none", "auto"}

  /** The user-select class table. */
  function UserSelectClass(v: string): (c: string)
    ensures c == (if v in UserSelectValues then "user-select-" + v else "")
  {
    match v
    case "none" => "user-select-none"
    case "auto" => "user-select-auto"
    case "text" => "user-select-text"
    case "all" => "user-select-all"
    case _ => ""
  }

  /** The pointer-events class table. */
  function PointerEventsClass(v: string): (c: string)
    ensures c == (if v in PointerEventsValues then "pointer-events-" + v else "")
  {
    match v
    case "none" => "pointer-events-none"
    case "auto" => "pointer-events-auto"
    case _ => ""
  }

  /** The user-select class first, then the pointer-events class; an unknown value drops only its own class. */
  function Classes(p: Interaction): seq<string>
  {
    [UserSelectClass(p.userSelect), PointerEventsClass(p.pointerEvents)]
  }

  /** The user-select style table: the known values are written as they are. */
  function UserSelectValue(v: string): (r: Option<string>)
    ensures r.Some? <==> v in UserSelectValues
    ensures r.Some? ==> r.value == v
  {
    match v
    case "none" => Some("none")
    case "auto" => Some("auto")
    case "text" => Some("text")
    case "all" => Some("all")
    case _ => None
  }

  /** The pointer-events style table: the known values are written as they are. */
  function PointerEventsValue(v: string): (r: Option<string>)
    ensures r.Some? <==> v in PointerEventsValues
    ensures r.Some? ==> r.value == v
  {
    match v
    case "none" => Some("none")
    case "auto" => Some("auto")
    case _ => None
  }

  /** The declarations: `user-select` first, then `pointer-events`, each only when its value is known. */
  function StylesOf(p: Interaction): (ds: seq<string>)
    ensures |ds| == (if p.userSelect in UserSelectValues then 1 else 0) + (if p.pointerEvents in PointerEventsValues then 1 else 0)
    ensures p.userSelect in UserSelectValues ==> Css.Parse(ds[0]) == Some(Css.Declaration("user-select", p.userSelect))
    ensures p.pointerEvents in PointerEventsValues ==> Css.Parse(ds[|ds| - 1]) == Some(Css.Declaration("pointer-events", p.pointerEvents))
  {
    Css.Optional("user-select", UserSelectValue(p.userSelect)) + Css.Optional("pointer-events", PointerEventsValue(p.pointerEvents))
  }

  /** A breakpoint call; an empty builder first gets the default rule. */
  function OnBreakpoint(rules: seq<Rule<Interaction>>, b: Breakpoint): (r: seq<Rule<Interaction>>)
    ensures |rules| == 0 ==> r == [Rule(Interaction("auto", "auto"), Some(b))]
    ensures |rules| > 0 ==> Payloads(r) == Payloads(rules) && r[|r| - 1].bp == Some(b)
  {
    SetBreakpoint(rules, b, Default)
  }

  /** `ToClass`: the class names of the rules; empty exactly when no rule has a known value for either property. */
  function ToClass(rules: seq<Rule<Interaction>>): (r: string)
    ensures r == "" <==> forall i :: 0 <= i < |rules| ==>
      rules[i].payload.userSelect !in UserSelectValues && rules[i].payload.pointerEvents !in PointerEventsValues
  {
    Render.ToClassEmptyIffPair(rules, Classes, Render.FirstHyphen);
    Render.ToClass(rules, Classes, Render.FirstHyphen)
  }

  /** `ToStyle`: the declarations of the rules; empty exactly when no rule has a known value for either property. */
  function ToStyle(rules: seq<Rule<Interaction>>): (r: string)
    ensures r == "" <==> forall i :: 0 <= i < |rules| ==>
      rules[i].payload.userSelect !in UserSelectValues && rules[i].payload.pointerEvents !in PointerEventsValues
  {
    Render.ToStyleEmptyIff(rules, StylesOf);
    Render.ToStyle(rules, StylesOf)
  }

  /** `ToString` is the class string, never the style string. */
  function ToString(rules: seq<Rule<Interaction>>): (r: string)
    ensures r == ToClass(rules)
    ensures r == "" <==> forall i :: 0 <= i < |rules| ==>
      rules[i].payload.userSelect !in UserSelectValues && rules[i].payload.pointerEvents !in PointerEventsValues
  {
    ToClass(rules)
  }

  /** Each property has a class exactly when it has a declaration, so a rule has as many classes as declarations. */
  lemma ClassesMatchStyles(p: Interaction)
    ensures |Render.NonEmpty(Classes(p))| == |StylesOf(p)|
  {
    var cs := Classes(p);
    assert cs[1..] == [cs[1]] && cs[1..][1..] == [];
  }

  /** With both values known, a rule at a breakpoint renders both classes, the token spliced after `user` and after `pointer`. */
  lemma BothClassesSpliced(p: Interaction, b: Breakpoint)
    requires p.userSelect in UserSelectValues && p.pointerEvents in PointerEventsValues && b.value != ""
    ensures ToClass([Rule(p, Some(b))]) ==
      ("user" + "-" + b.value + ("-select-" + p.userSelect)) + " " + ("pointer" + "-" + b.value + ("-events-" + p.pointerEvents))
  {
    var u, e := "-select-" + p.userSelect, "-events-" + p.pointerEvents;
    assert UserSelectClass(p.userSelect) == "user" + u by {
      assert "user-select-" == "user" + "-select-";
    }
    assert PointerEventsClass(p.pointerEvents) == "pointer" + e by {
      assert "pointer-events-" == "pointer" + "-events-";
    }
    Render.PlaceSplice("user", u, b.value);
    Render.PlaceSplice("pointer", e, b.value);
    Render.ToClassPair(Rule(p, Some(b)), Classes, Render.FirstHyphen);
  }

  /** The preset's two declarations, user-select first. */
  lemma NoSelectStyle()
    ensures ToStyle([Rule(PresetNoSelect, None)]) == "user-select: none" + "; " + "pointer-events: auto"
  {
    var ds := ["user-select: none", "pointer-events: auto"];
    assert Css.Decl("user-select", "none") == ds[0];
    assert Css.Decl("pointer-events", "auto") == ds[1];
    assert StylesOf(PresetNoSelect) == ds;
    Render.ToStyleOne(Rule(PresetNoSelect, None), StylesOf);
    assert Strings.Join(ds, "; ") == ds[0] + "; " + Strings.Join(ds[1..], "; ");
  }
}
