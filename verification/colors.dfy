/** The color builder (src/Colors/ColorBuilder.cs): theme names render as classes, anything else as a raw style entry. */
module Colors {
  import opened Options
  import opened Breakpoints
  import opened Rules
  import Render
  import Css

  /** The theme colors, each a class name of its own. */
  const Themes: set<string> := {"primary", "secondary", "success", "danger", "warning", "info", "light", "dark", "link", "muted"}

  /** The rule a breakpoint call adds to an empty builder. */
  const Default := "inherit"

  /** The class table: a theme is its own class; any other value has none. */
  function ClassOf(v: string): (c: string)
    ensures c == (if v in Themes then v else "")
  {
    match v
    case "primary" => "primary"
    case "secondary" => "secondary"
    case "success" => "success"
    case "danger" => "danger"
    case "warning" => "warning"
    case "info" => "info"
    case "light" => "light"
    case "dark" => "dark"
    case "link" => "link"
    case "muted" => "muted"
    case _ => ""
  }

  function Classes(v: string): seq<string> { [ClassOf(v)] }

  /** The style table: a theme has no entry; any other value, the empty one included, is written as it is, with no property name. */
  function StylesOf(v: string): (ds: seq<string>)
    ensures |ds| <= 1
    ensures forall d <- ds :: d == v
  {
    match v
    case "primary" => []
    case "secondary" => []
    case "success" => []
    case "danger" => []
    case "warning" => []
    case "info" => []
    case "light" => []
    case "dark" => []
    case "link" => []
    case "muted" => []
    case _ => [v]
  }

  /** A breakpoint call; an empty builder first gets the default rule. */
  function OnBreakpoint(rules: seq<Rule<string>>, b: Breakpoint): (r: seq<Rule<string>>)
    ensures |rules| == 0 ==> r == [Rule("inherit", Some(b))]
    ensures |rules| > 0 ==> Payloads(r) == Payloads(rules) && r[|r| - 1].bp == Some(b)
  {
    SetBreakpoint(rules, b, Default)
  }

  /** `ToClass`: the theme classes of the rules; empty exactly when no rule names a theme. */
  function ToClass(rules: seq<Rule<string>>): (r: string)
    ensures r == "" <==> forall i :: 0 <= i < |rules| ==> rules[i].payload !in Themes
  {
    Render.ToClassEmptyIffOne(rules, Classes, Render.FirstHyphen);
    Render.ToClass(rules, Classes, Render.FirstHyphen)
  }

  /** `ToStyle`: the raw values of the rules; empty when every rule names a theme, and never empty once some rule has a non-empty non-theme value. */
  function ToStyle(rules: seq<Rule<string>>): (r: string)
    ensures (forall i :: 0 <= i < |rules| ==> rules[i].payload in Themes) ==> r == ""
    ensures (exists i :: 0 <= i < |rules| && rules[i].payload !in Themes && rules[i].payload != "") ==> r != ""
  {
    Render.StyleDeclsNil(rules, StylesOf);
    RawValueShows(rules);
    Render.ToStyle(rules, StylesOf)
  }

  /** A non-empty value outside the themes is written, so it keeps the style string from being empty. */
  lemma RawValueShows(rules: seq<Rule<string>>)
    ensures (exists i :: 0 <= i < |rules| && rules[i].payload !in Themes && rules[i].payload != "") ==> Render.ToStyle(rules, StylesOf) != ""
  {
    if exists i :: 0 <= i < |rules| && rules[i].payload !in Themes && rules[i].payload != "" {
      var i :| 0 <= i < |rules| && rules[i].payload !in Themes && rules[i].payload != "";
      Render.ToStyleHasDecl(rules, StylesOf, i, rules[i].payload);
    }
  }

  /** `ToString`: nothing for an empty builder, the class string when some rule has a theme class, the style string otherwise. */
  function ToString(rules: seq<Rule<string>>): (r: string)
    ensures Render.ClassTokens(rules, Classes, Render.FirstHyphen) != [] ==> r == ToClass(rules)
    ensures Render.ClassTokens(rules, Classes, Render.FirstHyphen) == [] ==> r == ToStyle(rules)
  {
    Render.ClassElseStyle(rules, Classes, Render.FirstHyphen, StylesOf)
  }

  /** Every value goes to exactly one of the two tables: themes to the class table, the rest to the style table. */
  lemma ClassOrStyle(v: string)
    ensures ClassOf(v) != "" <==> StylesOf(v) == []
    ensures StylesOf(v) != [] ==> StylesOf(v) == [v]
  {
  }

  /** A builder with no theme color renders as its style string. */
  lemma RawValuesRenderAsStyle(rules: seq<Rule<string>>)
    requires forall i :: 0 <= i < |rules| ==> rules[i].payload !in Themes
    ensures ToClass(rules) == ""
    ensures ToString(rules) == ToStyle(rules)
  {
    forall i | 0 <= i < |rules|
      ensures Render.NonEmpty(Classes(rules[i].payload)) == []
    {
      var cs := Classes(rules[i].payload);
      assert cs == [""] && cs[1..] == [];
    }
    Render.NoClassNoTokens(rules, Classes, Render.FirstHyphen);
  }

  /** A theme color renders as its class, with an empty style string. */
  lemma ThemeExample()
    ensures ToClass([Rule("primary", None)]) == "primary"
    ensures ToStyle([Rule("primary", None)]) == ""
    ensures ToString([Rule("primary", None)]) == "primary"
  {
    assert Classes("primary") == ["primary"];
    Render.ToClassOne(Rule("primary", None), Classes, Render.FirstHyphen);
    Render.ToStyleOne(Rule("primary", None), StylesOf);
  }

  /** A global keyword is not a theme: no class, and the keyword is the style string. */
  lemma KeywordExample()
    ensures ToClass([Rule("inherit", None)]) == ""
    ensures ToStyle([Rule("inherit", None)]) == "inherit"
    ensures ToString([Rule("inherit", None)]) == "inherit"
  {
    RawValuesRenderAsStyle([Rule("inherit", None)]);
    Render.ToStyleSingle(Rule("inherit", None), StylesOf, "inherit");
  }

  /** A theme on a tablet: the class has no hyphen, so the token goes in front. */
  lemma ThemeOnTablet()
    ensures ToString([Rule("primary", Some(Tablet))]) == "sm" + "-" + "primary"
  {
    assert Classes("primary") == ["primary"];
    Render.PrefixOne("primary", Tablet, Classes, "primary", Render.FirstHyphen);
  }

  /** A raw color is the whole style string. */
  lemma RawValueExample()
    ensures ToClass([Rule("#ff0000", None)]) == ""
    ensures ToStyle([Rule("#ff0000", None)]) == "#ff0000"
    ensures ToString([Rule("#ff0000", None)]) == "#ff0000"
  {
    RawValuesRenderAsStyle([Rule("#ff0000", None)]);
    Render.ToStyleSingle(Rule("#ff0000", None), StylesOf, "#ff0000");
  }

  /** A breakpoint call on an empty builder adds `inherit`, which is not a theme. */
  lemma DefaultExample()
    ensures ToString(OnBreakpoint([], Tablet)) == "inherit"
  {
    var rules := OnBreakpoint([], Tablet);
    RawValuesRenderAsStyle(rules);
    Render.ToStyleSingle(rules[0], StylesOf, "inherit");
  }
}
