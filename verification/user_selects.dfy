/** The user-select builder (src/UserSelects/UserSelectBuilder.cs). */
module UserSelects {
  import opened Options
  import opened Breakpoints
  import opened Rules
  import Keywords
  import Render
  import Css

  /** The user-select values that have a `user-select-*` class. */
  const Values: set<string> := {"none", "auto", "all"}

  /** The rule a breakpoint call adds to an empty builder. */
  const Default := "auto"

  /** The class table: `user-select-` and the value for the values above; none for keywords or anything else. */
  function ClassOf(v: string): (c: string)
    ensures c == (if v in Values then "user-select-" + v else "")
  {
    match v
    case "none" => "user-select-none"
    case "auto" => "user-select-auto"
    case "all" => "user-select-all"
    case _ => ""
  }

  function Classes(v: string): seq<string> { [ClassOf(v)] }

  /** The style: `user-select: v` for every non-empty value, keywords included. */
  function StylesOf(v: string): (ds: seq<string>)
    ensures |ds| == (if v == "" then 0 else 1)
    ensures forall d <- ds :: Css.Parse(d) == Some(Css.Declaration("user-select", v))
  {
    Css.NonEmpty("user-select", v)
  }

  /** A breakpoint call; an empty builder first gets the default rule. */
  function OnBreakpoint(rules: seq<Rule<string>>, b: Breakpoint): (r: seq<Rule<string>>)
    ensures |rules| == 0 ==> r == [Rule("auto", Some(b))]
    ensures |rules| > 0 ==> Payloads(r) == Payloads(rules) && r[|r| - 1].bp == Some(b)
  {
    SetBreakpoint(rules, b, Default)
  }

  /** `ToClass`: the class names of the rules; empty exactly when no rule's value has a class. */
  function ToClass(rules: seq<Rule<string>>): (r: string)
    ensures r == "" <==> forall i :: 0 <= i < |rules| ==> ClassOf(rules[i].payload) == ""
  {
    Render.ToClassEmptyIffOne(rules, Classes, Render.FirstHyphen);
    Render.ToClass(rules, Classes, Render.FirstHyphen)
  }

  /** `ToStyle`: the declarations of the rules; empty exactly when every rule's value is empty. */
  function ToStyle(rules: seq<Rule<string>>): (r: string)
    ensures r == "" <==> forall i :: 0 <= i < |rules| ==> rules[i].payload == ""
  {
    Render.ToStyleEmptyIff(rules, StylesOf);
    Render.ToStyle(rules, StylesOf)
  }

  /** A global keyword has no class but is still written as the property's value. */
  lemma KeywordIsStyleOnly(v: string)
    requires v in Keywords.Global
    ensures ClassOf(v) == "" && StylesOf(v) == [Css.Decl("user-select", v)]
  {
  }

  /** Only the first hyphen takes the breakpoint: `user-select-all` at `md` is `user-md-select-all`. */
  lemma SpliceExample()
    ensures ToClass([Rule("all", Some(Breakpoint("md")))]) == "user" + "-" + "md" + "-select-all"
  {
    assert Classes("all") == ["user" + "-select-all"] by {
      assert ClassOf("all") == "user-select-all" == "user" + "-select-all";
    }
    Render.SpliceOne("all", Breakpoint("md"), Classes, "user", "-select-all");
  }

  /** The declaration is the property and the raw value. */
  lemma StyleExample()
    ensures ToStyle([Rule("none", None)]) == Css.Decl("user-select", "none")
  {
    assert StylesOf("none") == [Css.Decl("user-select", "none")];
    Render.ToStyleSingle(Rule("none", None), StylesOf, Css.Decl("user-select", "none"));
  }
}
