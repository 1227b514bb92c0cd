/** The font-style builder (src/FontStyles/FontStyleBuilder.cs). */
module FontStyles {
  import opened Options
  import opened Breakpoints
  import opened Rules
  import Keywords
  import Render
  import Css

  /** The font-style values that have an `fst-*` class. */
  const Values: set<string> := {"italic", "normal"}

  /** The rule a breakpoint call adds to an empty builder. */
  const Default := "normal"

  /** The class table: `fst-` and the value for the values above; none for keywords or anything else. */
  function ClassOf(v: string): (c: string)
    ensures c == (if v in Values then "fst-" + v else "")
  {
    match v
    case "italic" => "fst-italic"
    case "normal" => "fst-normal"
    case _ => ""
  }

  function Classes(v: string): seq<string> { [ClassOf(v)] }

  /** The style: `font-style: v` for every non-empty value, keywords included. */
  function StylesOf(v: string): (ds: seq<string>)
    ensures |ds| == (if v == "" then 0 else 1)
    ensures forall d <- ds :: Css.Parse(d) == Some(Css.Declaration("font-style", v))
  {
    Css.NonEmpty("font-style", v)
  }

  /** A breakpoint call; an empty builder first gets the default rule. */
  function OnBreakpoint(rules: seq<Rule<string>>, b: Breakpoint): (r: seq<Rule<string>>)
    ensures |rules| == 0 ==> r == [Rule("normal", Some(b))]
    ensures |rules| > 0 ==> Payloads(r) == Payloads(rules) && r[|r| - 1].bp == Some(b)
  {
    SetBreakpoint(rules, b, Default)
  }

  /** `ToClass`: the class names of the rules; empty exactly when no rule's value has a class. */
  function ToClass(rules: seq<Rule<string>>): (r: string)
    ensures r == "" <==> forall i :: 0 <= i < |rules| ==> ClassOf(rules[i].payload) == ""
  {
    Render.ToClassEmptyIffOne(rules, Classes, Render.FirstHyphen);
    Render.ToClass(rules, Classes, Render.FirstHyphen)
  }

  /** `ToStyle`: the declarations of the rules; empty exactly when every rule's value is empty. */
  function ToStyle(rules: seq<Rule<string>>): (r: string)
    ensures r == "" <==> forall i :: 0 <= i < |rules| ==> rules[i].payload == ""
  {
    Render.ToStyleEmptyIff(rules, StylesOf);
    Render.ToStyle(rules, StylesOf)
  }

  /** A global keyword has no class but is still written as the property's value. */
  lemma KeywordIsStyleOnly(v: string)
    requires v in Keywords.Global
    ensures ClassOf(v) == "" && StylesOf(v) == [Css.Decl("font-style", v)]
  {
  }

  /** Only the first hyphen takes the breakpoint: `fst-italic` at `md` is `fst-md-italic`. */
  lemma SpliceExample()
    ensures ToClass([Rule("italic", Some(Breakpoint("md")))]) == "fst" + "-" + "md" + "-italic"
  {
    assert Classes("italic") == ["fst" + "-italic"] by {
      assert ClassOf("italic") == "fst-italic" == "fst" + "-italic";
    }
    Render.SpliceOne("italic", Breakpoint("md"), Classes, "fst", "-italic");
  }

  /** The declaration is the property and the raw value. */
  lemma StyleExample()
    ensures ToStyle([Rule("italic", None)]) == Css.Decl("font-style", "italic")
  {
    assert StylesOf("italic") == [Css.Decl("font-style", "italic")];
    Render.ToStyleSingle(Rule("italic", None), StylesOf, Css.Decl("font-style", "italic"));
  }
}
