/** The font-weight builder (src/FontWeights/FontWeightBuilder.cs). */
module FontWeights {
  import opened Options
  import opened Breakpoints
  import opened Rules
  import Keywords
  import Strings
  import Render
  import Css

  /** The weights that have an `fw-*` class. */
  const Values: set<string> := {"light", "normal", "medium", "semibold", "bold", "bolder"}

  /** The numeric weight of each named weight but `bolder`, which is relative. */
  const Numeric: map<string, nat> := map["light" := 300, "normal" := 400, "medium" := 500, "semibold" := 600, "bold" := 700]

  /** The rule a breakpoint call adds to an empty builder. */
  const Default := "normal"

  /** The class table: `fw-` and the weight; none for keywords or anything else. */
  function ClassOf(v: string): (c: string)
    ensures c == (if v in Values then "fw-" + v else "")
  {
    match v
    case "light" => "fw-light"
    case "normal" => "fw-normal"
    case "medium" => "fw-medium"
    case "semibold" => "fw-semibold"
    case "bold" => "fw-bold"
    case "bolder" => "fw-bolder"
    case _ => ""
  }

  function Classes(v: string): seq<string> { [ClassOf(v)] }

  /** The style table: named weights become their decimal weight, `bolder` and the global keywords are written as they are. */
  function StyleValue(v: string): (r: Option<string>)
    ensures r.Some? <==> v in Values || v in Keywords.Global
    ensures v !in Numeric && r.Some? ==> r.value == v
  {
    match v
    case "light" => Some("300")
    case "normal" => Some("400")
    case "medium" => Some("500")
    case "semibold" => Some("600")
    case "bold" => Some("700")
    case "bolder" => Some("bolder")
    case "inherit" => Some("inherit")
    case "initial" => Some("initial")
    case "unset" => Some("unset")
    case "revert" => Some("revert")
    case "revert-layer" => Some("revert-layer")
    case _ => None
  }

  /** The style: `font-weight: ` and the table's value; nothing for a value the table does not know. */
  function StylesOf(v: string): (ds: seq<string>)
    ensures StyleValue(v).None? ==> ds == []
    ensures StyleValue(v).Some? ==> |ds| == 1 && Css.Parse(ds[0]) == Some(Css.Declaration("font-weight", StyleValue(v).value))
  {
    Css.Optional("font-weight", StyleValue(v))
  }

  /** A breakpoint call; an empty builder first gets the default rule. */
  function OnBreakpoint(rules: seq<Rule<string>>, b: Breakpoint): (r: seq<Rule<string>>)
    ensures |rules| == 0 ==> r == [Rule("normal", Some(b))]
    ensures |rules| > 0 ==> Payloads(r) == Payloads(rules) && r[|r| - 1].bp == Some(b)
  {
    SetBreakpoint(rules, b, Default)
  }

  /** `ToClass`: the class names of the rules; empty exactly when no rule's value has a class. */
  function ToClass(rules: seq<Rule<string>>): (r: string)
    ensures r == "" <==> forall i :: 0 <= i < |rules| ==> ClassOf(rules[i].payload) == ""
  {
    Render.ToClassEmptyIffOne(rules, Classes, Render.FirstHyphen);
    Render.ToClass(rules, Classes, Render.FirstHyphen)
  }

  /** `ToStyle`: the declarations of the rules; empty exactly when no rule's value is in the style table. */
  function ToStyle(rules: seq<Rule<string>>): (r: string)
    ensures r == "" <==> forall i :: 0 <= i < |rules| ==> StyleValue(rules[i].payload).None?
  {
    Render.ToStyleEmptyIff(rules, StylesOf);
    Render.ToStyle(rules, StylesOf)
  }

  /** A global keyword has no class but is written as the property's value. */
  lemma KeywordIsStyleOnly(v: string)
    requires v in Keywords.Global
    ensures ClassOf(v) == "" && StylesOf(v) == [Css.Decl("font-weight", v)]
  {
  }

  /** A named weight is written as the decimal digits of its numeric weight. */
  lemma NamedWeightIsDecimal(v: string)
    requires v in Numeric
    ensures StyleValue(v) == Some(Strings.NatToString(Numeric[v]))
  {
    if v == "light" {
      assert Strings.NatToString(300) == "300";
    } else if v == "normal" {
      assert Strings.NatToString(400) == "400";
    } else if v == "medium" {
      assert Strings.NatToString(500) == "500";
    } else if v == "semibold" {
      assert Strings.NatToString(600) == "600";
    } else if v == "bold" {
      assert Strings.NatToString(700) == "700";
    }
  }

  /** The weight at `md` is `fw-md-bold`. */
  lemma SpliceExample()
    ensures ToClass([Rule("bold", Some(Breakpoint("md")))]) == "fw" + "-" + "md" + "-bold"
  {
    assert Classes("bold") == ["fw" + "-bold"] by {
      assert ClassOf("bold") == "fw-bold" == "fw" + "-bold";
    }
    Render.SpliceOne("bold", Breakpoint("md"), Classes, "fw", "-bold");
  }

  /** A named weight is written as its number. */
  lemma StyleExample()
    ensures ToStyle([Rule("semibold", None)]) == Css.Decl("font-weight", "600")
  {
    assert StylesOf("semibold") == [Css.Decl("font-weight", "600")] by {
      assert StyleValue("semibold") == Some("600");
    }
    Render.ToStyleSingle(Rule("semibold", None), StylesOf, Css.Decl("font-weight", "600"));
  }
}
