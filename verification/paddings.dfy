/** The padding builder (src/Paddings/PaddingBuilder.cs): classes `p{side}-{bp-}{size}`, declarations `padding[-side]: value`. */
module Paddings {
  import opened Options
  import opened Breakpoints
  import opened Rules
  import opened Spacings
  import Render
  import Css

  const Base := "p"

  /** `GetSizeToken`: a scale step is its own token and "-1" is `auto`; any other size has no class. */
  function SizeToken(size: string): (t: string)
    ensures t != "" <==> size in {"0", "1", "2", "3", "4", "5", "-1"}
    ensures t != "" && size != "-1" ==> t == size
    ensures size == "-1" ==> t == "auto"
  {
    match size
    case "0" => "0"
    case "1" => "1"
    case "2" => "2"
    case "3" => "3"
    case "4" => "4"
    case "5" => "5"
    case "-1" => "auto"
    case _ => ""
  }

  /** `GetSizeValue`: the rem scale, and `auto` for "-1"; the sizes without a class are exactly those without a value. */
  function SizeValue(size: string): (v: Option<string>)
    ensures v.Some? <==> SizeToken(size) != ""
    ensures size == "0" ==> v == Some("0")
    ensures size == "1" ==> v == Some("0.25rem")
    ensures size == "2" ==> v == Some("0.5rem")
    ensures size == "3" ==> v == Some("1rem")
    ensures size == "4" ==> v == Some("1.5rem")
    ensures size == "5" ==> v == Some("3rem")
    ensures size == "-1" ==> v == Some("auto")
  {
    match size
    case "0" => Some("0")
    case "1" => Some("0.25rem")
    case "2" => Some("0.5rem")
    case "3" => Some("1rem")
    case "4" => Some("1.5rem")
    case "5" => Some("3rem")
    case "-1" => Some("auto")
    case _ => None
  }

  /** `ToClass`: the class names of the rules; empty exactly when no rule's size has a class token. */
  function ToClass(rules: seq<Rule<Spacing>>): (r: string)
    ensures r == "" <==> forall i :: 0 <= i < |rules| ==> SizeToken(rules[i].payload.size) == ""
  {
    Spacings.ToClass(rules, Base, SizeToken)
  }

  /** `ToStyle`: the declarations of the rules; empty exactly when no rule's size is in the style table. */
  function ToStyle(rules: seq<Rule<Spacing>>): (r: string)
    ensures r == "" <==> forall i :: 0 <= i < |rules| ==> SizeValue(rules[i].payload.size).None?
  {
    Spacings.ToStyle(rules, "padding", "", SizeValue)
  }

  /** `S3.FromTop.OnLaptop`-style rule at breakpoint `md`: the breakpoint sits between side and size. */
  lemma ClassWithBreakpoint()
    ensures ToClass([Rule(Spacing("3", Top), Some(Breakpoint("md")))]) == "pt-md-3"
  {
  }

  /** An axis rule sets both of its sides, left before right. */
  lemma HorizontalStyle()
    ensures ToStyle([Rule(Spacing("3", Horizontal), None)]) == "padding-left: 1rem" + "; " + "padding-right: 1rem"
  {
    var rule := Rule(Spacing("3", Horizontal), None);
    var ps := SideProperties("padding", "", Horizontal);
    assert ps == ["padding-left", "padding-right"] by {
      assert "padding" + "-left" + "" == "padding-left";
      assert "padding" + "-right" + "" == "padding-right";
    }
    calc {
      ToStyle([rule]);
    == { assert SizeValue("3") == Some("1rem"); AxisStyle(rule, "padding", "", SizeValue, "1rem"); }
      Css.Decl(ps[0], "1rem") + "; " + Css.Decl(ps[1], "1rem");
    == { assert Css.Decl("padding-left", "1rem") == "padding-left: 1rem"; assert Css.Decl("padding-right", "1rem") == "padding-right: 1rem"; }
      "padding-left: 1rem" + "; " + "padding-right: 1rem";
    }
  }

  /** "-1" renders as `auto` in both modes. */
  lemma AutoSize()
    ensures ToClass([Rule(Spacing("-1", All), None)]) == "p-auto"
    ensures ToStyle([Rule(Spacing("-1", All), None)]) == "padding: auto"
  {
    assert SizeValue("-1") == Some("auto");
    SideStyle(Rule(Spacing("-1", All), None), "padding", "", SizeValue, "auto");
    assert SideProperties("padding", "", All)[0] == "padding" by {
      assert "padding" + "" == "padding";
    }
    assert Css.Decl("padding", "auto") == "padding: auto";
  }

  /** A size outside the table renders nothing in either mode. */
  lemma UnknownSize()
    ensures ToClass([Rule(Spacing("7", All), None)]) == ""
    ensures ToStyle([Rule(Spacing("7", All), None)]) == ""
  {
    assert SizeValue("7") == None;
    NoValueStyle(Rule(Spacing("7", All), None), "padding", "", SizeValue);
  }
}
