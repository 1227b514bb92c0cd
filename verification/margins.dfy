/** The margin builder (src/Margins/MarginBuilder.cs): classes `m{side}-{bp-}{size}`, declarations `margin[-side]: value`. */
module Margins {
  import opened Options
  import opened Breakpoints
  import opened Rules
  import opened Spacings
  import Render
  import Css

  const Base := "m"

  /** `GetSizeToken`: the scale steps 0..5 and `auto` are their own tokens; any other size has no class. */
  function SizeToken(size: string): (t: string)
    ensures t != "" <==> size in {"0", "1", "2", "3", "4", "5", "auto"}
    ensures t != "" ==> t == size
  {
    match size
    case "0" => "0"
    case "1" => "1"
    case "2" => "2"
    case "3" => "3"
    case "4" => "4"
    case "5" => "5"
    case "auto" => "auto"
    case _ => ""
  }

  /** `GetSizeValue`: the rem scale and `auto`; the sizes without a class are exactly those without a value. */
  function SizeValue(size: string): (v: Option<string>)
    ensures v.Some? <==> SizeToken(size) != ""
    ensures size == "0" ==> v == Some("0")
    ensures size == "1" ==> v == Some("0.25rem")
    ensures size == "2" ==> v == Some("0.5rem")
    ensures size == "3" ==> v == Some("1rem")
    ensures size == "4" ==> v == Some("1.5rem")
    ensures size == "5" ==> v == Some("3rem")
    ensures size == "auto" ==> v == Some("auto")
  {
    match size
    case "0" => Some("0")
    case "1" => Some("0.25rem")
    case "2" => Some("0.5rem")
    case "3" => Some("1rem")
    case "4" => Some("1.5rem")
    case "5" => Some("3rem")
    case "auto" => Some("auto")
    case _ => None
  }

  /** The `Auto` method: a size rule with size `auto`. */
  function Auto(rules: seq<Rule<Spacing>>): (r: seq<Rule<Spacing>>)
    ensures |r| == |rules| + 1 && r[..|rules|] == rules
    ensures r[|rules|].payload == Spacing("auto", All) && r[|rules|].bp.None?
  {
    ChainSize(rules, "auto")
  }

  /** `ToClass`: the class names of the rules; empty exactly when no rule's size has a class token. */
  function ToClass(rules: seq<Rule<Spacing>>): (r: string)
    ensures r == "" <==> forall i :: 0 <= i < |rules| ==> SizeToken(rules[i].payload.size) == ""
  {
    Spacings.ToClass(rules, Base, SizeToken)
  }

  /** `ToStyle`: the declarations of the rules; empty exactly when no rule's size is in the style table. */
  function ToStyle(rules: seq<Rule<Spacing>>): (r: string)
    ensures r == "" <==> forall i :: 0 <= i < |rules| ==> SizeValue(rules[i].payload.size).None?
  {
    Spacings.ToStyle(rules, "margin", "", SizeValue)
  }

  /** `Margin.S3.FromTop.FromLeft`: the first side re-targets the size rule, the second appends a rule with the same size. */
  lemma TopThenLeft()
    ensures AddSide(AddSide(Init(Spacing("3", All), None), Top, "0"), Left, "0")
         == [Rule(Spacing("3", Top), None), Rule(Spacing("3", Left), None)]
  {
    var once := AddSide(Init(Spacing("3", All), None), Top, "0");
    assert once == [Rule(Spacing("3", Top), None)];
  }

  /** `Margin.Auto` renders as `m-auto` and `margin: auto`. */
  lemma AutoRenders()
    ensures ToClass(Auto([])) == "m-auto"
    ensures ToStyle(Auto([])) == "margin: auto"
  {
    var rule := Rule(Spacing("auto", All), None);
    assert Auto([]) == [rule];
    assert SizeValue("auto") == Some("auto");
    SideStyle(rule, "margin", "", SizeValue, "auto");
    assert SideProperties("margin", "", All)[0] == "margin" by {
      assert "margin" + "" == "margin";
    }
    assert Css.Decl("margin", "auto") == "margin: auto";
  }

  /** The logical sides use the `inline-start`/`inline-end` properties. */
  lemma InlineStartStyle()
    ensures ToStyle([Rule(Spacing("2", InlineStart), None)]) == "margin-inline-start: 0.5rem"
  {
    assert SizeValue("2") == Some("0.5rem");
    SideStyle(Rule(Spacing("2", InlineStart), None), "margin", "", SizeValue, "0.5rem");
    assert SideProperties("margin", "", InlineStart)[0] == "margin-inline-start" by {
      assert "margin" + "-inline-start" + "" == "margin-inline-start";
    }
    assert Css.Decl("margin-inline-start", "0.5rem") == "margin-inline-start: 0.5rem";
  }
}
