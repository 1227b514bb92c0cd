/** The border-width builder (src/Borders/BorderBuilder.cs): classes `b{side}-{bp-}{size}` from the raw size, declarations `border[-side]-width: px`. */
module Borders {
  import opened Options
  import opened Breakpoints
  import opened Rules
  import opened Spacings
  import Render
  import Css

  const Base := "b"

  /** The constructor: an empty size gives a builder with no rule at all. */
  function New(size: string, bp: Option<Breakpoint>): (r: seq<Rule<Spacing>>)
    ensures r == [] <==> size == ""
    ensures r != [] ==> r == [Rule(Spacing(size, All), bp)]
  {
    if size == "" then [] else [Rule(Spacing(size, All), bp)]
  }

  /** The class token is the size itself; only the empty size is skipped. */
  function SizeToken(size: string): string
  {
    size
  }

  /** `GetSizeValue`: step 0 is `0`, steps 1..5 are 1px..5px; any other size has no declaration. */
  function SizeValue(size: string): (v: Option<string>)
    ensures v.Some? <==> size in {"0", "1", "2", "3", "4", "5"}
    ensures size == "0" ==> v == Some("0")
    ensures v.Some? && size != "0" ==> v.value == size + "px"
  {
    match size
    case "0" => Some("0")
    case "1" => Some("1px")
    case "2" => Some("2px")
    case "3" => Some("3px")
    case "4" => Some("4px")
    case "5" => Some("5px")
    case _ => None
  }

  /** `ToClass`: the class names of the rules; empty exactly when every rule's size is empty. */
  function ToClass(rules: seq<Rule<Spacing>>): (r: string)
    ensures r == "" <==> forall i :: 0 <= i < |rules| ==> rules[i].payload.size == ""
  {
    Spacings.ToClass(rules, Base, SizeToken)
  }

  /** `ToStyle`: the declarations of the rules; empty exactly when no rule's size is in the style table. */
  function ToStyle(rules: seq<Rule<Spacing>>): (r: string)
    ensures r == "" <==> forall i :: 0 <= i < |rules| ==> SizeValue(rules[i].payload.size).None?
  {
    Spacings.ToStyle(rules, "border", "-width", SizeValue)
  }

  /** A class is written for every non-empty size, even one the style table does not know. */
  lemma RawSizeClass()
    ensures ToClass([Rule(Spacing("2", Top), Some(Breakpoint("md")))]) == "bt-md-2"
    ensures ToClass([Rule(Spacing("9", All), None)]) == "b-9"
    ensures ToStyle([Rule(Spacing("9", All), None)]) == ""
  {
    assert SizeValue("9") == None;
    NoValueStyle(Rule(Spacing("9", All), None), "border", "-width", SizeValue);
  }

  /** The horizontal axis sets the left width, then the right width. */
  lemma HorizontalStyle()
    ensures ToStyle([Rule(Spacing("2", Horizontal), None)]) == "border-left-width: 2px" + "; " + "border-right-width: 2px"
  {
    assert SizeValue("2") == Some("2px");
    AxisStyle(Rule(Spacing("2", Horizontal), None), "border", "-width", SizeValue, "2px");
    assert SideProperties("border", "-width", Horizontal) == ["border-left-width", "border-right-width"] by {
      assert "border" + "-left" + "-width" == "border-left-width";
      assert "border" + "-right" + "-width" == "border-right-width";
    }
    assert Css.Decl("border-left-width", "2px") == "border-left-width: 2px";
    assert Css.Decl("border-right-width", "2px") == "border-right-width: 2px";
  }
}
