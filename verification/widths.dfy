/** The width builder (src/Widths/WidthBuilder.cs). */
module Widths {
  import opened Options
  import opened Breakpoints
  import opened Rules
  import Strings
  import Render
  import Css

  /** The widths that have a `w-*` class. */
  const Values: set<string> := {"25", "50", "75", "100", "auto"}

  /** The rule a breakpoint call adds to an empty builder. */
  const Default := "100"

  /** The class table: `w-` and one of the four percentages or `auto`. */
  function ClassOf(v: string): (c: string)
    ensures c == (if v in Values then "w-" + v else "")
  {
    match v
    case "25" => "w-25"
    case "50" => "w-50"
    case "75" => "w-75"
    case "100" => "w-100"
    case "auto" => "w-auto"
    case _ => ""
  }

  function Classes(v: string): seq<string> { [ClassOf(v)] }

  /** The style table: a percentage for the four class sizes, `auto`, and any other all-digit value as pixels. */
  function StyleValue(v: string): (r: Option<string>)
    ensures r.Some? <==> v in Values || Strings.IsNumeric(v)
    ensures v in Values && v != "auto" ==> r == Some(v + "%")
    ensures v == "auto" ==> r == Some("auto")
    ensures v !in Values && r.Some? ==> r.value == v + "px"
  {
    match v
    case "25" => assert "25" + "%" == "25%"; Some("25%")
    case "50" => assert "50" + "%" == "50%"; Some("50%")
    case "75" => assert "75" + "%" == "75%"; Some("75%")
    case "100" => assert "100" + "%" == "100%"; Some("100%")
    case "auto" => Some("auto")
    case _ => if Strings.IsNumeric(v) then Some(v + "px") else None
  }

  /** The style: `width: ` and the table's value; nothing for a value the table does not know. */
  function StylesOf(v: string): (ds: seq<string>)
    ensures StyleValue(v).None? ==> ds == []
    ensures StyleValue(v).Some? ==> |ds| == 1 && Css.Parse(ds[0]) == Some(Css.Declaration("width", StyleValue(v).value))
  {
    Css.Optional("width", StyleValue(v))
  }

  /** A breakpoint call; an empty builder first gets the default rule. */
  function OnBreakpoint(rules: seq<Rule<string>>, b: Breakpoint): (r: seq<Rule<string>>)
    ensures |rules| == 0 ==> r == [Rule("100", Some(b))]
    ensures |rules| > 0 ==> Payloads(r) == Payloads(rules) && r[|r| - 1].bp == Some(b)
  {
    SetBreakpoint(rules, b, Default)
  }

  /** `ToClass`: the class names of the rules; empty exactly when no rule's value has a class. */
  function ToClass(rules: seq<Rule<string>>): (r: string)
    ensures r == "" <==> forall i :: 0 <= i < |rules| ==> ClassOf(rules[i].payload) == ""
  {
    Render.ToClassEmptyIffOne(rules, Classes, Render.FirstHyphen);
    Render.ToClass(rules, Classes, Render.FirstHyphen)
  }

  /** `ToStyle`: the declarations of the rules; empty exactly when no rule's value is in the style table. */
  function ToStyle(rules: seq<Rule<string>>): (r: string)
    ensures r == "" <==> forall i :: 0 <= i < |rules| ==> StyleValue(rules[i].payload).None?
  {
    Render.ToStyleEmptyIff(rules, StylesOf);
    Render.ToStyle(rules, StylesOf)
  }

  /** A number of pixels outside the class sizes has no class but a pixel declaration. */
  lemma PixelsAreStyleOnly(v: string)
    requires Strings.IsNumeric(v) && v !in Values
    ensures ClassOf(v) == "" && StylesOf(v) == [Css.Decl("width", v + "px")]
  {
  }

  /** `w-50` at `md` is `w-md-50`. */
  lemma SpliceExample()
    ensures ToClass([Rule("50", Some(Breakpoint("md")))]) == "w" + "-" + "md" + "-50"
  {
    assert Classes("50") == ["w" + "-50"] by {
      assert ClassOf("50") == "w-50" == "w" + "-50";
    }
    Render.SpliceOne("50", Breakpoint("md"), Classes, "w", "-50");
  }

  /** A class size is a percentage. */
  lemma StyleExample()
    ensures ToStyle([Rule("75", None)]) == Css.Decl("width", "75%")
  {
    assert StylesOf("75") == [Css.Decl("width", "75%")] by {
      assert StyleValue("75") == Some("75%");
    }
    Render.ToStyleSingle(Rule("75", None), StylesOf, Css.Decl("width", "75%"));
  }

  /** Any other number is read as pixels. */
  lemma PixelExample()
    ensures ToStyle([Rule("320", None)]) == "width: 320px"
  {
    assert Strings.IsNumeric("320") by {
      assert forall i :: 0 <= i < 3 ==> Strings.IsAsciiDigit("320"[i]);
    }
    assert "320" + "px" == "320px";
    assert StyleValue("320") == Some("320px");
    assert Css.Decl("width", "320px") == "width: 320px";
    Render.ToStyleSingle(Rule("320", None), StylesOf, "width: 320px");
  }
}
