/** The text-size builder (src/TextSizes/TextSizeBuilder.cs). */
module TextSizes {
  import opened Options
  import opened Breakpoints
  import opened Rules
  import Strings
  import Render
  import Css

  /** The size scale, smallest first. */
  const Scale: seq<string> := ["xs", "sm", "base", "lg", "xl", "2xl", "3xl", "4xl", "5xl", "6xl", "7xl", "8xl", "9xl"]

  /** The sizes both tables know: the steps of the scale. */
  const Sizes: set<string> := {"xs", "sm", "base", "lg", "xl", "2xl", "3xl", "4xl", "5xl", "6xl", "7xl", "8xl", "9xl"}

  /** The rule a breakpoint call adds to an empty builder. */
  const Default := "base"

  /** The class table: Bootstrap's `fs-6` down to `fs-1`, then `display-6` down to `display-1`; no class off the scale. */
  function ClassOf(v: string): (c: string)
    ensures c != "" <==> v in Sizes
  {
    match v
    case "xs" => "fs-6"
    case "sm" => "fs-5"
    case "base" => "fs-4"
    case "lg" => "fs-3"
    case "xl" => "fs-2"
    case "2xl" => "fs-1"
    case "3xl" => "display-6"
    case "4xl" => "display-5"
    case "5xl" => "display-4"
    case "6xl" => "display-3"
    case "7xl" => "display-2"
    case "8xl" => "display-1"
    case "9xl" => "display-1"
    case _ => ""
  }

  function Classes(v: string): seq<string> { [ClassOf(v)] }

  /**
   * Reference for the class table, read off the position on the scale: the
   * first six steps count `fs-6` down to `fs-1`, the next six count
   * `display-6` down to `display-1`, and the last step stays at `display-1`
   * because there is no `display-0`.
   */
  function StepClass(i: nat): (c: string)
    requires i < |Scale|
  {
    if i < 6 then "fs-" + [Strings.DigitChar(6 - i)]
    else "display-" + [Strings.DigitChar(if i < 12 then 12 - i else 1)]
  }

  /** Every step of the scale gets the class its position gives. */
  lemma ClassFollowsScale(i: nat)
    requires i < |Scale|
    ensures ClassOf(Scale[i]) == StepClass(i)
  {
    if i == 0 {
      assert StepClass(0) == "fs-" + ['6'];
      assert ClassOf("xs") == "fs-6" == "fs-" + ['6'];
    } else if i == 1 {
      assert StepClass(1) == "fs-" + ['5'];
      assert ClassOf("sm") == "fs-5" == "fs-" + ['5'];
    } else if i == 2 {
      assert StepClass(2) == "fs-" + ['4'];
      assert ClassOf("base") == "fs-4" == "fs-" + ['4'];
    } else if i == 3 {
      assert StepClass(3) == "fs-" + ['3'];
      assert ClassOf("lg") == "fs-3" == "fs-" + ['3'];
    } else if i == 4 {
      assert StepClass(4) == "fs-" + ['2'];
      assert ClassOf("xl") == "fs-2" == "fs-" + ['2'];
    } else if i == 5 {
      assert StepClass(5) == "fs-" + ['1'];
      assert ClassOf("2xl") == "fs-1" == "fs-" + ['1'];
    } else if i == 6 {
      assert StepClass(6) == "display-" + ['6'];
      assert ClassOf("3xl") == "display-6" == "display-" + ['6'];
    } else if i == 7 {
      assert StepClass(7) == "display-" + ['5'];
      assert ClassOf("4xl") == "display-5" == "display-" + ['5'];
    } else if i == 8 {
      assert StepClass(8) == "display-" + ['4'];
      assert ClassOf("5xl") == "display-4" == "display-" + ['4'];
    } else if i == 9 {
      assert StepClass(9) == "display-" + ['3'];
      assert ClassOf("6xl") == "display-3" == "display-" + ['3'];
    } else if i == 10 {
      assert StepClass(10) == "display-" + ['2'];
      assert ClassOf("7xl") == "display-2" == "display-" + ['2'];
    } else if i == 11 {
      assert StepClass(11) == "display-" + ['1'];
      assert ClassOf("8xl") == "display-1" == "display-" + ['1'];
    } else if i == 12 {
      assert StepClass(12) == "display-" + ['1'];
      assert ClassOf("9xl") == "display-1" == "display-" + ['1'];
    }
  }

  /** The two largest steps are clamped to the same class. */
  lemma LargestStepsShareClass()
    ensures ClassOf(Scale[11]) == ClassOf(Scale[12]) == "display-1"
  {
    ClassFollowsScale(11);
    ClassFollowsScale(12);
  }

  /** The style table: a rem size for every step of the scale; nothing off the scale. */
  function StyleValue(v: string): (r: Option<string>)
    ensures r.Some? <==> v in Sizes
    ensures v == "xs" ==> r == Some("0.75rem")
    ensures v == "sm" ==> r == Some("0.875rem")
    ensures v == "base" ==> r == Some("1rem")
    ensures v == "lg" ==> r == Some("1.125rem")
    ensures v == "xl" ==> r == Some("1.25rem")
    ensures v == "2xl" ==> r == Some("1.5rem")
    ensures v == "3xl" ==> r == Some("1.75rem")
    ensures v == "4xl" ==> r == Some("2rem")
    ensures v == "5xl" ==> r == Some("2.25rem")
    ensures v == "6xl" ==> r == Some("2.5rem")
    ensures v == "7xl" ==> r == Some("3rem")
    ensures v == "8xl" ==> r == Some("3.5rem")
    ensures v == "9xl" ==> r == Some("4rem")
  {
    match v
    case "xs" => Some("0.75rem")
    case "sm" => Some("0.875rem")
    case "base" => Some("1rem")
    case "lg" => Some("1.125rem")
    case "xl" => Some("1.25rem")
    case "2xl" => Some("1.5rem")
    case "3xl" => Some("1.75rem")
    case "4xl" => Some("2rem")
    case "5xl" => Some("2.25rem")
    case "6xl" => Some("2.5rem")
    case "7xl" => Some("3rem")
    case "8xl" => Some("3.5rem")
    case "9xl" => Some("4rem")
    case _ => None
  }

  /** The style: `font-size: ` and the table's value; nothing for a value the table does not know. */
  function StylesOf(v: string): (ds: seq<string>)
    ensures StyleValue(v).None? ==> ds == []
    ensures StyleValue(v).Some? ==> |ds| == 1 && Css.Parse(ds[0]) == Some(Css.Declaration("font-size", StyleValue(v).value))
  {
    Css.Optional("font-size", StyleValue(v))
  }

  /** A breakpoint call; an empty builder first gets the default rule. */
  function OnBreakpoint(rules: seq<Rule<string>>, b: Breakpoint): (r: seq<Rule<string>>)
    ensures |rules| == 0 ==> r == [Rule("base", Some(b))]
    ensures |rules| > 0 ==> Payloads(r) == Payloads(rules) && r[|r| - 1].bp == Some(b)
  {
    SetBreakpoint(rules, b, Default)
  }

  /** `ToClass`: the class names of the rules; empty exactly when no rule's value has a class. */
  function ToClass(rules: seq<Rule<string>>): (r: string)
    ensures r == "" <==> forall i :: 0 <= i < |rules| ==> ClassOf(rules[i].payload) == ""
  {
    Render.ToClassEmptyIffOne(rules, Classes, Render.FirstHyphen);
    Render.ToClass(rules, Classes, Render.FirstHyphen)
  }

  /** `ToStyle`: the declarations of the rules; empty exactly when no rule's value is in the style table. */
  function ToStyle(rules: seq<Rule<string>>): (r: string)
    ensures r == "" <==> forall i :: 0 <= i < |rules| ==> StyleValue(rules[i].payload).None?
  {
    Render.ToStyleEmptyIff(rules, StylesOf);
    Render.ToStyle(rules, StylesOf)
  }

  /** Both tables cover exactly the scale: a size has a class exactly when it has a declaration. */
  lemma ClassIffStyle(v: string)
    ensures ClassOf(v) != "" <==> |StylesOf(v)| == 1
    ensures ClassOf(v) == "" <==> StylesOf(v) == []
  {
  }

  /** The default size at `md` is `fs-md-4`. */
  lemma SpliceExample()
    ensures ToClass([Rule("base", Some(Breakpoint("md")))]) == "fs" + "-" + "md" + "-4"
  {
    assert Classes("base") == ["fs" + "-4"] by {
      assert ClassOf("base") == "fs-4" == "fs" + "-4";
    }
    Render.SpliceOne("base", Breakpoint("md"), Classes, "fs", "-4");
  }

  /** The declaration carries the rem size of the step. */
  lemma StyleExample()
    ensures ToStyle([Rule("2xl", None)]) == Css.Decl("font-size", "1.5rem")
  {
    assert StylesOf("2xl") == [Css.Decl("font-size", "1.5rem")] by {
      assert StyleValue("2xl") == Some("1.5rem");
    }
    Render.ToStyleSingle(Rule("2xl", None), StylesOf, Css.Decl("font-size", "1.5rem"));
  }
}
