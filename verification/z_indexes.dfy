/** The z-index builder (src/ZIndexes/ZIndexBuilder.cs): an `int` payload. */
module ZIndexes {
  import opened Options
  import opened Breakpoints
  import opened Rules
  import Strings
  import Render
  import Css

  /** C# `int`. */
  newtype Int32 = x: int | -0x8000_0000 < x + 1 <= 0x8000_0000

  /** The rule a breakpoint call adds to an empty builder. */
  const Default: Int32 := 0

  /** The class table: `z-n1` for -1, `z-0` to `z-3` for 0 to 3; no class for any other level. */
  function ClassOf(v: Int32): (c: string)
    ensures c != "" <==> -1 <= v <= 3
    ensures v == -1 ==> c == "z-n1"
    ensures 0 <= v <= 3 ==> c == "z-" + [Strings.DigitChar(v as nat)]
  {
    if v == -1 then "z-n1"
    else if v == 0 then assert "z-0" == "z-" + ['0']; "z-0"
    else if v == 1 then assert "z-1" == "z-" + ['1']; "z-1"
    else if v == 2 then assert "z-2" == "z-" + ['2']; "z-2"
    else if v == 3 then assert "z-3" == "z-" + ['3']; "z-3"
    else ""
  }

  function Classes(v: Int32): seq<string> { [ClassOf(v)] }

  /** The style: `z-index: ` and the invariant-culture decimal of the level, for every level. */
  function StylesOf(v: Int32): (ds: seq<string>)
    ensures |ds| == 1 && Css.Parse(ds[0]).Some? && Css.Parse(ds[0]).value.property == "z-index"
    ensures var s := Css.Parse(ds[0]).value.value;
      if v >= 0 then Strings.IsNumeric(s) && Strings.ParseNat(s) == v as int && (|s| > 1 ==> s[0] != '0')
      else (|s| > 1 && s[0] == '-' && Strings.IsNumeric(s[1..]) && Strings.ParseNat(s[1..]) == -(v as int)
            && (|s| > 2 ==> s[1] != '0'))
  {
    Css.Optional("z-index", Some(Strings.IntToString(v as int)))
  }

  /** A breakpoint call; an empty builder first gets the default rule. */
  function OnBreakpoint(rules: seq<Rule<Int32>>, b: Breakpoint): (r: seq<Rule<Int32>>)
    ensures |rules| == 0 ==> r == [Rule(0, Some(b))]
    ensures |rules| > 0 ==> Payloads(r) == Payloads(rules) && r[|r| - 1].bp == Some(b)
  {
    SetBreakpoint(rules, b, Default)
  }

  /** `ToClass`: the class names of the rules; empty exactly when no rule's value has a class. */
  function ToClass(rules: seq<Rule<Int32>>): (r: string)
    ensures r == "" <==> forall i :: 0 <= i < |rules| ==> ClassOf(rules[i].payload) == ""
  {
    Render.ToClassEmptyIffOne(rules, Classes, Render.FirstHyphen);
    Render.ToClass(rules, Classes, Render.FirstHyphen)
  }

  /** `ToStyle`: every level is written, so the style string is empty exactly when there is no rule. */
  function ToStyle(rules: seq<Rule<Int32>>): (r: string)
    ensures r == "" <==> |rules| == 0
  {
    Render.ToStyleEmptyIff(rules, StylesOf);
    Render.ToStyle(rules, StylesOf)
  }

  /** Every rule is written in the style string, whether or not it has a class. */
  lemma OneDeclPerRule(rules: seq<Rule<Int32>>)
    ensures |Render.StyleDecls(rules, StylesOf)| == |rules|
  {
    Render.OneDeclPerRule(rules, StylesOf);
  }

  /** Level -1 at `md` is `z-md-n1`. */
  lemma SpliceExample()
    ensures ToClass([Rule(-1, Some(Breakpoint("md")))]) == "z" + "-" + "md" + "-n1"
  {
    assert Classes(-1) == ["z" + "-n1"] by {
      assert ClassOf(-1) == "z-n1" == "z" + "-n1";
    }
    Render.SpliceOne(-1, Breakpoint("md"), Classes, "z", "-n1");
  }

  /** A negative level keeps its minus sign. */
  lemma StyleExample()
    ensures ToStyle([Rule(-1, None)]) == "z-index: -1"
  {
    assert Strings.NatToString(1) == "1";
    assert Strings.IntToString(-1) == "-1";
    assert Css.Decl("z-index", "-1") == "z-index: -1";
    Render.ToStyleSingle(Rule(-1, None), StylesOf, "z-index: -1");
  }
}
