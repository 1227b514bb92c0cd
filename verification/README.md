# Quark CSS utility builders — a Dafny model

Each builder (`DisplayBuilder`, `PaddingBuilder`, `ColorBuilder`, …) keeps an
ordered list of rules. A rule is a payload plus an optional breakpoint. The
builder renders that list in two ways: `ToClass` gives Bootstrap-style class
names, and `ToStyle` gives inline CSS declarations. This project models that
protocol once, generically, and then instantiates it for every builder.

- **Rules** (`rules.dfy`). A value method appends one rule without a
  breakpoint. A breakpoint method re-targets only the last rule. On an empty
  list it adds the builder's default payload at that breakpoint. A one-value
  constructor seeds the list.
- **Breakpoints** (`breakpoints.dfy`). The token of a breakpoint is its own
  value, and a missing breakpoint has the empty token. `Tablet` is `sm`.
- **Splice** (`splice.dfy`). There are two ways of placing a token into a
  class:
  - *first-hyphen*: when the first hyphen of the class is at index k > 0, the
    result is `cls[..k] + "-" + token + cls[k..]`; otherwise it is
    `token + "-" + cls`;
  - *always-prepend*: `token + "-" + cls` (screen readers, stretched links,
    truncation, clearfix).

  Both are proved invertible for a non-empty token without hyphens.
- **Render** (`render.dfy`). The generic renderer takes each builder's tables
  as functions:
  - `ToClass` walks the rules in order. It skips empty class names, places
    the token only when it is non-empty, and joins with single spaces.
  - `ToStyle` joins the declarations with `"; "`.
  - `ClassElseStyle` is the `ToString` of the colour builder: `""` for an
    empty list, the class string when it is non-empty, and the style string
    otherwise.
  - The interaction, object-position, transition, animation, transform,
    clip-path, screen-reader, stretched-link, truncate and clearfix builders
    define `ToString` as `ToClass`. The other builders keep the default
    object `ToString` and have none here.
- **Spacings** (`spacings.dfy`). This is the protocol shared by padding,
  margin and border:
  - a size rule for all sides;
  - side methods that re-target a last all-sides rule in place and otherwise
    append a rule with the last size and breakpoint;
  - classes built as `base side - token - size`, proved equal to the generic
    first-hyphen renderer;
  - one or two declarations per rule, depending on whether the side is an
    axis.
- **One module per builder**. Each holds a class table, a style table, the
  default payload for a breakpoint on an empty list, and lemmas relating the
  two tables (which values get a class, a style or both) and fixing concrete
  renderings.

Strings are `seq<char>`. `null` from a style table is `Option.None`. A z-index
is a 32-bit `newtype`, and its text is the invariant-culture decimal.

## Where the code departs from its documented design

The code is followed in each case:

- `ToString` is not class-else-style everywhere. Only the colour builder does
  that. Ten builders return `ToClass`, and the rest define no `ToString`.
- The splice is not always at the first hyphen. Four builders always prepend,
  even to a hyphenated class (`md-sr-only`). A class whose first hyphen is at
  index 0 is prefixed, not spliced.
- Text decoration spliced at `md` is `text-md-decoration-underline`: the code
  splices at the first hyphen whatever the comment next to it says.
- The border class uses the raw size string for any non-empty size, so it has
  a class even when its style table has no entry.

## Model

| member | source | states |
|---|---|---|
| Breakpoints.Token | src/Utils/BreakpointUtil.cs:18-21 | a present breakpoint gives its own value, a missing one gives ""; the token is empty exactly when the breakpoint is missing or its value is empty |
| Breakpoints.Class | src/Utils/BreakpointUtil.cs:30-30 | the class token of every breakpoint, present or missing, is its token |
| Css.Format | src/Displays/DisplayBuilder.cs:124-125 | a declaration is written as property, `: `, value, so its length is the two lengths plus two |
| Css.Parse | src/Displays/DisplayBuilder.cs:124-125 | the partner of `Format`: any declaration it reads back formats to the input string, with a colon-free property |
| Css.ParseFormat | src/Displays/DisplayBuilder.cs:124-125 | round trip: parsing a formatted declaration whose property has no colon gives that declaration back |
| Css.Optional | src/Transitions/TransitionBuilder.cs:109-121 | a value the table does not know (C# `null`) gives no declaration; a known one gives exactly one, which parses back to the property and value |
| Css.NonEmpty | src/Displays/DisplayBuilder.cs:114-125 | an empty raw value gives no declaration; any other gives exactly one, which parses back to the property and the value |
| Rules.Init | src/Displays/DisplayBuilder.cs:19-22 | a one-value constructor gives one rule with that value at the given breakpoint |
| Rules.Chain | src/Displays/DisplayBuilder.cs:55-59 | a value method appends exactly one rule with that value and no breakpoint, keeping every earlier rule |
| Rules.ChainPayloads | src/Displays/DisplayBuilder.cs:55-59 | after a value method the payloads are the old payloads followed by the new value |
| Rules.SetBreakpoint | src/Displays/DisplayBuilder.cs:62-74 | on an empty list the only payload is the default; otherwise the length, the payloads and every rule but the last are kept; the last rule always carries the breakpoint |
| Rules.LastBreakpointWins | src/Displays/DisplayBuilder.cs:62-74 | two breakpoint calls in a row act as the second alone |
| Rules.ValueThenBreakpoint | src/Displays/DisplayBuilder.cs:55-74 | a value followed by a breakpoint appends exactly one rule carrying both |
| Rules.ReplayPayloads | src/Displays/DisplayBuilder.cs:55-74 | on a non-empty builder any chain of calls adds exactly the chained values to the payloads, in call order; breakpoint calls add and drop none |
| Strings.IndexOf | src/Displays/DisplayBuilder.cs:155-155 | the first index holding the character, or -1 exactly when there is none |
| Strings.IndexOfAfter | src/Displays/DisplayBuilder.cs:155-155 | a prefix without the character shifts its first index by the prefix length |
| Strings.IndexOfWithin | src/Displays/DisplayBuilder.cs:155-155 | a prefix containing the character alone decides its first index |
| Strings.Join | src/Displays/DisplayBuilder.cs:82-98 | the `first`-flag loop: no parts give "", otherwise the first part leads and a separator sits between each pair |
| Strings.JoinAppend | src/Displays/DisplayBuilder.cs:82-98 | joining two non-empty lists puts exactly one separator between their joins |
| Strings.Glue | src/Displays/DisplayBuilder.cs:95-98 | a separator only between two non-empty outputs; an empty side leaves the other unchanged |
| Strings.Split | src/Displays/DisplayBuilder.cs:82-98 | the partner of `Join`: at least one piece, none containing the separator |
| Strings.SplitJoin | src/Displays/DisplayBuilder.cs:82-98 | round trip: splitting a join of separator-free parts gives the parts back |
| Strings.JoinSplit | src/Displays/DisplayBuilder.cs:82-98 | round trip: joining a split gives the string back |
| Strings.NatToString | src/ZIndexes/ZIndexBuilder.cs:109-110 | a natural number is written as decimal digits with no leading zero |
| Strings.ParseNatToString | src/ZIndexes/ZIndexBuilder.cs:109-110 | round trip: the digits written for a number parse back to it |
| Strings.IntToString | src/ZIndexes/ZIndexBuilder.cs:109-110 | invariant-culture `int.ToString`: digits with no leading zero that parse back to the number, preceded by one minus sign exactly when it is negative |
| Splice.SplicePoint | src/Displays/DisplayBuilder.cs:155-156 | the insertion point is just after the first hyphen when that hyphen is not the first character, and 0 exactly otherwise |
| Splice.InsertBreakpoint | src/Displays/DisplayBuilder.cs:153-182 | the spliced class is exactly one hyphen and the token longer than the class |
| Splice.InsertAtSplicePoint | src/Displays/DisplayBuilder.cs:153-182 | both branches are one operation: the token and a hyphen are inserted at the splice point, everything before and after kept |
| Splice.CharsOfInsert | src/Displays/DisplayBuilder.cs:153-182 | a splice adds the token's characters and a hyphen and nothing else: a character is in the result exactly when it is in the class, in the token or a hyphen |
| Splice.Prepend | src/StretchedLinks/StretchedLinkBuilder.cs:97-106 | the always-prepend splice: token, one hyphen, then the class unchanged |
| Splice.SpliceIsPrependWithoutInnerHyphen | src/Displays/DisplayBuilder.cs:172-181 | on a class with no hyphen after its first character the two splices agree |
| Splice.SpliceAt | src/Displays/DisplayBuilder.cs:156-170 | at a first hyphen k > 0 the token goes between the head and the hyphen-led rest |
| Splice.EmptyTokenIsNotIdentity | src/Displays/DisplayBuilder.cs:91-93 | splicing an empty token is not the identity (`a-b` becomes `a--b`), which is why every caller guards on a non-empty token |
| Splice.UndoPrefix | src/Displays/DisplayBuilder.cs:172-181 | a string of the prefix shape is the splice of its tail |
| Splice.UndoInner | src/Displays/DisplayBuilder.cs:156-170 | a string of the inner shape is the splice of itself with the token and its hyphen removed |
| Splice.RemoveBreakpoint | src/Displays/DisplayBuilder.cs:153-182 | the partner of `InsertBreakpoint`: any class it returns splices back to the input |
| Splice.InnerSpliceShape | src/Displays/DisplayBuilder.cs:156-170 | after an inner splice the class's first hyphen is still the result's first hyphen, now followed by the token |
| Splice.InnerSpliceIsNotPrefix | src/Displays/DisplayBuilder.cs:156-170 | an inner splice with a non-empty hyphen-free token never has the prefix shape |
| Splice.InnerSpliceIsInner | src/Displays/DisplayBuilder.cs:156-170 | an inner splice has the inner shape, and dropping the token gives the class back |
| Splice.RemoveInsert | src/Displays/DisplayBuilder.cs:153-182 | round trip: every splice with a non-empty hyphen-free token is undone |
| Render.Place | src/Displays/DisplayBuilder.cs:91-93 | an empty token leaves the class alone; a non-empty one adds its length plus one hyphen and no other character |
| Render.NonEmpty | src/Displays/DisplayBuilder.cs:87-89 | keeps exactly the non-empty class names, in order |
| Render.RuleClasses | src/Displays/DisplayBuilder.cs:86-93 | one non-empty class name per non-empty table entry of the rule |
| Render.ClassTokens | src/Displays/DisplayBuilder.cs:84-99 | the class names of all rules are non-empty |
| Render.ToClass | src/Displays/DisplayBuilder.cs:76-102 | the class string is empty exactly when no rule has a class name |
| Render.ClassTokensAppend | src/Displays/DisplayBuilder.cs:84-99 | the class names of a concatenation are the concatenated class names |
| Render.ToClassAppend | src/Displays/DisplayBuilder.cs:84-99 | the class string of a concatenation glues the two class strings with one space between non-empty outputs |
| Render.ToClassOne | src/Displays/DisplayBuilder.cs:86-98 | a one-entry rule renders alone as its class with the token placed, or as "" when the entry is empty |
| Render.ToClassPair | src/Interactions/InteractionBuilder.cs:70-110 | a rule with two non-empty entries renders alone as both classes with the token placed, one space between |
| Render.NonEmptyNil | src/Displays/DisplayBuilder.cs:87-89 | skipping empty names leaves nothing exactly when every candidate name is empty |
| Render.ClassTokensNil | src/Displays/DisplayBuilder.cs:84-99 | there is no class name at all exactly when no rule's table yields a non-empty name |
| Render.ToClassEmptyIff | src/Displays/DisplayBuilder.cs:76-102 | the class string is empty exactly when every table entry of every rule is empty |
| Render.ToClassEmptyIffOne | src/Displays/DisplayBuilder.cs:76-102 | with a one-entry table, the class string is empty exactly when every rule's entry is empty |
| Render.ToClassEmptyIffPair | src/Interactions/InteractionBuilder.cs:70-110 | with a two-entry table, the class string is empty exactly when both entries of every rule are empty |
| Render.NoClassNoTokens | src/Displays/DisplayBuilder.cs:87-89 | rules whose tables yield no class name render the empty class string |
| Render.ToClassDecodes | src/Displays/DisplayBuilder.cs:76-102 | round trip: splitting the class string at spaces gives the class names back, in order, when no name or token has a space |
| Render.SpliceOne | src/Displays/DisplayBuilder.cs:86-98 | a one-class rule at a non-empty breakpoint renders as the class with the token after the head before its first hyphen |
| Render.PrefixOne | src/StretchedLinks/StretchedLinkBuilder.cs:51-106 | a one-class rule at a non-empty breakpoint renders as token, hyphen, class, under always-prepend or for a hyphen-free class |
| Render.OneClassPerRule | src/Displays/DisplayBuilder.cs:84-99 | a table that always yields one non-empty class gives exactly one class name per rule |
| Render.StyleDecls | src/Displays/DisplayBuilder.cs:112-126 | every declaration comes from some rule of the list |
| Render.ToStyle | src/Displays/DisplayBuilder.cs:104-129 | an empty list renders the empty style string |
| Render.ToStyleOne | src/Displays/DisplayBuilder.cs:112-126 | one rule renders as its own declarations joined by `; ` |
| Render.ToStyleSingle | src/Displays/DisplayBuilder.cs:112-126 | a rule with exactly one declaration renders as that declaration |
| Render.StyleDeclsAppend | src/Displays/DisplayBuilder.cs:112-126 | the declarations of a concatenation are the concatenated declarations |
| Render.ToStyleAppend | src/Displays/DisplayBuilder.cs:112-126 | when both halves have declarations, the style string of a concatenation is the two style strings with `; ` between |
| Render.StyleIgnoresBreakpoints | src/Displays/DisplayBuilder.cs:112-126 | two lists with the same payloads, whatever their breakpoints, render the same declarations |
| Render.StyleDeclsNil | src/Displays/DisplayBuilder.cs:112-126 | there is no declaration at all exactly when no rule's table yields one |
| Render.StyleDeclsHas | src/Displays/DisplayBuilder.cs:112-126 | every declaration of every rule is among the rendered declarations |
| Render.ToStyleEmptyShape | src/Displays/DisplayBuilder.cs:104-129 | the style string is empty exactly when there is no declaration or only one, empty, declaration |
| Render.ToStyleHasDecl | src/Displays/DisplayBuilder.cs:104-129 | a non-empty declaration of any rule makes the style string non-empty |
| Render.ToStyleEmptyIff | src/Displays/DisplayBuilder.cs:104-129 | when no table yields an empty declaration, the style string is empty exactly when no rule has a declaration |
| Render.OneDeclPerRule | src/ZIndexes/ZIndexBuilder.cs:98-113 | a table that always yields one declaration gives exactly one per rule |
| Render.NoDeclNoStyle | src/BoxShadows/BoxShadowBuilder.cs:104-108 | a table that never yields a declaration renders every list as the empty style string |
| Render.ClassElseStyle | src/Colors/ColorBuilder.cs:130-142 | the class string when some rule has a class name, and the style string when none has (so "" for an empty list) |
| Spacings.AddSide | src/Paddings/PaddingBuilder.cs:69-86 | a side method re-targets a last rule for all sides in place and otherwise appends a rule with the last size and breakpoint; an empty list gets the default size |
| Spacings.ChainSize | src/Paddings/PaddingBuilder.cs:89-93 | a size method appends exactly one rule for all sides without a breakpoint |
| Spacings.SizeThenSide | src/Paddings/PaddingBuilder.cs:69-93 | a size followed by a side gives exactly one new rule for that side |
| Spacings.ChainBreakpoint | src/Paddings/PaddingBuilder.cs:103-115 | an empty list gets the default size for all sides at the breakpoint; otherwise only the last rule changes, taking the breakpoint |
| Spacings.SideToken | src/Paddings/PaddingBuilder.cs:262-289 | at most one letter, with no hyphen or space; empty exactly for all sides or an unknown side |
| Spacings.ClassIsSplice | src/Paddings/PaddingBuilder.cs:118-157 | the class built directly (base, side, `-`, token, `-`, size) is the first-hyphen splice of the token into base, side, `-`, size |
| Spacings.ToClass | src/Paddings/PaddingBuilder.cs:118-157 | the class string is empty exactly when the loop writes no class, which is exactly when no rule's size has a token |
| Spacings.ClassesNil | src/Paddings/PaddingBuilder.cs:118-157 | the loop writes no class exactly when no rule's size has a token |
| Spacings.ToStyle | src/Paddings/PaddingBuilder.cs:160-232 | the style string is empty exactly when no rule's size has a style value |
| Spacings.StylesShape | src/Paddings/PaddingBuilder.cs:160-243 | no declaration of a rule is an empty string, and a rule has declarations exactly when its size has a value |
| Spacings.ClassesAreGeneric | src/Paddings/PaddingBuilder.cs:118-157 | the spacing classes equal the generic renderer's over the per-rule stems with the first-hyphen splice |
| Spacings.SideProperties | src/Paddings/PaddingBuilder.cs:160-232 | an axis sets two properties and any other side one, each starting with the base property |
| Spacings.Decls | src/Paddings/PaddingBuilder.cs:235-243 | one declaration per property, in order, each with the same value |
| Spacings.RuleStyle | src/Paddings/PaddingBuilder.cs:160-232 | a rule whose size has a value renders as the declarations of its side's properties |
| Spacings.SideStyle | src/Paddings/PaddingBuilder.cs:160-232 | a one-side rule renders as one declaration |
| Spacings.AxisStyle | src/Paddings/PaddingBuilder.cs:160-232 | an axis rule renders as the declarations of its two sides, `; ` between |
| Spacings.NoValueStyle | src/Paddings/PaddingBuilder.cs:160-232 | a rule whose size has no value renders no declaration |
| Paddings.SizeToken | src/Paddings/PaddingBuilder.cs:246-259 | exactly the scale steps 0 to 5 and -1 have a token: each step is its own token, -1 is `auto` |
| Paddings.SizeValue | src/Paddings/PaddingBuilder.cs:292-306 | a size has a value exactly when it has a token: 0 is `0`, steps 1 to 5 are 0.25rem, 0.5rem, 1rem, 1.5rem and 3rem, and -1 is `auto` |
| Paddings.ToClass | src/Paddings/PaddingBuilder.cs:118-157 | the class string is empty exactly when no rule's size has a class token |
| Paddings.ToStyle | src/Paddings/PaddingBuilder.cs:160-232 | the style string is empty exactly when no rule's size is in the value table |
| Paddings.ClassWithBreakpoint | src/Paddings/PaddingBuilder.cs:118-157 | size 3, top side, at `md` renders as `pt-md-3` |
| Paddings.HorizontalStyle | src/Paddings/PaddingBuilder.cs:160-232 | the horizontal axis at size 3 renders as `padding-left: 1rem; padding-right: 1rem` |
| Paddings.AutoSize | src/Paddings/PaddingBuilder.cs:246-306 | size -1 renders as `p-auto` and `padding: auto` |
| Paddings.UnknownSize | src/Paddings/PaddingBuilder.cs:246-306 | a size off the table renders nothing in either mode |
| Margins.SizeToken | src/Margins/MarginBuilder.cs:250-263 | exactly the scale steps 0 to 5 and `auto` have a token, and each is its own token |
| Margins.SizeValue | src/Margins/MarginBuilder.cs:296-309 | a size has a value exactly when it has a token: 0 is `0`, steps 1 to 5 are 0.25rem, 0.5rem, 1rem, 1.5rem and 3rem, and `auto` is `auto` |
| Margins.ToClass | src/Margins/MarginBuilder.cs:121-163 | the class string is empty exactly when no rule's size has a class token |
| Margins.ToStyle | src/Margins/MarginBuilder.cs:166-236 | the style string is empty exactly when no rule's size is in the value table |
| Margins.Auto | src/Margins/MarginBuilder.cs:63-63 | the `Auto` method appends exactly one rule of size `auto` for all sides without a breakpoint |
| Margins.TopThenLeft | src/Margins/MarginBuilder.cs:74-89 | `S3.FromTop.FromLeft` gives a top rule and then a left rule, both of size 3 |
| Margins.AutoRenders | src/Margins/MarginBuilder.cs:250-309 | `Auto` renders as `m-auto` and `margin: auto` |
| Margins.InlineStartStyle | src/Margins/MarginBuilder.cs:166-236 | the logical start side renders with the `margin-inline-start` property |
| Borders.New | src/Borders/BorderBuilder.cs:28-32 | the constructor adds no rule exactly when the size is empty, else one rule for all sides at the given breakpoint |
| Borders.SizeValue | src/Borders/BorderBuilder.cs:271-283 | exactly the steps 0 to 5 have a value: step 0 is `0`, steps 1 to 5 are 1px to 5px |
| Borders.ToClass | src/Borders/BorderBuilder.cs:108-150 | the class string is empty exactly when every rule's size is empty |
| Borders.ToStyle | src/Borders/BorderBuilder.cs:153-225 | the style string is empty exactly when no rule's size is in the width table |
| Borders.RawSizeClass | src/Borders/BorderBuilder.cs:108-150 | a class is written for any non-empty size (`b-9`) though its style is empty; at `md` the top side gives `bt-md-2` |
| Borders.HorizontalStyle | src/Borders/BorderBuilder.cs:153-225 | the horizontal axis sets the left width, then the right width |
| Animations.ClassOf | src/Animations/AnimationBuilder.cs:123-134 | exactly the values of the class table have a class, which is `animate-` followed by the value; global keywords and unknown values have none |
| Animations.StyleValue | src/Animations/AnimationBuilder.cs:137-148 | the style table knows exactly the values the class table knows; `none` is written as `none` |
| Animations.StylesOf | src/Animations/AnimationBuilder.cs:96-120 | a value the style table does not know gives no declaration; one it knows gives exactly one, which parses back to property `animation` with the table's value |
| Animations.OnBreakpoint | src/Animations/AnimationBuilder.cs:54-66 | on an empty builder the result is the one default rule `none` at the breakpoint; otherwise the payloads are unchanged and the last rule carries the breakpoint |
| Animations.ToClass | src/Animations/AnimationBuilder.cs:68-94 | the class string is empty exactly when no rule's value has a class |
| Animations.ToStyle | src/Animations/AnimationBuilder.cs:96-120 | the style string is empty exactly when no rule's value is in the style table |
| Animations.ToString | src/Animations/AnimationBuilder.cs:177-180 | `ToString` is the class string, never the style string; it is empty exactly when no rule's value has a class |
| Animations.ClassIffStyle | src/Animations/AnimationBuilder.cs:123-148 | a value has a class if and only if it has a declaration, in both directions: no class exactly when no declaration |
| Animations.SpliceExample | src/Animations/AnimationBuilder.cs:151-175 | only the first hyphen takes the breakpoint: `animate-spin` at `md` is `animate-md-spin` |
| Animations.StyleExample | src/Animations/AnimationBuilder.cs:137-148 | `spin` alone renders as the style `animation: spin 1s linear infinite` |
| BoxShadows.ClassOf | src/BoxShadows/BoxShadowBuilder.cs:65-102 | exactly the listed sizes have a class: `shadow` for the base shadow, `shadow-` followed by the size otherwise |
| BoxShadows.OnBreakpoint | src/BoxShadows/BoxShadowBuilder.cs:51-63 | on an empty builder the result is the one default rule `base` at the breakpoint; otherwise the payloads are unchanged and the last rule carries the breakpoint |
| BoxShadows.ToClass | src/BoxShadows/BoxShadowBuilder.cs:65-102 | the class string is empty exactly when no rule's value has a class |
| BoxShadows.ToStyle | src/BoxShadows/BoxShadowBuilder.cs:104-108 | the style string is empty whatever the rules |
| BoxShadows.NoStyle | src/BoxShadows/BoxShadowBuilder.cs:104-108 | every rule list renders the empty style string |
| BoxShadows.PrefixExample | src/BoxShadows/BoxShadowBuilder.cs:116-147 | the base shadow has no hyphen, so the token goes in front: `md-shadow` |
| BoxShadows.SpliceExample | src/BoxShadows/BoxShadowBuilder.cs:116-147 | `shadow-lg` at `md` is `shadow-md-lg` |
| Clearfix.OnBreakpoint | src/Clearfix/ClearfixBuilder.cs:37-49 | an empty builder gets one rule; otherwise the length and every rule but the last are kept; the last rule carries the breakpoint |
| Clearfix.ToClass | src/Clearfix/ClearfixBuilder.cs:51-75 | every rule renders the one class, so the class string is empty exactly when there is no rule |
| Clearfix.ToStyle | src/Clearfix/ClearfixBuilder.cs:77-94 | every rule renders the one declaration block, so the style string is empty exactly when there is no rule |
| Clearfix.ToString | src/Clearfix/ClearfixBuilder.cs:108-111 | `ToString` is the class string, never the style string; it is empty exactly when there is no rule |
| Clearfix.OnePerRule | src/Clearfix/ClearfixBuilder.cs:51-94 | every rule renders one class and one declaration block, however many rules there are |
| Clearfix.PrefixExample | src/Clearfix/ClearfixBuilder.cs:97-106 | the token always goes in front of the class |
| ClipPaths.ClassOf | src/ClipPaths/ClipPathBuilder.cs:123-134 | exactly the values of the class table have a class, which is `clip-path-` followed by the value; global keywords and unknown values have none |
| ClipPaths.StyleValue | src/ClipPaths/ClipPathBuilder.cs:137-148 | the style table knows exactly the values the class table knows; `none` is written as `none` |
| ClipPaths.StylesOf | src/ClipPaths/ClipPathBuilder.cs:96-120 | a value the style table does not know gives no declaration; one it knows gives exactly one, which parses back to property `clip-path` with the table's value |
| ClipPaths.OnBreakpoint | src/ClipPaths/ClipPathBuilder.cs:54-66 | on an empty builder the result is the one default rule `none` at the breakpoint; otherwise the payloads are unchanged and the last rule carries the breakpoint |
| ClipPaths.ToClass | src/ClipPaths/ClipPathBuilder.cs:68-94 | the class string is empty exactly when no rule's value has a class |
| ClipPaths.ToStyle | src/ClipPaths/ClipPathBuilder.cs:96-120 | the style string is empty exactly when no rule's value is in the style table |
| ClipPaths.ToString | src/ClipPaths/ClipPathBuilder.cs:177-180 | `ToString` is the class string, never the style string; it is empty exactly when no rule's value has a class |
| ClipPaths.ClassIffStyle | src/ClipPaths/ClipPathBuilder.cs:123-148 | a value has a class if and only if it has a declaration, in both directions: no class exactly when no declaration |
| ClipPaths.SpliceExample | src/ClipPaths/ClipPathBuilder.cs:151-175 | only the first hyphen takes the breakpoint: `clip-path-circle` at `md` is `clip-md-path-circle` |
| ClipPaths.StyleExample | src/ClipPaths/ClipPathBuilder.cs:137-148 | `circle` alone renders as the style `clip-path: circle(50%)` |
| Colors.ClassOf | src/Colors/ColorBuilder.cs:145-153 | the class table: a theme is its own class; any other value has none |
| Colors.StylesOf | src/Colors/ColorBuilder.cs:102-124 | the style table: a theme has no entry; any other value, the empty one included, is written as it is, with no property name |
| Colors.OnBreakpoint | src/Colors/ColorBuilder.cs:60-72 | on an empty builder the result is the one default rule `inherit` at the breakpoint; otherwise the payloads are unchanged and the last rule carries the breakpoint |
| Colors.ToClass | src/Colors/ColorBuilder.cs:74-100 | the class string is empty exactly when no rule names a theme color |
| Colors.ToStyle | src/Colors/ColorBuilder.cs:102-124 | the style string is empty when every rule names a theme, and is never empty once some rule has a non-empty value outside the themes |
| Colors.RawValueShows | src/Colors/ColorBuilder.cs:102-124 | a non-empty value outside the themes in any rule keeps the style string from being empty |
| Colors.ToString | src/Colors/ColorBuilder.cs:130-142 | the class string when some rule has a theme class, the style string otherwise (so "" for an empty builder) |
| Colors.ClassOrStyle | src/Colors/ColorBuilder.cs:145-164 | every value goes to exactly one table: a theme has a class and no style, any other value has no class and its one style entry is the value itself |
| Colors.RawValuesRenderAsStyle | src/Colors/ColorBuilder.cs:74-142 | for any list with no theme color the class string is empty and `ToString` equals the style string |
| Colors.ThemeExample | test/Soenneker.Quark.Components.Builders.Tests/ComponentBuildersTests.cs:22-34 | `primary` gives class `primary`, an empty style and `ToString` `primary` |
| Colors.KeywordExample | test/Soenneker.Quark.Components.Builders.Tests/ComponentBuildersTests.cs:37-49 | `inherit` gives an empty class and style and `ToString` both equal to `inherit` |
| Colors.ThemeOnTablet | test/Soenneker.Quark.Components.Builders.Tests/ComponentBuildersTests.cs:52-61 | `Primary.OnTablet` gives `ToString` `sm-primary`: the token goes in front of a hyphen-free class |
| Colors.RawValueExample | test/Soenneker.Quark.Components.Builders.Tests/ComponentBuildersTests.cs:64-76 | `#ff0000` gives an empty class, and style and `ToString` equal to `#ff0000` |
| Colors.DefaultExample | src/Colors/ColorBuilder.cs:60-72 | a breakpoint on an empty builder adds `inherit`, so `ToString` is `inherit` |
| Displays.ClassOf | src/Displays/DisplayBuilder.cs:132-149 | exactly the values of the class table have a class, which is `d-` followed by the value; global keywords and unknown values have none |
| Displays.StylesOf | src/Displays/DisplayBuilder.cs:104-129 | every non-empty value, keywords and unknown values included, gives exactly one declaration, and it parses back to property `display` with the value unchanged; the empty value gives none |
| Displays.OnBreakpoint | src/Displays/DisplayBuilder.cs:62-74 | on an empty builder the result is the one default rule `block` at the breakpoint; otherwise the payloads are unchanged and the last rule carries the breakpoint |
| Displays.ToClass | src/Displays/DisplayBuilder.cs:76-102 | the class string is empty exactly when no rule's value has a class |
| Displays.ToStyle | src/Displays/DisplayBuilder.cs:104-129 | the style string is empty exactly when every rule's value is empty: any non-empty value, keywords and unknown values included, is written |
| Displays.KeywordIsStyleOnly | src/Displays/DisplayBuilder.cs:76-129 | each global keyword has no class and gives exactly the declaration `display`: keyword |
| Displays.SpliceExample | src/Displays/DisplayBuilder.cs:153-182 | only the first hyphen takes the breakpoint: `d-inline-flex` at `md` is `d-md-inline-flex` |
| Displays.StyleExample | src/Displays/DisplayBuilder.cs:104-129 | `flex` alone renders as the style `display: flex` |
| Floats.ClassOf | src/Floats/FloatBuilder.cs:72-108 | exactly the five float values have a class; `left` and `inline-start` both give `float-start`, `right` and `inline-end` both give `float-end` |
| Floats.StyleValue | src/Floats/FloatBuilder.cs:110-148 | defined exactly for the class-table values and the five global keywords, and writes each unchanged |
| Floats.StylesOf | src/Floats/FloatBuilder.cs:110-148 | a value the style table does not know gives no declaration; one it knows gives exactly one, which parses back to property `float` with the table's value |
| Floats.OnBreakpoint | src/Floats/FloatBuilder.cs:58-70 | on an empty builder the result is the one default rule `none` at the breakpoint; otherwise the payloads are unchanged and the last rule carries the breakpoint |
| Floats.ToClass | src/Floats/FloatBuilder.cs:72-108 | the class string is empty exactly when no rule's value has a class |
| Floats.ToStyle | src/Floats/FloatBuilder.cs:110-148 | the style string is empty exactly when no rule's value is in the style table |
| Floats.KeywordIsStyleOnly | src/Floats/FloatBuilder.cs:72-148 | each global keyword has no class and gives exactly the declaration `float`: keyword |
| Floats.SidesShareClassNotStyle | src/Floats/FloatBuilder.cs:72-148 | a physical side and its logical side share a class but render different declarations |
| Floats.SpliceExample | src/Floats/FloatBuilder.cs:152-176 | `left` at `md` is `float-md-start` |
| Floats.StyleExample | src/Floats/FloatBuilder.cs:110-148 | `inline-end` alone renders as the style `float: inline-end` |
| FontStyles.ClassOf | src/FontStyles/FontStyleBuilder.cs:64-92 | exactly the values of the class table have a class, which is `fst-` followed by the value; global keywords and unknown values have none |
| FontStyles.StylesOf | src/FontStyles/FontStyleBuilder.cs:94-114 | every non-empty value, keywords and unknown values included, gives exactly one declaration, and it parses back to property `font-style` with the value unchanged; the empty value gives none |
| FontStyles.OnBreakpoint | src/FontStyles/FontStyleBuilder.cs:50-62 | on an empty builder the result is the one default rule `normal` at the breakpoint; otherwise the payloads are unchanged and the last rule carries the breakpoint |
| FontStyles.ToClass | src/FontStyles/FontStyleBuilder.cs:64-92 | the class string is empty exactly when no rule's value has a class |
| FontStyles.ToStyle | src/FontStyles/FontStyleBuilder.cs:94-114 | the style string is empty exactly when every rule's value is empty: any non-empty value, keywords and unknown values included, is written |
| FontStyles.KeywordIsStyleOnly | src/FontStyles/FontStyleBuilder.cs:64-114 | each global keyword has no class and gives exactly the declaration `font-style`: keyword |
| FontStyles.SpliceExample | src/FontStyles/FontStyleBuilder.cs:118-142 | only the first hyphen takes the breakpoint: `fst-italic` at `md` is `fst-md-italic` |
| FontStyles.StyleExample | src/FontStyles/FontStyleBuilder.cs:94-114 | `italic` alone renders as the style `font-style: italic` |
| FontWeights.ClassOf | src/FontWeights/FontWeightBuilder.cs:78-110 | exactly the values of the class table have a class, which is `fw-` followed by the value; global keywords and unknown values have none |
| FontWeights.StyleValue | src/FontWeights/FontWeightBuilder.cs:112-147 | defined exactly for the class-table values and the global keywords; anything but a named weight is written unchanged |
| FontWeights.StylesOf | src/FontWeights/FontWeightBuilder.cs:112-147 | a value the style table does not know gives no declaration; one it knows gives exactly one, which parses back to property `font-weight` with the table's value |
| FontWeights.OnBreakpoint | src/FontWeights/FontWeightBuilder.cs:64-76 | on an empty builder the result is the one default rule `normal` at the breakpoint; otherwise the payloads are unchanged and the last rule carries the breakpoint |
| FontWeights.ToClass | src/FontWeights/FontWeightBuilder.cs:78-110 | the class string is empty exactly when no rule's value has a class |
| FontWeights.ToStyle | src/FontWeights/FontWeightBuilder.cs:112-147 | the style string is empty exactly when no rule's value is in the style table |
| FontWeights.KeywordIsStyleOnly | src/FontWeights/FontWeightBuilder.cs:78-147 | each global keyword has no class and gives exactly the declaration `font-weight`: keyword |
| FontWeights.NamedWeightIsDecimal | src/FontWeights/FontWeightBuilder.cs:112-147 | each named weight is written as the decimal digits of its numeric weight (`light` 300 to `bold` 700) |
| FontWeights.SpliceExample | src/FontWeights/FontWeightBuilder.cs:151-175 | the weight at `md` is `fw-md-bold` |
| FontWeights.StyleExample | src/FontWeights/FontWeightBuilder.cs:112-147 | `semibold` alone renders as the style `font-weight: 600` |
| Gaps.New | src/Gaps/GapBuilder.cs:24-28 | the constructor adds no rule for an empty size, else exactly one rule for the size at the given breakpoint |
| Gaps.ClassOf | src/Gaps/GapBuilder.cs:176-188 | exactly the values of the class table have a class, which is `gap-` followed by the value; global keywords and unknown values have none |
| Gaps.StyleValue | src/Gaps/GapBuilder.cs:191-203 | the style table knows exactly the values the class table knows: step 0 is `0`, steps 1 to 5 are 0.25rem, 0.5rem, 1rem, 1.5rem and 3rem |
| Gaps.StylesOf | src/Gaps/GapBuilder.cs:150-173 | a value the style table does not know gives no declaration; one it knows gives exactly one, which parses back to property `gap` with the table's value |
| Gaps.OnBreakpoint | src/Gaps/GapBuilder.cs:100-112 | on an empty builder the result is the one default rule `0` at the breakpoint; otherwise the payloads are unchanged and the last rule carries the breakpoint |
| Gaps.ToClass | src/Gaps/GapBuilder.cs:117-145 | the class string is empty exactly when no rule's value has a class |
| Gaps.ToStyle | src/Gaps/GapBuilder.cs:150-173 | the style string is empty exactly when no rule's value is in the style table |
| Gaps.ClassIffStyle | src/Gaps/GapBuilder.cs:176-203 | a value has a class if and only if it has a declaration, in both directions: no class exactly when no declaration |
| Gaps.SpliceExample | src/Gaps/GapBuilder.cs:206-230 | only the first hyphen takes the breakpoint: `gap-3` at `md` is `gap-md-3` |
| Gaps.StyleExample | src/Gaps/GapBuilder.cs:191-203 | `3` alone renders as the style `gap: 1rem` |
| Gaps.SharesSpacingScale | src/Gaps/GapBuilder.cs:191-203 | every gap step has a value, and it is the value of the same padding step and margin step: the three builders share one rem scale |
| Interactions.UserSelectClass | src/Interactions/InteractionBuilder.cs:149-159 | exactly the known user-select values have a class, `user-select-` followed by the value |
| Interactions.PointerEventsClass | src/Interactions/InteractionBuilder.cs:162-170 | exactly the known pointer-events values have a class, `pointer-events-` followed by the value |
| Interactions.UserSelectValue | src/Interactions/InteractionBuilder.cs:173-183 | defined exactly for the known user-select values, each written unchanged |
| Interactions.PointerEventsValue | src/Interactions/InteractionBuilder.cs:186-194 | defined exactly for the known pointer-events values, each written unchanged |
| Interactions.StylesOf | src/Interactions/InteractionBuilder.cs:112-146 | one declaration per known property value, `user-select` first and `pointer-events` last, each parsing back to its property and value |
| Interactions.OnBreakpoint | src/Interactions/InteractionBuilder.cs:56-68 | an empty builder gets one rule; otherwise the length and every rule but the last are kept; the last rule carries the breakpoint |
| Interactions.ToClass | src/Interactions/InteractionBuilder.cs:70-110 | the class string is empty exactly when no rule has a known user-select value or a known pointer-events value |
| Interactions.ToStyle | src/Interactions/InteractionBuilder.cs:112-146 | the style string is empty exactly when no rule has a known user-select value or a known pointer-events value, so classes and declarations appear together |
| Interactions.ToString | src/Interactions/InteractionBuilder.cs:223-226 | `ToString` is the class string, never the style string; it is empty exactly when no rule has a known value for either property |
| Interactions.ClassesMatchStyles | src/Interactions/InteractionBuilder.cs:149-194 | each property has a class exactly when it has a declaration, so a rule has as many classes as declarations |
| Interactions.BothClassesSpliced | src/Interactions/InteractionBuilder.cs:70-110 | with both values known, a rule at a non-empty breakpoint renders two classes separated by a space, the token spliced after `user` in the first and after `pointer` in the second |
| Interactions.NoSelectStyle | src/Interactions/InteractionBuilder.cs:112-146 | the `NoSelect` preset renders as `user-select: none; pointer-events: auto` |
| LineHeights.ClassOf | src/LineHeights/LineHeightBuilder.cs:63-93 | exactly the values of the class table have a class, which is `lh-` followed by the value; global keywords and unknown values have none |
| LineHeights.StyleValue | src/LineHeights/LineHeightBuilder.cs:95-121 | the style table knows exactly the values the class table knows: `1` is 1, `sm` 1.25, `base` 1.5 and `lg` 2 |
| LineHeights.StylesOf | src/LineHeights/LineHeightBuilder.cs:95-121 | a value the style table does not know gives no declaration; one it knows gives exactly one, which parses back to property `line-height` with the table's value |
| LineHeights.OnBreakpoint | src/LineHeights/LineHeightBuilder.cs:49-61 | on an empty builder the result is the one default rule `base` at the breakpoint; otherwise the payloads are unchanged and the last rule carries the breakpoint |
| LineHeights.ToClass | src/LineHeights/LineHeightBuilder.cs:63-93 | the class string is empty exactly when no rule's value has a class |
| LineHeights.ToStyle | src/LineHeights/LineHeightBuilder.cs:95-121 | the style string is empty exactly when no rule's value is in the style table |
| LineHeights.ClassIffStyle | src/LineHeights/LineHeightBuilder.cs:63-121 | a value has a class if and only if it has a declaration, in both directions: no class exactly when no declaration |
| LineHeights.SpliceExample | src/LineHeights/LineHeightBuilder.cs:125-149 | only the first hyphen takes the breakpoint: `lh-sm` at `md` is `lh-md-sm` |
| LineHeights.StyleExample | src/LineHeights/LineHeightBuilder.cs:95-121 | `lg` alone renders as the style `line-height: 2` |
| ObjectPositions.ClassOf | src/ObjectPositions/ObjectPositionBuilder.cs:131-146 | exactly the values of the class table have a class, which is `object-` followed by the value; global keywords and unknown values have none |
| ObjectPositions.StyleValue | src/ObjectPositions/ObjectPositionBuilder.cs:149-164 | defined exactly for the class-table positions; the value is the position with its hyphen replaced by a space |
| ObjectPositions.StylesOf | src/ObjectPositions/ObjectPositionBuilder.cs:104-128 | a value the style table does not know gives no declaration; one it knows gives exactly one, which parses back to property `object-position` with the table's value |
| ObjectPositions.OnBreakpoint | src/ObjectPositions/ObjectPositionBuilder.cs:62-74 | on an empty builder the result is the one default rule `center` at the breakpoint; otherwise the payloads are unchanged and the last rule carries the breakpoint |
| ObjectPositions.ToClass | src/ObjectPositions/ObjectPositionBuilder.cs:76-102 | the class string is empty exactly when no rule's value has a class |
| ObjectPositions.ToStyle | src/ObjectPositions/ObjectPositionBuilder.cs:104-128 | the style string is empty exactly when no rule's value is in the style table |
| ObjectPositions.ToString | src/ObjectPositions/ObjectPositionBuilder.cs:193-196 | `ToString` is the class string, never the style string; it is empty exactly when no rule's value has a class |
| ObjectPositions.ClassIffStyle | src/ObjectPositions/ObjectPositionBuilder.cs:131-164 | a value has a class if and only if it has a declaration, in both directions: no class exactly when no declaration |
| ObjectPositions.SpliceExample | src/ObjectPositions/ObjectPositionBuilder.cs:167-191 | only the first hyphen takes the breakpoint: `object-top-left` at `md` is `object-md-top-left` |
| ObjectPositions.StyleExample | src/ObjectPositions/ObjectPositionBuilder.cs:149-164 | `bottom-right` alone renders as the style `object-position: bottom right` |
| Overflows.ClassOf | src/Overflows/OverflowBuilder.cs:135-145 | exactly the values of the class table have a class, which is `overflow-` followed by the value; global keywords and unknown values have none |
| Overflows.StylesOf | src/Overflows/OverflowBuilder.cs:110-132 | every non-empty value, keywords and unknown values included, gives exactly one declaration, and it parses back to property `overflow` with the value unchanged; the empty value gives none |
| Overflows.OnBreakpoint | src/Overflows/OverflowBuilder.cs:65-77 | on an empty builder the result is the one default rule `auto` at the breakpoint; otherwise the payloads are unchanged and the last rule carries the breakpoint |
| Overflows.ToClass | src/Overflows/OverflowBuilder.cs:80-107 | the class string is empty exactly when no rule's value has a class |
| Overflows.ToStyle | src/Overflows/OverflowBuilder.cs:110-132 | the style string is empty exactly when every rule's value is empty: any non-empty value, keywords and unknown values included, is written |
| Overflows.KeywordIsStyleOnly | src/Overflows/OverflowBuilder.cs:80-132 | each global keyword has no class and gives exactly the declaration `overflow`: keyword |
| Overflows.SpliceExample | src/Overflows/OverflowBuilder.cs:155-186 | only the first hyphen takes the breakpoint: `overflow-hidden` at `md` is `overflow-md-hidden` |
| Overflows.StyleExample | src/Overflows/OverflowBuilder.cs:110-132 | `scroll` alone renders as the style `overflow: scroll` |
| PointerEvents.ClassOf | src/PointerEventss/PointerEventsBuilder.cs:77-110 | exactly the values of the class table have a class, which is `pe-` followed by the value; global keywords and unknown values have none |
| PointerEvents.StyleValue | src/PointerEventss/PointerEventsBuilder.cs:112-146 | defined exactly for the class-table values and the five global keywords, and writes each unchanged |
| PointerEvents.StylesOf | src/PointerEventss/PointerEventsBuilder.cs:112-146 | a value the style table does not know gives no declaration; one it knows gives exactly one, which parses back to property `pointer-events` with the table's value |
| PointerEvents.OnBreakpoint | src/PointerEventss/PointerEventsBuilder.cs:63-75 | on an empty builder the result is the one default rule `auto` at the breakpoint; otherwise the payloads are unchanged and the last rule carries the breakpoint |
| PointerEvents.ToClass | src/PointerEventss/PointerEventsBuilder.cs:77-110 | the class string is empty exactly when no rule's value has a class |
| PointerEvents.ToStyle | src/PointerEventss/PointerEventsBuilder.cs:112-146 | the style string is empty exactly when no rule's value is in the style table |
| PointerEvents.KeywordIsStyleOnly | src/PointerEventss/PointerEventsBuilder.cs:77-146 | each global keyword has no class and gives exactly the declaration `pointer-events`: keyword |
| PointerEvents.ClassImpliesStyle | src/PointerEventss/PointerEventsBuilder.cs:77-146 | every value that has a class also gives exactly the declaration `pointer-events`: value |
| PointerEvents.SpliceExample | src/PointerEventss/PointerEventsBuilder.cs:156-187 | only the first hyphen takes the breakpoint: `pe-auto` at `md` is `pe-md-auto` |
| PointerEvents.StyleExample | src/PointerEventss/PointerEventsBuilder.cs:112-146 | `none` alone renders as the style `pointer-events: none` |
| Positions.ClassOf | src/Positions/PositionBuilder.cs:145-157 | exactly the values of the class table have a class, which is `position-` followed by the value; global keywords and unknown values have none |
| Positions.StylesOf | src/Positions/PositionBuilder.cs:118-142 | every non-empty value, keywords and unknown values included, gives exactly one declaration, and it parses back to property `position` with the value unchanged; the empty value gives none |
| Positions.OnBreakpoint | src/Positions/PositionBuilder.cs:71-83 | on an empty builder the result is the one default rule `static` at the breakpoint; otherwise the payloads are unchanged and the last rule carries the breakpoint |
| Positions.ToClass | src/Positions/PositionBuilder.cs:86-115 | the class string is empty exactly when no rule's value has a class |
| Positions.ToStyle | src/Positions/PositionBuilder.cs:118-142 | the style string is empty exactly when every rule's value is empty: any non-empty value, keywords and unknown values included, is written |
| Positions.KeywordIsStyleOnly | src/Positions/PositionBuilder.cs:86-142 | each global keyword has no class and gives exactly the declaration `position`: keyword |
| Positions.SpliceExample | src/Positions/PositionBuilder.cs:167-198 | only the first hyphen takes the breakpoint: `position-fixed` at `md` is `position-md-fixed` |
| Positions.StyleExample | src/Positions/PositionBuilder.cs:118-142 | `sticky` alone renders as the style `position: sticky` |
| ScreenReaders.ClassOf | src/ScreenReaders/ScreenReaderBuilder.cs:116-124 | exactly the two modes have a class, `sr-` followed by the mode |
| ScreenReaders.StylesOf | src/ScreenReaders/ScreenReaderBuilder.cs:90-113 | a mode gives exactly one declaration block and anything else none; `only` gives the visually-hidden block and `only-focusable` the focusable block |
| ScreenReaders.OnBreakpoint | src/ScreenReaders/ScreenReaderBuilder.cs:48-60 | on an empty builder the result is the one default rule `only` at the breakpoint; otherwise the payloads are unchanged and the last rule carries the breakpoint |
| ScreenReaders.ToClass | src/ScreenReaders/ScreenReaderBuilder.cs:62-88 | the class string is empty exactly when no rule's value has a class |
| ScreenReaders.ToStyle | src/ScreenReaders/ScreenReaderBuilder.cs:90-113 | the style string is empty exactly when no rule names a screen-reader mode |
| ScreenReaders.ToString | src/ScreenReaders/ScreenReaderBuilder.cs:149-152 | `ToString` is the class string, never the style string; it is empty exactly when no rule names a mode |
| ScreenReaders.FocusableExtendsOnly | src/ScreenReaders/ScreenReaderBuilder.cs:127-135 | the `only-focusable` block begins with the whole `only` block and is longer: it adds the focus rule after it |
| ScreenReaders.ClassIffStyle | src/ScreenReaders/ScreenReaderBuilder.cs:116-135 | a value has a class if and only if it has a declaration, in both directions: no class exactly when no declaration |
| ScreenReaders.PrefixExample | src/ScreenReaders/ScreenReaderBuilder.cs:138-147 | even a hyphenated class takes the token in front: `md-sr-only` |
| StretchedLinks.OnBreakpoint | src/StretchedLinks/StretchedLinkBuilder.cs:37-49 | an empty builder gets one rule; otherwise the length and every rule but the last are kept; the last rule carries the breakpoint |
| StretchedLinks.ToClass | src/StretchedLinks/StretchedLinkBuilder.cs:51-75 | every rule renders the one class, so the class string is empty exactly when there is no rule |
| StretchedLinks.ToStyle | src/StretchedLinks/StretchedLinkBuilder.cs:77-94 | every rule renders the one declaration block, so the style string is empty exactly when there is no rule |
| StretchedLinks.ToString | src/StretchedLinks/StretchedLinkBuilder.cs:108-111 | `ToString` is the class string, never the style string; it is empty exactly when there is no rule |
| StretchedLinks.OnePerRule | src/StretchedLinks/StretchedLinkBuilder.cs:51-94 | every rule renders one class and one declaration block, however many rules there are |
| StretchedLinks.PrefixExample | src/StretchedLinks/StretchedLinkBuilder.cs:97-106 | the token always goes in front of the class |
| TextAlignments.ClassOf | src/TextAlignments/TextAlignmentBuilder.cs:82-118 | exactly the values of the class table have a class, which is `text-` followed by the value; global keywords and unknown values have none |
| TextAlignments.StyleValue | src/TextAlignments/TextAlignmentBuilder.cs:120-159 | defined exactly for the class-table values and the five global keywords, and writes each unchanged |
| TextAlignments.StylesOf | src/TextAlignments/TextAlignmentBuilder.cs:120-159 | a value the style table does not know gives no declaration; one it knows gives exactly one, which parses back to property `text-align` with the table's value |
| TextAlignments.OnBreakpoint | src/TextAlignments/TextAlignmentBuilder.cs:68-80 | on an empty builder the result is the one default rule `start` at the breakpoint; otherwise the payloads are unchanged and the last rule carries the breakpoint |
| TextAlignments.ToClass | src/TextAlignments/TextAlignmentBuilder.cs:82-118 | the class string is empty exactly when no rule's value has a class |
| TextAlignments.ToStyle | src/TextAlignments/TextAlignmentBuilder.cs:120-159 | the style string is empty exactly when no rule's value is in the style table |
| TextAlignments.KeywordIsStyleOnly | src/TextAlignments/TextAlignmentBuilder.cs:82-159 | each global keyword has no class and gives exactly the declaration `text-align`: keyword |
| TextAlignments.ClassImpliesStyle | src/TextAlignments/TextAlignmentBuilder.cs:82-159 | every value that has a class also gives exactly the declaration `text-align`: value |
| TextAlignments.SpliceExample | src/TextAlignments/TextAlignmentBuilder.cs:172-203 | only the first hyphen takes the breakpoint: `text-center` at `md` is `text-md-center` |
| TextAlignments.StyleExample | src/TextAlignments/TextAlignmentBuilder.cs:120-159 | `center` alone renders as the style `text-align: center` |
| TextDecorations.ClassOf | src/TextDecorations/TextDecorationBuilder.cs:83-119 | exactly the values of the class table have a class, which is `text-decoration-` followed by the value; global keywords and unknown values have none |
| TextDecorations.StyleValue | src/TextDecorations/TextDecorationBuilder.cs:121-160 | defined exactly for the class-table values and the five global keywords, and writes each unchanged |
| TextDecorations.StylesOf | src/TextDecorations/TextDecorationBuilder.cs:121-160 | a value the style table does not know gives no declaration; one it knows gives exactly one, which parses back to property `text-decoration-line` with the table's value |
| TextDecorations.OnBreakpoint | src/TextDecorations/TextDecorationBuilder.cs:69-81 | on an empty builder the result is the one default rule `none` at the breakpoint; otherwise the payloads are unchanged and the last rule carries the breakpoint |
| TextDecorations.ToClass | src/TextDecorations/TextDecorationBuilder.cs:83-119 | the class string is empty exactly when no rule's value has a class |
| TextDecorations.ToStyle | src/TextDecorations/TextDecorationBuilder.cs:121-160 | the style string is empty exactly when no rule's value is in the style table |
| TextDecorations.KeywordIsStyleOnly | src/TextDecorations/TextDecorationBuilder.cs:83-160 | each global keyword has no class and gives exactly the declaration `text-decoration-line`: keyword |
| TextDecorations.ClassImpliesStyle | src/TextDecorations/TextDecorationBuilder.cs:83-160 | every value that has a class also gives exactly the declaration `text-decoration-line`: value |
| TextDecorations.SpliceExample | src/TextDecorations/TextDecorationBuilder.cs:170-201 | only the first hyphen takes the breakpoint: `text-decoration-underline` at `md` is `text-md-decoration-underline` |
| TextDecorations.StyleExample | src/TextDecorations/TextDecorationBuilder.cs:121-160 | `line-through` alone renders as the style `text-decoration-line: line-through` |
| TextSizes.ClassOf | src/TextSizes/TextSizeBuilder.cs:155-176 | exactly the sizes on the scale have a class |
| TextSizes.ClassFollowsScale | src/TextSizes/TextSizeBuilder.cs:155-176 | the class of the i-th step equals the independent position rule: `fs-6` down to `fs-1`, then `display-6` down to `display-1`, clamped at the top |
| TextSizes.LargestStepsShareClass | src/TextSizes/TextSizeBuilder.cs:155-176 | the two largest steps both get `display-1` |
| TextSizes.StyleValue | src/TextSizes/TextSizeBuilder.cs:179-199 | defined exactly for the sizes on the scale, with the rem value of every step: `xs` 0.75rem, `sm` 0.875rem, `base` 1rem, `lg` 1.125rem, `xl` 1.25rem, `2xl` 1.5rem, `3xl` 1.75rem, `4xl` 2rem, `5xl` 2.25rem, `6xl` 2.5rem, `7xl` 3rem, `8xl` 3.5rem, `9xl` 4rem |
| TextSizes.StylesOf | src/TextSizes/TextSizeBuilder.cs:126-152 | a value the style table does not know gives no declaration; one it knows gives exactly one, which parses back to property `font-size` with the table's value |
| TextSizes.OnBreakpoint | src/TextSizes/TextSizeBuilder.cs:79-91 | on an empty builder the result is the one default rule `base` at the breakpoint; otherwise the payloads are unchanged and the last rule carries the breakpoint |
| TextSizes.ToClass | src/TextSizes/TextSizeBuilder.cs:94-123 | the class string is empty exactly when no rule's value has a class |
| TextSizes.ToStyle | src/TextSizes/TextSizeBuilder.cs:126-152 | the style string is empty exactly when no rule's value is in the style table |
| TextSizes.ClassIffStyle | src/TextSizes/TextSizeBuilder.cs:155-199 | a value has a class if and only if it has a declaration, in both directions: no class exactly when no declaration |
| TextSizes.SpliceExample | src/TextSizes/TextSizeBuilder.cs:207-238 | the default size at `md` is `fs-md-4` |
| TextSizes.StyleExample | src/TextSizes/TextSizeBuilder.cs:179-199 | `2xl` alone renders as the style `font-size: 1.5rem` |
| TextTransforms.ClassOf | src/TextTransforms/TextTransformBuilder.cs:69-98 | exactly the values of the class table have a class, which is `text-` followed by the value; global keywords and unknown values have none |
| TextTransforms.StylesOf | src/TextTransforms/TextTransformBuilder.cs:100-120 | every non-empty value, keywords and unknown values included, gives exactly one declaration, and it parses back to property `text-transform` with the value unchanged; the empty value gives none |
| TextTransforms.OnBreakpoint | src/TextTransforms/TextTransformBuilder.cs:55-67 | on an empty builder the result is the one default rule `lowercase` at the breakpoint; otherwise the payloads are unchanged and the last rule carries the breakpoint |
| TextTransforms.ToClass | src/TextTransforms/TextTransformBuilder.cs:69-98 | the class string is empty exactly when no rule's value has a class |
| TextTransforms.ToStyle | src/TextTransforms/TextTransformBuilder.cs:100-120 | the style string is empty exactly when every rule's value is empty: any non-empty value, keywords and unknown values included, is written |
| TextTransforms.KeywordIsStyleOnly | src/TextTransforms/TextTransformBuilder.cs:69-120 | each global keyword has no class and gives exactly the declaration `text-transform`: keyword |
| TextTransforms.SpliceExample | src/TextTransforms/TextTransformBuilder.cs:126-150 | only the first hyphen takes the breakpoint: `text-uppercase` at `md` is `text-md-uppercase` |
| TextTransforms.StyleExample | src/TextTransforms/TextTransformBuilder.cs:100-120 | `capitalize` alone renders as the style `text-transform: capitalize` |
| TextWraps.ClassOf | src/TextWraps/TextWrapBuilder.cs:64-95 | exactly the values of the class table have a class, which is `text-` followed by the value; global keywords and unknown values have none |
| TextWraps.StyleValue | src/TextWraps/TextWrapBuilder.cs:97-130 | defined exactly for the class-table values and the five global keywords, and writes each unchanged |
| TextWraps.StylesOf | src/TextWraps/TextWrapBuilder.cs:97-130 | a value the style table does not know gives no declaration; one it knows gives exactly one, which parses back to property `text-wrap` with the table's value |
| TextWraps.OnBreakpoint | src/TextWraps/TextWrapBuilder.cs:50-62 | on an empty builder the result is the one default rule `wrap` at the breakpoint; otherwise the payloads are unchanged and the last rule carries the breakpoint |
| TextWraps.ToClass | src/TextWraps/TextWrapBuilder.cs:64-95 | the class string is empty exactly when no rule's value has a class |
| TextWraps.ToStyle | src/TextWraps/TextWrapBuilder.cs:97-130 | the style string is empty exactly when no rule's value is in the style table |
| TextWraps.KeywordIsStyleOnly | src/TextWraps/TextWrapBuilder.cs:64-130 | each global keyword has no class and gives exactly the declaration `text-wrap`: keyword |
| TextWraps.ClassImpliesStyle | src/TextWraps/TextWrapBuilder.cs:64-130 | every value that has a class also gives exactly the declaration `text-wrap`: value |
| TextWraps.SpliceExample | src/TextWraps/TextWrapBuilder.cs:136-160 | only the first hyphen takes the breakpoint: `text-nowrap` at `md` is `text-md-nowrap` |
| TextWraps.StyleExample | src/TextWraps/TextWrapBuilder.cs:97-130 | `nowrap` alone renders as the style `text-wrap: nowrap` |
| Transforms.ClassOf | src/Transforms/TransformBuilder.cs:123-134 | exactly the listed functions have a class: `transform-none` for `none`, the bare function name for the others |
| Transforms.StyleValue | src/Transforms/TransformBuilder.cs:137-148 | the style table knows exactly the values the class table knows; `none` is written as `none` |
| Transforms.StylesOf | src/Transforms/TransformBuilder.cs:96-120 | a value the style table does not know gives no declaration; one it knows gives exactly one, which parses back to property `transform` with the table's value |
| Transforms.OnBreakpoint | src/Transforms/TransformBuilder.cs:54-66 | on an empty builder the result is the one default rule `none` at the breakpoint; otherwise the payloads are unchanged and the last rule carries the breakpoint |
| Transforms.ToClass | src/Transforms/TransformBuilder.cs:68-94 | the class string is empty exactly when no rule's value has a class |
| Transforms.ToStyle | src/Transforms/TransformBuilder.cs:96-120 | the style string is empty exactly when no rule's value is in the style table |
| Transforms.ToString | src/Transforms/TransformBuilder.cs:177-180 | `ToString` is the class string, never the style string; it is empty exactly when no rule's value has a class |
| Transforms.ClassIffStyle | src/Transforms/TransformBuilder.cs:123-148 | a value has a class if and only if it has a declaration, in both directions: no class exactly when no declaration |
| Transforms.PrefixExample | src/Transforms/TransformBuilder.cs:151-175 | a class without a hyphen takes the token in front: `scale` at `md` is `md-scale` |
| Transforms.SpliceExample | src/Transforms/TransformBuilder.cs:151-175 | `transform-none` at `md` is `transform-md-none` |
| Transforms.StyleExample | src/Transforms/TransformBuilder.cs:137-148 | `rotate` alone renders as the style `transform: rotate(0deg)` |
| Transitions.ClassOf | src/Transitions/TransitionBuilder.cs:125-137 | exactly the values of the class table have a class, which is `transition-` followed by the value; global keywords and unknown values have none |
| Transitions.StyleValue | src/Transitions/TransitionBuilder.cs:140-152 | the style table knows exactly the values the class table knows; `none` is written as `none` |
| Transitions.StylesOf | src/Transitions/TransitionBuilder.cs:98-122 | a value the style table does not know gives no declaration; one it knows gives exactly one, which parses back to property `transition` with the table's value |
| Transitions.OnBreakpoint | src/Transitions/TransitionBuilder.cs:56-68 | on an empty builder the result is the one default rule `none` at the breakpoint; otherwise the payloads are unchanged and the last rule carries the breakpoint |
| Transitions.ToClass | src/Transitions/TransitionBuilder.cs:70-96 | the class string is empty exactly when no rule's value has a class |
| Transitions.ToStyle | src/Transitions/TransitionBuilder.cs:98-122 | the style string is empty exactly when no rule's value is in the style table |
| Transitions.ToString | src/Transitions/TransitionBuilder.cs:181-184 | `ToString` is the class string, never the style string; it is empty exactly when no rule's value has a class |
| Transitions.ClassIffStyle | src/Transitions/TransitionBuilder.cs:125-152 | a value has a class if and only if it has a declaration, in both directions: no class exactly when no declaration |
| Transitions.SpliceExample | src/Transitions/TransitionBuilder.cs:155-179 | only the first hyphen takes the breakpoint: `transition-all` at `md` is `transition-md-all` |
| Transitions.StyleExample | src/Transitions/TransitionBuilder.cs:140-152 | `opacity` alone renders as the style `transition: opacity 150ms ease-in-out` |
| Truncates.OnBreakpoint | src/Truncates/TruncateBuilder.cs:37-49 | an empty builder gets one rule; otherwise the length and every rule but the last are kept; the last rule carries the breakpoint |
| Truncates.ToClass | src/Truncates/TruncateBuilder.cs:51-75 | every rule renders the one class, so the class string is empty exactly when there is no rule |
| Truncates.ToStyle | src/Truncates/TruncateBuilder.cs:77-94 | every rule renders the one declaration block, so the style string is empty exactly when there is no rule |
| Truncates.ToString | src/Truncates/TruncateBuilder.cs:108-111 | `ToString` is the class string, never the style string; it is empty exactly when there is no rule |
| Truncates.OnePerRule | src/Truncates/TruncateBuilder.cs:51-94 | every rule renders one class and one declaration block, however many rules there are |
| Truncates.PrefixExample | src/Truncates/TruncateBuilder.cs:97-106 | the token always goes in front of the class |
| UserSelects.ClassOf | src/UserSelects/UserSelectBuilder.cs:69-98 | exactly the values of the class table have a class, which is `user-select-` followed by the value; global keywords and unknown values have none |
| UserSelects.StylesOf | src/UserSelects/UserSelectBuilder.cs:100-120 | every non-empty value, keywords and unknown values included, gives exactly one declaration, and it parses back to property `user-select` with the value unchanged; the empty value gives none |
| UserSelects.OnBreakpoint | src/UserSelects/UserSelectBuilder.cs:55-67 | on an empty builder the result is the one default rule `auto` at the breakpoint; otherwise the payloads are unchanged and the last rule carries the breakpoint |
| UserSelects.ToClass | src/UserSelects/UserSelectBuilder.cs:69-98 | the class string is empty exactly when no rule's value has a class |
| UserSelects.ToStyle | src/UserSelects/UserSelectBuilder.cs:100-120 | the style string is empty exactly when every rule's value is empty: any non-empty value, keywords and unknown values included, is written |
| UserSelects.KeywordIsStyleOnly | src/UserSelects/UserSelectBuilder.cs:69-120 | each global keyword has no class and gives exactly the declaration `user-select`: keyword |
| UserSelects.SpliceExample | src/UserSelects/UserSelectBuilder.cs:124-148 | only the first hyphen takes the breakpoint: `user-select-all` at `md` is `user-md-select-all` |
| UserSelects.StyleExample | src/UserSelects/UserSelectBuilder.cs:100-120 | `none` alone renders as the style `user-select: none` |
| VerticalAligns.ClassOf | src/VerticalAligns/VerticalAlignBuilder.cs:65-97 | exactly the values of the class table have a class, which is `align-` followed by the value; global keywords and unknown values have none |
| VerticalAligns.StylesOf | src/VerticalAligns/VerticalAlignBuilder.cs:99-119 | every non-empty value, keywords and unknown values included, gives exactly one declaration, and it parses back to property `vertical-align` with the value unchanged; the empty value gives none |
| VerticalAligns.OnBreakpoint | src/VerticalAligns/VerticalAlignBuilder.cs:51-63 | on an empty builder the result is the one default rule `baseline` at the breakpoint; otherwise the payloads are unchanged and the last rule carries the breakpoint |
| VerticalAligns.ToClass | src/VerticalAligns/VerticalAlignBuilder.cs:65-97 | the class string is empty exactly when no rule's value has a class |
| VerticalAligns.ToStyle | src/VerticalAligns/VerticalAlignBuilder.cs:99-119 | the style string is empty exactly when every rule's value is empty: any non-empty value, keywords and unknown values included, is written |
| VerticalAligns.KeywordIsStyleOnly | src/VerticalAligns/VerticalAlignBuilder.cs:65-119 | each global keyword has no class and gives exactly the declaration `vertical-align`: keyword |
| VerticalAligns.SpliceExample | src/VerticalAligns/VerticalAlignBuilder.cs:125-149 | only the first hyphen takes the breakpoint: `align-text-top` at `md` is `align-md-text-top` |
| VerticalAligns.StyleExample | src/VerticalAligns/VerticalAlignBuilder.cs:99-119 | `middle` alone renders as the style `vertical-align: middle` |
| Visibilities.ClassOf | src/Visibilities/VisibilityBuilder.cs:64-92 | the class table: `invisible` and `visible` are their own classes |
| Visibilities.StyleValue | src/Visibilities/VisibilityBuilder.cs:94-122 | defined exactly for the two values and the global keywords; `invisible` is written as `hidden`, every other value unchanged |
| Visibilities.StylesOf | src/Visibilities/VisibilityBuilder.cs:94-122 | a value the style table does not know gives no declaration; one it knows gives exactly one, which parses back to property `visibility` with the table's value |
| Visibilities.OnBreakpoint | src/Visibilities/VisibilityBuilder.cs:50-62 | on an empty builder the result is the one default rule `visible` at the breakpoint; otherwise the payloads are unchanged and the last rule carries the breakpoint |
| Visibilities.ToClass | src/Visibilities/VisibilityBuilder.cs:64-92 | the class string is empty exactly when no rule's value has a class |
| Visibilities.ToStyle | src/Visibilities/VisibilityBuilder.cs:94-122 | the style string is empty exactly when no rule's value is in the style table |
| Visibilities.KeywordIsStyleOnly | src/Visibilities/VisibilityBuilder.cs:64-122 | each global keyword has no class and gives exactly the declaration `visibility`: keyword |
| Visibilities.PrefixExample | src/Visibilities/VisibilityBuilder.cs:128-152 | a class without a hyphen takes the token in front: `invisible` at `md` is `md-invisible` |
| Visibilities.StyleExample | src/Visibilities/VisibilityBuilder.cs:94-122 | `invisible` alone renders as the style `visibility: hidden` |
| Widths.ClassOf | src/Widths/WidthBuilder.cs:126-137 | exactly the values of the class table have a class, which is `w-` followed by the value; global keywords and unknown values have none |
| Widths.StyleValue | src/Widths/WidthBuilder.cs:140-151 | defined exactly for the class sizes and all-digit values: the four class sizes as percentages, `auto` as is, any other number as pixels |
| Widths.StylesOf | src/Widths/WidthBuilder.cs:100-123 | a value the style table does not know gives no declaration; one it knows gives exactly one, which parses back to property `width` with the table's value |
| Widths.OnBreakpoint | src/Widths/WidthBuilder.cs:58-70 | on an empty builder the result is the one default rule `100` at the breakpoint; otherwise the payloads are unchanged and the last rule carries the breakpoint |
| Widths.ToClass | src/Widths/WidthBuilder.cs:72-98 | the class string is empty exactly when no rule's value has a class |
| Widths.ToStyle | src/Widths/WidthBuilder.cs:100-123 | the style string is empty exactly when no rule's value is in the style table |
| Widths.PixelsAreStyleOnly | src/Widths/WidthBuilder.cs:126-151 | an all-digit value outside the class sizes has no class and renders as `width: <value>px` |
| Widths.SpliceExample | src/Widths/WidthBuilder.cs:161-185 | `w-50` at `md` is `w-md-50` |
| Widths.StyleExample | src/Widths/WidthBuilder.cs:140-151 | `75` alone renders as the style `width: 75%` |
| Widths.PixelExample | src/Widths/WidthBuilder.cs:140-157 | `320` renders as `width: 320px` |
| ZIndexes.ClassOf | src/ZIndexes/ZIndexBuilder.cs:65-96 | exactly the levels -1 to 3 have a class: -1 gives `z-n1`, 0 to 3 give `z-` followed by their digit |
| ZIndexes.StylesOf | src/ZIndexes/ZIndexBuilder.cs:98-113 | every level gives exactly one `z-index` declaration whose value is the invariant-culture decimal of the level: digits that parse back to the level with no leading zero, after a leading minus for negative levels |
| ZIndexes.OnBreakpoint | src/ZIndexes/ZIndexBuilder.cs:51-63 | on an empty builder the result is the one default rule `0` at the breakpoint; otherwise the payloads are unchanged and the last rule carries the breakpoint |
| ZIndexes.ToClass | src/ZIndexes/ZIndexBuilder.cs:65-96 | the class string is empty exactly when no rule's value has a class |
| ZIndexes.ToStyle | src/ZIndexes/ZIndexBuilder.cs:98-113 | every level writes its declaration, so the style string is empty exactly when there is no rule |
| ZIndexes.OneDeclPerRule | src/ZIndexes/ZIndexBuilder.cs:98-113 | any list of rules renders exactly one declaration per rule, classless levels included |
| ZIndexes.SpliceExample | src/ZIndexes/ZIndexBuilder.cs:117-141 | level -1 at `md` is `z-md-n1` |
| ZIndexes.StyleExample | src/ZIndexes/ZIndexBuilder.cs:98-113 | level -1 alone renders as `z-index: -1`, keeping its minus sign |

## Left out

- Pooled string builders, `string.Create` and span copies are modelled as sequence concatenation and `Strings.Join`; pooling and disposal are resource plumbing with no effect on the text.
- The enumeration package (breakpoint tokens, `Scale`, `GlobalKeyword`, `DisplayType` and the other value constants) is not part of this model. Each value constant is taken to be its CSS keyword, the scale steps to be `"0"`..`"5"`, and the global keywords to be `inherit`, `initial`, `unset`, `revert` and `revert-layer`. A breakpoint is any string token; only `Tablet` = `sm` is fixed. The `Phone` breakpoint is not assumed to have the empty token.
- The static façades (`Display.Flex`, `Margin.S3`, …) are one-line constructor calls, modelled by `Rules.Init` or by writing the initial rule list directly; the list-copying constructors are not modelled.
- The `ICssBuilder` interface and the `*Rule` records add no behaviour; the records are the `Rule` datatype and the per-builder payload types.
- Builders, façades and records outside the builders modelled here (border radius, cursor, flex, filter, height, object fit, text overflow and others) are not modelled.
- The global-keyword members of each builder are not modelled one by one. A keyword payload is covered by `Keywords.Global` and the `KeywordIsStyleOnly` lemmas.
- Widths.StyleValue: all-digit means the ASCII digits `0`..`9`, while `char.IsDigit` also accepts other Unicode decimal digits.
- Strings.IntToString: always the invariant culture, while `int.ToString()` follows the current culture's negative sign.
- Css.NonEmpty: `IsNullOrEmpty` and `HasContent` are modelled as "non-empty", because a `string` here is never `null`.
