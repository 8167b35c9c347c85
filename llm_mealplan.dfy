/**
 * The meal-plan service (backend/app/services/llm_mealplan.py): the prompt built from
 * the user's input and the calculation, the recovery of a JSON object from the model's
 * reply text, and the retry and error control around the generation call.
 *
 * The model provider, the JSON parser and the shape decoding of the response schema are
 * not modelled: they are parameters (see Oracles). So is the fixed-point number rendering
 * used in the prompt.
 */
module LlmMealPlan {
  import opened Outcomes
  import opened Text
  import opened Models
  import opened MealPlanModels

  // ---------------------------------------------------------------------------
  // Recovering the JSON object from a reply text
  // ---------------------------------------------------------------------------

  const Fence := "```"
  const Backtick: set<char> := {'`'}

  /** Neither end of `s` is whitespace. */
  predicate Trimmed(s: string) {
    s == [] || (s[0] !in Whitespace && s[|s| - 1] !in Whitespace)
  }

  /** A leading "json" tag, in any letter case, is dropped together with the space after it. */
  function DropJsonTag(u: string): (r: string)
    ensures !StartsWith(LowerAsciiString(u), "json") ==> r == u
    ensures Trimmed(u) ==> Trimmed(r)
  {
    if StartsWith(LowerAsciiString(u), "json") then Strip(u[4..], Whitespace) else u
  }

  /** Inside a fence: every backtick at either end goes, then the padding, then the tag. */
  function OpenFence(t: string): (r: string)
    ensures Trimmed(r)
  {
    DropJsonTag(Strip(Strip(t, Backtick), Whitespace))
  }

  /**
   * The first stage of extraction: trim; and when the trimmed text opens with a code
   * fence, drop every leading and trailing backtick, trim again, and drop a leading
   * "json" tag (in any letter case) followed by one more trim.
   */
  function Unfence(text: string): (r: string)
    ensures Trimmed(r)
    ensures !StartsWith(Strip(text, Whitespace), Fence) ==> r == Strip(text, Whitespace)
  {
    var t := Strip(text, Whitespace);
    if StartsWith(t, Fence) then OpenFence(t) else t
  }

  lemma DropJsonTagIsSubstring(u: string)
    ensures IsSubstring(DropJsonTag(u), u)
  {
    if StartsWith(LowerAsciiString(u), "json") {
      StripOfTailIsSubstring(u, 4);
    } else {
      assert 0 <= 0 <= |u| <= |u| && DropJsonTag(u) == u[0..|u|];
    }
  }

  lemma StripOfTailIsSubstring(u: string, k: int)
    requires 0 <= k <= |u|
    ensures IsSubstring(Strip(u[k..], Whitespace), u)
  {
    StripIsSubstring(u[k..], Whitespace);
    TailSubstring(Strip(u[k..], Whitespace), u, k);
  }

  lemma OpenFenceIsSubstring(t: string)
    ensures IsSubstring(OpenFence(t), t)
  {
    var b := Strip(t, Backtick);
    var u := Strip(b, Whitespace);
    StripIsSubstring(t, Backtick);
    StripIsSubstring(b, Whitespace);
    DropJsonTagIsSubstring(u);
    SubstringTransitive(u, b, t);
    SubstringTransitive(DropJsonTag(u), u, t);
  }

  /** Unfence only cuts characters away at both ends. */
  lemma UnfenceIsSubstring(text: string)
    ensures IsSubstring(Unfence(text), text)
  {
    var t := Strip(text, Whitespace);
    StripIsSubstring(text, Whitespace);
    if StartsWith(t, Fence) {
      assert Unfence(text) == OpenFence(t);
      OpenFenceIsSubstring(t);
      SubstringTransitive(OpenFence(t), t, text);
    } else {
      assert Unfence(text) == t;
    }
  }

  /** Some '{' occurs before some '}'. */
  ghost predicate HasBraceBlock(t: string) {
    exists i, j :: 0 <= i < j < |t| && t[i] == '{' && t[j] == '}'
  }

  /** t[i] is the first '{' of t and t[j], after it, the last '}'. */
  predicate OuterBraces(t: string, i: int, j: int) {
    0 <= i < j < |t| && t[i] == '{' && t[j] == '}' && '{' !in t[..i] && '}' !in t[j + 1..]
  }

  /**
   * The second stage of extraction: the block from the first '{' to the last '}' when a
   * '{' comes before the last '}', and the text whole otherwise.
   */
  function SliceOuterBraces(t: string): (r: string)
    ensures HasBraceBlock(t) ==>
      var i, j := Find(t, '{'), RFind(t, '}');
      OuterBraces(t, i, j) && r == t[i..j + 1]
    ensures !HasBraceBlock(t) ==> r == t
  {
    var start := Find(t, '{');
    var end := RFind(t, '}');
    if start != -1 && end != -1 && end > start then
      assert OuterBraces(t, start, end);
      t[start..end + 1]
    else
      assert !HasBraceBlock(t);
      t
  }

  /** Python's `_extract_json`. */
  function ExtractJson(text: string): string {
    SliceOuterBraces(Unfence(text))
  }

  /** A brace-delimited slice starts with '{' and ends with '}'. */
  lemma SliceOuterBracesEnds(t: string)
    requires HasBraceBlock(t)
    ensures var r := SliceOuterBraces(t); |r| >= 2 && r[0] == '{' && r[|r| - 1] == '}'
  {
    var i, j := Find(t, '{'), RFind(t, '}');
    assert t[i..j + 1][0] == t[i];
    assert t[i..j + 1][j - i] == t[j];
  }

  /** The brace slice is one contiguous block of what it is cut from. */
  lemma SliceOuterBracesIsSubstring(t: string)
    ensures IsSubstring(SliceOuterBraces(t), t)
  {
    if HasBraceBlock(t) {
      var i, j := Find(t, '{'), RFind(t, '}');
      assert 0 <= i <= j + 1 <= |t| && SliceOuterBraces(t) == t[i..j + 1];
    } else {
      assert 0 <= 0 <= |t| <= |t| && SliceOuterBraces(t) == t[0..|t|];
    }
  }

  /** _extract_json always returns one contiguous block of its input. */
  lemma ExtractJsonIsSubstring(text: string)
    ensures IsSubstring(ExtractJson(text), text)
  {
    var t := Unfence(text);
    UnfenceIsSubstring(text);
    SliceOuterBracesIsSubstring(t);
    SubstringTransitive(SliceOuterBraces(t), t, text);
  }

  /** A text that already starts with '{' and ends with '}' is its own brace slice. */
  lemma SliceOuterBracesFixpoint(s: string)
    requires |s| >= 2 && s[0] == '{' && s[|s| - 1] == '}'
    ensures SliceOuterBraces(s) == s
  {
    assert HasBraceBlock(s);
    assert Find(s, '{') == 0;
    assert RFind(s, '}') == |s| - 1;
  }

  /** Text before the first '{' and after the last '}' of an object is cut away. */
  lemma SurroundingTextIsCut(pre: string, b: string, post: string)
    requires |b| >= 2 && b[0] == '{' && b[|b| - 1] == '}'
    requires '{' !in pre && '}' !in post
    ensures SliceOuterBraces(pre + b + post) == b
  {
    var t := pre + b + post;
    assert t[|pre|] == '{' && t[|pre| + |b| - 1] == '}';
    assert HasBraceBlock(t);
    assert t[..|pre|] == pre;
    assert Find(t, '{') == |pre|;
    assert t[|pre| + |b|..] == post;
    assert RFind(t, '}') == |pre| + |b| - 1;
    assert t[|pre|..|pre| + |b|] == b;
  }

  /** Extraction leaves a brace-delimited text unchanged. */
  lemma BraceBlockIsFixpoint(s: string)
    requires |s| >= 2 && s[0] == '{' && s[|s| - 1] == '}'
    ensures ExtractJson(s) == s
  {
    StripNoop(s, Whitespace);
    assert s[0] != Fence[0];
    assert !StartsWith(Strip(s, Whitespace), Fence);
    SliceOuterBracesFixpoint(s);
  }

  /** Extracting again from a brace-delimited extraction returns it unchanged. */
  lemma ExtractJsonIdempotentOnBraces(text: string)
    requires HasBraceBlock(Unfence(text))
    ensures ExtractJson(ExtractJson(text)) == ExtractJson(text)
  {
    SliceOuterBracesEnds(Unfence(text));
    BraceBlockIsFixpoint(ExtractJson(text));
  }

  /** Lower-casing a concatenation lower-cases its first part in place. */
  lemma LowerAsciiPrefix(a: string, b: string)
    ensures LowerAsciiString(a + b)[..|a|] == LowerAsciiString(a)
  {
    var l := LowerAsciiString(a + b);
    forall k | 0 <= k < |a|
      ensures l[k] == LowerAsciiString(a)[k]
    {
      assert (a + b)[k] == a[k];
    }
  }

  /** Text that opens and closes with a backtick has nothing for the first trim to remove. */
  lemma BacktickEndsAreTrimmed(text: string)
    requires |text| > 0 && text[0] == '`' && text[|text| - 1] == '`'
    ensures Strip(text, Whitespace) == text
  {
    StripNoop(text, Whitespace);
  }

  /** Stripping backticks from a fenced block removes exactly the two fences. */
  lemma FencesAreStripped(b: string)
    requires |b| > 0 && b[0] != '`' && b[|b| - 1] != '`'
    ensures Strip(Fence + b + Fence, Backtick) == b
  {
    assert AllIn(Fence, Backtick);
    StripPadded(Fence, b, Fence, Backtick);
  }

  /** How Unfence proceeds on a text that begins and ends with a fence. */
  lemma UnfenceFenced(b: string)
    requires |b| > 0 && b[0] != '`' && b[|b| - 1] != '`'
    ensures Unfence(Fence + b + Fence) == DropJsonTag(Strip(b, Whitespace))
  {
    var text := Fence + b + Fence;
    assert text[0] == '`' && text[|text| - 1] == '`';
    BacktickEndsAreTrimmed(text);
    assert text[..3] == Fence;
    FencesAreStripped(b);
  }

  /** A tag that lower-cases to "json" starts with 'j' or 'J'. */
  lemma TagStart(tag: string)
    requires |tag| == 4 && LowerAsciiString(tag) == "json"
    ensures tag[0] == 'j' || tag[0] == 'J'
  {
    assert LowerAscii(tag[0]) == 'j';
  }

  lemma TagIsRecognised(tag: string, rest: string)
    requires |tag| == 4 && LowerAsciiString(tag) == "json"
    ensures StartsWith(LowerAsciiString(tag + rest), "json")
  {
    LowerAsciiPrefix(tag, rest);
  }

  /** The trim inside the fence removes only the final line break. */
  lemma TagLineTrimmed(tag: string, b: string)
    requires |tag| == 4 && (tag[0] == 'j' || tag[0] == 'J')
    requires |b| > 0 && b[|b| - 1] !in Whitespace
    ensures Strip(tag + "\n" + b + "\n", Whitespace) == tag + "\n" + b
  {
    var u := tag + "\n" + b;
    assert tag + "\n" + b + "\n" == "" + u + "\n";
    assert u[0] == tag[0] && u[|u| - 1] == b[|b| - 1];
    StripPadded("", u, "\n", Whitespace);
  }

  /** Dropping the tag leaves the line break and the block, which the last trim separates. */
  lemma TagDropped(tag: string, b: string)
    requires |tag| == 4 && LowerAsciiString(tag) == "json"
    requires |b| > 0 && b[0] !in Whitespace && b[|b| - 1] !in Whitespace
    ensures DropJsonTag(tag + "\n" + b) == b
  {
    var u := tag + "\n" + b;
    TagIsRecognised(tag, "\n" + b);
    assert u == tag + ("\n" + b);
    assert u[4..] == "\n" + b + "";
    StripPadded("\n", b, "", Whitespace);
  }

  lemma UnfenceTagged(tag: string, b: string)
    requires |tag| == 4 && tag[0] != '`'
    requires |b| > 0 && b[|b| - 1] != '`'
    ensures Unfence(Fence + tag + "\n" + b + "\n" + Fence)
         == DropJsonTag(Strip(tag + "\n" + b + "\n", Whitespace))
  {
    var mid := tag + "\n" + b + "\n";
    assert Fence + tag + "\n" + b + "\n" + Fence == Fence + mid + Fence;
    UnfenceFenced(mid);
  }

  /**
   * A reply wrapped in a code fence whose opening line carries a "json" tag (in any
   * letter case) is unwrapped to the fenced block itself.
   */
  lemma FencedJsonIsUnwrapped(tag: string, b: string)
    requires |tag| == 4 && LowerAsciiString(tag) == "json"
    requires |b| > 0 && b[0] !in Whitespace && b[0] != '`'
    requires b[|b| - 1] !in Whitespace && b[|b| - 1] != '`'
    ensures Unfence(Fence + tag + "\n" + b + "\n" + Fence) == b
  {
    TagStart(tag);
    UnfenceTagged(tag, b);
    TagLineTrimmed(tag, b);
    TagDropped(tag, b);
  }

  /** Without a tag, a fenced reply is unwrapped to the fenced block. */
  lemma FencedBlockIsUnwrapped(b: string)
    requires |b| > 0 && b[0] !in Whitespace && b[0] != '`'
    requires b[|b| - 1] !in Whitespace && b[|b| - 1] != '`'
    requires !StartsWith(LowerAsciiString(b), "json")
    ensures Unfence(Fence + b + Fence) == b
  {
    UnfenceFenced(b);
    StripNoop(b, Whitespace);
  }

  lemma LowerJsonTag()
    ensures LowerAsciiString("json") == "json"
  {
    assert LowerAsciiString("json")[0] == 'j';
  }

  /** The usual reply shape: a fenced, tagged JSON object comes out as the object alone. */
  lemma FencedObjectIsExtracted(b: string)
    requires |b| >= 2 && b[0] == '{' && b[|b| - 1] == '}'
    ensures ExtractJson(Fence + "json" + "\n" + b + "\n" + Fence) == b
  {
    LowerJsonTag();
    FencedJsonIsUnwrapped("json", b);
    SliceOuterBracesFixpoint(b);
  }

  // ---------------------------------------------------------------------------
  // The generation prompt
  // ---------------------------------------------------------------------------

  /** The example plan shown to the model, after Python's `.strip()` of the literal, line by line. */
  const SchemaExample :=
    "{\n"
    + "  \"days\": [\n"
    + "    {\n"
    + "      \"day\": 1,\n"
    + "      \"meals\": [\n"
    + "        {\n"
    + "          \"meal_name\": \"lunch\",\n"
    + "          \"items\": [\n"
    + "            {\"name\": \"chicken breast\", \"grams\": 200, \"notes\": \"grilled\"}\n"
    + "          ],\n"
    + "          \"protein_g\": 0,\n"
    + "          \"fat_g\": 0,\n"
    + "          \"net_carbs_g\": 0,\n"
    + "          \"calories\": 0\n"
    + "        }\n"
    + "      ],\n"
    + "      \"totals\": {\n"
    + "        \"meal_name\": \"totals\",\n"
    + "        \"items\": [],\n"
    + "        \"protein_g\": 0,\n"
    + "        \"fat_g\": 0,\n"
    + "        \"net_carbs_g\": 0,\n"
    + "        \"calories\": 0\n"
    + "      }\n"
    + "    }\n"
    + "  ],\n"
    + "  \"shopping_list\": [\"...\"],\n"
    + "  \"assumptions\": [\"...\"]\n"
    + "}"

  const VeganRule := "- Must be VEGAN (no meat, fish, eggs, dairy, honey)."
  const VegetarianRule := "- Must be VEGETARIAN (no meat or fish)."
  const KosherRule := "- Must be KOSHER (no pork/shellfish; do not mix meat and dairy)."
  const HalalRule := "- Must be HALAL (no pork/alcohol; halal meat only if meat is included)."
  const NoRestrictions := "- No special dietary restrictions."

  /** Where a dietary line may stand: the diet rule, kosher, halal, or the fallback line. */
  function DietaryRank(line: string): int {
    if line == VeganRule || line == VegetarianRule then 0
    else if line == KosherRule then 1
    else if line == HalalRule then 2
    else 3
  }

  /**
   * The dietary rules of the prompt: the vegan rule, or else the vegetarian one; then
   * kosher; then halal; and the single fallback line when none applies.
   */
  function DietaryLines(user: UserInput): (r: seq<string>)
    ensures 1 <= |r| <= 3
    ensures VeganRule in r <==> user.dietary.vegan
    ensures VegetarianRule in r <==> user.dietary.vegetarian && !user.dietary.vegan
    ensures KosherRule in r <==> user.dietary.kosher
    ensures HalalRule in r <==> user.dietary.halal
    ensures r == [NoRestrictions] <==>
      !(user.dietary.vegan || user.dietary.vegetarian || user.dietary.kosher || user.dietary.halal)
    ensures forall i, j :: 0 <= i < j < |r| ==> DietaryRank(r[i]) < DietaryRank(r[j])
    ensures forall l :: l in r ==> l in [VeganRule, VegetarianRule, KosherRule, HalalRule, NoRestrictions]
    ensures NoRestrictions in r ==> r == [NoRestrictions]
  {
    var prefs := user.dietary;
    var diet := if prefs.vegan then [VeganRule] else if prefs.vegetarian then [VegetarianRule] else [];
    var kosher := if prefs.kosher then [KosherRule] else [];
    var halal := if prefs.halal then [HalalRule] else [];
    var rules := diet + kosher + halal;
    if rules == [] then [NoRestrictions] else rules
  }

  /** The meal names offered for two meals a day and more, in order. */
  const BaseMealNames: seq<string> := ["\"breakfast\"", "\"lunch\"", "\"dinner\"", "\"snack\"", "\"snack2\"", "\"snack3\""]

  const OmadNameLine := "  - \"meal\""

  /** Python's `xs[:n]`, a negative `n` counting from the end. */
  function PySliceTake<T>(xs: seq<T>, n: int): (r: seq<T>)
    ensures 0 <= n <= |xs| ==> r == xs[..n]
    ensures n > |xs| ==> r == xs
    ensures n < 0 ==> r == xs[..if |xs| + n < 0 then 0 else |xs| + n]
  {
    if n >= 0 then xs[..if n < |xs| then n else |xs|]
    else xs[..if |xs| + n < 0 then 0 else |xs| + n]
  }

  /** The five meal-plan lines of the prompt. */
  function MealPlanPrefLines(user: UserInput): (r: seq<string>)
    ensures |r| == 5
    ensures r[0] == "- Number of days: " + IntToString(user.mealplan.days) + ". Output exactly this many day entries."
    ensures r[1] == "- Meals per day: " + IntToString(user.mealplan.mealsPerDay)
      + (if user.mealplan.mealsPerDay == 1 then " (OMAD)" else " (standard)")
    ensures r[2] == "- Each day MUST contain exactly `meals_per_day` meals."
    ensures r[3] == "- Use these meal_name values:"
    ensures user.mealplan.mealsPerDay == 1 ==> r[4] == OmadNameLine
    ensures user.mealplan.mealsPerDay != 1 ==>
      r[4] == "  - " + Join(", ", PySliceTake(BaseMealNames, user.mealplan.mealsPerDay))
  {
    var mp := user.mealplan;
    var lines := [
      "- Number of days: " + IntToString(mp.days) + ". Output exactly this many day entries.",
      "- Meals per day: " + IntToString(mp.mealsPerDay) + " (" + (if mp.mealsPerDay == 1 then "OMAD" else "standard") + ")",
      "- Each day MUST contain exactly `meals_per_day` meals.",
      "- Use these meal_name values:"
    ];
    if mp.mealsPerDay == 1 then lines + [OmadNameLine]
    else lines + ["  - " + Join(", ", PySliceTake(BaseMealNames, mp.mealsPerDay))]
  }

  /** The four macro targets, each rendered with no decimals by `fmt`. */
  function MacroTargetLines(calcOutput: CalcOutput, fmt: real -> string): (r: seq<string>)
    ensures |r| == 4
    ensures r[0] == "- Net carbs target: " + fmt(calcOutput.macros.netCarbsG) + "g/day"
    ensures r[1] == "- Protein target: " + fmt(calcOutput.macros.proteinG) + "g/day"
    ensures r[2] == "- Fat target: " + fmt(calcOutput.macros.fatG) + "g/day"
    ensures r[3] == "- Calories target: " + fmt(calcOutput.macros.caloriesTotal) + " kcal/day"
  {
    [ "- Net carbs target: " + fmt(calcOutput.macros.netCarbsG) + "g/day",
      "- Protein target: " + fmt(calcOutput.macros.proteinG) + "g/day",
      "- Fat target: " + fmt(calcOutput.macros.fatG) + "g/day",
      "- Calories target: " + fmt(calcOutput.macros.caloriesTotal) + " kcal/day" ]
  }

  const PromptOpening: seq<string> := ["You are a nutrition assistant. Create a keto meal plan.", "", "Rules:"]
  const JsonRequirement := "Output MUST be valid JSON"
  const SchemaRule := "- " + JsonRequirement + " that matches this schema exactly:"
  const ConstraintLines: seq<string> := [
    "",
    "Constraints:",
    "- Use common foods; include grams for each item.",
    "- Avoid alcohol.",
    "- Keep it simple and repeatable.",
    "- If user is imperial, you can still output grams (preferred)."
  ]
  const ReturnJsonOnly := "- Return JSON only. No markdown, no extra text."

  /** The positions of the parts of a seven-part concatenation with these block lengths. */
  lemma SevenSlices<T>(a: seq<T>, b: seq<T>, c: seq<T>, d: seq<T>, e: seq<T>, f: seq<T>, g: seq<T>)
    requires |a| == 3 && |b| == 4 && |c| == 5 && |d| == 2 && |e| == 6 && |g| == 1
    ensures var s := a + b + c + d + e + f + g;
      && |s| == 21 + |f|
      && s[..3] == a && s[3..7] == b && s[7..12] == c && s[12] == d[0] && s[13] == d[1]
      && s[14..20] == e && s[20..|s| - 1] == f && s[|s| - 1] == g[0]
  {
    var ab := a + b;
    var abc := ab + c;
    var abcd := abc + d;
    var abcde := abcd + e;
    var abcdef := abcde + f;
    var s := abcdef + g;
    assert s[..|abcdef|] == abcdef;
    assert abcdef[..|abcde|] == abcde && abcdef[|abcde|..] == f;
    assert abcde[..|abcd|] == abcd && abcde[|abcd|..] == e;
    assert abcd[..|abc|] == abc && abcd[|abc|..] == d;
    assert abc[..|ab|] == ab && abc[|ab|..] == c;
    assert ab[..|a|] == a && ab[|a|..] == b;
  }

  /** The prompt's lines, block by block. */
  function PromptLines(user: UserInput, calcOutput: CalcOutput, fmt: real -> string): seq<string> {
    PromptOpening + MacroTargetLines(calcOutput, fmt) + MealPlanPrefLines(user) + [SchemaRule, SchemaExample]
      + ConstraintLines + DietaryLines(user) + [ReturnJsonOnly]
  }

  /**
   * Where each block of the prompt stands: 21 fixed-position lines around the one to three
   * dietary lines.
   */
  lemma PromptLayout(user: UserInput, calcOutput: CalcOutput, fmt: real -> string)
    ensures var r := PromptLines(user, calcOutput, fmt);
      && |r| == 21 + |DietaryLines(user)|
      && r[..3] == PromptOpening
      && r[3..7] == MacroTargetLines(calcOutput, fmt)
      && r[7..12] == MealPlanPrefLines(user)
      && r[12] == SchemaRule && r[13] == SchemaExample
      && r[14..20] == ConstraintLines
      && r[20..|r| - 1] == DietaryLines(user)
      && r[|r| - 1] == ReturnJsonOnly
  {
    SevenSlices(PromptOpening, MacroTargetLines(calcOutput, fmt), MealPlanPrefLines(user), [SchemaRule, SchemaExample],
                ConstraintLines, DietaryLines(user), [ReturnJsonOnly]);
  }

  /** Python's `build_prompt`: the lines joined by newlines. */
  function BuildPrompt(user: UserInput, calcOutput: CalcOutput, fmt: real -> string): string {
    Join("\n", PromptLines(user, calcOutput, fmt))
  }

  /** Two to six meals a day name the first that many of the base names, in order. */
  lemma MealNamesForValidCounts(user: UserInput)
    requires 2 <= user.mealplan.mealsPerDay <= 6
    ensures var n := user.mealplan.mealsPerDay;
      MealPlanPrefLines(user)[4] == "  - " + Join(", ", BaseMealNames[..n]) && |BaseMealNames[..n]| == n
  {
  }

  /**
   * With two meals a day the names are breakfast and lunch (the code's choice; the remark
   * beside it speaks of lunch and dinner).
   */
  lemma TwoMealsAreBreakfastAndLunch(user: UserInput)
    requires user.mealplan.mealsPerDay == 2
    ensures MealPlanPrefLines(user)[4] == "  - \"breakfast\", \"lunch\""
  {
    var names := ["\"breakfast\"", "\"lunch\""];
    assert BaseMealNames[..2] == names;
    assert Join(", ", names) == names[0] + ", " + Join(", ", names[1..]);
    assert names[1..] == ["\"lunch\""];
  }

  lemma ThreeMealsAreBreakfastLunchDinner(user: UserInput)
    requires user.mealplan.mealsPerDay == 3
    ensures MealPlanPrefLines(user)[4] == "  - \"breakfast\", \"lunch\", \"dinner\""
  {
    var names := ["\"breakfast\"", "\"lunch\"", "\"dinner\""];
    assert BaseMealNames[..3] == names;
    assert Join(", ", names) == names[0] + ", " + Join(", ", names[1..]);
    assert names[1..] == ["\"lunch\"", "\"dinner\""];
    assert Join(", ", names[1..]) == names[1] + ", " + Join(", ", names[2..]);
    assert names[2..] == ["\"dinner\""];
  }

  /**
   * Counts the input schema rejects still follow Python slicing: none listed for 0, all
   * six beyond 6, and a negative count drops names from the end.
   */
  lemma MealNamesOutsideTheSchema(user: UserInput)
    ensures user.mealplan.mealsPerDay == 0 ==> MealPlanPrefLines(user)[4] == "  - "
    ensures user.mealplan.mealsPerDay >= 6 ==>
      MealPlanPrefLines(user)[4] == "  - " + Join(", ", BaseMealNames)
    ensures user.mealplan.mealsPerDay == -1 ==>
      MealPlanPrefLines(user)[4] == "  - " + Join(", ", BaseMealNames[..5])
  {
    assert BaseMealNames[..6] == BaseMealNames;
  }

  /** The blocks of the prompt, in order. */
  function PromptBlocks(user: UserInput, calcOutput: CalcOutput, fmt: real -> string): seq<seq<string>> {
    [PromptOpening, MacroTargetLines(calcOutput, fmt), MealPlanPrefLines(user), [SchemaRule, SchemaExample],
     ConstraintLines, DietaryLines(user), [ReturnJsonOnly]]
  }

  lemma FlattenSeven(a: seq<string>, b: seq<string>, c: seq<string>, d: seq<string>,
                     e: seq<string>, f: seq<string>, g: seq<string>)
    ensures Flatten([a, b, c, d, e, f, g]) == a + b + c + d + e + f + g
  {
    var blocks := [a, b, c, d, e, f, g];
    assert blocks[7..] == [];
    assert Flatten(blocks[6..]) == g + Flatten(blocks[7..]);
    assert Flatten(blocks[5..]) == f + Flatten(blocks[6..]);
    assert Flatten(blocks[4..]) == e + Flatten(blocks[5..]);
    assert Flatten(blocks[3..]) == d + Flatten(blocks[4..]);
    assert Flatten(blocks[2..]) == c + Flatten(blocks[3..]);
    assert Flatten(blocks[1..]) == b + Flatten(blocks[2..]);
  }

  lemma JoinEachSeven(sep: string, a: seq<string>, b: seq<string>, c: seq<string>, d: seq<string>,
                      e: seq<string>, f: seq<string>, g: seq<string>)
    ensures JoinEach(sep, [a, b, c, d, e, f, g]) ==
      [Join(sep, a), Join(sep, b), Join(sep, c), Join(sep, d), Join(sep, e), Join(sep, f), Join(sep, g)]
  {
    var blocks := [a, b, c, d, e, f, g];
    var r := JoinEach(sep, blocks);
    assert r[0] == Join(sep, a) && r[1] == Join(sep, b) && r[2] == Join(sep, c) && r[3] == Join(sep, d);
    assert r[4] == Join(sep, e) && r[5] == Join(sep, f) && r[6] == Join(sep, g);
  }

  lemma JoinPair(sep: string, x: string, y: string)
    ensures Join(sep, [x, y]) == x + sep + y
  {
    assert [x, y][1..] == [y];
  }

  /**
   * The prompt is the opening, the macro targets, the meal-plan preferences, the schema,
   * the constraints, the dietary rules and the closing instruction, in that order, each
   * block's lines joined by line breaks and the blocks joined by line breaks.
   */
  lemma PromptBlocksInOrder(user: UserInput, calcOutput: CalcOutput, fmt: real -> string)
    ensures BuildPrompt(user, calcOutput, fmt) == Join("\n", [
      Join("\n", PromptOpening), Join("\n", MacroTargetLines(calcOutput, fmt)),
      Join("\n", MealPlanPrefLines(user)), SchemaRule + "\n" + SchemaExample,
      Join("\n", ConstraintLines), Join("\n", DietaryLines(user)), ReturnJsonOnly])
  {
    var blocks := PromptBlocks(user, calcOutput, fmt);
    FlattenSeven(PromptOpening, MacroTargetLines(calcOutput, fmt), MealPlanPrefLines(user),
                 [SchemaRule, SchemaExample], ConstraintLines, DietaryLines(user), [ReturnJsonOnly]);
    JoinFlatten("\n", blocks);
    JoinEachSeven("\n", PromptOpening, MacroTargetLines(calcOutput, fmt), MealPlanPrefLines(user),
                  [SchemaRule, SchemaExample], ConstraintLines, DietaryLines(user), [ReturnJsonOnly]);
    JoinPair("\n", SchemaRule, SchemaExample);
  }

  lemma NetCarbsPhrase(x: string)
    ensures Contains("- Net carbs target: " + x + "g/day", "Net carbs target")
  {
    var head := "- Net carbs target: ";
    var line := head + x + "g/day";
    assert line[..|head|] == head;
    assert head[2..][..16] == "Net carbs target";
    assert line[2..][..16] == head[2..][..16];
  }

  lemma SchemaRulePhrase()
    ensures Contains(SchemaRule, JsonRequirement)
  {
    assert SchemaRule[2..][..|JsonRequirement|] == JsonRequirement;
  }

  /** What the prompt test checks: the net-carbs target and the JSON instruction are present. */
  lemma PromptContainsRequiredPhrases(user: UserInput, calcOutput: CalcOutput, fmt: real -> string)
    ensures Contains(BuildPrompt(user, calcOutput, fmt), "Net carbs target")
    ensures Contains(BuildPrompt(user, calcOutput, fmt), JsonRequirement)
  {
    var lines := PromptLines(user, calcOutput, fmt);
    var targets := MacroTargetLines(calcOutput, fmt);
    PromptLayout(user, calcOutput, fmt);
    NetCarbsPhrase(fmt(calcOutput.macros.netCarbsG));
    JoinContainsInBlock("\n", lines, 3, targets, 0, "Net carbs target");
    SchemaRulePhrase();
    JoinContainsPart("\n", lines, 12, JsonRequirement);
  }

  /** Every macro target line, with its rendered number, is in the prompt. */
  lemma PromptCarriesTheTargets(user: UserInput, calcOutput: CalcOutput, fmt: real -> string)
    ensures forall line | line in MacroTargetLines(calcOutput, fmt) :: Contains(BuildPrompt(user, calcOutput, fmt), line)
  {
    PromptLayout(user, calcOutput, fmt);
    JoinContainsBlock("\n", PromptLines(user, calcOutput, fmt), 3, MacroTargetLines(calcOutput, fmt));
  }

  /** Each dietary rule that applies is stated in the prompt. */
  lemma PromptStatesDietaryRules(user: UserInput, calcOutput: CalcOutput, fmt: real -> string)
    ensures forall line | line in DietaryLines(user) :: Contains(BuildPrompt(user, calcOutput, fmt), line)
    ensures user.dietary.vegan ==> Contains(BuildPrompt(user, calcOutput, fmt), VeganRule)
    ensures user.dietary.halal ==> Contains(BuildPrompt(user, calcOutput, fmt), HalalRule)
    ensures user.dietary.kosher ==> Contains(BuildPrompt(user, calcOutput, fmt), KosherRule)
  {
    PromptLayout(user, calcOutput, fmt);
    JoinContainsBlock("\n", PromptLines(user, calcOutput, fmt), 20, DietaryLines(user));
  }

  // ---------------------------------------------------------------------------
  // Generating a plan: the provider call, the repair call and the retry loop
  // ---------------------------------------------------------------------------

  const ModelName := "gemini-2.5-flash"
  const JsonMimeType := "application/json"
  const GenerationMaxTokens := 1400
  const RepairMaxTokens := 1000
  /** How many generation calls a run may make. */
  const Attempts := 3
  const PreviewLength := 600

  const ApiKeyMessage := "GEMINI_API_KEY is not set"
  const UnavailableMessage := "Gemini is " + "temporarily unavailable " + "(model overloaded). " + "Please try again in a minute."
  const RateLimitPrefix := "RATE_LIMIT:"
  const ApiErrorPrefix := "Gemini API error: "
  const NonJsonPrefix := "LLM returned non-JSON: "
  const SchemaMismatchPrefix := "LLM returned JSON that doesn't match schema. Preview: "

  /** One call of the provider: the model, the prompt, the response MIME type and the token bound. */
  datatype ProviderRequest = ProviderRequest(model: string, contents: string, mimeType: string, maxOutputTokens: nat)

  /**
   * What one provider call does: it answers (with a text, possibly missing), or raises a
   * server error (the overload case), another API error (with the status code the error
   * carries, if any, and its message), or some other exception.
   */
  datatype Reply =
    | Response(text: Option<string>)
    | ServerError(message: string)
    | ApiError(statusCode: Option<int>, message: string)
    | Raised(error: Exc)

  /** What `json.loads` does with a text: a value of type J, or a decode error with its position. */
  datatype ParseOutcome<J> = DecodeError(msg: string, lineno: int, colno: int) | Decoded(value: J)

  /**
   * The parts of the run that are not modelled. `provider(k, req)` is the reply to the
   * k-th provider call of the run (counting from 0, generation and repair calls alike);
   * `parseJson` is the JSON parser and `isNull` recognises JSON `null`; `shapeOf` is the
   * schema's shape decoding (None when the value does not have the records' shape; the
   * field constraints are checked by `Valid`); `formatFixed0` renders a number as `:.0f` does.
   */
  datatype Oracles<!J> = Oracles(
    provider: (nat, ProviderRequest) -> Reply,
    parseJson: string -> ParseOutcome<J>,
    isNull: J -> bool,
    shapeOf: J -> Option<MealPlanResponse>,
    formatFixed0: real -> string)

  /** The outcome of a run and the provider calls it made, in order. */
  datatype Run = Run(result: Result<MealPlanResponse>, calls: seq<ProviderRequest>)

  function GenerationRequest(prompt: string): ProviderRequest {
    ProviderRequest(ModelName, prompt, JsonMimeType, GenerationMaxTokens)
  }

  const RepairHeading: seq<string> := [
    "Fix the JSON below so it is valid and matches the schema.",
    "Return JSON only. No markdown, no extra text.",
    "JSON to fix:"]

  /** The repair prompt: three fixed lines, then the raw text of the failed reply. */
  function RepairPrompt(rawText: string): string {
    Join("\n", RepairHeading + [rawText])
  }

  function RepairRequest(rawText: string): ProviderRequest {
    ProviderRequest(ModelName, RepairPrompt(rawText), JsonMimeType, RepairMaxTokens)
  }

  ghost predicate IsRepairRequest(req: ProviderRequest) {
    exists raw :: req == RepairRequest(raw)
  }

  /** A generation call is never a repair call: their token bounds differ. */
  lemma GenerationIsNotRepair(prompt: string, raw: string)
    ensures GenerationRequest(prompt) != RepairRequest(raw)
    ensures !IsRepairRequest(GenerationRequest(prompt))
  {
  }

  /** `resp.text or ""`. */
  function TextOf(text: Option<string>): string {
    if text.Some? then text.value else ""
  }

  /** `s.replace("\n", "\\n")`: every line break becomes a backslash and an `n`. */
  function EscapeNewlines(s: string): (r: string)
    ensures '\n' !in r
    ensures '\n' !in s ==> r == s
    ensures |r| >= |s|
  {
    if s == [] then []
    else (if s[0] == '\n' then "\\n" else [s[0]]) + EscapeNewlines(s[1..])
  }

  /** The first 600 characters of the reply, on a single line. */
  function Preview(text: string): (r: string)
    ensures '\n' !in r
  {
    EscapeNewlines(if |text| <= PreviewLength then text else text[..PreviewLength])
  }

  /** Escaping works character by character: each line break becomes `\n`, any other character stays. */
  lemma {:induction false} EscapeNewlinesConcat(a: string, b: string)
    ensures EscapeNewlines(a + b) == EscapeNewlines(a) + EscapeNewlines(b)
  {
    if a == [] {
      assert a + b == b;
    } else {
      assert (a + b)[0] == a[0];
      assert (a + b)[1..] == a[1..] + b;
      EscapeNewlinesConcat(a[1..], b);
    }
  }

  lemma EscapeNewlinesChar(c: char)
    ensures EscapeNewlines(['\n']) == "\\n"
    ensures c != '\n' ==> EscapeNewlines([c]) == [c]
  {
  }

  /** A text of at most 600 characters is previewed whole. */
  lemma PreviewOfShortText(text: string)
    requires |text| <= PreviewLength
    ensures Preview(text) == EscapeNewlines(text)
  {
  }

  /** A short text on one line is previewed as it is. */
  lemma PreviewOfShortLine(text: string)
    requires |text| <= PreviewLength && '\n' !in text
    ensures Preview(text) == text
  {
  }

  /** Only the first 600 characters reach the preview: whatever follows them is ignored. */
  lemma PreviewIgnoresTail(a: string, b: string)
    requires |a| >= PreviewLength
    ensures Preview(a + b) == Preview(a)
    ensures Preview(a) == EscapeNewlines(a[..PreviewLength])
  {
    if |a| == PreviewLength {
      assert a[..PreviewLength] == a;
    }
    if b == [] {
      assert a + b == a;
    } else {
      assert (a + b)[..PreviewLength] == a[..PreviewLength];
    }
  }

  function NonJsonMessage(msg: string, lineno: int, colno: int, text: string): string {
    NonJsonPrefix + (msg + " at line " + IntToString(lineno) + " col " + IntToString(colno)
      + ". Preview: " + Preview(text))
  }

  function SchemaMismatchMessage(text: string): string {
    SchemaMismatchPrefix + Preview(text)
  }

  /**
   * `_repair_json` after its provider call: the JSON recovered from the reply, or None when
   * the call raised anything or nothing non-empty was recovered.
   */
  function RepairOutcome(reply: Reply): (r: Option<string>)
    ensures r.None? <==> !reply.Response? || ExtractJson(TextOf(reply.text)) == ""
    ensures r.Some? ==> r.value == ExtractJson(TextOf(reply.text))
    ensures r.Some? ==> r.value != "" && IsSubstring(r.value, TextOf(reply.text))
  {
    if reply.Response? then
      var recovered := ExtractJson(TextOf(reply.text));
      ExtractJsonIsSubstring(TextOf(reply.text));
      if recovered == "" then None else Some(recovered)
    else None
  }

  /** `model_validate`: JSON `null` or a value of the wrong shape or with a field out of range is rejected. */
  function ModelValidate<J>(o: Oracles<J>, v: J, text: string): (r: Result<MealPlanResponse>)
    ensures r.Ok? <==> !o.isNull(v) && o.shapeOf(v).Some? && o.shapeOf(v).value.Valid()
    ensures r.Ok? ==> r.value == o.shapeOf(v).value && r.value.Valid()
    ensures r.Err? ==> r.error == RuntimeError(SchemaMismatchMessage(text))
  {
    if o.isNull(v) then Err(RuntimeError(SchemaMismatchMessage(text)))
    else match o.shapeOf(v)
      case Some(p) => if p.Valid() then Ok(p) else Err(RuntimeError(SchemaMismatchMessage(text)))
      case None => Err(RuntimeError(SchemaMismatchMessage(text)))
  }

  /** The parsed value of a repaired text, None when it does not parse or parses to `null`. */
  function RepairedData<J>(o: Oracles<J>, repaired: Option<string>): Option<J> {
    if repaired.None? then None
    else match o.parseJson(repaired.value)
      case Decoded(v) => if o.isNull(v) then None else Some(v)
      case DecodeError(_, _, _) => None
  }

  /**
   * What happens once a generation call answered with `text`, `calls` being the calls made
   * so far: the recovered JSON is parsed and validated; if it does not parse, one repair
   * call is made, and when that yields nothing usable the original decode error is reported.
   */
  function AfterResponse<J>(o: Oracles<J>, calls: seq<ProviderRequest>, text: string): Run {
    match o.parseJson(ExtractJson(text))
    case Decoded(v) => Run(ModelValidate(o, v, text), calls)
    case DecodeError(msg, lineno, colno) =>
      var repair := RepairRequest(text);
      var data := RepairedData(o, RepairOutcome(o.provider(|calls|, repair)));
      var after := calls + [repair];
      if data.None? then Run(Err(RuntimeError(NonJsonMessage(msg, lineno, colno, text))), after)
      else Run(ModelValidate(o, data.value, text), after)
  }

  function ApiErrorMessage(statusCode: Option<int>, message: string): string {
    if statusCode == Some(429) then RateLimitPrefix + message else ApiErrorPrefix + message
  }

  /** The end of a run at a generation reply that is not a server error. */
  function Settle<J>(o: Oracles<J>, reply: Reply, calls: seq<ProviderRequest>): Run
    requires !reply.ServerError?
  {
    match reply
    case Response(text) => AfterResponse(o, calls, TextOf(text))
    case ApiError(statusCode, message) => Run(Err(RuntimeError(ApiErrorMessage(statusCode, message))), calls)
    case Raised(e) => Run(Err(e), calls)
  }

  /**
   * The retry loop from attempt `i` on, `calls` being the calls made so far: a server error
   * leads to the next attempt, except at the last one; after it the run ends as unavailable.
   * The `i >= Attempts` case is never reached from attempt 0: it only makes the function total.
   */
  function AttemptsFrom<J>(o: Oracles<J>, prompt: string, i: nat, calls: seq<ProviderRequest>): Run
    decreases Attempts - i
  {
    if i >= Attempts then Run(Err(RuntimeError(UnavailableMessage)), calls)
    else
      var request := GenerationRequest(prompt);
      var reply := o.provider(|calls|, request);
      var after := calls + [request];
      if reply.ServerError? then
        if i == Attempts - 1 then Run(Err(RuntimeError(UnavailableMessage)), after)
        else AttemptsFrom(o, prompt, i + 1, after)
      else Settle(o, reply, after)
  }

  /**
   * `generate_meal_plan` for a given prompt, with the environment's API key as a parameter:
   * a missing or empty key is refused before any call, then the attempts run.
   */
  function Generate<J>(apiKey: Option<string>, prompt: string, o: Oracles<J>): Run {
    if apiKey.None? || apiKey.value == "" then Run(Err(ValueError(ApiKeyMessage)), [])
    else AttemptsFrom(o, prompt, 0, [])
  }

  /** `generate_meal_plan`: the run for the prompt built from the user's input and the calculation. */
  function GenerateMealPlanSpec<J>(apiKey: Option<string>, user: UserInput, calcOutput: CalcOutput, o: Oracles<J>): Run {
    Generate(apiKey, BuildPrompt(user, calcOutput, o.formatFixed0), o)
  }

  function Repeat<T>(x: T, n: nat): (r: seq<T>)
    ensures |r| == n && forall i :: 0 <= i < n ==> r[i] == x
  {
    if n == 0 then [] else Repeat(x, n - 1) + [x]
  }

  /** `generate_meal_plan`: the key check, the prompt, then the retry loop. */
  method GenerateMealPlan<J>(apiKey: Option<string>, user: UserInput, calcOutput: CalcOutput, o: Oracles<J>)
    returns (result: Result<MealPlanResponse>, calls: seq<ProviderRequest>)
    ensures Run(result, calls) == GenerateMealPlanSpec(apiKey, user, calcOutput, o)
  {
    if apiKey.None? || apiKey.value == "" {
      result, calls := Err(ValueError(ApiKeyMessage)), [];
      return;
    }
    var prompt := BuildPrompt(user, calcOutput, o.formatFixed0);
    result, calls := RetryGeneration(o, prompt);
  }

  /**
   * The generation loop. Each attempt calls the provider once; a server error is retried
   * (the back-off sleep is not modelled), any other reply ends the run.
   */
  method RetryGeneration<J>(o: Oracles<J>, prompt: string) returns (result: Result<MealPlanResponse>, calls: seq<ProviderRequest>)
    ensures Run(result, calls) == AttemptsFrom(o, prompt, 0, [])
  {
    calls := [];
    var request := GenerationRequest(prompt);
    var i := 0;
    while i < Attempts
      invariant 0 <= i <= Attempts
      invariant calls == Repeat(request, i)
      invariant AttemptsFrom(o, prompt, 0, []) == AttemptsFrom(o, prompt, i, calls)
    {
      var reply := o.provider(|calls|, request);
      calls := calls + [request];
      match reply {
        case ServerError(_) =>
          if i == Attempts - 1 {
            break;
          }
        case ApiError(statusCode, message) =>
          if statusCode == Some(429) {
            result := Err(RuntimeError(RateLimitPrefix + message));
          } else {
            result := Err(RuntimeError(ApiErrorPrefix + message));
          }
          return;
        case Raised(e) =>
          result := Err(e);
          return;
        case Response(text) =>
          var run := AfterResponse(o, calls, TextOf(text));
          result, calls := run.result, run.calls;
          return;
      }
      i := i + 1;
    }
    result := Err(RuntimeError(UnavailableMessage));
  }

  /**
   * The index of the first generation call (among the first three) whose reply is not a
   * server error; Attempts when all three are server errors.
   */
  function FirstDecisive<J>(o: Oracles<J>, prompt: string): (j: nat)
    ensures j <= Attempts
    ensures forall k :: 0 <= k < j ==> o.provider(k, GenerationRequest(prompt)).ServerError?
    ensures j < Attempts ==> !o.provider(j, GenerationRequest(prompt)).ServerError?
  {
    FirstDecisiveFrom(o, GenerationRequest(prompt), 0)
  }

  function FirstDecisiveFrom<J>(o: Oracles<J>, request: ProviderRequest, k: nat): (j: nat)
    requires k <= Attempts
    ensures k <= j <= Attempts
    ensures forall m :: k <= m < j ==> o.provider(m, request).ServerError?
    ensures j < Attempts ==> !o.provider(j, request).ServerError?
    decreases Attempts - k
  {
    if k == Attempts || !o.provider(k, request).ServerError? then k
    else FirstDecisiveFrom(o, request, k + 1)
  }

  /** The loop from attempt i on, when the attempts before i all met a server error. */
  lemma {:induction false} AttemptsFromDecided<J>(o: Oracles<J>, prompt: string, i: nat)
    requires i <= FirstDecisive(o, prompt) && i < Attempts
    ensures var gen := GenerationRequest(prompt);
      var run := AttemptsFrom(o, prompt, i, Repeat(gen, i));
      var j := FirstDecisive(o, prompt);
      && (j == Attempts ==> run == Run(Err(RuntimeError(UnavailableMessage)), Repeat(gen, Attempts)))
      && (j < Attempts ==> run == Settle(o, o.provider(j, gen), Repeat(gen, j + 1)))
    decreases Attempts - i
  {
    var gen := GenerationRequest(prompt);
    assert Repeat(gen, i) + [gen] == Repeat(gen, i + 1);
    if i < FirstDecisive(o, prompt) && i < Attempts - 1 {
      AttemptsFromDecided(o, prompt, i + 1);
    }
  }

  /**
   * Only a server error leads to another attempt: the run is decided by the first reply
   * among the first three generation calls that is not a server error, after exactly that
   * many calls; when all three are server errors the model is reported unavailable.
   */
  lemma RunIsDecidedByFirstDecisiveReply<J>(o: Oracles<J>, prompt: string)
    ensures var gen := GenerationRequest(prompt);
      var run := AttemptsFrom(o, prompt, 0, []);
      var j := FirstDecisive(o, prompt);
      && (j == Attempts ==> run == Run(Err(RuntimeError(UnavailableMessage)), Repeat(gen, Attempts)))
      && (j < Attempts ==> run == Settle(o, o.provider(j, gen), Repeat(gen, j + 1)))
  {
    assert Repeat(GenerationRequest(prompt), 0) == [];
    AttemptsFromDecided(o, prompt, 0);
  }

  /** Without an API key (missing or empty) the run fails with a ValueError before any call. */
  lemma MissingKeyRaisesBeforeAnyCall<J>(apiKey: Option<string>, prompt: string, o: Oracles<J>)
    requires apiKey.None? || apiKey == Some("")
    ensures Generate(apiKey, prompt, o) == Run(Err(ValueError(ApiKeyMessage)), [])
  {
  }

  /** At the end of a run, a reply other than a server error adds at most the repair call. */
  lemma SettleAddsAtMostTheRepair<J>(o: Oracles<J>, reply: Reply, calls: seq<ProviderRequest>)
    requires !reply.ServerError?
    ensures var run := Settle(o, reply, calls);
      run.calls == calls || (reply.Response? && run.calls == calls + [RepairRequest(TextOf(reply.text))])
  {
    if reply.Response? {
      var text := TextOf(reply.text);
      assert Settle(o, reply, calls) == AfterResponse(o, calls, text);
      match o.parseJson(ExtractJson(text))
      case Decoded(v) =>
        assert AfterResponse(o, calls, text).calls == calls;
      case DecodeError(_, _, _) =>
        assert AfterResponse(o, calls, text).calls == calls + [RepairRequest(text)];
    }
  }

  /**
   * Every run with an API key makes one to three generation calls, all with the same
   * request, and possibly one repair call, which is then the last call.
   */
  lemma {:induction false} CallBounds<J>(apiKey: Option<string>, prompt: string, o: Oracles<J>)
    requires apiKey.Some? && apiKey.value != ""
    ensures var gen := GenerationRequest(prompt);
      var calls := Generate(apiKey, prompt, o).calls;
      && 1 <= |calls| <= Attempts + 1
      && (forall k :: 0 <= k < |calls| ==> calls[k] == gen || (k == |calls| - 1 && IsRepairRequest(calls[k])))
      && (|calls| == Attempts + 1 ==> IsRepairRequest(calls[Attempts]))
  {
    var gen := GenerationRequest(prompt);
    assert Generate(apiKey, prompt, o) == AttemptsFrom(o, prompt, 0, []);
    RunIsDecidedByFirstDecisiveReply(o, prompt);
    var j := FirstDecisive(o, prompt);
    if j < Attempts {
      var reply := o.provider(j, gen);
      SettleAddsAtMostTheRepair(o, reply, Repeat(gen, j + 1));
      if reply.Response? {
        var raw := TextOf(reply.text);
        assert IsRepairRequest(RepairRequest(raw));
      }
    }
  }

  /** Three server errors in a row end the run as unavailable, after exactly three calls. */
  lemma ThreeServerErrorsAreUnavailable<J>(apiKey: Option<string>, prompt: string, o: Oracles<J>)
    requires apiKey.Some? && apiKey.value != ""
    requires forall k :: 0 <= k < Attempts ==> o.provider(k, GenerationRequest(prompt)).ServerError?
    ensures var gen := GenerationRequest(prompt);
      Generate(apiKey, prompt, o) == Run(Err(RuntimeError(UnavailableMessage)), [gen, gen, gen])
  {
    RunIsDecidedByFirstDecisiveReply(o, prompt);
    var gen := GenerationRequest(prompt);
    assert FirstDecisive(o, prompt) == Attempts;
    assert Repeat(gen, 3) == [gen, gen, gen];
  }

  /**
   * An API error other than a server error ends the run at once, with no further call: a
   * 429 with the rate-limit prefix, anything else as a generic API error.
   */
  lemma ApiErrorFailsFast<J>(apiKey: Option<string>, prompt: string, o: Oracles<J>)
    requires apiKey.Some? && apiKey.value != ""
    requires var j := FirstDecisive(o, prompt);
      j < Attempts && o.provider(j, GenerationRequest(prompt)).ApiError?
    ensures var gen := GenerationRequest(prompt);
      var j := FirstDecisive(o, prompt);
      var reply := o.provider(j, gen);
      var run := Generate(apiKey, prompt, o);
      && run.calls == Repeat(gen, j + 1)
      && (reply.statusCode == Some(429) ==> run.result == Err(RuntimeError(RateLimitPrefix + reply.message)))
      && (reply.statusCode != Some(429) ==> run.result == Err(RuntimeError(ApiErrorPrefix + reply.message)))
  {
    RunIsDecidedByFirstDecisiveReply(o, prompt);
  }

  /** A 429 on the first call fails the run after that one call, with the rate-limit prefix. */
  lemma RateLimitOnFirstCall<J>(apiKey: Option<string>, prompt: string, o: Oracles<J>, m: string)
    requires apiKey.Some? && apiKey.value != ""
    requires o.provider(0, GenerationRequest(prompt)) == ApiError(Some(429), m)
    ensures Generate(apiKey, prompt, o) == Run(Err(RuntimeError(RateLimitPrefix + m)), [GenerationRequest(prompt)])
  {
    RunIsDecidedByFirstDecisiveReply(o, prompt);
    assert FirstDecisive(o, prompt) == 0;
    assert Repeat(GenerationRequest(prompt), 1) == [GenerationRequest(prompt)];
  }

  /**
   * Once a generation call answers, the run ends with that answer: parse and schema failures
   * are not retried. What happens is decided by the answer alone, with at most the repair call
   * added.
   */
  lemma ResponseIsTerminal<J>(apiKey: Option<string>, prompt: string, o: Oracles<J>)
    requires apiKey.Some? && apiKey.value != ""
    requires var j := FirstDecisive(o, prompt);
      j < Attempts && o.provider(j, GenerationRequest(prompt)).Response?
    ensures var gen := GenerationRequest(prompt);
      var j := FirstDecisive(o, prompt);
      var text := TextOf(o.provider(j, gen).text);
      Generate(apiKey, prompt, o) == AfterResponse(o, Repeat(gen, j + 1), text)
  {
    RunIsDecidedByFirstDecisiveReply(o, prompt);
  }

  /**
   * How a run settled by an answer ends: with a valid plan, or with a RuntimeError that is
   * either the non-JSON error or the schema mismatch. The repair call is made exactly when
   * the recovered JSON does not parse, and a non-JSON error always quotes the decode error
   * of that first parse.
   */
  lemma AfterResponseOutcomes<J>(o: Oracles<J>, calls: seq<ProviderRequest>, text: string)
    ensures var run := AfterResponse(o, calls, text);
      run.result.Ok? ==> run.result.value.Valid()
    ensures var run := AfterResponse(o, calls, text);
      run.result.Err? ==>
        && run.result.error.RuntimeError?
        && (StartsWith(run.result.error.msg, NonJsonPrefix) || StartsWith(run.result.error.msg, SchemaMismatchPrefix))
    ensures AfterResponse(o, calls, text).calls ==
      if o.parseJson(ExtractJson(text)).DecodeError? then calls + [RepairRequest(text)] else calls
    ensures var run := AfterResponse(o, calls, text);
      run.result.Err? && StartsWith(run.result.error.msg, NonJsonPrefix) ==>
        var e := o.parseJson(ExtractJson(text));
        e.DecodeError? && run.result.error == RuntimeError(NonJsonMessage(e.msg, e.lineno, e.colno, text))
  {
    var run := AfterResponse(o, calls, text);
    var rest := SchemaMismatchMessage(text)[|SchemaMismatchPrefix|..];
    assert SchemaMismatchMessage(text) == SchemaMismatchPrefix + rest;
    StartsWithOwnPrefix(SchemaMismatchPrefix, rest);
    SchemaMismatchIsNotNonJson(text);
    var e := o.parseJson(ExtractJson(text));
    if e.DecodeError? {
      var tail := NonJsonMessage(e.msg, e.lineno, e.colno, text)[|NonJsonPrefix|..];
      assert NonJsonMessage(e.msg, e.lineno, e.colno, text) == NonJsonPrefix + tail;
      StartsWithOwnPrefix(NonJsonPrefix, tail);
    }
  }

  /** The schema-mismatch message never reads as a non-JSON message. */
  lemma SchemaMismatchIsNotNonJson(text: string)
    ensures !StartsWith(SchemaMismatchMessage(text), NonJsonPrefix)
  {
    var m := SchemaMismatchMessage(text);
    assert m[13] == SchemaMismatchPrefix[13] == 'J';
    assert NonJsonPrefix[13] == 'n';
  }

  /** A repair reply that parses to JSON `null` counts as non-JSON, not as a schema mismatch. */
  lemma NullRepairIsNonJson<J>(o: Oracles<J>, calls: seq<ProviderRequest>, text: string, v: J)
    requires o.parseJson(ExtractJson(text)).DecodeError?
    requires var repaired := RepairOutcome(o.provider(|calls|, RepairRequest(text)));
      repaired.Some? && o.parseJson(repaired.value) == Decoded(v) && o.isNull(v)
    ensures var e := o.parseJson(ExtractJson(text));
      AfterResponse(o, calls, text).result == Err(RuntimeError(NonJsonMessage(e.msg, e.lineno, e.colno, text)))
  {
  }

  /**
   * A run that succeeds had an API key and made at least one call, and it returns a plan
   * satisfying every field constraint of the schema, the shape decoding of some parsed value.
   */
  lemma {:induction false} SuccessIsValid<J>(apiKey: Option<string>, prompt: string, o: Oracles<J>)
    requires Generate(apiKey, prompt, o).result.Ok?
    ensures var run := Generate(apiKey, prompt, o);
      && apiKey.Some? && apiKey.value != "" && |run.calls| >= 1
      && run.result.value.Valid()
      && exists v: J :: !o.isNull(v) && o.shapeOf(v) == Some(run.result.value)
  {
    var gen := GenerationRequest(prompt);
    CallBounds(apiKey, prompt, o);
    RunIsDecidedByFirstDecisiveReply(o, prompt);
    var j := FirstDecisive(o, prompt);
    var reply := o.provider(j, gen);
    var calls := Repeat(gen, j + 1);
    var text := TextOf(reply.text);
    assert reply.Response?;
    var run := Generate(apiKey, prompt, o);
    match o.parseJson(ExtractJson(text))
    case Decoded(v) =>
      assert run.result == ModelValidate(o, v, text);
      assert !o.isNull(v) && o.shapeOf(v) == Some(run.result.value);
    case DecodeError(_, _, _) =>
      var data := RepairedData(o, RepairOutcome(o.provider(|calls|, RepairRequest(text))));
      var w := data.value;
      assert !o.isNull(w) && o.shapeOf(w) == Some(run.result.value);
  }

  lemma UnavailableDiffersFromOtherMessages(code: Option<int>, m: string, msg: string, lineno: int, colno: int, text: string)
    ensures ApiErrorMessage(code, m) != UnavailableMessage
    ensures NonJsonMessage(msg, lineno, colno, text) != UnavailableMessage
    ensures SchemaMismatchMessage(text) != UnavailableMessage
  {
    assert UnavailableMessage[0] == 'G' && UnavailableMessage[7] == 'i';
    if code == Some(429) {
      assert RateLimitPrefix[7] == 'M';
      assert (RateLimitPrefix + m)[7] == RateLimitPrefix[7];
    } else {
      assert ApiErrorPrefix[7] == 'A';
      assert (ApiErrorPrefix + m)[7] == ApiErrorPrefix[7];
    }
    var rest := msg + " at line " + IntToString(lineno) + " col " + IntToString(colno) + ". Preview: " + Preview(text);
    assert NonJsonMessage(msg, lineno, colno, text) == NonJsonPrefix + rest;
    assert (NonJsonPrefix + rest)[0] == 'L';
    assert SchemaMismatchMessage(text)[0] != UnavailableMessage[0];
  }

  /**
   * The unavailable error means all three generation calls met a server error, unless the
   * deciding call itself raised that very error.
   */
  lemma UnavailableOnlyAfterThreeServerErrors<J>(apiKey: Option<string>, prompt: string, o: Oracles<J>)
    requires apiKey.Some? && apiKey.value != ""
    ensures var j := FirstDecisive(o, prompt);
      Generate(apiKey, prompt, o).result == Err(RuntimeError(UnavailableMessage)) <==>
        j == Attempts || o.provider(j, GenerationRequest(prompt)) == Raised(RuntimeError(UnavailableMessage))
  {
    var gen := GenerationRequest(prompt);
    RunIsDecidedByFirstDecisiveReply(o, prompt);
    var j := FirstDecisive(o, prompt);
    if j < Attempts {
      var reply := o.provider(j, gen);
      match reply
      case Response(t) =>
        var text := TextOf(t);
        var e := o.parseJson(ExtractJson(text));
        if e.DecodeError? {
          UnavailableDiffersFromOtherMessages(None, "", e.msg, e.lineno, e.colno, text);
        } else {
          UnavailableDiffersFromOtherMessages(None, "", "", 0, 0, text);
        }
      case ApiError(code, m) =>
        UnavailableDiffersFromOtherMessages(code, m, "", 0, 0, "");
      case Raised(_) =>
    }
  }
}
