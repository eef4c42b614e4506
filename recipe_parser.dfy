/**
 * The parser for generated recipe text.
 *
 * The parser makes one pass over the stripped, non-blank lines. Header lines
 * ("Title:", "Description:", "Cooking Time:", "Difficulty:", "Tags:") set a
 * field wherever they occur; "Ingredients:" and "Instructions:" switch the
 * section; "-" lines in the ingredients section and digit lines in the
 * instructions section append an entry. `Step` is one line of that pass,
 * `ParseLines` the pass as a left fold, and `ParseGeneratedRecipe` the loop
 * that mutates the record, proved to compute `Parse`.
 */
module RecipeParser {
  import opened Wrappers
  import opened Text
  import opened Models

  datatype Section = NoSection | IngredientsSection | InstructionsSection

  /** The parser's result record. */
  datatype ParsedRecipe = ParsedRecipe(
    title: string,
    description: string,
    cookingTime: int,
    difficulty: string,
    tags: seq<string>,
    ingredients: seq<RecipeIngredient>,
    instructions: seq<RecipeInstruction>)

  /** The record built so far, the current section and the next step number. */
  datatype ParseState = ParseState(data: ParsedRecipe, section: Section, stepNumber: int)

  const DefaultCookingTime: int := 30
  const InitialData: ParsedRecipe := ParsedRecipe("", "", DefaultCookingTime, "Medium", [], [], [])
  const InitialState: ParseState := ParseState(InitialData, NoSection, 1)
  /** The title used when no non-empty title was parsed. */
  const DefaultTitle: string := "Yippee! Fusion Delight"

  /** `line.replace(header, '').strip()`: the value of a header line. */
  function HeaderValue(line: string, header: string): string
    requires header != []
  {
    Strip(RemoveAll(line, header))
  }

  /** `int(s.split()[0])`, with `None` where Python raises. */
  function LeadingInt(s: string): Option<int> {
    match FirstToken(s)
    case None => None
    case Some(token) => ParseInt(token)
  }

  /** The cooking time of a "Cooking Time:" line, 30 when it has no leading integer. */
  function CookingTimeValue(line: string): int {
    LeadingInt(HeaderValue(line, "Cooking Time:")).GetOr(DefaultCookingTime)
  }

  /** The tags of a "Tags:" line: its value split at every comma, each piece stripped. */
  function TagsValue(line: string): (tags: seq<string>)
    ensures |tags| == Count(HeaderValue(line, "Tags:"), ',') + 1
    ensures forall k :: 0 <= k < |tags| ==> IsStripped(tags[k])
  {
    StripAll(Split(HeaderValue(line, "Tags:"), ','))
  }

  /** No tag holds a comma. */
  lemma TagsHaveNoComma(line: string)
    ensures forall k :: 0 <= k < |TagsValue(line)| ==> ',' !in TagsValue(line)[k]
  {
    var parts := Split(HeaderValue(line, "Tags:"), ',');
    forall k | 0 <= k < |parts| && ',' in Strip(parts[k])
      ensures false
    {
      StripKeeps(parts[k], ',');
    }
  }

  /**
   * An ingredient line "- name: quantity notes": the stripped name before
   * the first ':', the quantity before the first space of the stripped rest,
   * and the unstripped remainder as notes. `None` for a line without ':'.
   */
  function IngredientOf(line: string): Option<RecipeIngredient>
    requires line != []
  {
    var ingredientLine := Strip(line[1..]);
    match SplitOnce(ingredientLine, ":")
    case (_, None) => None
    case (name, Some(rest)) =>
      var quantityNotes := SplitOnce(Strip(rest), " ");
      Some(RecipeIngredient(Strip(name), Strip(quantityNotes.0), quantityNotes.1))
  }

  /**
   * An instruction line: the text after the first '.', cut at "(Time:"; the
   * time is the leading integer of what lies between "(Time:" and the next ')'.
   */
  function InstructionOf(line: string, stepNumber: int): RecipeInstruction {
    var instructionText := match SplitOnce(line, ".") case (_, Some(after)) => after case (_, None) => line;
    match SplitOnce(instructionText, "(Time:")
    case (_, None) => RecipeInstruction(stepNumber, Strip(instructionText), None)
    case (before, Some(timePart)) =>
      RecipeInstruction(stepNumber, Strip(before), LeadingInt(Strip(Split(timePart, ')')[0])))
  }

  /** One line of the pass, tried against the prefixes in the parser's order. */
  function Step(st: ParseState, rawLine: string): ParseState {
    var line := Strip(rawLine);
    if line == [] then st
    else if StartsWith(line, "Title:") then st.(data := st.data.(title := HeaderValue(line, "Title:")))
    else if StartsWith(line, "Description:") then
      st.(data := st.data.(description := HeaderValue(line, "Description:")))
    else if StartsWith(line, "Cooking Time:") then st.(data := st.data.(cookingTime := CookingTimeValue(line)))
    else if StartsWith(line, "Difficulty:") then
      st.(data := st.data.(difficulty := HeaderValue(line, "Difficulty:")))
    else if StartsWith(line, "Tags:") then st.(data := st.data.(tags := TagsValue(line)))
    else if StartsWith(line, "Ingredients:") then st.(section := IngredientsSection)
    else if StartsWith(line, "Instructions:") then st.(section := InstructionsSection)
    else if st.section == IngredientsSection && StartsWith(line, "-") then
      match IngredientOf(line)
      case None => st
      case Some(ingredient) => st.(data := st.data.(ingredients := st.data.ingredients + [ingredient]))
    else if st.section == InstructionsSection && IsDigit(line[0]) then
      st.(data := st.data.(instructions := st.data.instructions + [InstructionOf(line, st.stepNumber)]),
          stepNumber := st.stepNumber + 1)
    else st
  }

  /** The state after the pass over the first `n` lines, from the initial state. */
  function ParseLines(lines: seq<string>, n: nat): ParseState
    requires n <= |lines|
  {
    if n == 0 then InitialState else Step(ParseLines(lines, n - 1), lines[n - 1])
  }

  /** The lines of the text: the stripped text split at every newline. */
  function Lines(recipeText: string): seq<string> {
    Split(Strip(recipeText), '\n')
  }

  /** The record with the default title in place of an empty one. */
  function WithTitle(data: ParsedRecipe): (r: ParsedRecipe)
    ensures r.title != []
    ensures r == data.(title := r.title)
    ensures r.title == (if data.title == [] then DefaultTitle else data.title)
  {
    if data.title == [] then data.(title := DefaultTitle) else data
  }

  /** `parse_generated_recipe` as a function of the text. */
  function Parse(recipeText: string): ParsedRecipe {
    var lines := Lines(recipeText);
    WithTitle(ParseLines(lines, |lines|).data)
  }

  /** The ingredient branch of the loop. */
  method ParseIngredientLine(line: string) returns (ingredient: Option<RecipeIngredient>)
    requires line != []
    ensures ingredient == IngredientOf(line)
  {
    var ingredientLine := Strip(line[1..]);
    ingredient := None;
    if Contains(ingredientLine, ":") {
      var nameRest := SplitOnce(ingredientLine, ":");
      var name, rest := nameRest.0, nameRest.1.value;
      var quantityNotes := SplitOnce(Strip(rest), " ");
      var quantity := quantityNotes.0;
      var notes := quantityNotes.1;
      ingredient := Some(RecipeIngredient(Strip(name), Strip(quantity), notes));
    }
  }

  /** The instruction branch of the loop. */
  method ParseInstructionLine(line: string, stepNumber: int) returns (instruction: RecipeInstruction)
    ensures instruction == InstructionOf(line, stepNumber)
  {
    var instructionText := if Contains(line, ".") then SplitOnce(line, ".").1.value else line;
    var timeMatch: Option<int> := None;
    if Contains(instructionText, "(Time:") {
      var textTime := SplitOnce(instructionText, "(Time:");
      var timePart := textTime.1.value;
      instructionText := textTime.0;
      var timeStr := Strip(Split(timePart, ')')[0]);
      timeMatch := LeadingInt(timeStr);
    }
    instruction := RecipeInstruction(stepNumber, Strip(instructionText), timeMatch);
  }

  // ---------------------------------------------------------------------------
  // Properties of the pass

  /** The section changes only on an "Ingredients:" or "Instructions:" line. */
  lemma StepSection(st: ParseState, rawLine: string)
    ensures Step(st, rawLine).section != st.section ==>
              StartsWith(Strip(rawLine), "Ingredients:") || StartsWith(Strip(rawLine), "Instructions:")
  {
  }

  /**
   * Header lines are recognised in every section and take priority: a
   * "Title:" line sets the title, whatever the section, and nothing else.
   */
  lemma StepTitle(st: ParseState, rawLine: string)
    requires StartsWith(Strip(rawLine), "Title:")
    ensures Step(st, rawLine) == st.(data := st.data.(title := HeaderValue(Strip(rawLine), "Title:")))
  {
  }

  /**
   * The ingredients change only on a "-" line holding ':' in the ingredients
   * section, and then by one entry appended at the end.
   */
  lemma StepIngredients(st: ParseState, rawLine: string)
    ensures var line, next := Strip(rawLine), Step(st, rawLine);
            next.data.ingredients != st.data.ingredients ==>
              && st.section == IngredientsSection && StartsWith(line, "-") && ':' in line
              && |next.data.ingredients| == |st.data.ingredients| + 1
              && next.data.ingredients[..|st.data.ingredients|] == st.data.ingredients
  {
    var line := Strip(rawLine);
    if st.section == IngredientsSection && line != [] && StartsWith(line, "-") {
      assert line[0] == '-' by {
        assert line[..1][0] == line[0];
      }
      DashLineIsNoHeader(line);
      if IngredientOf(line).Some? {
        ColonInIngredientLine(line);
      }
    }
  }

  /** A line the ingredient branch accepts holds a ':'. */
  lemma ColonInIngredientLine(line: string)
    requires line != [] && IngredientOf(line).Some?
    ensures ':' in line
  {
    var ingredientLine := Strip(line[1..]);
    ContainsChar(ingredientLine, ':');
    StripKeeps(line[1..], ':');
  }

  /** A line starting with '-' matches none of the prefixes the parser tries before it. */
  lemma DashLineIsNoHeader(line: string)
    requires line != [] && line[0] == '-'
    ensures !StartsWith(line, "Title:") && !StartsWith(line, "Description:") && !StartsWith(line, "Cooking Time:")
    ensures !StartsWith(line, "Difficulty:") && !StartsWith(line, "Tags:")
    ensures !StartsWith(line, "Ingredients:") && !StartsWith(line, "Instructions:")
  {
  }

  /**
   * The instructions change only on a line starting with a digit in the
   * instructions section, and then by the line's instruction, numbered with
   * the counter, appended at the end; the counter moves with them.
   */
  lemma StepInstructions(st: ParseState, rawLine: string)
    ensures var line, next := Strip(rawLine), Step(st, rawLine);
            && (next.data.instructions != st.data.instructions ==>
                  && st.section == InstructionsSection && IsDigit(line[0])
                  && next.data.instructions == st.data.instructions + [InstructionOf(line, st.stepNumber)]
                  && next.stepNumber == st.stepNumber + 1)
            && (next.data.instructions == st.data.instructions ==> next.stepNumber == st.stepNumber)
  {
    var line := Strip(rawLine);
    if line != [] && IsDigit(line[0]) {
      DigitLineIsNoHeader(line);
    }
  }

  /** A line starting with a digit matches none of the other prefixes the parser tries first. */
  lemma DigitLineIsNoHeader(line: string)
    requires line != [] && IsDigit(line[0])
    ensures !StartsWith(line, "Title:") && !StartsWith(line, "Description:") && !StartsWith(line, "Cooking Time:")
    ensures !StartsWith(line, "Difficulty:") && !StartsWith(line, "Tags:")
    ensures !StartsWith(line, "Ingredients:") && !StartsWith(line, "Instructions:") && !StartsWith(line, "-")
  {
  }

  /**
   * A "Cooking Time:" line without a leading integer sets the time to 30 in
   * any section, overwriting whatever an earlier line set, and changes nothing else.
   */
  lemma CookingTimeFallback(st: ParseState, rawLine: string)
    requires StartsWith(Strip(rawLine), "Cooking Time:")
    requires LeadingInt(HeaderValue(Strip(rawLine), "Cooking Time:")) == None
    ensures Step(st, rawLine) == st.(data := st.data.(cookingTime := DefaultCookingTime))
  {
    var line := Strip(rawLine);
    assert line[0] == 'C';
    assert !StartsWith(line, "Title:") by { assert line[0] != "Title:"[0]; }
    assert !StartsWith(line, "Description:") by { assert line[0] != "Description:"[0]; }
  }

  /**
   * An instruction line whose "(Time:" part has no leading integer, or that
   * has no such part, is appended with no time: the time is never defaulted.
   */
  lemma InstructionTimeFallback(st: ParseState, rawLine: string)
    requires Strip(rawLine) != [] && IsDigit(Strip(rawLine)[0]) && st.section == InstructionsSection
    ensures var line := Strip(rawLine);
            var text := match SplitOnce(line, ".") case (_, Some(after)) => after case (_, None) => line;
            var next := Step(st, rawLine);
            && |next.data.instructions| == |st.data.instructions| + 1
            && (next.data.instructions[|st.data.instructions|].timeMinutes == None <==>
                  match SplitOnce(text, "(Time:")
                  case (_, None) => true
                  case (_, Some(timePart)) => LeadingInt(Strip(Split(timePart, ')')[0])) == None)
  {
    DigitLineIsNoHeader(Strip(rawLine));
  }

  /**
   * Instructions are numbered 1, 2, 3, ... in the order of their lines,
   * whatever numerals the lines carry, and the counter is one past the last.
   */
  lemma {:induction false} StepNumbering(lines: seq<string>, n: nat)
    requires n <= |lines|
    ensures var st := ParseLines(lines, n);
            && st.stepNumber == |st.data.instructions| + 1
            && forall k :: 0 <= k < |st.data.instructions| ==> st.data.instructions[k].stepNumber == k + 1
  {
    if n > 0 {
      StepNumbering(lines, n - 1);
      StepInstructions(ParseLines(lines, n - 1), lines[n - 1]);
    }
  }

  /**
   * Entries are only ever appended: the ingredients and instructions parsed
   * from the first `m` lines lead those parsed from the first `n`.
   */
  lemma {:induction false} EntriesOnlyGrow(lines: seq<string>, m: nat, n: nat)
    requires m <= n <= |lines|
    ensures var early, late := ParseLines(lines, m).data, ParseLines(lines, n).data;
            && early.ingredients <= late.ingredients
            && early.instructions <= late.instructions
    decreases n
  {
    if m < n {
      EntriesOnlyGrow(lines, m, n - 1);
      StepIngredients(ParseLines(lines, n - 1), lines[n - 1]);
      StepInstructions(ParseLines(lines, n - 1), lines[n - 1]);
    }
  }

  /** The five header kinds. */
  datatype Header = TitleHeader | DescriptionHeader | CookingTimeHeader | DifficultyHeader | TagsHeader {
    function Prefix(): string {
      match this
      case TitleHeader => "Title:"
      case DescriptionHeader => "Description:"
      case CookingTimeHeader => "Cooking Time:"
      case DifficultyHeader => "Difficulty:"
      case TagsHeader => "Tags:"
    }

    /** The header's field holds its initial value: "", "", 30, "Medium" and no tags. */
    predicate HasDefault(data: ParsedRecipe) {
      match this
      case TitleHeader => data.title == InitialData.title
      case DescriptionHeader => data.description == InitialData.description
      case CookingTimeHeader => data.cookingTime == InitialData.cookingTime
      case DifficultyHeader => data.difficulty == InitialData.difficulty
      case TagsHeader => data.tags == InitialData.tags
    }
  }

  /** Only a line of its own kind sets a header field. */
  lemma StepKeepsHeader(st: ParseState, rawLine: string, h: Header)
    requires !StartsWith(Strip(rawLine), h.Prefix())
    requires h.HasDefault(st.data)
    ensures h.HasDefault(Step(st, rawLine).data)
  {
  }

  /** A header without a line of its kind keeps its initial value. */
  lemma {:induction false} HeaderDefault(lines: seq<string>, n: nat, h: Header)
    requires n <= |lines|
    requires forall k :: 0 <= k < n ==> !StartsWith(Strip(lines[k]), h.Prefix())
    ensures h.HasDefault(ParseLines(lines, n).data)
  {
    if n > 0 {
      HeaderDefault(lines, n - 1, h);
      StepKeepsHeader(ParseLines(lines, n - 1), lines[n - 1], h);
    }
  }

  /** The parsed title is never empty, and is the default title when no non-empty title was seen. */
  lemma ParsedTitle(recipeText: string)
    ensures Parse(recipeText).title != []
    ensures var lines := Lines(recipeText);
            ParseLines(lines, |lines|).data.title == [] ==> Parse(recipeText).title == DefaultTitle
    ensures (forall line :: line in Lines(recipeText) ==> !StartsWith(Strip(line), "Title:")) ==>
              Parse(recipeText).title == DefaultTitle
  {
    var lines := Lines(recipeText);
    if forall line :: line in lines ==> !StartsWith(Strip(line), "Title:") {
      HeaderDefault(lines, |lines|, TitleHeader);
    }
  }

  /** A "Tags:" line with nothing after it gives one empty tag, not none. */
  lemma EmptyTagsLine()
    ensures TagsValue("Tags:") == [""]
  {
    assert "Tags:"[..|"Tags:"|] == "Tags:";
    assert "Tags:"[|"Tags:"|..] == "";
    RemoveLeading("Tags:", "");
    assert Strip("") == "";
    assert Split("", ',') == [""];
  }

  /**
   * `parse_generated_recipe`: the loop over the lines, mutating the record,
   * the current section and the step counter.
   */
  method ParseGeneratedRecipe(recipeText: string) returns (recipeData: ParsedRecipe)
    ensures recipeData == Parse(recipeText)
  {
    var lines := Split(Strip(recipeText), '\n');
    recipeData := ParsedRecipe(
      title := "",
      description := "",
      cookingTime := 30,
      difficulty := "Medium",
      tags := [],
      ingredients := [],
      instructions := []);
    var currentSection := NoSection;
    var stepNumber := 1;

    for i := 0 to |lines|
      invariant ParseState(recipeData, currentSection, stepNumber) == ParseLines(lines, i)
    {
      ghost var before := ParseState(recipeData, currentSection, stepNumber);
      var line := Strip(lines[i]);
      if line == [] {
        continue;
      }

      if StartsWith(line, "Title:") {
        recipeData := recipeData.(title := Strip(RemoveAll(line, "Title:")));
      } else if StartsWith(line, "Description:") {
        recipeData := recipeData.(description := Strip(RemoveAll(line, "Description:")));
      } else if StartsWith(line, "Cooking Time:") {
        var timeStr := Strip(RemoveAll(line, "Cooking Time:"));
        match LeadingInt(timeStr)
        case Some(minutes) => recipeData := recipeData.(cookingTime := minutes);
        case None => recipeData := recipeData.(cookingTime := 30);
      } else if StartsWith(line, "Difficulty:") {
        recipeData := recipeData.(difficulty := Strip(RemoveAll(line, "Difficulty:")));
      } else if StartsWith(line, "Tags:") {
        var tagsStr := Strip(RemoveAll(line, "Tags:"));
        recipeData := recipeData.(tags := StripAll(Split(tagsStr, ',')));
      } else if StartsWith(line, "Ingredients:") {
        currentSection := IngredientsSection;
      } else if StartsWith(line, "Instructions:") {
        currentSection := InstructionsSection;
      } else if currentSection == IngredientsSection && StartsWith(line, "-") {
        var ingredient := ParseIngredientLine(line);
        if ingredient.Some? {
          recipeData := recipeData.(ingredients := recipeData.ingredients + [ingredient.value]);
        }
      } else if currentSection == InstructionsSection && IsDigit(line[0]) {
        var instruction := ParseInstructionLine(line, stepNumber);
        recipeData := recipeData.(instructions := recipeData.instructions + [instruction]);
        stepNumber := stepNumber + 1;
      }
      assert ParseState(recipeData, currentSection, stepNumber) == Step(before, lines[i]);
    }

    if recipeData.title == [] {
      recipeData := recipeData.(title := DefaultTitle);
    }
  }
}
