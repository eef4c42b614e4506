/**
 * The recipe text format the generator writes and the parser reads
 * ("Title: …", "Description: …", "Cooking Time: N minutes", "Difficulty: …",
 * "Tags: a, b", then "Ingredients:" with "- name: quantity notes" lines and
 * "Instructions:" with "N. text (Time: M minutes)" lines). `Render` writes a
 * record in that format; `RoundTrip` proves that parsing the written text
 * gives the record back whenever its fields fit the format.
 */
module RecipeFormat {
  import opened Wrappers
  import opened Text
  import opened Models
  import opened RecipeParser

  // ---------------------------------------------------------------------------
  // Writing a record

  /** The tags joined with ", ". */
  function TagsText(tags: seq<string>): string {
    if tags == [] then [] else Join(tags, ", ")
  }

  function NotesText(notes: Option<string>): string {
    match notes
    case None => []
    case Some(text) => " " + text
  }

  /** "- name: quantity notes". */
  function IngredientLine(ingredient: RecipeIngredient): string {
    "- " + ingredient.name + ": " + ingredient.quantity + NotesText(ingredient.notes)
  }

  function TimeText(minutes: Option<int>): string {
    match minutes
    case None => []
    case Some(m) => " (Time: " + IntToString(m) + " minutes)"
  }

  /** "N. text (Time: M minutes)", the time part only when there is a time. */
  function InstructionLine(instruction: RecipeInstruction): string {
    IntToString(instruction.stepNumber) + ". " + instruction.instruction + TimeText(instruction.timeMinutes)
  }

  function HeaderLines(r: ParsedRecipe): seq<string> {
    [ "Title: " + r.title,
      "Description: " + r.description,
      "Cooking Time: " + IntToString(r.cookingTime) + " minutes",
      "Difficulty: " + r.difficulty,
      "Tags: " + TagsText(r.tags) ]
  }

  function IngredientLines(ingredients: seq<RecipeIngredient>): (lines: seq<string>)
    ensures |lines| == |ingredients|
    ensures forall k :: 0 <= k < |lines| ==> lines[k] == IngredientLine(ingredients[k])
  {
    seq(|ingredients|, k requires 0 <= k < |ingredients| => IngredientLine(ingredients[k]))
  }

  function InstructionLines(instructions: seq<RecipeInstruction>): (lines: seq<string>)
    ensures |lines| == |instructions|
    ensures forall k :: 0 <= k < |lines| ==> lines[k] == InstructionLine(instructions[k])
  {
    seq(|instructions|, k requires 0 <= k < |instructions| => InstructionLine(instructions[k]))
  }

  function RenderLines(r: ParsedRecipe): seq<string> {
    HeaderLines(r) + (["Ingredients:"] + IngredientLines(r.ingredients))
    + (["Instructions:"] + InstructionLines(r.instructions))
  }

  /** The record as recipe text, one line per field, entry and section header. */
  function Render(r: ParsedRecipe): string {
    Join(RenderLines(r), "\n")
  }

  // ---------------------------------------------------------------------------
  // What the format can carry

  /** A header value that reads back: non-empty, stripped, on one line, and free of its own label. */
  predicate HeaderText(value: string, header: string)
    requires header != []
  {
    value != [] && IsStripped(value) && '\n' !in value && !Contains(value, header)
  }

  /** A tag that reads back: non-empty, stripped, on one line, without a comma. */
  predicate TagText(tag: string) {
    tag != [] && IsStripped(tag) && ',' !in tag && '\n' !in tag
  }

  /**
   * An ingredient that reads back: a name without ':', a one-word quantity
   * and notes that do not end in white space, each non-empty and on one line.
   */
  predicate IngredientText(ingredient: RecipeIngredient) {
    && ingredient.name != [] && IsStripped(ingredient.name)
    && ':' !in ingredient.name && '\n' !in ingredient.name
    && ingredient.quantity != [] && IsStripped(ingredient.quantity)
    && ' ' !in ingredient.quantity && '\n' !in ingredient.quantity
    && (ingredient.notes.Some? ==>
          ingredient.notes.value != [] && IsStripped(ingredient.notes.value) && '\n' !in ingredient.notes.value)
  }

  /** An instruction that reads back: non-empty stripped text on one line, without '('. */
  predicate InstructionText(instruction: RecipeInstruction) {
    && instruction.instruction != [] && IsStripped(instruction.instruction)
    && '(' !in instruction.instruction && '\n' !in instruction.instruction
  }

  /** The header values each fit on their header line and read back whole. */
  predicate HeadersWellFormed(r: ParsedRecipe) {
    && HeaderText(r.title, "Title:")
    && HeaderText(r.description, "Description:")
    && HeaderText(r.difficulty, "Difficulty:")
    && r.tags != [] && (forall k :: 0 <= k < |r.tags| ==> TagText(r.tags[k]))
    && !Contains(TagsText(r.tags), "Tags:")
  }

  /** A record the format carries; its steps are numbered 1, 2, 3, ... as the parser numbers them. */
  predicate WellFormed(r: ParsedRecipe) {
    && HeadersWellFormed(r)
    && (forall k :: 0 <= k < |r.ingredients| ==> IngredientText(r.ingredients[k]))
    && (forall k :: 0 <= k < |r.instructions| ==>
          InstructionText(r.instructions[k]) && r.instructions[k].stepNumber == k + 1)
  }

  // ---------------------------------------------------------------------------
  // Reading one line back

  /** The value of "Header: value" is the value. */
  lemma HeaderLineValue(header: string, value: string)
    requires header != [] && header[0] != ' '
    requires HeaderText(value, header)
    ensures HeaderValue(header + " " + value, header) == value
  {
    assert RemoveAll(header + " " + value, header) == " " + value by {
      assert header + " " + value == header + (" " + value);
      RemoveLeading(header, " " + value);
      AbsentCons(' ', value, header);
      RemoveAbsent(" " + value, header);
    }
    assert " " + value == " " + value + [];
    StripPadded(" ", value, []);
  }

  /** "M minutes" is stripped and its leading integer is M. */
  lemma MinutesText(m: int)
    ensures var text := IntToString(m) + " minutes";
            IsStripped(text) && LeadingInt(text) == Some(m)
  {
    var digits := IntToString(m);
    forall i | 0 <= i < |digits|
      ensures !IsSpace(digits[i])
    {
      IntToStringChars(m, digits[i]);
    }
    FirstTokenOf(digits, " minutes");
    ParseIntToString(m);
  }

  /** The cooking time written as "Cooking Time: M minutes" reads back as M. */
  lemma CookingTimeLine(m: int)
    ensures CookingTimeValue("Cooking Time: " + IntToString(m) + " minutes") == m
  {
    var value := IntToString(m) + " minutes";
    MinutesText(m);
    assert !Contains(value, "Cooking Time:") by {
      if 'C' in IntToString(m) {
        IntToStringChars(m, 'C');
      }
      AbsentHead(value, "Cooking Time:");
    }
    assert '\n' !in value by {
      if '\n' in IntToString(m) {
        IntToStringChars(m, '\n');
      }
    }
    assert "Cooking Time: " + IntToString(m) + " minutes" == "Cooking Time:" + " " + value;
    HeaderLineValue("Cooking Time:", value);
  }

  /** The space after a comma makes no difference once the pieces are stripped. */
  lemma SpacedPieces(rest: string)
    ensures StripAll(Split(" " + rest, ',')) == StripAll(Split(rest, ','))
  {
    var parts := Split(rest, ',');
    SplitSpaceCons(rest);
    StripSpaceCons(parts[0]);
    StripAllHead(" " + parts[0], parts[0], parts[1..]);
    assert [parts[0]] + parts[1..] == parts;
  }

  /** A leading space stays with the first piece. */
  lemma SplitSpaceCons(rest: string)
    ensures var parts := Split(rest, ',');
            Split(" " + rest, ',') == [" " + parts[0]] + parts[1..]
  {
    assert (" " + rest)[1..] == rest;
  }

  /** Pieces that strip alike in front leave the stripped list alike. */
  lemma StripAllHead(a: string, b: string, xs: seq<string>)
    requires Strip(a) == Strip(b)
    ensures StripAll([a] + xs) == StripAll([b] + xs)
  {
    assert forall k :: 0 < k <= |xs| ==> ([a] + xs)[k] == ([b] + xs)[k];
  }

  /** Tags joined with ", " split back into the same tags. */
  lemma {:induction false} TagsJoin(tags: seq<string>)
    requires tags != []
    requires forall k :: 0 <= k < |tags| ==> TagText(tags[k])
    ensures StripAll(Split(Join(tags, ", "), ',')) == tags
    decreases |tags|
  {
    StripStripped(tags[0]);
    if |tags| == 1 {
      SplitNoSeparator(tags[0], ',');
    } else {
      var rest := Join(tags[1..], ", ");
      var spaced := Split(" " + rest, ',');
      assert StripAll(spaced) == tags[1..] by {
        TagsJoin(tags[1..]);
        SpacedPieces(rest);
      }
      assert Split(Join(tags, ", "), ',') == [tags[0]] + spaced by {
        assert Join(tags, ", ") == tags[0] + [','] + (" " + rest);
        SplitAtSeparator(tags[0], ',', " " + rest);
      }
      assert StripAll([tags[0]] + spaced) == [tags[0]] + StripAll(spaced);
      assert [tags[0]] + tags[1..] == tags;
    }
  }

  /** The tags written as "Tags: a, b" read back as the same tags. */
  lemma TagsLine(tags: seq<string>)
    requires tags != [] && forall k :: 0 <= k < |tags| ==> TagText(tags[k])
    requires !Contains(TagsText(tags), "Tags:")
    ensures TagsValue("Tags: " + TagsText(tags)) == tags
  {
    var text := Join(tags, ", ");
    JoinEnds(tags, ", ");
    JoinLacks(tags, ", ", '\n');
    assert "Tags: " + text == "Tags:" + " " + text;
    HeaderLineValue("Tags:", text);
    TagsJoin(tags);
  }

  /** After the name: the stripped rest splits at its first space into the quantity and the notes. */
  lemma QuantityNotes(ingredient: RecipeIngredient)
    requires IngredientText(ingredient)
    ensures var tail := ingredient.quantity + NotesText(ingredient.notes);
            && tail != [] && IsStripped(tail)
            && SplitOnce(Strip(" " + tail), " ") == (ingredient.quantity, ingredient.notes)
  {
    var quantity := ingredient.quantity;
    var tail := quantity + NotesText(ingredient.notes);
    assert IsStripped(tail) by {
      assert tail[0] == quantity[0];
      if ingredient.notes.Some? {
        var notes := ingredient.notes.value;
        assert tail[|tail| - 1] == notes[|notes| - 1];
      } else {
        assert tail == quantity;
      }
    }
    assert Strip(" " + tail) == tail by {
      assert " " + tail == " " + tail + [];
      StripPadded(" ", tail, []);
    }
    match ingredient.notes
    case None =>
      assert tail == quantity;
      AbsentHead(quantity, " ");
    case Some(notes) =>
      assert tail == quantity + " " + notes;
      SplitOnceFresh(quantity, " ", notes);
  }

  /** After the dash: a space, the name, a colon, a space and the rest. */
  lemma IngredientLineRest(ingredient: RecipeIngredient)
    ensures var tail := ingredient.quantity + NotesText(ingredient.notes);
            IngredientLine(ingredient)[1..] == " " + (ingredient.name + ":" + (" " + tail)) + []
  {
  }

  /** An ingredient line reads back as the ingredient. */
  lemma IngredientLineValue(ingredient: RecipeIngredient)
    requires IngredientText(ingredient)
    ensures IngredientOf(IngredientLine(ingredient)) == Some(ingredient)
  {
    var name := ingredient.name;
    var tail := ingredient.quantity + NotesText(ingredient.notes);
    QuantityNotes(ingredient);
    var body := name + ":" + (" " + tail);
    var line := IngredientLine(ingredient);
    assert Strip(line[1..]) == body by {
      IngredientLineRest(ingredient);
      assert body[0] == name[0];
      assert body[|body| - 1] == tail[|tail| - 1];
      StripPadded(" ", body, []);
    }
    SplitOnceFresh(name, ":", " " + tail);
    StripStripped(name);
    StripStripped(ingredient.quantity);
  }

  /** The time part " (Time: M minutes)" reads back as M. */
  lemma TimeLine(m: int)
    ensures var timePart := " " + IntToString(m) + " minutes)";
            LeadingInt(Strip(Split(timePart, ')')[0])) == Some(m)
  {
    var digits := IntToString(m);
    var inner := " " + (digits + " minutes");
    assert ')' !in inner by {
      if ')' in digits {
        IntToStringChars(m, ')');
      }
    }
    assert " " + digits + " minutes)" == inner + [')'] + [];
    SplitAtSeparator(inner, ')', []);
    MinutesText(m);
    assert inner == " " + (digits + " minutes") + [];
    StripPadded(" ", digits + " minutes", []);
  }

  /** Where the time part starts in the text after the numeral. */
  lemma TimeTextParts(text: string, m: int)
    ensures " " + text + TimeText(Some(m)) == (" " + text + " ") + "(Time:" + (" " + IntToString(m) + " minutes)")
  {
  }

  /** The text after the numeral: cut at "(Time:", stripped, with the time read from the rest. */
  lemma InstructionRest(text: string, minutes: Option<int>, stepNumber: int)
    requires text != [] && IsStripped(text) && '(' !in text
    ensures var rest := " " + text + TimeText(minutes);
            match SplitOnce(rest, "(Time:")
            case (_, None) => minutes.None? && Strip(rest) == text
            case (before, Some(timePart)) =>
              Strip(before) == text && LeadingInt(Strip(Split(timePart, ')')[0])) == minutes
  {
    var rest := " " + text + TimeText(minutes);
    match minutes
    case None =>
      assert rest == " " + text + [];
      AbsentHead(rest, "(Time:");
      StripPadded(" ", text, []);
    case Some(m) =>
      var before := " " + text + " ";
      var timePart := " " + IntToString(m) + " minutes)";
      TimeTextParts(text, m);
      SplitOnceFresh(before, "(Time:", timePart);
      StripPadded(" ", text, " ");
      TimeLine(m);
  }

  /** An instruction line reads back as the instruction, numbered by the counter, not by its numeral. */
  lemma InstructionLineValue(instruction: RecipeInstruction, stepNumber: int)
    requires InstructionText(instruction)
    ensures InstructionOf(InstructionLine(instruction), stepNumber) == instruction.(stepNumber := stepNumber)
  {
    var numeral := IntToString(instruction.stepNumber);
    var rest := " " + instruction.instruction + TimeText(instruction.timeMinutes);
    assert InstructionLine(instruction) == numeral + "." + rest;
    if '.' in numeral {
      IntToStringChars(instruction.stepNumber, '.');
    }
    SplitOnceFresh(numeral, ".", rest);
    InstructionRest(instruction.instruction, instruction.timeMinutes, stepNumber);
  }

  // ---------------------------------------------------------------------------
  // Reading one line in the pass

  /** A line that starts and ends with non-space characters is its own stripped form. */
  lemma StrippedLine(prefix: string, value: string)
    requires prefix != [] && !IsSpace(prefix[0])
    requires value != [] && !IsSpace(value[|value| - 1])
    ensures Strip(prefix + value) == prefix + value
  {
    var line := prefix + value;
    assert line[0] == prefix[0] && line[|line| - 1] == value[|value| - 1];
    StripStripped(line);
  }

  /** A line that differs from `p` at some position inside `p` does not start with `p`. */
  lemma DiffersAt(line: string, p: string, i: nat)
    requires i < |p| && i < |line| && line[i] != p[i]
    ensures !StartsWith(line, p)
  {
  }

  lemma TitleStep(st: ParseState, title: string)
    requires HeaderText(title, "Title:")
    ensures Step(st, "Title: " + title) == st.(data := st.data.(title := title))
  {
    StrippedLine("Title: ", title);
    assert "Title: " + title == "Title:" + " " + title;
    HeaderLineValue("Title:", title);
  }

  lemma DescriptionStep(st: ParseState, description: string)
    requires HeaderText(description, "Description:")
    ensures Step(st, "Description: " + description) == st.(data := st.data.(description := description))
  {
    var line := "Description: " + description;
    StrippedLine("Description: ", description);
    DiffersAt(line, "Title:", 0);
    assert "Description: " + description == "Description:" + " " + description;
    HeaderLineValue("Description:", description);
  }

  lemma CookingTimeStep(st: ParseState, m: int)
    ensures Step(st, "Cooking Time: " + IntToString(m) + " minutes") == st.(data := st.data.(cookingTime := m))
  {
    var value := IntToString(m) + " minutes";
    assert "Cooking Time: " + IntToString(m) + " minutes" == "Cooking Time: " + value;
    var line := "Cooking Time: " + value;
    StrippedLine("Cooking Time: ", value);
    DiffersAt(line, "Title:", 0);
    DiffersAt(line, "Description:", 0);
    CookingTimeLine(m);
  }

  lemma DifficultyStep(st: ParseState, difficulty: string)
    requires HeaderText(difficulty, "Difficulty:")
    ensures Step(st, "Difficulty: " + difficulty) == st.(data := st.data.(difficulty := difficulty))
  {
    var line := "Difficulty: " + difficulty;
    StrippedLine("Difficulty: ", difficulty);
    DiffersAt(line, "Title:", 0);
    DiffersAt(line, "Description:", 1);
    DiffersAt(line, "Cooking Time:", 0);
    assert "Difficulty: " + difficulty == "Difficulty:" + " " + difficulty;
    HeaderLineValue("Difficulty:", difficulty);
  }

  lemma TagsStep(st: ParseState, tags: seq<string>)
    requires tags != [] && forall k :: 0 <= k < |tags| ==> TagText(tags[k])
    requires !Contains(TagsText(tags), "Tags:")
    ensures Step(st, "Tags: " + TagsText(tags)) == st.(data := st.data.(tags := tags))
  {
    var text := TagsText(tags);
    JoinEnds(tags, ", ");
    var line := "Tags: " + text;
    StrippedLine("Tags: ", text);
    DiffersAt(line, "Title:", 1);
    DiffersAt(line, "Description:", 0);
    DiffersAt(line, "Cooking Time:", 0);
    DiffersAt(line, "Difficulty:", 0);
    TagsLine(tags);
  }

  /** A line starting with "In" matches none of the header prefixes. */
  lemma InLineIsNoHeader(line: string)
    requires |line| >= 2 && line[0] == 'I' && line[1] == 'n'
    ensures !StartsWith(line, "Title:") && !StartsWith(line, "Description:") && !StartsWith(line, "Cooking Time:")
    ensures !StartsWith(line, "Difficulty:") && !StartsWith(line, "Tags:")
  {
    DiffersAt(line, "Title:", 0);
    DiffersAt(line, "Description:", 0);
    DiffersAt(line, "Cooking Time:", 0);
    DiffersAt(line, "Difficulty:", 0);
    DiffersAt(line, "Tags:", 0);
  }

  lemma IngredientsHeaderStep(st: ParseState)
    ensures Step(st, "Ingredients:") == st.(section := IngredientsSection)
  {
    StripStripped("Ingredients:");
    InLineIsNoHeader("Ingredients:");
  }

  lemma InstructionsHeaderStep(st: ParseState)
    ensures Step(st, "Instructions:") == st.(section := InstructionsSection)
  {
    StripStripped("Instructions:");
    InLineIsNoHeader("Instructions:");
    DiffersAt("Instructions:", "Ingredients:", 2);
  }

  lemma IngredientLineParts(ingredient: RecipeIngredient)
    ensures IngredientLine(ingredient) ==
            "- " + (ingredient.name + ": " + (ingredient.quantity + NotesText(ingredient.notes)))
  {
  }

  /** In the ingredients section an ingredient line appends its ingredient. */
  lemma IngredientStep(st: ParseState, ingredient: RecipeIngredient)
    requires st.section == IngredientsSection && IngredientText(ingredient)
    ensures Step(st, IngredientLine(ingredient)) ==
            st.(data := st.data.(ingredients := st.data.ingredients + [ingredient]))
  {
    var tail := ingredient.quantity + NotesText(ingredient.notes);
    var line := IngredientLine(ingredient);
    QuantityNotes(ingredient);
    IngredientLineParts(ingredient);
    StrippedLine("- ", ingredient.name + ": " + tail);
    DashLineIsNoHeader(line);
    assert StartsWith(line, "-") by {
      assert line[..1] == "-";
    }
    IngredientLineValue(ingredient);
  }

  /** An instruction line ends with its text or with the time's closing parenthesis. */
  lemma InstructionLineEnd(instruction: RecipeInstruction)
    requires InstructionText(instruction) && instruction.stepNumber >= 0
    ensures var line := InstructionLine(instruction);
            line != [] && IsDigit(line[0]) && !IsSpace(line[|line| - 1]) && Strip(line) == line
  {
    var text := instruction.instruction;
    var numeral := IntToString(instruction.stepNumber);
    var rest := text + TimeText(instruction.timeMinutes);
    TextWithTimeEnd(text, instruction.timeMinutes);
    assert InstructionLine(instruction) == numeral + (". " + rest);
    StrippedLine(numeral, ". " + rest);
  }

  /** The text followed by its time part ends with the text's last character or with ')'. */
  lemma TextWithTimeEnd(text: string, minutes: Option<int>)
    requires text != []
    ensures var rest := text + TimeText(minutes);
            rest[|rest| - 1] == (if minutes.None? then text[|text| - 1] else ')')
  {
  }

  /** In the instructions section an instruction line appends its instruction, numbered by the counter. */
  lemma InstructionStep(st: ParseState, instruction: RecipeInstruction)
    requires st.section == InstructionsSection && InstructionText(instruction) && instruction.stepNumber >= 0
    ensures Step(st, InstructionLine(instruction)) ==
            st.(data := st.data.(instructions := st.data.instructions + [instruction.(stepNumber := st.stepNumber)]),
                stepNumber := st.stepNumber + 1)
  {
    var line := InstructionLine(instruction);
    InstructionLineEnd(instruction);
    DigitLineIsNoHeader(line);
    InstructionLineValue(instruction, st.stepNumber);
  }

  // ---------------------------------------------------------------------------
  // Reading whole blocks back

  /** The pass over `lines`, starting from the state `st`. */
  function Run(st: ParseState, lines: seq<string>): ParseState
    decreases |lines|
  {
    if lines == [] then st else Step(Run(st, lines[..|lines| - 1]), lines[|lines| - 1])
  }

  /** The parser's pass over the first `n` lines is the pass over that prefix from the initial state. */
  lemma {:induction false} RunIsParseLines(lines: seq<string>, n: nat)
    requires n <= |lines|
    ensures ParseLines(lines, n) == Run(InitialState, lines[..n])
    decreases n
  {
    if n > 0 {
      RunIsParseLines(lines, n - 1);
      assert lines[..n][..n - 1] == lines[..n - 1];
    }
  }

  /** The pass over two blocks is the pass over the second from where the first left off. */
  lemma {:induction false} RunAppend(st: ParseState, a: seq<string>, b: seq<string>)
    ensures Run(st, a + b) == Run(Run(st, a), b)
    decreases |b|
  {
    if b == [] {
      assert a + b == a;
    } else {
      var n := |b| - 1;
      assert (a + b)[..|a + b| - 1] == a + b[..n];
      RunAppend(st, a, b[..n]);
    }
  }

  lemma RunOne(st: ParseState, line: string)
    ensures Run(st, [line]) == Step(st, line)
  {
    assert [line][..0] == [];
  }

  /** The header lines set the five header fields and leave the section and counter alone. */
  lemma HeadersRun(r: ParsedRecipe)
    requires HeadersWellFormed(r)
    ensures Run(InitialState, HeaderLines(r)) ==
            ParseState(InitialData.(title := r.title, description := r.description, cookingTime := r.cookingTime,
                                    difficulty := r.difficulty, tags := r.tags), NoSection, 1)
  {
    var s0 := InitialState;
    var s1 := s0.(data := s0.data.(title := r.title));
    var s2 := s1.(data := s1.data.(description := r.description));
    var s3 := s2.(data := s2.data.(cookingTime := r.cookingTime));
    var s4 := s3.(data := s3.data.(difficulty := r.difficulty));
    TitleStep(s0, r.title);
    DescriptionStep(s1, r.description);
    CookingTimeStep(s2, r.cookingTime);
    DifficultyStep(s3, r.difficulty);
    TagsStep(s4, r.tags);
    var h := HeaderLines(r);
    RunFive(s0, h[0], h[1], h[2], h[3], h[4]);
  }

  lemma RunFive(st: ParseState, a: string, b: string, c: string, d: string, e: string)
    ensures Run(st, [a, b, c, d, e]) == Step(Step(Step(Step(Step(st, a), b), c), d), e)
  {
    assert [a, b, c, d, e][..4] == [a, b, c, d];
    assert [a, b, c, d][..3] == [a, b, c];
    assert [a, b, c][..2] == [a, b];
    assert [a, b][..1] == [a];
    RunOne(st, a);
    assert Run(st, [a, b]) == Step(Run(st, [a]), b);
    assert Run(st, [a, b, c]) == Step(Run(st, [a, b]), c);
    assert Run(st, [a, b, c, d]) == Step(Run(st, [a, b, c]), d);
    assert Run(st, [a, b, c, d, e]) == Step(Run(st, [a, b, c, d]), e);
  }

  lemma AppendLast<T>(a: seq<T>, b: seq<T>)
    requires b != []
    ensures a + b[..|b| - 1] + [b[|b| - 1]] == a + b
  {
    assert b[..|b| - 1] + [b[|b| - 1]] == b;
  }

  /** In the ingredients section, ingredient lines append their ingredients in order. */
  lemma {:induction false} IngredientsRun(st: ParseState, ingredients: seq<RecipeIngredient>)
    requires st.section == IngredientsSection
    requires forall k :: 0 <= k < |ingredients| ==> IngredientText(ingredients[k])
    ensures Run(st, IngredientLines(ingredients)) ==
            st.(data := st.data.(ingredients := st.data.ingredients + ingredients))
    decreases |ingredients|
  {
    if ingredients == [] {
      assert st.data.ingredients + ingredients == st.data.ingredients;
    } else {
      var n := |ingredients| - 1;
      var lines := IngredientLines(ingredients);
      assert lines[..n] == IngredientLines(ingredients[..n]);
      IngredientsRun(st, ingredients[..n]);
      IngredientStep(Run(st, lines[..n]), ingredients[n]);
      AppendLast(st.data.ingredients, ingredients);
    }
  }

  /**
   * In the instructions section, instruction lines append their instructions
   * in order, renumbered from the counter on.
   */
  lemma {:induction false} InstructionsRun(st: ParseState, instructions: seq<RecipeInstruction>)
    requires st.section == InstructionsSection && st.stepNumber >= 0
    requires forall k :: 0 <= k < |instructions| ==>
               InstructionText(instructions[k]) && instructions[k].stepNumber == st.stepNumber + k
    ensures Run(st, InstructionLines(instructions)) ==
            st.(data := st.data.(instructions := st.data.instructions + instructions),
                stepNumber := st.stepNumber + |instructions|)
    decreases |instructions|
  {
    if instructions == [] {
      assert st.data.instructions + instructions == st.data.instructions;
    } else {
      var n := |instructions| - 1;
      var lines := InstructionLines(instructions);
      assert lines[..n] == InstructionLines(instructions[..n]);
      var before := Run(st, lines[..n]);
      InstructionsRun(st, instructions[..n]);
      assert before.data.instructions == st.data.instructions + instructions[..n];
      assert before.stepNumber == st.stepNumber + n;
      assert Run(st, lines) == Step(before, lines[n]);
      InstructionStep(before, instructions[n]);
      assert instructions[n].(stepNumber := before.stepNumber) == instructions[n];
      AppendLast(st.data.instructions, instructions);
    }
  }

  // ---------------------------------------------------------------------------
  // The round trip

  /** Non-empty text without a line break. */
  predicate OneLine(line: string) {
    line != [] && '\n' !in line
  }

  lemma HeaderLinesOneLine(r: ParsedRecipe)
    requires HeadersWellFormed(r)
    ensures forall line :: line in HeaderLines(r) ==> OneLine(line)
  {
    var h := HeaderLines(r);
    assert '\n' !in IntToString(r.cookingTime) by {
      if '\n' in IntToString(r.cookingTime) {
        IntToStringChars(r.cookingTime, '\n');
      }
    }
    assert '\n' !in TagsText(r.tags) by {
      JoinLacks(r.tags, ", ", '\n');
    }
    PrefixedOneLine("Title: ", r.title, []);
    PrefixedOneLine("Description: ", r.description, []);
    PrefixedOneLine("Cooking Time: ", IntToString(r.cookingTime), " minutes");
    PrefixedOneLine("Difficulty: ", r.difficulty, []);
    PrefixedOneLine("Tags: ", TagsText(r.tags), []);
  }

  /** A prefix, a value and a suffix, none holding a line break, make one line with or without the suffix. */
  lemma PrefixedOneLine(prefix: string, value: string, suffix: string)
    requires prefix != [] && '\n' !in prefix && '\n' !in value && '\n' !in suffix
    ensures OneLine(prefix + value) && OneLine(prefix + value + suffix)
  {
  }

  lemma IngredientLineOneLine(ingredient: RecipeIngredient)
    requires IngredientText(ingredient)
    ensures OneLine(IngredientLine(ingredient))
  {
    IngredientLineParts(ingredient);
  }

  lemma InstructionLineOneLine(instruction: RecipeInstruction)
    requires InstructionText(instruction)
    ensures OneLine(InstructionLine(instruction))
  {
    if '\n' in IntToString(instruction.stepNumber) {
      IntToStringChars(instruction.stepNumber, '\n');
    }
    match instruction.timeMinutes
    case None =>
    case Some(m) =>
      if '\n' in IntToString(m) {
        IntToStringChars(m, '\n');
      }
  }

  lemma EntryLinesOneLine(r: ParsedRecipe)
    requires WellFormed(r)
    ensures forall line :: line in IngredientLines(r.ingredients) ==> OneLine(line)
    ensures forall line :: line in InstructionLines(r.instructions) ==> OneLine(line)
  {
    forall k | 0 <= k < |r.ingredients|
      ensures OneLine(IngredientLine(r.ingredients[k]))
    {
      IngredientLineOneLine(r.ingredients[k]);
    }
    forall k | 0 <= k < |r.instructions|
      ensures OneLine(InstructionLine(r.instructions[k]))
    {
      InstructionLineOneLine(r.instructions[k]);
    }
  }

  /** Every written line is non-empty and holds no line break. */
  lemma RenderLinesOneLine(r: ParsedRecipe)
    requires WellFormed(r)
    ensures forall k :: 0 <= k < |RenderLines(r)| ==> RenderLines(r)[k] != [] && '\n' !in RenderLines(r)[k]
  {
    var lines := RenderLines(r);
    HeaderLinesOneLine(r);
    EntryLinesOneLine(r);
    forall k | 0 <= k < |lines|
      ensures OneLine(lines[k])
    {
      assert lines[k] in lines;
    }
  }

  /** The written text starts with 'T' and ends with a character that is not white space. */
  lemma RenderLinesEnds(r: ParsedRecipe)
    requires WellFormed(r)
    ensures var lines := RenderLines(r);
            var last := lines[|lines| - 1];
            lines[0] != [] && lines[0][0] == 'T' && last != [] && !IsSpace(last[|last| - 1])
  {
    var lines := RenderLines(r);
    var last := lines[|lines| - 1];
    if r.instructions == [] {
      assert last == "Instructions:";
    } else {
      assert last == InstructionLine(r.instructions[|r.instructions| - 1]);
      InstructionLineEnd(r.instructions[|r.instructions| - 1]);
    }
  }

  /** The written text splits back into the written lines. */
  lemma RenderedLines(r: ParsedRecipe)
    requires WellFormed(r)
    ensures Lines(Render(r)) == RenderLines(r)
  {
    RenderLinesOneLine(r);
    RenderLinesEnds(r);
    JoinedLines(RenderLines(r));
  }

  /** Lines joined with line breaks split back into the same lines when the text needs no stripping. */
  lemma JoinedLines(lines: seq<string>)
    requires lines != [] && forall k :: 0 <= k < |lines| ==> lines[k] != [] && '\n' !in lines[k]
    requires !IsSpace(lines[0][0])
    requires var last := lines[|lines| - 1]; !IsSpace(last[|last| - 1])
    ensures Lines(Join(lines, "\n")) == lines
  {
    JoinEnds(lines, "\n");
    StripStripped(Join(lines, "\n"));
    SplitJoin(lines, '\n');
  }

  /** The "Ingredients:" line and the ingredient lines after it. */
  lemma IngredientsBlock(st: ParseState, ingredients: seq<RecipeIngredient>)
    requires forall k :: 0 <= k < |ingredients| ==> IngredientText(ingredients[k])
    ensures Run(st, ["Ingredients:"] + IngredientLines(ingredients)) ==
            st.(data := st.data.(ingredients := st.data.ingredients + ingredients), section := IngredientsSection)
  {
    var inSection := Run(st, ["Ingredients:"]);
    RunOne(st, "Ingredients:");
    IngredientsHeaderStep(st);
    IngredientsRun(inSection, ingredients);
    RunAppend(st, ["Ingredients:"], IngredientLines(ingredients));
  }

  /** The "Instructions:" line and the instruction lines after it. */
  lemma InstructionsBlock(st: ParseState, instructions: seq<RecipeInstruction>)
    requires st.stepNumber >= 0
    requires forall k :: 0 <= k < |instructions| ==>
               InstructionText(instructions[k]) && instructions[k].stepNumber == st.stepNumber + k
    ensures Run(st, ["Instructions:"] + InstructionLines(instructions)) ==
            st.(data := st.data.(instructions := st.data.instructions + instructions),
                section := InstructionsSection, stepNumber := st.stepNumber + |instructions|)
  {
    var inSection := Run(st, ["Instructions:"]);
    RunOne(st, "Instructions:");
    InstructionsHeaderStep(st);
    InstructionsRun(inSection, instructions);
    RunAppend(st, ["Instructions:"], InstructionLines(instructions));
  }

  /** The pass over the header lines and the ingredients block. */
  lemma HeadersAndIngredients(r: ParsedRecipe)
    requires WellFormed(r)
    ensures var st := Run(InitialState, HeaderLines(r) + (["Ingredients:"] + IngredientLines(r.ingredients)));
            && st.section == IngredientsSection && st.stepNumber == 1
            && st.data == r.(instructions := [])
  {
    var h := HeaderLines(r);
    var ingredientBlock := ["Ingredients:"] + IngredientLines(r.ingredients);
    var afterHeaders := Run(InitialState, h);
    HeadersRun(r);
    IngredientsBlock(afterHeaders, r.ingredients);
    RunAppend(InitialState, h, ingredientBlock);
  }

  /** The pass over the written lines rebuilds the record. */
  lemma RenderedPass(r: ParsedRecipe)
    requires WellFormed(r)
    ensures Run(InitialState, RenderLines(r)).data == r
  {
    var front := HeaderLines(r) + (["Ingredients:"] + IngredientLines(r.ingredients));
    var instructionBlock := ["Instructions:"] + InstructionLines(r.instructions);
    HeadersAndIngredients(r);
    InstructionsBlock(Run(InitialState, front), r.instructions);
    RunAppend(InitialState, front, instructionBlock);
  }

  /**
   * Parsing a written record gives the record back: every field, tag,
   * ingredient and instruction survives the text format when it fits it.
   */
  lemma RoundTrip(r: ParsedRecipe)
    requires WellFormed(r)
    ensures Parse(Render(r)) == r
  {
    var lines := RenderLines(r);
    RenderedLines(r);
    RunIsParseLines(lines, |lines|);
    assert lines[..|lines|] == lines;
    RenderedPass(r);
  }
}
