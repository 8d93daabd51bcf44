/** `usecase/chat/get_multiple_quiz_usecase.go`: the multiple-choice prompt and its
    hand-off to the chat repository. */
module MultipleQuizUseCase {
  import opened GoStrings
  import opened Strconv

  /** Ten questions per request, at medium difficulty. */
  const NumQuestions := 10
  const Difficulty := "medium"

  const JsonOnlyRule := "- JSON output only."
  const FourOptionsRule := "- 4 options per question."
  const OneCorrectRule := "- 1 correct answer."
  const ConciseRule := "- Keep explanations very concise (1 sentence)."

  const NewLine := "\n"
  const Generate := "Generate "
  const QuestionsFor := " multiple-choice questions for the book "
  const RequirementsHead := ".\n\nRequirements:\n"
  const FormatHead := "\n\nFormat:\n{\n  "
  const TitleKey := "\"book_title\": "
  const DifficultyKey := "\"difficulty\": "
  const FieldSeparator := ",\n  "
  const FormatTail :=
    ",\n  \"quizzes\": [\n    {\n      \"id\": 1,\n      \"question\": \"string\",\n"
    + "      \"options\": [\"string\", \"string\", \"string\", \"string\"],\n"
    + "      \"correct_answer_index\": 0,\n      \"explanation\": \"string\"\n    }\n  ]\n}\n"

  /** The instruction sentence without its final full stop, with the book name quoted verbatim. */
  function Instruction(bookName: string): string {
    Generate + Itoa(NumQuestions) + QuestionsFor + Quoted(bookName)
  }

  /** The requirement lines of the template. */
  function Rules(): string {
    JsonOnlyRule + NewLine + FourOptionsRule + NewLine + OneCorrectRule + NewLine + ConciseRule
  }

  /** The `Sprintf` of the template with the count, the book name (twice) and the difficulty. */
  function MultipleChoicePrompt(bookName: string): string {
    NewLine + Instruction(bookName) + RequirementsHead + Rules() + FormatHead
    + TitleKey + Quoted(bookName) + FieldSeparator + DifficultyKey + Quoted(Difficulty) + FormatTail
  }

  lemma ItoaTen()
    ensures Itoa(NumQuestions) == "10"
  {
    assert NatToDigits(10) == NatToDigits(1) + [DigitChar(0)];
  }

  /** The shape of the template with its pieces left open: each spliced piece occurs in it. */
  lemma TemplateContains(nl: string, instr: string, reqHead: string, rules: string, fmtHead: string,
                         titleKey: string, title: string, sep: string, diffKey: string, diff: string, tail: string)
    ensures Contains(nl + instr + reqHead + rules + fmtHead + titleKey + title + sep + diffKey + diff + tail, instr)
    ensures Contains(nl + instr + reqHead + rules + fmtHead + titleKey + title + sep + diffKey + diff + tail, rules)
    ensures Contains(nl + instr + reqHead + rules + fmtHead + titleKey + title + sep + diffKey + diff + tail,
                     titleKey + title)
    ensures Contains(nl + instr + reqHead + rules + fmtHead + titleKey + title + sep + diffKey + diff + tail,
                     diffKey + diff)
  {
    var s := nl + instr + reqHead + rules + fmtHead + titleKey + title + sep + diffKey + diff + tail;
    assert s == nl + instr + (reqHead + rules + fmtHead + titleKey + title + sep + diffKey + diff + tail);
    ContainsMiddle(nl, instr, reqHead + rules + fmtHead + titleKey + title + sep + diffKey + diff + tail);
    assert s == (nl + instr + reqHead) + rules + (fmtHead + titleKey + title + sep + diffKey + diff + tail);
    ContainsMiddle(nl + instr + reqHead, rules, fmtHead + titleKey + title + sep + diffKey + diff + tail);
    assert s == (nl + instr + reqHead + rules + fmtHead) + (titleKey + title) + (sep + diffKey + diff + tail);
    ContainsMiddle(nl + instr + reqHead + rules + fmtHead, titleKey + title, sep + diffKey + diff + tail);
    assert s == (nl + instr + reqHead + rules + fmtHead + titleKey + title + sep) + (diffKey + diff) + tail;
    ContainsMiddle(nl + instr + reqHead + rules + fmtHead + titleKey + title + sep, diffKey + diff, tail);
  }

  /** Each line of a four-line block occurs in it. */
  lemma LinesContain(l1: string, l2: string, l3: string, l4: string, nl: string)
    ensures Contains(l1 + nl + l2 + nl + l3 + nl + l4, l1)
    ensures Contains(l1 + nl + l2 + nl + l3 + nl + l4, l2)
    ensures Contains(l1 + nl + l2 + nl + l3 + nl + l4, l3)
  {
    var s := l1 + nl + l2 + nl + l3 + nl + l4;
    assert s == [] + l1 + (nl + l2 + nl + l3 + nl + l4);
    ContainsMiddle([], l1, nl + l2 + nl + l3 + nl + l4);
    assert s == (l1 + nl) + l2 + (nl + l3 + nl + l4);
    ContainsMiddle(l1 + nl, l2, nl + l3 + nl + l4);
    assert s == (l1 + nl + l2 + nl) + l3 + (nl + l4);
    ContainsMiddle(l1 + nl + l2 + nl, l3, nl + l4);
  }

  /** The prompt asks for 10 questions about the book, quoted verbatim, demands JSON only,
      four options and one correct answer, and repeats the book name in the `book_title`
      slot and "medium" in the `difficulty` slot of its format example. */
  lemma MultipleChoicePromptStates(bookName: string)
    ensures Contains(MultipleChoicePrompt(bookName), Generate + "10" + QuestionsFor + Quoted(bookName))
    ensures Contains(MultipleChoicePrompt(bookName), TitleKey + Quoted(bookName))
    ensures Contains(MultipleChoicePrompt(bookName), DifficultyKey + Quoted("medium"))
    ensures Contains(MultipleChoicePrompt(bookName), JsonOnlyRule)
    ensures Contains(MultipleChoicePrompt(bookName), FourOptionsRule)
    ensures Contains(MultipleChoicePrompt(bookName), OneCorrectRule)
  {
    var p := MultipleChoicePrompt(bookName);
    ItoaTen();
    TemplateContains(NewLine, Instruction(bookName), RequirementsHead, Rules(), FormatHead,
                     TitleKey, Quoted(bookName), FieldSeparator, DifficultyKey, Quoted(Difficulty), FormatTail);
    LinesContain(JsonOnlyRule, FourOptionsRule, OneCorrectRule, ConciseRule, NewLine);
    ContainsTransitive(p, Rules(), JsonOnlyRule);
    ContainsTransitive(p, Rules(), FourOptionsRule);
    ContainsTransitive(p, Rules(), OneCorrectRule);
  }

  /** Splicing one text into a template at two places determines the text. */
  lemma TwoSpliceInjective(head: string, x: string, y: string, fixed: string, tail: string)
    requires head + x + fixed + x + tail == head + y + fixed + y + tail
    ensures x == y
  {
    var s := head + x + fixed + x + tail;
    assert |x| == |y|;
    assert s == head + x + (fixed + x + tail);
    assert head + y + fixed + y + tail == head + y + (fixed + y + tail);
    SpliceReadBack(head, x, fixed + x + tail, x);
    SpliceReadBack(head, y, fixed + y + tail, y);
  }

  /** The template regrouped around its two title slots. */
  lemma TemplateRegroup(nl: string, g: string, n: string, qf: string, reqHead: string, rules: string,
                        fmtHead: string, titleKey: string, t: string, sep: string, diffKey: string,
                        diff: string, tail: string)
    ensures nl + (g + n + qf + t) + reqHead + rules + fmtHead + titleKey + t + sep + diffKey + diff + tail
         == (nl + g + n + qf) + t + (reqHead + rules + fmtHead + titleKey) + t + (sep + diffKey + diff + tail)
  {
  }

  /** Different book names give different prompts. */
  lemma MultipleChoicePromptInjective(a: string, b: string)
    ensures MultipleChoicePrompt(a) == MultipleChoicePrompt(b) ==> a == b
  {
    if MultipleChoicePrompt(a) == MultipleChoicePrompt(b) {
      TemplateRegroup(NewLine, Generate, Itoa(NumQuestions), QuestionsFor, RequirementsHead, Rules(),
                      FormatHead, TitleKey, Quoted(a), FieldSeparator, DifficultyKey, Quoted(Difficulty), FormatTail);
      TemplateRegroup(NewLine, Generate, Itoa(NumQuestions), QuestionsFor, RequirementsHead, Rules(),
                      FormatHead, TitleKey, Quoted(b), FieldSeparator, DifficultyKey, Quoted(Difficulty), FormatTail);
      TwoSpliceInjective(NewLine + Generate + Itoa(NumQuestions) + QuestionsFor, Quoted(a), Quoted(b),
                         RequirementsHead + Rules() + FormatHead + TitleKey,
                         FieldSeparator + DifficultyKey + Quoted(Difficulty) + FormatTail);
      QuotedInjective(a, b);
    }
  }

  /** `Execute`: the id goes to the repository unchanged with the built prompt, and the
      repository's answer is returned as it is. */
  function Execute<R>(id: string, bookName: string, getMultipleChoiceQuestion: (string, string) -> R): (r: R)
    ensures r == getMultipleChoiceQuestion(id, MultipleChoicePrompt(bookName))
  {
    getMultipleChoiceQuestion(id, MultipleChoicePrompt(bookName))
  }
}
