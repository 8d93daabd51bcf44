/** `usecase/chat/get_chat_response_usecase.go`: the book-assistant prompt and its hand-off
    to the chat repository. */
module ChatResponseUseCase {
  import opened GoStrings

  const Intro := "\nYou are a knowledgeable, concise AI book assistant in a bookstore app.\n\nBook context:\n"
  const TitleLabel := "- Title: "
  const QuestionHead := "\n\nUser question:\n"
  const RulesHead := "\n\nResponse rules:\n"
  const AnswerRule := "- Answer exactly what is asked"
  const LanguageRule := "- Use clear, student-friendly language"
  const NoSpoilersRule := "- Do NOT include spoilers"
  const HighLevelRule := "- If the question requires spoilers, answer at a high level only"
  const UncertainRule := "- If information is uncertain or unavailable, say so and stay general"
  const WordLimitRule := "- Keep the response under 120 words"
  const Closing := "\n\nReturn only the answer.\n"
  const NewLine := "\n"

  /** The six response rules, one per line. */
  function ResponseRules(): string {
    AnswerRule + NewLine + LanguageRule + NewLine + NoSpoilersRule + NewLine
    + HighLevelRule + NewLine + UncertainRule + NewLine + WordLimitRule
  }

  /** The `Sprintf` of the template: the book name after the title label, the user's
      question quoted verbatim. */
  function ChatPrompt(bookName: string, question: string): string {
    Intro + TitleLabel + bookName + QuestionHead + Quoted(question) + RulesHead + ResponseRules() + Closing
  }

  /** The template with its pieces left open. */
  lemma TemplateContains(intro: string, lab: string, b: string, qh: string, qq: string, rh: string,
                         rules: string, closing: string)
    ensures Contains(intro + lab + b + qh + qq + rh + rules + closing, lab + b + qh + qq)
    ensures Contains(intro + lab + b + qh + qq + rh + rules + closing, rules)
  {
    var s := intro + lab + b + qh + qq + rh + rules + closing;
    assert s == intro + (lab + b + qh + qq) + (rh + rules + closing);
    ContainsMiddle(intro, lab + b + qh + qq, rh + rules + closing);
    assert s == (intro + lab + b + qh + qq + rh) + rules + closing;
    ContainsMiddle(intro + lab + b + qh + qq + rh, rules, closing);
  }

  /** The third and the sixth line of a six-line block occur in it. */
  lemma LinesContain(l1: string, l2: string, l3: string, l4: string, l5: string, l6: string, nl: string)
    ensures Contains(l1 + nl + l2 + nl + l3 + nl + l4 + nl + l5 + nl + l6, l3)
    ensures Contains(l1 + nl + l2 + nl + l3 + nl + l4 + nl + l5 + nl + l6, l6)
  {
    var s := l1 + nl + l2 + nl + l3 + nl + l4 + nl + l5 + nl + l6;
    assert s == (l1 + nl + l2 + nl) + l3 + (nl + l4 + nl + l5 + nl + l6);
    ContainsMiddle(l1 + nl + l2 + nl, l3, nl + l4 + nl + l5 + nl + l6);
    assert s == (l1 + nl + l2 + nl + l3 + nl + l4 + nl + l5 + nl) + l6 + [];
    ContainsMiddle(l1 + nl + l2 + nl + l3 + nl + l4 + nl + l5 + nl, l6, []);
  }

  /** The prompt carries the book name right after "- Title: " and the question, quoted,
      under "User question:"; it states the no-spoilers rule and the 120-word limit. */
  lemma ChatPromptStates(bookName: string, question: string)
    ensures Contains(ChatPrompt(bookName, question), TitleLabel + bookName + QuestionHead + Quoted(question))
    ensures Contains(ChatPrompt(bookName, question), Quoted(question))
    ensures Contains(ChatPrompt(bookName, question), NoSpoilersRule)
    ensures Contains(ChatPrompt(bookName, question), WordLimitRule)
  {
    var p := ChatPrompt(bookName, question);
    TemplateContains(Intro, TitleLabel, bookName, QuestionHead, Quoted(question), RulesHead, ResponseRules(), Closing);
    ContainsMiddle(TitleLabel + bookName + QuestionHead, Quoted(question), []);
    assert TitleLabel + bookName + QuestionHead + Quoted(question)
        == (TitleLabel + bookName + QuestionHead) + Quoted(question) + [];
    ContainsTransitive(p, TitleLabel + bookName + QuestionHead + Quoted(question), Quoted(question));
    LinesContain(AnswerRule, LanguageRule, NoSpoilersRule, HighLevelRule, UncertainRule, WordLimitRule, NewLine);
    ContainsTransitive(p, ResponseRules(), NoSpoilersRule);
    ContainsTransitive(p, ResponseRules(), WordLimitRule);
  }

  /** The raw question never reaches the repository on its own: the prompt is strictly longer. */
  lemma ChatPromptIsNotTheQuestion(bookName: string, question: string)
    ensures |ChatPrompt(bookName, question)| > |question| + |bookName|
    ensures ChatPrompt(bookName, question) != question
  {
  }

  /** The template regrouped around the book name and around the question. */
  lemma TemplateRegroup(intro: string, lab: string, b: string, qh: string, qq: string, rh: string,
                        rules: string, closing: string)
    ensures intro + lab + b + qh + qq + rh + rules + closing == (intro + lab) + b + (qh + qq + rh + rules + closing)
    ensures intro + lab + b + qh + qq + rh + rules + closing == (intro + lab + b + qh) + qq + (rh + rules + closing)
  {
  }

  /** For one book the prompt determines the question, and for one question it determines
      the book name. */
  lemma ChatPromptInjective(b1: string, q1: string, b2: string, q2: string)
    requires ChatPrompt(b1, q1) == ChatPrompt(b2, q2)
    ensures b1 == b2 ==> q1 == q2
    ensures q1 == q2 ==> b1 == b2
  {
    TemplateRegroup(Intro, TitleLabel, b1, QuestionHead, Quoted(q1), RulesHead, ResponseRules(), Closing);
    TemplateRegroup(Intro, TitleLabel, b2, QuestionHead, Quoted(q2), RulesHead, ResponseRules(), Closing);
    if b1 == b2 {
      SpliceReadBack(Intro + TitleLabel + b1 + QuestionHead, Quoted(q1), RulesHead + ResponseRules() + Closing, Quoted(q2));
      QuotedInjective(q1, q2);
    }
    if q1 == q2 {
      assert |b1| == |b2|;
      SpliceReadBack(Intro + TitleLabel, b1, QuestionHead + Quoted(q1) + RulesHead + ResponseRules() + Closing, b2);
    }
  }

  /** `Execute`: the prompt parameter is rebound to the template, the chat id goes through
      unchanged, and the repository's answer is returned without post-processing. */
  function Execute<R>(chatID: string, prompt: string, bookName: string,
                      getChatResponses: (string, string) -> R): (r: R)
    ensures r == getChatResponses(chatID, ChatPrompt(bookName, prompt))
  {
    getChatResponses(chatID, ChatPrompt(bookName, prompt))
  }
}
