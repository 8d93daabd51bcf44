/** `usecase/note/generate_ai_note.go`: the Gemini summariser and the use case that
    stores its summary as an AI-generated note. */
module AINote {
  import opened Wrappers
  import opened GoStrings
  import opened GenAi
  import opened GoTime

  /** `note.Note`. */
  datatype Note = Note(id: string, userId: int, bookId: string, content: string,
                       isAIGenerated: bool, createdAt: Time)

  const RateLimitMessage := "AI rate limit reached. Please wait a moment and try again"
  const NoResponseMessage := "no response from AI model"

  const SummaryHead := "You are a helpful reading assistant. The user selected the following text from a book:\n"
  const SummaryTail :=
    "\n\nPlease provide a concise explanation and insight based on this text. \n"
    + "CRITICAL INSTRUCTIONS:\n"
    + "- Provide ONLY the explanation. \n"
    + "- DO NOT use any Markdown formatting (no **, #, or lists).\n"
    + "- DO NOT start with labels like \"Summary:\" or \"Explanation:\".\n"
    + "- Use plain text only.\n"
    + "- Max 150 words."

  /** The summary prompt, with the selected text spliced in verbatim between quotes. */
  function SummaryPrompt(text: string): string {
    SummaryHead + Quoted(text) + SummaryTail
  }

  /** The selected text sits, unescaped and quoted, right after the fixed opening, and
      the prompt determines the text: different selections give different prompts. */
  lemma SummaryPromptEmbedsText(text: string, other: string)
    ensures SummaryPrompt(text)[|SummaryHead|..|SummaryHead| + |text| + 2] == Quoted(text)
    ensures SummaryPrompt(text) == SummaryPrompt(other) ==> text == other
  {
    SpliceReadBack(SummaryHead, Quoted(text), SummaryTail, Quoted(other));
    QuotedInjective(text, other);
  }

  /** What `Summarize` returns for a given upstream answer. */
  function SummaryOutcome(up: Upstream): Result<string, string> {
    match up
    case Failure(e) => Failure(if Contains(e, "429") then RateLimitMessage else e)
    case Success(resp) =>
      match FirstContent(resp)
      case None => Failure(NoResponseMessage)
      case Some(c) => Success(TextOf(c.parts))
  }

  /** Unlike the chat adapter, the summariser treats a missing first content as an error;
      otherwise its summary is exactly the text the adapter would extract. */
  lemma SummaryOutcomeCases(up: Upstream)
    ensures up.Failure? && Contains(up.error, "429") ==> SummaryOutcome(up) == Failure(RateLimitMessage)
    ensures up.Failure? && !Contains(up.error, "429") ==> SummaryOutcome(up) == Failure(up.error)
    ensures up.Success? && FirstContent(up.value).None? ==>
              SummaryOutcome(up) == Failure(NoResponseMessage) && FirstCandidateText(up.value) == ""
    ensures up.Success? && FirstContent(up.value).Some? ==>
              SummaryOutcome(up) == Success(FirstCandidateText(up.value))
  {
  }

  /** `GeminiSummarizer` over the shared model. */
  class GeminiSummarizer {
    const model: GenerativeModel

    constructor (model: GenerativeModel)
      ensures this.model == model
    {
      this.model := model;
    }

    /** Sets 1024 tokens, temperature 0.3 and plain text, then asks for a summary. */
    method Summarize(text: string, generate: (GenerationConfig, string) -> Upstream)
      returns (r: Result<string, string>)
      modifies model
      ensures model.Config() == GenerationConfig(Some(1024), Some(0.3), "text/plain")
      ensures r == SummaryOutcome(generate(model.Config(), SummaryPrompt(text)))
    {
      model.SetMaxOutputTokens(1024);
      model.SetTemperature(0.3);
      model.responseMIMEType := "text/plain";
      var up := generate(model.Config(), SummaryPrompt(text));
      if up.Failure? {
        if Contains(up.error, "429") {
          return Failure(RateLimitMessage);
        }
        return Failure(up.error);
      }
      var resp := up.value;
      if resp.None? || |resp.value.candidates| == 0 || resp.value.candidates[0].None?
         || resp.value.candidates[0].value.content.None? {
        return Failure(NoResponseMessage);
      }
      var parts := resp.value.candidates[0].value.content.value.parts;
      var result := "";
      for i := 0 to |parts|
        invariant result == TextOf(parts[..i])
      {
        assert parts[..i + 1][..i] == parts[..i];
        if parts[i].Text? {
          result := result + parts[i].text;
        }
      }
      assert parts[..|parts|] == parts;
      return Success(result);
    }
  }

  /** The note handed to the repository after a successful summary. */
  function AINoteFor(userID: int, bookID: string, summary: string): (n: Note)
    ensures n.userId == userID && n.bookId == bookID && n.content == summary && n.isAIGenerated
    ensures n.id == "" && n.createdAt.IsZero()
  {
    Note("", userID, bookID, summary, true, ZeroTime)
  }

  /** `GenerateAINoteUseCase.Execute`; `summarize` is the summariser's answer for a text and
      `create` is `repo.Create`. */
  function Execute(userID: int, bookID: string, selectedText: string,
                   summarize: string -> Result<string, string>,
                   create: Note -> Result<Note, string>): (r: Result<Note, string>)
    ensures summarize(selectedText).Failure? ==> r == Failure(summarize(selectedText).error)
    ensures summarize(selectedText).Success? ==> r == create(AINoteFor(userID, bookID, summarize(selectedText).value))
  {
    match summarize(selectedText)
    case Failure(e) => Failure(e)
    case Success(summary) => create(AINoteFor(userID, bookID, summary))
  }

  /** A failed summary is returned as it is and the repository is never consulted: the
      outcome is the same whatever the repository would do. On success the repository
      gets the AI note for the summary and its answer is returned unchanged. */
  lemma ExecuteContract(userID: int, bookID: string, selectedText: string,
                        summarize: string -> Result<string, string>,
                        create: Note -> Result<Note, string>, otherCreate: Note -> Result<Note, string>)
    ensures summarize(selectedText).Failure? ==>
              Execute(userID, bookID, selectedText, summarize, create) == Failure(summarize(selectedText).error)
              && Execute(userID, bookID, selectedText, summarize, otherCreate)
                 == Execute(userID, bookID, selectedText, summarize, create)
    ensures summarize(selectedText).Success? ==>
              Execute(userID, bookID, selectedText, summarize, create)
              == create(AINoteFor(userID, bookID, summarize(selectedText).value))
  {
  }
}
