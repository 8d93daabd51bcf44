/** The older Gemini adapter (directory external_apis/): one text call that the three
    question methods delegate to. It never writes the model's settings and
    dereferences the response without nil checks. */
module LegacyGeminiAdapter {
  import opened Wrappers
  import opened GenAi
  import opened ChatDomain

  /** What a call of this adapter does: return a response, return an error, or panic on
      a nil pointer (a nil response with a nil error, or a nil first candidate). */
  datatype Outcome = Returned(response: ChatResponse<string>) | Failed(error: string) | Panicked

  /** The outcome of `GetChatResponses` for a given upstream answer. */
  function ChatOutcome(up: Upstream, chatID: string): Outcome {
    match up
    case Failure(e) => Failed(e)
    case Success(None) => Panicked
    case Success(Some(resp)) =>
      if |resp.candidates| == 0 then Returned(ChatResponse(chatID, chatID, ""))
      else if resp.candidates[0].None? then Panicked
      else if resp.candidates[0].value.content.None? then Returned(ChatResponse(chatID, chatID, ""))
      else Returned(ChatResponse(chatID, chatID, TextOf(resp.candidates[0].value.content.value.parts)))
  }

  /** Errors pass through unchanged. The call panics exactly on a nil response or a nil
      first candidate; no candidates or a nil content return normally with "". Whenever
      the old adapter returns normally it carries the chat id twice and the same text the
      current adapter's `extractText` reads. */
  lemma ChatOutcomeAgreesWithExtractText(up: Upstream, chatID: string)
    ensures up.Failure? ==> ChatOutcome(up, chatID) == Failed(up.error)
    ensures ChatOutcome(up, chatID).Panicked? <==>
              up.Success? && (up.value.None? || (|up.value.value.candidates| > 0 && up.value.value.candidates[0].None?))
    ensures up.Success? && up.value.Some?
            && (|up.value.value.candidates| == 0
                || (up.value.value.candidates[0].Some? && up.value.value.candidates[0].value.content.None?))
            ==> ChatOutcome(up, chatID) == Returned(ChatResponse(chatID, chatID, ""))
    ensures up.Success? && ChatOutcome(up, chatID).Returned? ==>
              ChatOutcome(up, chatID).response == ChatResponse(chatID, chatID, FirstCandidateText(up.value))
  {
  }

  class GeminiClient {
    const model: GenerativeModel

    constructor (model: GenerativeModel)
      ensures this.model == model
    {
      this.model := model;
    }
  }

  class ChatResponseImpl {
    const geminiClient: GeminiClient

    constructor (geminiClient: GeminiClient)
      ensures this.geminiClient == geminiClient
    {
      this.geminiClient := geminiClient;
    }

    /** Asks the model with whatever settings it currently has; an empty reply is a
        response with an empty message, not an error. */
    method GetChatResponses(chatID: string, prompt: string, generate: (GenerationConfig, string) -> Upstream)
      returns (r: Outcome)
      ensures r == ChatOutcome(generate(geminiClient.model.Config(), prompt), chatID)
    {
      var up := generate(geminiClient.model.Config(), prompt);
      if up.Failure? {
        return Failed(up.error);
      }
      if up.value.None? {
        return Panicked;
      }
      var resp := up.value.value;
      if |resp.candidates| == 0 {
        return Returned(ChatResponse(chatID, chatID, ""));
      }
      if resp.candidates[0].None? {
        return Panicked;
      }
      if resp.candidates[0].value.content.None? {
        return Returned(ChatResponse(chatID, chatID, ""));
      }
      var parts := resp.candidates[0].value.content.value.parts;
      var out := "";
      for i := 0 to |parts|
        invariant out == TextOf(parts[..i])
      {
        assert parts[..i + 1][..i] == parts[..i];
        if parts[i].Text? {
          out := out + parts[i].text;
        }
      }
      assert parts[..|parts|] == parts;
      return Returned(ChatResponse(chatID, chatID, out));
    }

    method GetMultipleChoiceQuestion(chatID: string, prompt: string, generate: (GenerationConfig, string) -> Upstream)
      returns (r: Outcome)
      ensures r == ChatOutcome(generate(geminiClient.model.Config(), prompt), chatID)
    {
      r := GetChatResponses(chatID, prompt, generate);
    }

    method GetTrueFalseQuestion(chatID: string, prompt: string, generate: (GenerationConfig, string) -> Upstream)
      returns (r: Outcome)
      ensures r == ChatOutcome(generate(geminiClient.model.Config(), prompt), chatID)
    {
      r := GetChatResponses(chatID, prompt, generate);
    }

    method GetShortAnswerQuestion(chatID: string, prompt: string, generate: (GenerationConfig, string) -> Upstream)
      returns (r: Outcome)
      ensures r == ChatOutcome(generate(geminiClient.model.Config(), prompt), chatID)
    {
      r := GetChatResponses(chatID, prompt, generate);
    }
  }
}
