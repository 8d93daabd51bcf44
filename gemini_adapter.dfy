/** The current Gemini adapter (package `externalapis`, directory externalapis/):
    text extraction, code-fence stripping, quiz decoding and the four repository
    calls that each rewrite the shared model's settings. */
module GeminiAdapter {
  import opened Wrappers
  import opened GoStrings
  import opened GenAi
  import opened ChatDomain

  const FreeTierLimitMessage := "free tier limit reached. Please wait 1 minute before trying again"
  const ParseErrorPrefix := "failed to parse JSON from model: "
  const JsonFence := "```json"
  const Fence := "```"

  /** `extractText`: the text parts of the first candidate, in order. */
  method ExtractText(resp: Option<Response>) returns (message: string)
    ensures message == FirstCandidateText(resp)
    ensures FirstContent(resp).None? ==> message == ""
  {
    if resp.None? || |resp.value.candidates| == 0 || resp.value.candidates[0].None?
       || resp.value.candidates[0].value.content.None? {
      return "";
    }
    var parts := resp.value.candidates[0].value.content.value.parts;
    message := "";
    for i := 0 to |parts|
      invariant message == TextOf(parts[..i])
    {
      assert parts[..i + 1][..i] == parts[..i];
      if parts[i].Text? {
        message := message + parts[i].text;
      }
    }
    assert parts[..|parts|] == parts;
  }

  /** The string transformations `parseQuizzes` applies before decoding, in order. */
  function StripFences(raw: string): (r: string)
    ensures Trimmed(r)
  {
    var s := TrimSpace(raw);
    var s := TrimPrefix(s, JsonFence);
    var s := TrimPrefix(s, Fence);
    var s := TrimSuffix(s, Fence);
    TrimSpace(s)
  }

  /** A body between a "```json" line and a "```" line comes out unchanged. */
  lemma StripJsonFence(body: string)
    requires Trimmed(body)
    ensures StripFences(JsonFence + "\n" + body + "\n" + Fence) == body
  {
    var inner := "\n" + body + "\n";
    var raw := JsonFence + inner + Fence;
    assert raw == JsonFence + "\n" + body + "\n" + Fence;
    FenceWrappedIsTrimmed(JsonFence, inner);
    var s1 := TrimPrefix(raw, JsonFence);
    TrimPrefixOfConcat(JsonFence, inner + Fence);
    assert s1 == inner + Fence;
    NotPrefixAt(s1, Fence, 0);
    var s2 := TrimPrefix(s1, Fence);
    assert s2 == s1;
    var s3 := TrimSuffix(s2, Fence);
    TrimSuffixOfConcat(inner, Fence);
    assert s3 == inner;
    TrimSpaceWrapped("\n", body, "\n");
    assert TrimSpace(s3) == body;
  }

  /** A body between a bare "```" line and a "```" line comes out unchanged. */
  lemma StripBareFence(body: string)
    requires Trimmed(body)
    ensures StripFences(Fence + "\n" + body + "\n" + Fence) == body
  {
    var inner := "\n" + body + "\n";
    var raw := Fence + inner + Fence;
    assert raw == Fence + "\n" + body + "\n" + Fence;
    FenceWrappedIsTrimmed(Fence, inner);
    NotPrefixAt(raw, JsonFence, 3);
    var s1 := TrimPrefix(raw, JsonFence);
    assert s1 == raw;
    var s2 := TrimPrefix(s1, Fence);
    TrimPrefixOfConcat(Fence, inner + Fence);
    assert s2 == inner + Fence;
    var s3 := TrimSuffix(s2, Fence);
    TrimSuffixOfConcat(inner, Fence);
    assert s3 == inner;
    TrimSpaceWrapped("\n", body, "\n");
    assert TrimSpace(s3) == body;
  }

  lemma FenceWrappedIsTrimmed(open: string, inner: string)
    requires open == JsonFence || open == Fence
    ensures TrimSpace(open + inner + Fence) == open + inner + Fence
  {
    var raw := open + inner + Fence;
    assert raw[0] == '`' && raw[|raw| - 1] == '`';
    TrimSpaceOfTrimmed(raw);
  }

  lemma TrimPrefixOfConcat(p: string, t: string)
    ensures TrimPrefix(p + t, p) == t
  {
    assert (p + t)[..|p|] == p;
  }

  lemma TrimSuffixOfConcat(t: string, q: string)
    ensures TrimSuffix(t + q, q) == t
  {
    assert (t + q)[|t + q| - |q|..] == q;
  }

  lemma NotPrefixAt(s: string, p: string, i: nat)
    requires i < |p| && i < |s| && s[i] != p[i]
    ensures !HasPrefix(s, p)
  {
  }

  /** A body without fences and without surrounding white space is left alone. */
  lemma StripUnfenced(body: string)
    requires Trimmed(body) && !HasPrefix(body, Fence) && !HasSuffix(body, Fence)
    ensures StripFences(body) == body
  {
    TrimSpaceOfTrimmed(body);
    JsonFenceExtendsFence(body);
    var s1 := TrimPrefix(body, JsonFence);
    assert s1 == body;
    var s2 := TrimPrefix(s1, Fence);
    assert s2 == body;
    var s3 := TrimSuffix(s2, Fence);
    assert s3 == body;
  }

  /** Text opening with "```json" opens with "```". */
  lemma JsonFenceExtendsFence(s: string)
    ensures HasPrefix(s, JsonFence) ==> HasPrefix(s, Fence)
  {
    if HasPrefix(s, JsonFence) {
      assert s[..3] == s[..7][..3];
    }
  }

  /** `parseQuizzes`: strip the fences, then decode. `decode` stands for `json.Unmarshal`
      into the `{book_title, difficulty, quizzes}` wrapper followed by reading `quizzes`;
      it fails with the decoder's message. */
  function ParseQuizzes<Q>(raw: string, decode: string -> Result<seq<Q>, string>): (r: Result<seq<Q>, string>)
    ensures decode(StripFences(raw)).Failure? <==> r.Failure?
    ensures r.Failure? ==> r.error == ParseErrorPrefix + decode(StripFences(raw)).error
    ensures r.Success? ==> r.value == decode(StripFences(raw)).value
  {
    match decode(StripFences(raw))
    case Failure(e) => Failure(ParseErrorPrefix + e)
    case Success(quizzes) => Success(quizzes)
  }

  /** Fenced and unfenced model output decode to the same result. */
  lemma ParseQuizzesIgnoresFences<Q>(body: string, decode: string -> Result<seq<Q>, string>)
    requires Trimmed(body) && !HasPrefix(body, Fence) && !HasSuffix(body, Fence)
    ensures ParseQuizzes(JsonFence + "\n" + body + "\n" + Fence, decode) == ParseQuizzes(body, decode)
    ensures ParseQuizzes(Fence + "\n" + body + "\n" + Fence, decode) == ParseQuizzes(body, decode)
  {
    StripJsonFence(body);
    StripBareFence(body);
    StripUnfenced(body);
  }

  /** The `result[i] = &quizzes[i]` loop: one entry per decoded quiz, in order. */
  method PointTo<Q(0)>(quizzes: seq<Q>) returns (result: seq<Q>)
    ensures |result| == |quizzes|
    ensures forall i :: 0 <= i < |quizzes| ==> result[i] == quizzes[i]
  {
    var a := new Q[|quizzes|];
    for i := 0 to |quizzes|
      invariant forall j :: 0 <= j < i ==> a[j] == quizzes[j]
    {
      a[i] := quizzes[i];
    }
    result := a[..];
  }

  /** An upstream error as the multiple-choice call reports it. */
  function MultipleChoiceError(e: string): (r: string)
    ensures Contains(e, "429") ==> r == FreeTierLimitMessage
    ensures !Contains(e, "429") ==> r == e
  {
    if Contains(e, "429") then FreeTierLimitMessage else e
  }

  /** What a quiz call returns for a given upstream answer; `mapRateLimit` is true for
      the multiple-choice call only. */
  function QuizOutcome<Q>(up: Upstream, decode: string -> Result<seq<Q>, string>, mapRateLimit: bool): Result<seq<Q>, string> {
    match up
    case Failure(e) => Failure(if mapRateLimit then MultipleChoiceError(e) else e)
    case Success(resp) => ParseQuizzes(FirstCandidateText(resp), decode)
  }

  /** Error mapping of the quiz calls: only the multiple-choice call rewrites a "429"
      error, and no call ever turns an upstream error into a success. */
  lemma QuizOutcomeOnError<Q>(e: string, decode: string -> Result<seq<Q>, string>)
    ensures QuizOutcome(Failure(e), decode, false) == Failure(e)
    ensures Contains(e, "429") ==> QuizOutcome(Failure(e), decode, true) == Failure(FreeTierLimitMessage)
    ensures !Contains(e, "429") ==> QuizOutcome(Failure(e), decode, true) == Failure(e)
  {
  }

  /** A response without text is decoded like the empty string; the outcome is then up
      to the decoder and is not an empty-response error of its own. */
  lemma QuizOutcomeWithoutContent<Q>(resp: Option<Response>, decode: string -> Result<seq<Q>, string>, m: bool)
    requires FirstContent(resp).None?
    ensures QuizOutcome(Success(resp), decode, m) == ParseQuizzes("", decode)
  {
  }

  class GeminiClient {
    const model: GenerativeModel

    constructor (model: GenerativeModel)
      ensures this.model == model
    {
      this.model := model;
    }
  }

  class ChatResponseImpl {
    const geminiClient: GeminiClient

    constructor (geminiClient: GeminiClient)
      ensures this.geminiClient == geminiClient
    {
      this.geminiClient := geminiClient;
    }

    /** Sets 4000 tokens, temperature 0.2 and JSON output, then asks the model. */
    method GetMultipleChoiceQuestion(id: string, prompt: string,
                                     generate: (GenerationConfig, string) -> Upstream,
                                     decode: string -> Result<seq<MultipleQuiz>, string>)
      returns (r: Result<seq<MultipleQuiz>, string>)
      modifies geminiClient.model
      ensures geminiClient.model.Config() == GenerationConfig(Some(4000), Some(0.2), "application/json")
      ensures r == QuizOutcome(generate(geminiClient.model.Config(), prompt), decode, true)
    {
      var model := geminiClient.model;
      model.SetMaxOutputTokens(4000);
      model.SetTemperature(0.2);
      model.responseMIMEType := "application/json";
      var up := generate(model.Config(), prompt);
      if up.Failure? {
        if Contains(up.error, "429") {
          return Failure(FreeTierLimitMessage);
        }
        return Failure(up.error);
      }
      var raw := ExtractText(up.value);
      var quizzes := ParseQuizzes(raw, decode);
      if quizzes.Failure? {
        return Failure(quizzes.error);
      }
      var result := PointTo(quizzes.value);
      assert result == quizzes.value;
      return Success(result);
    }

    /** Sets 2000 tokens and JSON output; the temperature stays as the last call left it. */
    method GetTrueFalseQuestion(id: string, prompt: string,
                                generate: (GenerationConfig, string) -> Upstream,
                                decode: string -> Result<seq<TrueFalse>, string>)
      returns (r: Result<seq<TrueFalse>, string>)
      modifies geminiClient.model
      ensures geminiClient.model.Config()
              == GenerationConfig(Some(2000), old(geminiClient.model.temperature), "application/json")
      ensures r == QuizOutcome(generate(geminiClient.model.Config(), prompt), decode, false)
    {
      var model := geminiClient.model;
      model.SetMaxOutputTokens(2000);
      model.responseMIMEType := "application/json";
      var up := generate(model.Config(), prompt);
      if up.Failure? {
        return Failure(up.error);
      }
      var raw := ExtractText(up.value);
      var quizzes := ParseQuizzes(raw, decode);
      if quizzes.Failure? {
        return Failure(quizzes.error);
      }
      var result := PointTo(quizzes.value);
      assert result == quizzes.value;
      return Success(result);
    }

    /** Sets 2000 tokens and JSON output; the temperature stays as the last call left it. */
    method GetShortAnswerQuestion(id: string, prompt: string,
                                  generate: (GenerationConfig, string) -> Upstream,
                                  decode: string -> Result<seq<ShortAnswer>, string>)
      returns (r: Result<seq<ShortAnswer>, string>)
      modifies geminiClient.model
      ensures geminiClient.model.Config()
              == GenerationConfig(Some(2000), old(geminiClient.model.temperature), "application/json")
      ensures r == QuizOutcome(generate(geminiClient.model.Config(), prompt), decode, false)
    {
      var model := geminiClient.model;
      model.SetMaxOutputTokens(2000);
      model.responseMIMEType := "application/json";
      var up := generate(model.Config(), prompt);
      if up.Failure? {
        return Failure(up.error);
      }
      var raw := ExtractText(up.value);
      var quizzes := ParseQuizzes(raw, decode);
      if quizzes.Failure? {
        return Failure(quizzes.error);
      }
      var result := PointTo(quizzes.value);
      assert result == quizzes.value;
      return Success(result);
    }

    /** Sets 1000 tokens and plain text; the reply carries the chat id twice and the
        extracted text, which may be empty. */
    method GetChatResponses(chatID: int, prompt: string,
                            generate: (GenerationConfig, string) -> Upstream)
      returns (r: Result<ChatResponse<int>, string>)
      modifies geminiClient.model
      ensures geminiClient.model.Config()
              == GenerationConfig(Some(1000), old(geminiClient.model.temperature), "text/plain")
      ensures generate(geminiClient.model.Config(), prompt).Failure? ==>
                r == Failure(generate(geminiClient.model.Config(), prompt).error)
      ensures generate(geminiClient.model.Config(), prompt).Success? ==>
                r == Success(ChatResponse(chatID, chatID,
                               FirstCandidateText(generate(geminiClient.model.Config(), prompt).value)))
    {
      var model := geminiClient.model;
      model.SetMaxOutputTokens(1000);
      model.responseMIMEType := "text/plain";
      var up := generate(model.Config(), prompt);
      if up.Failure? {
        return Failure(up.error);
      }
      var message := ExtractText(up.value);
      return Success(ChatResponse(chatID, chatID, message));
    }
  }

  /** The settings a call sends depend on the calls before it: a true/false call made
      after a multiple-choice call inherits its temperature of 0.2. */
  method TemperatureCarriesOver(impl: ChatResponseImpl, id: string, prompt: string,
                                generate: (GenerationConfig, string) -> Upstream,
                                decodeMultiple: string -> Result<seq<MultipleQuiz>, string>,
                                decodeTrueFalse: string -> Result<seq<TrueFalse>, string>)
    returns (r: Result<seq<TrueFalse>, string>)
    modifies impl.geminiClient.model
    ensures impl.geminiClient.model.Config() == GenerationConfig(Some(2000), Some(0.2), "application/json")
    ensures r == QuizOutcome(generate(GenerationConfig(Some(2000), Some(0.2), "application/json"), prompt),
                             decodeTrueFalse, false)
  {
    var _ := impl.GetMultipleChoiceQuestion(id, prompt, generate, decodeMultiple);
    r := impl.GetTrueFalseQuestion(id, prompt, generate, decodeTrueFalse);
  }
}
