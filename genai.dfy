/** The parts of the generative-AI SDK the bookstore touches: the shape of a
    `GenerateContentResponse`, the model's generation settings, and the text
    carried by a response. `GenerateContent` itself is a parameter of the
    callers (see `Upstream`). */
module GenAi {
  import opened Wrappers

  /** One part of a candidate's content: `genai.Text`, or any other kind of part. */
  datatype Part = Text(text: string) | NonText

  datatype Content = Content(parts: seq<Part>)

  /** A candidate whose `Content` pointer may be nil. */
  datatype Candidate = Candidate(content: Option<Content>)

  /** A response; each entry of `candidates` is a pointer that may be nil. */
  datatype Response = Response(candidates: seq<Option<Candidate>>)

  /** What `GenerateContent` hands back: an error, or a response pointer that may be nil. */
  type Upstream = Result<Option<Response>, string>

  /** A snapshot of the settings a `GenerativeModel` sends with each request. */
  datatype GenerationConfig = GenerationConfig(
    maxOutputTokens: Option<int>,
    temperature: Option<real>,
    responseMIMEType: string)

  /** `*genai.GenerativeModel`: one shared object whose settings every caller overwrites
      before calling `GenerateContent`; settings a caller does not write stay as the
      previous caller left them. */
  class GenerativeModel {
    var maxOutputTokens: Option<int>
    var temperature: Option<real>
    var responseMIMEType: string

    /** A freshly created model has no settings of its own. */
    constructor ()
      ensures Config() == GenerationConfig(None, None, "")
    {
      maxOutputTokens, temperature, responseMIMEType := None, None, "";
    }

    function Config(): GenerationConfig
      reads this
    {
      GenerationConfig(maxOutputTokens, temperature, responseMIMEType)
    }

    method SetMaxOutputTokens(n: int)
      modifies this
      ensures Config() == old(Config()).(maxOutputTokens := Some(n))
    {
      maxOutputTokens := Some(n);
    }

    method SetTemperature(t: real)
      modifies this
      ensures Config() == old(Config()).(temperature := Some(t))
    {
      temperature := Some(t);
    }
  }

  /** The content of the first candidate, or None when the response is nil, has no
      candidates, or its first candidate or that candidate's content is nil. */
  function FirstContent(resp: Option<Response>): (c: Option<Content>)
    ensures c.Some? <==> resp.Some? && |resp.value.candidates| > 0
                         && resp.value.candidates[0].Some? && resp.value.candidates[0].value.content.Some?
  {
    if resp.None? || |resp.value.candidates| == 0 || resp.value.candidates[0].None? then None
    else resp.value.candidates[0].value.content
  }

  function PartText(p: Part): string {
    if p.Text? then p.text else ""
  }

  /** The text parts of `parts`, in order, concatenated. */
  function TextOf(parts: seq<Part>): string {
    if |parts| == 0 then "" else TextOf(parts[..|parts| - 1]) + PartText(parts[|parts| - 1])
  }

  /** The text of a response as the adapters read it: "" when there is no first content. */
  function FirstCandidateText(resp: Option<Response>): string {
    match FirstContent(resp)
    case None => ""
    case Some(c) => TextOf(c.parts)
  }

  lemma {:induction false} TextOfAppend(a: seq<Part>, b: seq<Part>)
    ensures TextOf(a + b) == TextOf(a) + TextOf(b)
    decreases |b|
  {
    if |b| == 0 {
      assert a + b == a;
    } else {
      assert (a + b)[..|a + b| - 1] == a + b[..|b| - 1];
      TextOfAppend(a, b[..|b| - 1]);
    }
  }

  /** A text part contributes exactly its text, and a non-text part contributes nothing,
      wherever it stands: the text is the in-order concatenation of the text parts. */
  lemma TextOfInsert(a: seq<Part>, p: Part, b: seq<Part>)
    ensures TextOf(a + [p] + b) == TextOf(a) + PartText(p) + TextOf(b)
  {
    TextOfAppend(a + [p], b);
    TextOfAppend(a, [p]);
    assert TextOf([p]) == TextOf([]) + PartText(p);
  }

  /** Only the first candidate is read: later candidates never change the text. */
  lemma FirstCandidateOnly(first: Option<Candidate>, rest: seq<Option<Candidate>>)
    ensures FirstCandidateText(Some(Response([first] + rest))) == FirstCandidateText(Some(Response([first])))
  {
  }
}
