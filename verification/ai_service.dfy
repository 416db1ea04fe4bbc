/** The non-streaming half of the AI generation service: the message list
    sent upstream, the JSON-or-raw normaliser, single-shot generation and the
    "modify an existing component" delegation. */
module AiService {
  import opened Wrappers
  import opened Strings

  /** One entry of the caller's chat history. Besides role and content it may
      carry other fields (ids, timestamps) that must not reach the upstream
      request. */
  datatype HistoryEntry = HistoryEntry(role: string, content: string, extra: map<string, string>)

  /** One message of a chat-completion request. */
  datatype Message = Message(role: string, content: string)

  /** The fields the service reads from a parsed JSON value: `jsxCode` and
      `cssCode` of a model answer, and `choices[0].delta.content` of a stream
      frame. A field that is absent, `null` or not a string is `None`. */
  datatype Payload = Payload(jsxCode: Option<string>, cssCode: Option<string>, deltaContent: Option<string>)

  /** `JSON.parse`, seen through the fields above: `None` when it throws, or
      when the parsed value is `null` (reading a field of it throws as well). */
  type Parser = string -> Option<Payload>

  /** The normalised answer handed back to callers. */
  datatype Generated = Generated(jsxCode: string, cssCode: string)

  /** The chat-completion endpoint: for a message list, the text found at
      `choices[0].message.content`, or a failure (network, non-2xx status,
      malformed body). */
  type Upstream = seq<Message> -> Outcome<string>

  const GenerateFailed := "Failed to generate component"
  const ModifyFailed := "Failed to modify component"

  /** History projected onto role and content, order kept. */
  function Project(history: seq<HistoryEntry>): (r: seq<Message>)
    ensures |r| == |history|
    ensures forall i :: 0 <= i < |history| ==> r[i] == Message(history[i].role, history[i].content)
  {
    seq(|history|, i requires 0 <= i < |history| => Message(history[i].role, history[i].content))
  }

  /** The message list of a generation request: the system prompt, then the
      history, then the user's prompt. */
  function BuildMessages(system: string, history: seq<HistoryEntry>, prompt: string): (r: seq<Message>)
    ensures |r| == |history| + 2
    ensures r[0] == Message("system", system)
    ensures forall i :: 0 <= i < |history| ==> r[i + 1] == Message(history[i].role, history[i].content)
    ensures r[|r| - 1] == Message("user", prompt)
  {
    [Message("system", system)] + Project(history) + [Message("user", prompt)]
  }

  /** Only role and content of the history reach the upstream request: two
      histories that agree on them give the same message list. */
  lemma ExtraHistoryFieldsDropped(system: string, h1: seq<HistoryEntry>, h2: seq<HistoryEntry>, prompt: string)
    requires |h1| == |h2|
    requires forall i :: 0 <= i < |h1| ==> h1[i].role == h2[i].role && h1[i].content == h2[i].content
    ensures BuildMessages(system, h1, prompt) == BuildMessages(system, h2, prompt)
  {
    var m1, m2 := BuildMessages(system, h1, prompt), BuildMessages(system, h2, prompt);
    assert forall k :: 0 <= k < |m1| ==> m1[k] == m2[k] by {
      forall k | 0 <= k < |m1| ensures m1[k] == m2[k] {
        if 0 < k < |m1| - 1 {
          assert m1[k] == Message(h1[k - 1].role, h1[k - 1].content);
        }
      }
    }
  }

  /** The JSON-or-raw normaliser: the parsed `jsxCode` and `cssCode` when they
      are non-empty strings, else the raw text as `jsxCode` and `""` as
      `cssCode`. It never fails. */
  function Normalize(content: string, parse: Parser): (r: Generated)
    ensures r.jsxCode == "" ==> content == ""
    ensures r.jsxCode == content || (parse(content).Some? && parse(content).value.jsxCode == Some(r.jsxCode))
    ensures r.cssCode == "" || (parse(content).Some? && parse(content).value.cssCode == Some(r.cssCode))
    ensures parse(content).None? ==> r == Generated(content, "")
    ensures parse(content).Some? ==> r.cssCode == parse(content).value.cssCode.GetOr("")
  {
    match parse(content)
    case None => Generated(content, "")
    case Some(p) => Generated(OrElse(p.jsxCode, content), OrElse(p.cssCode, ""))
  }

  /** A structured answer with a non-empty `jsxCode` is returned as it is,
      with `cssCode` defaulting to the empty string. */
  lemma NormalizeStructuredAnswer(content: string, parse: Parser)
    requires parse(content).Some?
    requires parse(content).value.jsxCode.Some? && parse(content).value.jsxCode.value != ""
    ensures Normalize(content, parse).jsxCode == parse(content).value.jsxCode.value
    ensures Normalize(content, parse).cssCode == parse(content).value.cssCode.GetOr("")
  {
  }

  /** Unparsable text, and parsed text whose `jsxCode` is missing or empty,
      fall back to the raw text with no CSS. */
  lemma NormalizeFallback(content: string, parse: Parser)
    requires parse(content).None? || parse(content).value.jsxCode.None? || parse(content).value.jsxCode.value == ""
    ensures Normalize(content, parse).jsxCode == content
    ensures parse(content).None? ==> Normalize(content, parse).cssCode == ""
    ensures parse(content).Some? ==> Normalize(content, parse).cssCode == parse(content).value.cssCode.GetOr("")
  {
  }

  /** Single-shot generation: one upstream call on the built message list;
      its text is normalised, and any failure surfaces only as the fixed
      message. */
  function GenerateComponent(system: string, prompt: string, history: seq<HistoryEntry>,
                             upstream: Upstream, parse: Parser): (r: Result<Generated, string>)
    ensures r.Err? <==> upstream(BuildMessages(system, history, prompt)).Failure?
    ensures r.Err? ==> r.error == GenerateFailed
    ensures r.Ok? ==> r.value == Normalize(upstream(BuildMessages(system, history, prompt)).value, parse)
  {
    match upstream(BuildMessages(system, history, prompt))
    case Success(content) => Ok(Normalize(content, parse))
    case Failure(_) => Err(GenerateFailed)
  }

  const ModifyIntro := "Modify this React component based on the following request:\n\nORIGINAL COMPONENT:\n"
  const ModifyMiddle := "\n\nMODIFICATION REQUEST:\n"
  const ModifyOutro := "\n\nPlease return the modified component code. Keep the same structure but apply the requested changes."

  /** The derived prompt of a modification: the original code and the request
      appear in it verbatim, at fixed places after fixed headings. */
  function ModifyPrompt(originalCode: string, request: string): (r: string)
    ensures StartsWith(r, ModifyIntro)
    ensures OccursAt(originalCode, r, |ModifyIntro|)
    ensures OccursAt(ModifyMiddle, r, |ModifyIntro| + |originalCode|)
    ensures OccursAt(request, r, |ModifyIntro| + |originalCode| + |ModifyMiddle|)
    ensures |r| == |ModifyIntro| + |originalCode| + |ModifyMiddle| + |request| + |ModifyOutro|
    ensures OccursAt(ModifyOutro, r, |r| - |ModifyOutro|)
  {
    var r := ModifyIntro + originalCode + ModifyMiddle + request + ModifyOutro;
    assert r[..|ModifyIntro|] == ModifyIntro;
    assert r[|r| - |ModifyOutro|..] == ModifyOutro;
    r
  }

  /** Two modifications with originals of the same length are prompted the
      same way only when original and request both agree: the prompt loses
      nothing of either. */
  lemma ModifyPromptKeepsInputs(o1: string, q1: string, o2: string, q2: string)
    requires |o1| == |o2|
    requires ModifyPrompt(o1, q1) == ModifyPrompt(o2, q2)
    ensures o1 == o2 && q1 == q2
  {
    var p := ModifyPrompt(o1, q1);
    assert |q1| == |q2|;
    assert o1 == p[|ModifyIntro|..|ModifyIntro| + |o1|] == o2;
    var at := |ModifyIntro| + |o1| + |ModifyMiddle|;
    assert q1 == p[at..at + |q1|] == q2;
  }

  /** Modification delegates to generation with the derived prompt and the
      same history; its only failure is the fixed modification message. */
  function ModifyComponent(system: string, originalCode: string, request: string, history: seq<HistoryEntry>,
                           upstream: Upstream, parse: Parser): (r: Result<Generated, string>)
    ensures r.Err? ==> r.error == ModifyFailed
    ensures r.Ok? <==> GenerateComponent(system, ModifyPrompt(originalCode, request), history, upstream, parse).Ok?
    ensures r.Ok? ==> r == GenerateComponent(system, ModifyPrompt(originalCode, request), history, upstream, parse)
  {
    match GenerateComponent(system, ModifyPrompt(originalCode, request), history, upstream, parse)
    case Ok(g) => Ok(g)
    case Err(_) => Err(ModifyFailed)
  }

  /** What the upstream model is asked on a modification: the system prompt,
      the same history, and a last user message holding both the original
      code and the request verbatim. */
  lemma ModifyAsksWithOriginal(system: string, originalCode: string, request: string, history: seq<HistoryEntry>)
    ensures var m := BuildMessages(system, history, ModifyPrompt(originalCode, request));
      && m[|m| - 1].role == "user"
      && OccursAt(originalCode, m[|m| - 1].content, |ModifyIntro|)
      && OccursAt(request, m[|m| - 1].content, |ModifyIntro| + |originalCode| + |ModifyMiddle|)
  {
  }
}
