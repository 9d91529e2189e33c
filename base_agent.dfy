/** The Python base agent: its fields, the fallback system prompt, the shape
    of the chat request `call_ai` sends and how it picks the reply text out of
    the response; and the reply handling every role agent repeats: cut the
    text from the first `{` to the last `}`, decode it, and fall back to the
    role's default object when that fails. */
module BaseAgent {
  import opened Results
  import opened Json
  import opened Python

  /** The files an agent can open: the text of each file that exists. */
  type Files = string -> Option<string>

  /** The dict an agent's `execute` receives. */
  type Context = map<string, Json>

  /** The dict every `execute` returns. */
  datatype AgentResult = AgentResult(agent: string, role: string, output: Json, status: string)

  const Completed := "completed"

  /** The role's prompt file under `ai/prompts/`. */
  function PromptPath(role: string): (r: string)
    ensures |r| == |role| + 22
    ensures r[..11] == "ai/prompts/" && r[11..11 + |role|] == role && r[11 + |role|..] == "_prompt.txt"
  {
    "ai/prompts/" + role + "_prompt.txt"
  }

  function DefaultSystemPrompt(name: string): string {
    "You are a " + name + ". Perform your role professionally."
  }

  /** `load_system_prompt`: the stripped file text, or the default prompt when
      the file does not exist. */
  function LoadSystemPrompt(name: string, role: string, files: Files): string {
    match files(PromptPath(role))
    case Some(text) => Strip(text)
    case None => DefaultSystemPrompt(name)
  }

  /** An agent instance; its fields are fixed by `__init__`. */
  class Agent {
    const name: string
    const role: string
    const systemPrompt: string
    const model: string

    constructor (name: string, role: string, preferredModel: string, files: Files)
      ensures this.name == name && this.role == role && this.model == preferredModel
      ensures files(PromptPath(role)).None? ==> systemPrompt == DefaultSystemPrompt(name)
      ensures files(PromptPath(role)).Some? ==> systemPrompt == Strip(files(PromptPath(role)).value)
    {
      this.name := name;
      this.role := role;
      this.systemPrompt := LoadSystemPrompt(name, role, files);
      this.model := preferredModel;
    }
  }

  datatype ChatMessage = ChatMessage(role: string, content: string)

  /** The arguments of `AIService.generate`. */
  datatype AiRequest = AiRequest(messages: seq<ChatMessage>, model: string, temperature: Tenths)

  /** `model or self.model`: an override is used only when it is a non-empty string. */
  function ChooseModel(override: Option<string>, preferred: string): string {
    if override.Some? && override.value != "" then override.value else preferred
  }

  /** The request `call_ai` sends. */
  function CallAiRequest(a: Agent, userPrompt: string, override: Option<string>, temperature: Tenths): (req: AiRequest)
    ensures |req.messages| == 2
    ensures req.messages[0] == ChatMessage("system", a.systemPrompt)
    ensures req.messages[1] == ChatMessage("user", userPrompt)
    ensures override.Some? && override.value != "" ==> req.model == override.value
    ensures override.None? || override.value == "" ==> req.model == a.model
    ensures req.temperature == temperature
  {
    AiRequest([ChatMessage("system", a.systemPrompt), ChatMessage("user", userPrompt)],
              ChooseModel(override, a.model), temperature)
  }

  /** What `call_ai` returns for a decoded API response: `""` when the response
      is falsy or has no `choices`, else `response['choices'][0]['message']['content']`,
      whose subscripts may raise. */
  function ExtractContent(response: Json): (r: Result<Json, Exception>)
    ensures !Truthy(response) ==> r == Success(JStr(""))
    ensures response.JObj? && Lookup(response.fields, "choices").None? ==> r == Success(JStr(""))
    ensures Truthy(response) && In("choices", response) == Success(false) ==> r == Success(JStr(""))
    ensures FirstChoiceContent(response).Some? ==> r == Success(FirstChoiceContent(response).value)
    ensures r.Failure? <==>
      Truthy(response) && In("choices", response) != Success(false) && FirstChoiceContent(response).None?
  {
    if !Truthy(response) then Success(JStr(""))
    else
      var has :- In("choices", response);
      if !has then Success(JStr(""))
      else
        var choices :- GetItem(response, Name("choices"));
        var first :- GetItem(choices, Index(0));
        var message :- GetItem(first, Name("message"));
        GetItem(message, Name("content"))
  }

  /** The content of the first choice's message, read through dicts and a
      list the way the API's JSON lays it out; `None` when that path does not
      exist. */
  function FirstChoiceContent(response: Json): Option<Json> {
    if !response.JObj? then None
    else
      match Lookup(response.fields, "choices")
      case Some(JArr(items)) =>
        if |items| > 0 && items[0].JObj? then
          match Lookup(items[0].fields, "message")
          case Some(JObj(mfs)) => Lookup(mfs, "content")
          case _ => None
        else None
      case _ => None
  }

  /** A response whose last `choices` binding lists a first message with a
      content field yields that content, whatever else the response holds. */
  lemma FirstChoiceIsReply(other: seq<Field>, c: Json, extra: seq<Field>, rest: seq<Json>)
    ensures ExtractContent(JObj(other + [Field("choices", JArr([JObj(extra + [Field("message", JObj([Field("content", c)]))])] + rest))]))
         == Success(c)
  {
    var message := JObj([Field("content", c)]);
    var first := JObj(extra + [Field("message", message)]);
    var response := JObj(other + [Field("choices", JArr([first] + rest))]);
    assert Lookup(response.fields, "choices") == Some(JArr([first] + rest));
    assert Lookup(first.fields, "message") == Some(message);
    assert Lookup(message.fields, "content") == Some(c);
  }

  /** The response `AIService.generate` returns in place of raising when the
      HTTP call fails. */
  function ErrorResponse(error: string): Json {
    JObj([Field("error", JStr(error)),
          Field("choices", JArr([JObj([Field("message", JObj([Field("content", JStr(ErrorContent))]))])]))])
  }

  const ErrorContent := "Error generating content"


  // ------------------------------------------------ reply handling of the roles

  /** `response[response.find('{') : response.rfind('}') + 1]`. */
  function Candidate(reply: string): string {
    Slice(reply, Find(reply, '{'), RFind(reply, '}') + 1)
  }

  /** Whether the reply holds a `{` with a `}` at or after it. */
  predicate Braced(reply: string) {
    0 <= Find(reply, '{') <= RFind(reply, '}')
  }

  /** The candidate runs from the first `{` through the last `}` when there is
      such a pair; otherwise Python's slice rules (a start of -1 counts from the
      end) leave only `""` or `"}"`. */
  lemma {:induction false} CandidateSpan(reply: string)
    ensures Braced(reply) ==>
      var i, j := Find(reply, '{'), RFind(reply, '}');
      Candidate(reply) == reply[i..j + 1] && Candidate(reply)[0] == '{' && Candidate(reply)[j - i] == '}'
    ensures !Braced(reply) ==> Candidate(reply) == "" || Candidate(reply) == "}"
  {
    var i, j, n := Find(reply, '{'), RFind(reply, '}'), |reply|;
    if i == -1 && j >= 0 {
      assert SliceBound(i, n) == n - 1;
      if j == n - 1 {
        assert Candidate(reply) == reply[n - 1..n];
      }
    }
  }

  /** What the `try` block yields: `Some` of the decoded candidate, or `None`
      where it raises (a reply that is not a string has no `find`, and the
      decoder may reject the text). */
  function ParseReply(content: Json, parse: Parser): Option<Json> {
    if content.JStr? then parse(Candidate(content.s)) else None
  }

  /** A reply without a `{`, without a `}`, or whose last `}` comes before its
      first `{` never decodes: its candidate is not a JSON text. */
  lemma UnbracedFallsBack(reply: string, parse: Parser)
    requires FollowsRfc8259(parse)
    requires !Braced(reply)
    ensures ParseReply(JStr(reply), parse) == None
  {
    CandidateSpan(reply);
  }

  /** A failed HTTP call reaches the role as the text "Error generating
      content". */
  lemma ErrorResponseContent(error: string)
    ensures ExtractContent(ErrorResponse(error)) == Success(JStr(ErrorContent))
  {
    var resp := ErrorResponse(error);
    var message := JObj([Field("content", JStr(ErrorContent))]);
    var first := JObj([Field("message", message)]);
    var choices := JArr([first]);
    assert Lookup(resp.fields, "choices") == Some(choices);
    assert GetItem(resp, Name("choices")) == Success(choices);
    assert GetItem(first, Name("message")) == Success(message);
    assert GetItem(message, Name("content")) == Success(JStr(ErrorContent));
  }

  /** That text holds no `{`, so a failed HTTP call always takes the fallback. */
  lemma TransportFailureFallsBack(error: string, parse: Parser)
    requires FollowsRfc8259(parse)
    ensures ExtractContent(ErrorResponse(error)) == Success(JStr(ErrorContent))
    ensures ParseReply(JStr(ErrorContent), parse) == None
  {
    ErrorResponseContent(error);
    ErrorContentUnbraced();
    UnbracedFallsBack(ErrorContent, parse);
  }

  lemma ErrorContentUnbraced()
    ensures !Braced(ErrorContent)
  {
    assert '{' !in ErrorContent;
  }

  /** Whatever decodes is an object, since the candidate begins with `{`. */
  lemma ParsedIsObject(content: Json, parse: Parser)
    requires FollowsRfc8259(parse)
    requires ParseReply(content, parse).Some?
    ensures ParseReply(content, parse).value.JObj?
  {
    if content.JStr? {
      CandidateSpan(content.s);
    }
  }

  /** The decoded reply, or the role's default when decoding fails. The default
      is built inside the `except` block, so building it may itself raise. */
  function ParseOrFallback(content: Json, parse: Parser, fallback: Result<Json, Exception>): (r: Result<Json, Exception>)
    ensures ParseReply(content, parse).Some? ==> r == Success(ParseReply(content, parse).value)
    ensures ParseReply(content, parse).None? ==> r == fallback
  {
    match ParseReply(content, parse)
    case Some(v) => Success(v)
    case None => fallback
  }

  /** The `log_activity` line after parsing, `len(output.get(key, []))`, which
      sits outside the `try` and raises for an output that is not a dict or a
      value without a length. */
  function LogCount(output: Json, key: string): (r: Result<nat, Exception>)
    ensures r.Success? <==> output.JObj? && Len(Lookup(output.fields, key).GetOr(JArr([]))).Success?
  {
    var v :- DictGet(output, key, JArr([]));
    Len(v)
  }
}
