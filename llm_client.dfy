/** The OpenRouter chat client of the TypeScript variant
    (src/lib/llm-client.ts): `callAgent` shapes one chat request and reads the
    first choice back, `callAgentJson` adds a JSON instruction to the system
    prompt and cleans the reply before `JSON.parse`. The OpenAI client itself
    is a parameter: a function from the request to a completion or an error. */
module LlmClient {
  import opened Results
  import opened Json

  /** A JavaScript `Error`, by its message. */
  datatype Error = Error(message: string)

  /** `LLMParams`; `temperature` and `model` are optional. */
  datatype LlmParams = LlmParams(systemPrompt: string, userPrompt: string, temperature: Option<Tenths>, model: Option<string>)

  datatype Message = Message(role: string, content: string)

  /** What `client.chat.completions.create` receives. */
  datatype ChatRequest = ChatRequest(model: string, messages: seq<Message>, temperature: Tenths)

  /** The part of a completion that is read: each choice's message content, if any. */
  datatype Completion = Completion(choices: seq<Option<string>>)

  /** The remote model: a request yields a completion or a thrown error. */
  type Client = ChatRequest -> Result<Completion, Error>

  const DefaultModel := "google/gemini-2.0-flash-exp:free"
  const DefaultTemperature: Tenths := 7
  const JsonInstruction := "\n\nIMPORTANT: You must output ONLY valid JSON. Do not add markdown blocks."
  const CallFailed := "Failed to get response from Agent"
  const NotJson := "AI did not return valid JSON"

  /** `params.model || DefaultModel`: the empty string is falsy too. */
  function ModelOr(model: Option<string>): string {
    if model.Some? && model.value != "" then model.value else DefaultModel
  }

  /** `params.temperature || 0.7`: a temperature of 0 is falsy too. */
  function TemperatureOr(temperature: Option<Tenths>): Tenths {
    if temperature.Some? && temperature.value != 0 then temperature.value else DefaultTemperature
  }

  function RequestFor(params: LlmParams): ChatRequest {
    ChatRequest(ModelOr(params.model),
                [Message("system", params.systemPrompt), Message("user", params.userPrompt)],
                TemperatureOr(params.temperature))
  }

  /** `completion.choices[0]?.message?.content || ""`. */
  function FirstContent(c: Completion): string {
    if |c.choices| > 0 && c.choices[0].Some? then c.choices[0].value else ""
  }

  /** `callAgent`: any client error is replaced by one fixed error. */
  function CallAgent(params: LlmParams, client: Client): (r: Result<string, Error>)
    ensures r.Failure? <==> client(RequestFor(params)).Failure?
    ensures r.Failure? ==> r.error == Error(CallFailed)
    ensures r.Success? ==> r.value == FirstContent(client(RequestFor(params)).value)
  {
    match client(RequestFor(params))
    case Failure(_) => Failure(Error(CallFailed))
    case Success(c) => Success(FirstContent(c))
  }

  /** The request is sent with the default model and temperature unless the
      caller gives truthy ones, and with exactly two messages: system, then user. */
  lemma RequestDefaults(params: LlmParams)
    ensures RequestFor(params).messages == [Message("system", params.systemPrompt), Message("user", params.userPrompt)]
    ensures params.model.None? || params.model == Some("") ==> RequestFor(params).model == DefaultModel
    ensures params.model.Some? && params.model.value != "" ==> RequestFor(params).model == params.model.value
    ensures params.temperature.None? || params.temperature == Some(0) ==> RequestFor(params).temperature == DefaultTemperature
    ensures params.temperature.Some? && params.temperature.value > 0 ==> RequestFor(params).temperature == params.temperature.value
  {
  }

  /** A completion without choices, or whose first choice has no content,
      reads as the empty reply. */
  lemma MissingContentIsEmpty(c: Completion)
    requires |c.choices| == 0 || c.choices[0].None?
    ensures FirstContent(c) == ""
  {
  }

  // --------------------------------------------------------- reply cleaning

  /** `pat` occurs in `s` at position `k`. */
  predicate MatchAt(s: string, pat: string, k: int) {
    0 <= k && k + |pat| <= |s| && s[k..k + |pat|] == pat
  }

  const Fence := "```"
  const JsonFence := "```json"

  /** `s.replace(/pat/g, '')`: occurrences are removed left to right, without overlap. */
  function RemoveAll(s: string, pat: string): (r: string)
    requires pat != ""
    ensures |r| <= |s|
    decreases |s|
  {
    if |s| < |pat| then s
    else if MatchAt(s, pat, 0) then RemoveAll(s[|pat|..], pat)
    else [s[0]] + RemoveAll(s[1..], pat)
  }

  /** A string in which `pat` does not occur is left as it is. */
  lemma {:induction false} RemoveAbsent(s: string, pat: string)
    requires pat != ""
    requires forall k :: !MatchAt(s, pat, k)
    ensures RemoveAll(s, pat) == s
    decreases |s|
  {
    if |s| >= |pat| {
      assert !MatchAt(s, pat, 0);
      forall k ensures !MatchAt(s[1..], pat, k) {
        if MatchAt(s[1..], pat, k) {
          assert s[1..][k..k + |pat|] == s[k + 1..k + 1 + |pat|];
          assert MatchAt(s, pat, k + 1);
        }
      }
      RemoveAbsent(s[1..], pat);
      assert [s[0]] + s[1..] == s;
    }
  }

  /** The first character survives when it cannot begin a fence. */
  lemma KeepsLead(t: string)
    requires |t| > 0 && t[0] != '`'
    ensures |RemoveAll(t, Fence)| > 0 && RemoveAll(t, Fence)[0] == t[0]
  {
    if |t| >= |Fence| {
      assert t[..3][0] != Fence[0];
      assert !MatchAt(t, Fence, 0);
    }
  }

  /** After removing every fence no fence is left, although removal joins
      the text on both sides of each one. */
  lemma {:induction false} FencesGone(s: string)
    ensures forall k :: !MatchAt(RemoveAll(s, Fence), Fence, k)
    decreases |s|
  {
    var r := RemoveAll(s, Fence);
    if |s| < |Fence| {
    } else if MatchAt(s, Fence, 0) {
      FencesGone(s[3..]);
    } else {
      var t := s[1..];
      var rest := RemoveAll(t, Fence);
      FencesGone(t);
      assert r == [s[0]] + rest;
      assert s[..3] != Fence;
      forall k ensures !MatchAt(r, Fence, k) {
        if k < 0 || k + 3 > |r| {
        } else if k > 0 {
          assert r[k..k + 3] == rest[k - 1..k + 2];
          assert !MatchAt(rest, Fence, k - 1);
        } else if s[0] != '`' {
          assert r[k..k + 3][0] == s[0];
        } else if t[0] != '`' {
          KeepsLead(t);
          assert r[k..k + 3][1] == t[0];
        } else {
          assert t[1] != '`' by {
            assert s[..3] == [s[0], t[0], t[1]];
          }
          if |t| >= |Fence| {
            assert t[..3][1] != Fence[1];
            assert !MatchAt(t, Fence, 0);
            assert rest == [t[0]] + RemoveAll(t[1..], Fence);
            KeepsLead(t[1..]);
          } else {
            assert rest == t;
          }
          assert r[k..k + 3][2] == t[1];
        }
      }
    }
  }

  /** What `String.prototype.trim` removes: white space and line terminators. */
  predicate JsSpace(c: char) {
    c == '\t' || c == '\n' || c == '\U{B}' || c == '\U{C}' || c == '\r' || c == ' '
    || c == '\U{A0}' || c == '\U{1680}' || '\U{2000}' <= c <= '\U{200A}'
    || c == '\U{2028}' || c == '\U{2029}' || c == '\U{202F}' || c == '\U{205F}'
    || c == '\U{3000}' || c == '\U{FEFF}'
  }

  function TrimStart(s: string): (r: string)
    ensures |r| <= |s| && r == s[|s| - |r|..]
    ensures r == [] || !JsSpace(r[0])
    ensures forall i :: 0 <= i < |s| - |r| ==> JsSpace(s[i])
  {
    if |s| > 0 && JsSpace(s[0]) then TrimStart(s[1..]) else s
  }

  function TrimEnd(s: string): (r: string)
    ensures |r| <= |s| && r == s[..|r|]
    ensures r == [] || !JsSpace(r[|r| - 1])
    ensures forall i :: |r| <= i < |s| ==> JsSpace(s[i])
  {
    if |s| > 0 && JsSpace(s[|s| - 1]) then TrimEnd(s[..|s| - 1]) else s
  }

  /** `s.trim()`. */
  function Trim(s: string): string {
    TrimEnd(TrimStart(s))
  }

  /** A slice of a text without fences has none either. */
  lemma SliceHasNoFence(s: string, a: nat, b: nat)
    requires a <= b <= |s|
    requires forall k :: !MatchAt(s, Fence, k)
    ensures forall k :: !MatchAt(s[a..b], Fence, k)
  {
    forall k ensures !MatchAt(s[a..b], Fence, k) {
      if 0 <= k && k + 3 <= b - a {
        assert !MatchAt(s, Fence, a + k);
        var u, v := s[a..b][k..k + 3], s[a + k..a + k + 3];
        forall i | 0 <= i < 3 ensures u[i] == v[i] {
          assert s[a..b][k + i] == s[a + k + i];
        }
        assert u == v;
      }
    }
  }

  /** The text handed to `JSON.parse`: every "```json", then every "```",
      removed, and the outer white space trimmed. */
  function Clean(raw: string): (r: string)
    ensures forall k :: !MatchAt(r, Fence, k)
    ensures r == [] || (!JsSpace(r[0]) && !JsSpace(r[|r| - 1]))
  {
    var unfenced := RemoveAll(RemoveAll(raw, JsonFence), Fence);
    FencesGone(RemoveAll(raw, JsonFence));
    var front := TrimStart(unfenced);
    SliceHasNoFence(unfenced, |unfenced| - |front|, |unfenced|);
    assert front == unfenced[|unfenced| - |front|..|unfenced|];
    var r := TrimEnd(front);
    SliceHasNoFence(front, 0, |r|);
    assert r == front[0..|r|];
    r
  }

  /** Cleaning a cleaned reply changes nothing. */
  lemma CleanIdempotent(raw: string)
    ensures Clean(Clean(raw)) == Clean(raw)
  {
    var c := Clean(raw);
    forall k ensures !MatchAt(c, JsonFence, k) {
      if 0 <= k && k + 7 <= |c| {
        assert c[k..k + 3] == c[k..k + 7][..3];
        assert !MatchAt(c, Fence, k);
      }
    }
    RemoveAbsent(c, JsonFence);
    RemoveAbsent(c, Fence);
  }

  /** The parameters `callAgentJson` hands to `callAgent`. */
  function JsonParams(params: LlmParams): LlmParams {
    params.(systemPrompt := params.systemPrompt + JsonInstruction, model := Some(ModelOr(params.model)))
  }

  /** JSON mode changes only the system message of the request. */
  lemma JsonModeRequest(params: LlmParams)
    ensures RequestFor(JsonParams(params)).messages[0] == Message("system", params.systemPrompt + JsonInstruction)
    ensures RequestFor(JsonParams(params)) == RequestFor(params).(messages := [Message("system", params.systemPrompt + JsonInstruction)] + RequestFor(params).messages[1..])
  {
  }

  /** `callAgentJson`: there is no fallback value; a reply that does not
      decode is an error. */
  function CallAgentJson(params: LlmParams, client: Client, parse: Parser): (r: Result<Json, Error>)
    ensures r.Success? <==> CallAgent(JsonParams(params), client).Success? && parse(Clean(CallAgent(JsonParams(params), client).value)).Some?
    ensures r.Success? ==> r.value == parse(Clean(CallAgent(JsonParams(params), client).value)).value
    ensures r.Failure? && CallAgent(JsonParams(params), client).Success? ==> r.error == Error(NotJson)
    ensures r.Failure? && CallAgent(JsonParams(params), client).Failure? ==> r.error == Error(CallFailed)
  {
    var raw :- CallAgent(JsonParams(params), client);
    match parse(Clean(raw))
    case None => Failure(Error(NotJson))
    case Some(v) => Success(v)
  }

  /** A reply made only of fences and white space, or an empty reply, is
      rejected as not JSON: the empty text is not a JSON text. */
  lemma BlankReplyIsNotJson(params: LlmParams, client: Client, parse: Parser)
    requires FollowsRfc8259(parse)
    requires CallAgent(JsonParams(params), client).Success?
    requires Clean(CallAgent(JsonParams(params), client).value) == ""
    ensures CallAgentJson(params, client, parse) == Failure(Error(NotJson))
  {
  }
}
