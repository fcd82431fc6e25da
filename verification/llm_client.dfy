/** The shared LLM client conventions: API-key resolution, the shape of a chat
    request, cleaning of the reply text, and the JSON variant. The chat service and
    the JSON decoder are parameters. */
module LlmClient {
  import opened Base
  import opened Text
  import opened Json

  const DefaultModel := "gpt-4-turbo-preview"
  const Fence := "```"
  const JsonObjectFormat := "json_object"

  datatype Message = Message(role: string, content: string)

  /** `responseFormat` is the `type` of the `response_format` argument, sent only when given. */
  datatype ChatRequest = ChatRequest(model: string, messages: seq<Message>, temperature: real, responseFormat: Option<string>)

  /** What the chat-completion service gives back: the first choice's content, which
      may be null, or an exception. */
  datatype ChatReply = Replied(content: Option<string>) | Raised(message: string)

  /** A JSON decoder: the decoded value, or `None` when the text is not JSON. */
  type Decoder = string -> Option<Json>

  /** `api_key or os.getenv("OPENAI_API_KEY")`, failing when both are unset or empty. */
  function ResolveApiKey(apiKey: Option<string>, env: Option<string>): (r: Result<string>)
    ensures r.Ok? <==> HasText(apiKey) || HasText(env)
    ensures HasText(apiKey) ==> r == Ok(apiKey.value)
    ensures !HasText(apiKey) && HasText(env) ==> r == Ok(env.value)
  {
    match OrText(apiKey, env)
    case Some(k) => if |k| > 0 then Ok(k) else Err(Invalid("OpenAI API key is required"))
    case None => Err(Invalid("OpenAI API key is required"))
  }

  /** A constructed `BaseLLMClient`: its resolved key and the model it calls. */
  datatype Client = Client(apiKey: string, model: string)

  /** `BaseLLMClient.__init__(api_key, model)`, which raises when no key resolves. */
  function NewClient(apiKey: Option<string>, env: Option<string>, model: string): (r: Result<Client>)
    ensures r.Ok? <==> HasText(apiKey) || HasText(env)
    ensures r.Ok? ==> r.value.model == model && |r.value.apiKey| > 0
    ensures r.Ok? && HasText(apiKey) ==> r.value.apiKey == apiKey.value
  {
    var key :- ResolveApiKey(apiKey, env);
    Ok(Client(key, model))
  }

  /** The request `make_llm_call` sends: a system message, then the user message. */
  function Request(model: string, system: string, user: string, responseFormat: Option<string>, temperature: real): (r: ChatRequest)
    ensures r.messages == [Message("system", system), Message("user", user)]
    ensures r.responseFormat == responseFormat && r.model == model && r.temperature == temperature
  {
    ChatRequest(model, [Message("system", system), Message("user", user)], temperature, responseFormat)
  }

  /** `s.split("```", 2)[-1].rsplit("```", 1)[0].strip()` for a string that starts with
      a fence: the text after the second fence (or after the first when there is only
      one), cut at its last fence. */
  function StripFences(s: string): string
    requires StartsWith(s, Fence)
  {
    var rest := s[3..];
    var i := Find(rest, Fence, 0);
    var tail := if i < 0 then rest else rest[i + 3..];
    var j := RFind(tail, Fence);
    Strip(if j < 0 then tail else tail[..j])
  }

  /** The reply text `make_llm_call` returns for raw message content. */
  function CleanContent(raw: string): (r: string)
    ensures !StartsWith(Strip(raw), Fence) ==> r == Strip(raw)
  {
    var c := Strip(raw);
    if StartsWith(c, Fence) then StripFences(c) else c
  }

  /** `make_llm_call`: the cleaned content, or the exception re-raised. Null content
      fails on `.strip()`. */
  function MakeLlmCall(chat: ChatRequest -> ChatReply, model: string, system: string, user: string,
                       responseFormat: Option<string>, temperature: real): (r: Result<string>)
    ensures var reply := chat(Request(model, system, user, responseFormat, temperature));
      (r.Ok? <==> reply.Replied? && reply.content.Some?)
      && (r.Ok? ==> r.value == CleanContent(reply.content.value))
  {
    match chat(Request(model, system, user, responseFormat, temperature))
    case Raised(m) => Err(Invalid(m))
    case Replied(None) => Err(Invalid("'NoneType' object has no attribute 'strip'"))
    case Replied(Some(c)) => Ok(CleanContent(c))
  }

  /** `make_json_llm_call`: always asks for a JSON object; text that does not decode is
      a ValueError. */
  function MakeJsonLlmCall(chat: ChatRequest -> ChatReply, decode: Decoder, model: string, system: string,
                           user: string, temperature: real): (r: Result<Json>)
    ensures var reply := chat(Request(model, system, user, Some(JsonObjectFormat), temperature));
      r.Ok? <==> (reply.Replied? && reply.content.Some? && decode(CleanContent(reply.content.value)).Some?)
    ensures var reply := chat(Request(model, system, user, Some(JsonObjectFormat), temperature));
      r.Ok? ==> Some(r.value) == decode(CleanContent(reply.content.value))
  {
    var content :- MakeLlmCall(chat, model, system, user, Some(JsonObjectFormat), temperature);
    match decode(content)
    case Some(v) => Ok(v)
    case None => Err(Invalid("Invalid JSON response from LLM"))
  }

  /* ---------------------------------------------------------------- properties */

  /** A reply wrapped in a complete fence pair, such as "```json\n{...}\n```", cleans
      to the empty string: the text between the fences is discarded. */
  lemma FullyFencedReplyIsEmpty(inner: string)
    requires !Contains(inner, Fence)
    requires |inner| == 0 || inner[|inner| - 1] != '`'
    ensures CleanContent(Fence + inner + Fence) == ""
  {
    var s := Fence + inner + Fence;
    StripFixed(s);
    assert s[..3] == Fence;
    var rest := s[3..];
    assert rest == inner + Fence;
    FirstFenceAfter(inner);
    assert rest[|inner| + 3..] == "";
  }

  /** The first fence in `inner + Fence` is the appended one. */
  lemma FirstFenceAfter(inner: string)
    requires !Contains(inner, Fence)
    requires |inner| == 0 || inner[|inner| - 1] != '`'
    ensures Find(inner + Fence, Fence, 0) == |inner|
  {
    var rest := inner + Fence;
    assert rest[|inner|..|inner| + 3] == Fence;
    assert OccursAt(rest, Fence, |inner|);
    forall k | 0 <= k < |inner|
      ensures !OccursAt(rest, Fence, k)
    {
      NoFenceAt(inner, k);
    }
    var r := Find(rest, Fence, 0);
    assert r == -1 || r >= |inner|;
    assert r != -1 && r <= |inner|;
  }

  /** No fence starts inside `inner`. */
  lemma NoFenceAt(inner: string, k: int)
    requires !Contains(inner, Fence)
    requires |inner| == 0 || inner[|inner| - 1] != '`'
    requires 0 <= k < |inner|
    ensures !OccursAt(inner + Fence, Fence, k)
  {
    var rest := inner + Fence;
    if k + 3 <= |inner| {
      assert rest[k..k + 3] == inner[k..k + 3];
      ContainsWitnessIfOccurs(inner, k);
    } else {
      var d := |inner| - 1 - k;
      assert rest[k..k + 3][d] == inner[|inner| - 1];
      assert Fence[d] == '`';
    }
  }

  lemma ContainsWitnessIfOccurs(s: string, k: int)
    requires 0 <= k && k + 3 <= |s|
    ensures s[k..k + 3] == Fence ==> Contains(s, Fence)
  {
    if s[k..k + 3] == Fence {
      ContainsWitness(s, Fence, k);
    }
  }

  /** A reply with an opening fence and no closing one keeps its language tag. */
  lemma UnclosedFenceKeepsTag(inner: string)
    requires !Contains(inner, Fence)
    requires |inner| > 0 && !IsSpace(inner[|inner| - 1])
    ensures CleanContent(Fence + inner) == Strip(inner)
  {
    var s := Fence + inner;
    StripFixed(s);
    assert s[..3] == Fence;
    assert s[3..] == inner;
  }
}
