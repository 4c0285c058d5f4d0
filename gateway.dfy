/**
 * `MCPClient.call_llm`: the model gateway. It reads the stored model choice,
 * normalises it with `lower().strip()` and builds the request for the chosen
 * provider. The provider call itself is an oracle supplied by the caller.
 */
module Gateway {
  import opened Text
  import opened Transcript

  const ClaudeModel := "claude-3-5-sonnet-20241022"
  const ClaudeMaxTokens := 3500
  const GeminiModel := "gemini-2.5-pro-exp-03-25"
  const GeminiTemperature := 0
  /** What `call_llm` returns for a model choice it does not know. */
  const UnsupportedChoiceReply := "error with call_llm() function."
  /** `genai.Client` has no `messages` attribute. */
  const NoMessagesAttribute := "'Client' object has no attribute 'messages'"
  const IndexOutOfRange := "list index out of range"

  /** The object held in `self.llm`: the Anthropic client, until a Gemini call replaces it. */
  datatype LlmClient = AnthropicClient | GeminiClient

  /** A Gemini function declaration built from an MCP tool. */
  datatype FunctionDeclaration = FunctionDeclaration(name: string, description: string, parameters: seq<(string, Json)>)

  /** What reaches a provider. */
  datatype LlmRequest =
    | ClaudeRequest(model: string, maxTokens: nat, messages: seq<Message>, tools: seq<Tool>)
      /** `contents` is sent in its Python string form. */
    | GeminiRequest(model: string, contents: Content, temperature: int, declarations: seq<FunctionDeclaration>)

  /** The outcome of `call_llm` before any reply is read. */
  datatype LlmCall =
    | Sent(request: LlmRequest)
      /** `call_llm` returned this string instead of a provider response. */
    | NotSent(reply: string)
      /** `call_llm` raised with this message. */
    | Raised(message: string)

  /** The two schema keys Gemini does not accept. */
  predicate DroppedKey(k: string) {
    k == "additionalProperties" || k == "$schema"
  }

  /** `{k: v for k, v in schema.items() if k not in ["additionalProperties", "$schema"]}` */
  function FilterSchema(schema: seq<(string, Json)>): (r: seq<(string, Json)>)
    ensures forall p :: p in r <==> p in schema && !DroppedKey(p.0)
    ensures |r| <= |schema|
  {
    if schema == [] then []
    else (if DroppedKey(schema[0].0) then [] else [schema[0]]) + FilterSchema(schema[1..])
  }

  /** The filter works entry by entry, so it keeps the order of the entries it keeps. */
  lemma {:induction false} FilterSchemaAppend(a: seq<(string, Json)>, b: seq<(string, Json)>)
    ensures FilterSchema(a + b) == FilterSchema(a) + FilterSchema(b)
  {
    if a == [] {
      assert a + b == b;
    } else {
      assert (a + b)[1..] == a[1..] + b;
      FilterSchemaAppend(a[1..], b);
    }
  }

  /** A schema without the two keys passes unchanged. */
  lemma {:induction false} FilterSchemaKeeps(schema: seq<(string, Json)>)
    requires forall k :: 0 <= k < |schema| ==> !DroppedKey(schema[k].0)
    ensures FilterSchema(schema) == schema
  {
    if schema != [] {
      FilterSchemaKeeps(schema[1..]);
    }
  }

  /** Filtering twice is filtering once. */
  lemma FilterSchemaIdempotent(schema: seq<(string, Json)>)
    ensures FilterSchema(FilterSchema(schema)) == FilterSchema(schema)
  {
    var r := FilterSchema(schema);
    forall k | 0 <= k < |r| ensures !DroppedKey(r[k].0) {
      assert r[k] in r;
    }
    FilterSchemaKeeps(r);
  }

  function Declaration(tool: Tool): FunctionDeclaration {
    FunctionDeclaration(tool.name, tool.description, FilterSchema(tool.inputSchema))
  }

  function Declarations(tools: seq<Tool>): (ds: seq<FunctionDeclaration>)
    ensures |ds| == |tools|
    ensures forall k :: 0 <= k < |tools| ==> ds[k] == Declaration(tools[k])
  {
    seq(|tools|, k requires 0 <= k < |tools| => Declaration(tools[k]))
  }

  /** `choice.lower().strip()` */
  function NormalizeChoice(choice: string): string {
    Strip(Lower(choice))
  }

  /** The arm of `match self.model_choice.lower().strip()` a stored choice selects. */
  datatype Provider = ClaudeChoice | GeminiChoice | OtherChoice

  function Dispatch(choice: string): (p: Provider)
    ensures p == ClaudeChoice <==> NormalizeChoice(choice) == "claude"
    ensures p == GeminiChoice <==> NormalizeChoice(choice) == "gemini"
  {
    match NormalizeChoice(choice)
    case "claude" => ClaudeChoice
    case "gemini" => GeminiChoice
    case _ => OtherChoice
  }

  /**
   * `call_llm`: the request built for the selected arm, and the client
   * object `self.llm` holds afterwards.
   */
  function CallLlm(provider: Provider, client: LlmClient, messages: seq<Message>, tools: seq<Tool>): (r: (LlmCall, LlmClient))
    ensures r.0.Sent? && r.0.request.ClaudeRequest? <==> provider == ClaudeChoice && client == AnthropicClient
    ensures r.0.Sent? && r.0.request.GeminiRequest? <==> provider == GeminiChoice && messages != []
    ensures r.0.NotSent? <==> provider == OtherChoice
    ensures r.0.NotSent? ==> r.0.reply == UnsupportedChoiceReply
    ensures r.1 == if provider == GeminiChoice then GeminiClient else client
    ensures r.0.Sent? && r.0.request.ClaudeRequest? ==>
      r.0.request.messages == messages && r.0.request.tools == tools
    ensures r.0.Sent? && r.0.request.GeminiRequest? ==>
      r.0.request.contents == messages[0].content && r.0.request.declarations == Declarations(tools)
  {
    match provider
    case ClaudeChoice =>
      if client == AnthropicClient then (Sent(ClaudeRequest(ClaudeModel, ClaudeMaxTokens, messages, tools)), client)
      else (Raised(NoMessagesAttribute), client)
    case GeminiChoice =>
      if messages == [] then (Raised(IndexOutOfRange), GeminiClient)
      else (Sent(GeminiRequest(GeminiModel, messages[0].content, GeminiTemperature, Declarations(tools))), GeminiClient)
    case OtherChoice => (NotSent(UnsupportedChoiceReply), client)
  }

  /** Gemini receives the first message's content only: the rest of the transcript does not matter. */
  lemma GeminiSeesFirstMessageOnly(client: LlmClient, a: seq<Message>, b: seq<Message>, tools: seq<Tool>)
    requires a != [] && b != [] && a[0] == b[0]
    ensures CallLlm(GeminiChoice, client, a, tools) == CallLlm(GeminiChoice, client, b, tools)
  {
  }

  /** Once `self.llm` holds the Gemini client, choosing Claude raises instead of reaching a provider. */
  lemma ClaudeAfterGeminiRaises(messages: seq<Message>, tools: seq<Tool>)
    ensures CallLlm(ClaudeChoice, GeminiClient, messages, tools).0 == Raised(NoMessagesAttribute)
  {
  }
}
