/**
 * `MCPClient.process_query`: the turn loop of the conversation orchestrator.
 *
 * The loop asks the model for a reply; a reply made of one text block ends the
 * query, any other reply is appended as an assistant message and each of its
 * `tool_use` blocks is answered, in order, by one user message carrying the
 * tool's result. Every append is followed by a `log_conversation` dump.
 *
 * `Converse` is the loop as a function of its inputs (the model and the tools
 * are oracles, and `fuel` bounds the number of model calls of the source's
 * `while True`); `McpClient.ProcessQuery` is the loop itself, proved equal to it.
 */
module Orchestrator {
  import opened Wrappers
  import opened Seqs
  import opened Transcript
  import opened Gateway
  import opened Persistence
  import Launch

  const DefaultModelChoice := "claude"

  /** Why `process_query` raised. */
  datatype QueryError =
      /** `call_llm` returned a string; reading `.content` of it raises. */
    | NotAResponse(reply: string)
      /** `call_llm` itself raised. */
    | CallFailed(message: string)
      /** `response.content[0]` of a reply without blocks. */
    | EmptyReply
      /** A Gemini `GenerateContentResponse` has no `content` attribute: reading it raises. */
    | GeminiReplyUnread
      /** `session.call_tool` raised for the `tool_use` block `id`. */
    | ToolFailed(id: string, name: string, message: string)

  datatype Status = Answered | Failed(error: QueryError) | OutOfFuel

  /**
   * How a query ended: `transcript` is `self.messages` at that point,
   * `requests` the provider requests made, `client` the object left in `self.llm`.
   */
  datatype Outcome = Outcome(status: Status, transcript: seq<Message>, requests: seq<LlmRequest>, client: LlmClient)

  /** What the loop is given: the arm the stored model choice selects, the tools, the model and the tool server. */
  datatype Env = Env(
    provider: Provider,
    tools: seq<Tool>,
    llm: (nat, LlmRequest) -> seq<Block>,
    callTool: (string, Json) -> Result<Json, string>)

  /** The tool results of one reply, and the failure that cut them short, if any. */
  datatype ToolRun = ToolRun(results: seq<Message>, failure: Option<QueryError>)

  /** The inner `for content in response.content` loop. */
  function RunTools(blocks: seq<Block>, callTool: (string, Json) -> Result<Json, string>): (run: ToolRun)
    ensures run.failure.Some? ==> run.failure.value.ToolFailed?
  {
    if blocks == [] then ToolRun([], None)
    else if !blocks[0].ToolUseBlock? then RunTools(blocks[1..], callTool)
    else match callTool(blocks[0].name, blocks[0].input)
      case Failure(e) => ToolRun([], Some(ToolFailed(blocks[0].id, blocks[0].name, e)))
      case Success(c) =>
        var rest := RunTools(blocks[1..], callTool);
        ToolRun([ToolResultMessage(blocks[0].id, c)] + rest.results, rest.failure)
  }

  /** What one model reply adds to the transcript. */
  datatype RoundResult =
    | Final(answer: Message)
    | Continue(appended: seq<Message>)
    | Abort(error: QueryError, appended: seq<Message>)

  /** One iteration of the loop after the model replied. */
  function Round(reply: seq<Block>, callTool: (string, Json) -> Result<Json, string>): RoundResult {
    if reply == [] then Abort(EmptyReply, [])
    else if reply[0].TextBlock? && |reply| == 1 then Final(AssistantText(reply[0].text))
    else
      var run := RunTools(reply, callTool);
      var appended := [AssistantBlocks(reply)] + run.results;
      if run.failure.Some? then Abort(run.failure.value, appended) else Continue(appended)
  }

  /** One iteration: either the loop stops with an outcome, or it goes on after appending `appended`. */
  datatype Turn =
    | Stop(outcome: Outcome)
    | Go(request: LlmRequest, appended: seq<Message>, client: LlmClient)

  /** One iteration of `while True` from transcript `msgs`, as the `calls`-th model call. */
  function TurnStep(env: Env, client: LlmClient, msgs: seq<Message>, calls: nat): Turn {
    var (call, client') := CallLlm(env.provider, client, msgs, env.tools);
    match call
    case NotSent(reply) => Stop(Outcome(Failed(NotAResponse(reply)), msgs, [], client'))
    case Raised(e) => Stop(Outcome(Failed(CallFailed(e)), msgs, [], client'))
    case Sent(request) =>
      if request.GeminiRequest? then Stop(Outcome(Failed(GeminiReplyUnread), msgs, [request], client'))
      else match Round(env.llm(calls, request), env.callTool)
      case Final(m) => Stop(Outcome(Answered, msgs + [m], [request], client'))
      case Abort(e, ms) => Stop(Outcome(Failed(e), msgs + ms, [request], client'))
      case Continue(ms) => Go(request, ms, client')
  }

  /** The loop from transcript `msgs`, after `calls` model calls, with `fuel` calls left. */
  function Converse(env: Env, client: LlmClient, msgs: seq<Message>, calls: nat, fuel: nat): Outcome
    decreases fuel
  {
    if fuel == 0 then Outcome(OutOfFuel, msgs, [], client)
    else match TurnStep(env, client, msgs, calls)
      case Stop(o) => o
      case Go(request, ms, client') => Prepend([request], Converse(env, client', msgs + ms, calls + 1, fuel - 1))
  }

  function Prepend(requests: seq<LlmRequest>, o: Outcome): Outcome {
    o.(requests := requests + o.requests)
  }

  /** With fuel left, the loop stops where its turn stops. */
  lemma ConverseStops(env: Env, client: LlmClient, msgs: seq<Message>, calls: nat, fuel: nat)
    requires fuel > 0 && TurnStep(env, client, msgs, calls).Stop?
    ensures Converse(env, client, msgs, calls, fuel) == TurnStep(env, client, msgs, calls).outcome
  {
  }

  /** With fuel left, a turn that goes on records its request and the loop continues from the longer transcript. */
  lemma ConverseGoes(env: Env, client: LlmClient, msgs: seq<Message>, calls: nat, fuel: nat)
    requires calls < fuel && TurnStep(env, client, msgs, calls).Go?
    ensures var t := TurnStep(env, client, msgs, calls);
      Converse(env, client, msgs, calls, fuel - calls)
      == Prepend([t.request], Converse(env, t.client, msgs + t.appended, calls + 1, fuel - (calls + 1)))
  {
  }

  lemma PrependPrepend(a: seq<LlmRequest>, b: seq<LlmRequest>, o: Outcome)
    ensures Prepend(a, Prepend(b, o)) == Prepend(a + b, o)
  {
    assert a + (b + o.requests) == (a + b) + o.requests;
  }

  /** `process_query(query)`: the transcript restarts from the one user message. */
  function ProcessQuerySpec(env: Env, client: LlmClient, query: string, fuel: nat): Outcome {
    Converse(env, client, [UserQuery(query)], 0, fuel)
  }

  // ---------------------------------------------------------------------------
  // The tool-use protocol, as an independent checker of transcripts.
  // ---------------------------------------------------------------------------

  /**
   * One message against the ids of the `tool_use` blocks still waiting for a
   * result: an assistant list opens the ids of its `tool_use` blocks, a user
   * message holding a single `tool_result` must answer the oldest open id, and
   * nothing else may arrive while an id is open. `None` is a violation.
   */
  function Step(m: Message, open: seq<string>): Option<seq<string>> {
    match m.content
    case Items(items) =>
      if m.role == Assistant then
        if open == [] then Some(ItemToolUseIds(items)) else None
      else if |items| == 1 && items[0].value.ToolResultBlock? && open != [] && open[0] == items[0].value.toolUseId then
        Some(open[1..])
      else None
    case _ => if open == [] then Some([]) else None
  }

  /** A transcript against the protocol, from the open ids `open`. */
  function Replay(ms: seq<Message>, open: seq<string>): Option<seq<string>>
    decreases |ms|
  {
    if ms == [] then Some(open)
    else match Step(ms[0], open)
      case None => None
      case Some(next) => Replay(ms[1..], next)
  }

  /** Checking a concatenation is checking its parts one after the other. */
  lemma {:induction false} ReplayAppend(a: seq<Message>, b: seq<Message>, open: seq<string>)
    ensures Replay(a + b, open) == match Replay(a, open) case None => None case Some(next) => Replay(b, next)
    decreases |a|
  {
    if a == [] {
      assert a + b == b;
    } else {
      assert (a + b)[0] == a[0];
      assert (a + b)[1..] == a[1..] + b;
      match Step(a[0], open)
      case None =>
      case Some(next) => ReplayAppend(a[1..], b, next);
    }
  }

  /**
   * The results of one reply, in order: the k-th is the result of the k-th
   * `tool_use` block, under that block's id; the first failing tool stops the run.
   */
  lemma {:induction false} RunToolsShape(blocks: seq<Block>, callTool: (string, Json) -> Result<Json, string>)
    ensures var run := RunTools(blocks, callTool); var uses := ToolUses(blocks);
      && |run.results| <= |uses|
      && (forall k :: 0 <= k < |run.results| ==>
            callTool(uses[k].name, uses[k].input).Success? &&
            run.results[k] == ToolResultMessage(uses[k].id, callTool(uses[k].name, uses[k].input).value))
      && (run.failure.None? <==> |run.results| == |uses|)
      && (run.failure.Some? ==>
            var u := uses[|run.results|];
            callTool(u.name, u.input).Failure? &&
            run.failure.value == ToolFailed(u.id, u.name, callTool(u.name, u.input).error))
  {
    if blocks != [] {
      RunToolsShape(blocks[1..], callTool);
      if blocks[0].ToolUseBlock? {
        assert ToolUses(blocks) == [blocks[0]] + ToolUses(blocks[1..]);
      } else {
        assert ToolUses(blocks) == ToolUses(blocks[1..]);
      }
    }
  }

  /** The results of one reply answer its `tool_use` ids in order; a failure leaves its own id open first. */
  lemma {:induction false} RunToolsReplay(blocks: seq<Block>, callTool: (string, Json) -> Result<Json, string>, tail: seq<string>)
    ensures var run := RunTools(blocks, callTool);
      && (run.failure.None? ==> Replay(run.results, ToolUseIds(blocks) + tail) == Some(tail))
      && (run.failure.Some? ==>
            var r := Replay(run.results, ToolUseIds(blocks) + tail);
            r.Some? && |r.value| > |tail| && r.value[0] == run.failure.value.id)
  {
    if blocks == [] {
      assert ToolUseIds(blocks) + tail == tail;
    } else {
      RunToolsReplay(blocks[1..], callTool, tail);
      var rest := RunTools(blocks[1..], callTool);
      if blocks[0].ToolUseBlock? {
        assert ToolUses(blocks) == [blocks[0]] + ToolUses(blocks[1..]);
        assert ToolUseIds(blocks) == [blocks[0].id] + ToolUseIds(blocks[1..]);
        var open := ToolUseIds(blocks) + tail;
        assert open == [blocks[0].id] + (ToolUseIds(blocks[1..]) + tail);
        match callTool(blocks[0].name, blocks[0].input)
        case Failure(e) =>
          assert RunTools(blocks, callTool) == ToolRun([], Some(ToolFailed(blocks[0].id, blocks[0].name, e)));
          assert Replay([], open) == Some(open);
        case Success(c) =>
          var m := ToolResultMessage(blocks[0].id, c);
          assert RunTools(blocks, callTool) == ToolRun([m] + rest.results, rest.failure);
          assert Step(m, open) == Some(ToolUseIds(blocks[1..]) + tail);
          assert ([m] + rest.results)[0] == m;
          assert ([m] + rest.results)[1..] == rest.results;
          assert Replay([m] + rest.results, open) == Replay(rest.results, ToolUseIds(blocks[1..]) + tail);
      } else {
        assert RunTools(blocks, callTool) == rest;
        assert ToolUses(blocks) == ToolUses(blocks[1..]);
        assert ToolUseIds(blocks) == ToolUseIds(blocks[1..]);
      }
    }
  }

  /** A non-terminal reply grows the transcript by one assistant message and one result per `tool_use` block. */
  lemma RoundGrowth(reply: seq<Block>, callTool: (string, Json) -> Result<Json, string>)
    ensures Round(reply, callTool).Continue? ==>
      var ms := Round(reply, callTool).appended;
      |ms| == 1 + |ToolUses(reply)| && ms[0] == AssistantBlocks(reply) && CountRole(ms, Assistant) == 1
    ensures Round(reply, callTool).Final? <==> |reply| == 1 && reply[0].TextBlock?
    ensures Round(reply, callTool).Final? ==> Round(reply, callTool).answer == AssistantText(reply[0].text)
  {
    var run := RunTools(reply, callTool);
    RunToolsShape(reply, callTool);
    if Round(reply, callTool).Continue? {
      RunToolsUsers(reply, callTool);
      CountRoleAppend([AssistantBlocks(reply)], run.results, Assistant);
    }
  }

  lemma {:induction false} RunToolsUsers(blocks: seq<Block>, callTool: (string, Json) -> Result<Json, string>)
    ensures CountRole(RunTools(blocks, callTool).results, Assistant) == 0
  {
    if blocks != [] {
      RunToolsUsers(blocks[1..], callTool);
      if blocks[0].ToolUseBlock? && callTool(blocks[0].name, blocks[0].input).Success? {
        var rest := RunTools(blocks[1..], callTool);
        var m := ToolResultMessage(blocks[0].id, callTool(blocks[0].name, blocks[0].input).value);
        CountRoleAppend([m], rest.results, Assistant);
        assert CountRole([m], Assistant) == 0 by {
          assert [m][..0] == [];
        }
      }
    }
  }

  /** What a round appends keeps the protocol, and a tool failure leaves the failing id open. */
  lemma RoundReplay(reply: seq<Block>, callTool: (string, Json) -> Result<Json, string>)
    ensures match Round(reply, callTool)
      case Final(m) => Replay([m], []) == Some([])
      case Continue(ms) => Replay(ms, []) == Some([])
      case Abort(e, ms) =>
        if e.ToolFailed? then Replay(ms, []).Some? && Replay(ms, []).value != [] && Replay(ms, []).value[0] == e.id
        else Replay(ms, []) == Some([])
  {
    if reply != [] && !(reply[0].TextBlock? && |reply| == 1) {
      var run := RunTools(reply, callTool);
      var head := AssistantBlocks(reply);
      PlainItemsToolUseIds(reply);
      assert Step(head, []) == Some(ToolUseIds(reply));
      ReplayAppend([head], run.results, []);
      assert Replay([head], []) == Some(ToolUseIds(reply));
      RunToolsReplay(reply, callTool, []);
      assert ToolUseIds(reply) + [] == ToolUseIds(reply);
    }
  }

  /** What one iteration appends keeps the protocol; a tool failure leaves the failing id open first. */
  lemma TurnStepProtocol(env: Env, client: LlmClient, msgs: seq<Message>, calls: nat)
    requires Replay(msgs, []) == Some([])
    ensures var t := TurnStep(env, client, msgs, calls);
      t.Go? ==> Replay(msgs + t.appended, []) == Some([])
    ensures var t := TurnStep(env, client, msgs, calls);
      t.Stop? ==>
        var o := t.outcome; var r := Replay(o.transcript, []);
        && r.Some?
        && (!(o.status.Failed? && o.status.error.ToolFailed?) ==> r == Some([]))
        && (o.status.Failed? && o.status.error.ToolFailed? ==> r.value != [] && r.value[0] == o.status.error.id)
  {
    var (call, client') := CallLlm(env.provider, client, msgs, env.tools);
    if call.Sent? {
      var reply := env.llm(calls, call.request);
      RoundReplay(reply, env.callTool);
      match Round(reply, env.callTool)
      case Final(m) => ReplayAppend(msgs, [m], []);
      case Abort(e, ms) => ReplayAppend(msgs, ms, []);
      case Continue(ms) => ReplayAppend(msgs, ms, []);
    }
  }

  /**
   * Referential integrity at every exit of the loop: every `tool_result` answers
   * the oldest open `tool_use` of the assistant message before it. An answered
   * query leaves no id open; a tool failure leaves exactly its own id first.
   */
  lemma {:induction false} ConverseKeepsProtocol(env: Env, client: LlmClient, msgs: seq<Message>, calls: nat, fuel: nat)
    requires Replay(msgs, []) == Some([])
    ensures var o := Converse(env, client, msgs, calls, fuel); var r := Replay(o.transcript, []);
      && r.Some?
      && (!(o.status.Failed? && o.status.error.ToolFailed?) ==> r == Some([]))
      && (o.status.Failed? && o.status.error.ToolFailed? ==> r.value != [] && r.value[0] == o.status.error.id)
    decreases fuel
  {
    if fuel > 0 {
      TurnStepProtocol(env, client, msgs, calls);
      match TurnStep(env, client, msgs, calls)
      case Stop(o) =>
      case Go(request, ms, client') => ConverseKeepsProtocol(env, client', msgs + ms, calls + 1, fuel - 1);
    }
  }

  /** The request of one iteration is the one `call_llm` built; at most one is made. */
  lemma TurnStepRequests(env: Env, client: LlmClient, msgs: seq<Message>, calls: nat)
    ensures var t := TurnStep(env, client, msgs, calls);
      t.Go? ==> CallLlm(env.provider, client, msgs, env.tools) == (Sent(t.request), t.client)
    ensures var t := TurnStep(env, client, msgs, calls);
      t.Stop? ==> (|t.outcome.requests| <= 1 &&
        (|t.outcome.requests| == 1 ==> CallLlm(env.provider, client, msgs, env.tools).0 == Sent(t.outcome.requests[0])))
  {
  }

  /**
   * An answered outcome of a loop whose first call was number `calls`: its
   * last request was call `calls + |o.requests| - 1`, the model replied to it
   * with a single text block, and the transcript grew past its first `from`
   * messages to end with that text as an assistant message.
   */
  predicate AnswersLastReply(env: Env, calls: nat, o: Outcome, from: nat) {
    o.status.Answered? ==>
      && |o.requests| >= 1
      && |o.transcript| > from
      && var reply := env.llm(calls + |o.requests| - 1, o.requests[|o.requests| - 1]);
         |reply| == 1 && reply[0].TextBlock? && o.transcript[|o.transcript| - 1] == AssistantText(reply[0].text)
  }

  /** A request made before the rest of the loop leaves its answer the reply to its last request. */
  lemma PrependKeepsAnswer(env: Env, calls: nat, request: LlmRequest, o: Outcome, from: nat, from': nat)
    requires from <= from' && AnswersLastReply(env, calls + 1, o, from')
    ensures AnswersLastReply(env, calls, Prepend([request], o), from)
  {
    var o' := Prepend([request], o);
    if o.status.Answered? {
      assert |o'.requests| == 1 + |o.requests|;
      assert o'.requests[|o'.requests| - 1] == o.requests[|o.requests| - 1];
    }
  }

  /** One iteration only appends; a text-only reply stops it with that text as the last, assistant, message. */
  lemma TurnStepAppends(env: Env, client: LlmClient, msgs: seq<Message>, calls: nat)
    ensures var t := TurnStep(env, client, msgs, calls); t.Go? ==> t.appended != []
    ensures var t := TurnStep(env, client, msgs, calls);
      t.Stop? ==>
        var o := t.outcome;
        && msgs <= o.transcript
        && AnswersLastReply(env, calls, o, |msgs|)
  {
    var (call, client') := CallLlm(env.provider, client, msgs, env.tools);
    if call.Sent? {
      RoundGrowth(env.llm(calls, call.request), env.callTool);
      match Round(env.llm(calls, call.request), env.callTool)
      case Final(m) => assert (msgs + [m])[..|msgs|] == msgs;
      case Abort(e, ms) => assert (msgs + ms)[..|msgs|] == msgs;
      case Continue(ms) =>
    }
  }

  /** The loop only appends, and an answered query ends with the text of the model's last reply. */
  lemma {:induction false} ConverseAppends(env: Env, client: LlmClient, msgs: seq<Message>, calls: nat, fuel: nat)
    ensures var o := Converse(env, client, msgs, calls, fuel);
      && msgs <= o.transcript
      && AnswersLastReply(env, calls, o, |msgs|)
    decreases fuel
  {
    if fuel > 0 {
      TurnStepAppends(env, client, msgs, calls);
      match TurnStep(env, client, msgs, calls)
      case Stop(o) =>
      case Go(request, ms, client') =>
        var rest := msgs + ms;
        ConverseAppends(env, client', rest, calls + 1, fuel - 1);
        var o := Converse(env, client', rest, calls + 1, fuel - 1);
        assert Converse(env, client, msgs, calls, fuel) == Prepend([request], o);
        assert msgs <= rest <= o.transcript;
        PrependKeepsAnswer(env, calls, request, o, |msgs|, |rest|);
    }
  }

  /** The model replied but the loop raised before appending anything. */
  predicate ReplyUnread(status: Status) {
    status == Failed(EmptyReply) || status == Failed(GeminiReplyUnread)
  }

  /** One iteration: one request per assistant message appended, but for a reply without blocks. */
  lemma TurnStepCounts(env: Env, client: LlmClient, msgs: seq<Message>, calls: nat)
    ensures var t := TurnStep(env, client, msgs, calls); t.Go? ==> CountRole(t.appended, Assistant) == 1
    ensures var t := TurnStep(env, client, msgs, calls);
      t.Stop? ==>
        CountRole(t.outcome.transcript, Assistant) + (if ReplyUnread(t.outcome.status) then 1 else 0)
          == CountRole(msgs, Assistant) + |t.outcome.requests|
  {
    var (call, client') := CallLlm(env.provider, client, msgs, env.tools);
    if call.Sent? {
      var reply := env.llm(calls, call.request);
      match Round(reply, env.callTool)
      case Final(m) =>
        CountRoleAppend(msgs, [m], Assistant);
        assert [m][..0] == [];
      case Abort(e, ms) =>
        CountRoleAppend(msgs, ms, Assistant);
        if reply != [] {
          var run := RunTools(reply, env.callTool);
          RunToolsUsers(reply, env.callTool);
          CountRoleAppend([AssistantBlocks(reply)], run.results, Assistant);
          assert [AssistantBlocks(reply)][..0] == [];
        }
      case Continue(ms) =>
        RoundGrowth(reply, env.callTool);
    }
  }

  /**
   * Each provider request yields exactly one assistant message, except a reply
   * without blocks, which raises before anything is appended; so after a
   * failure no further model call is made.
   */
  lemma {:induction false} ConverseCountsCalls(env: Env, client: LlmClient, msgs: seq<Message>, calls: nat, fuel: nat)
    ensures var o := Converse(env, client, msgs, calls, fuel);
      CountRole(o.transcript, Assistant) + (if ReplyUnread(o.status) then 1 else 0)
        == CountRole(msgs, Assistant) + |o.requests|
    decreases fuel
  {
    if fuel > 0 {
      TurnStepCounts(env, client, msgs, calls);
      match TurnStep(env, client, msgs, calls)
      case Stop(o) =>
      case Go(request, ms, client') =>
        CountRoleAppend(msgs, ms, Assistant);
        ConverseCountsCalls(env, client', msgs + ms, calls + 1, fuel - 1);
    }
  }

  /**
   * With Gemini chosen, a query makes one request, of the first message's
   * content and the filtered declarations, then raises on reading the reply;
   * the transcript keeps only the query and `self.llm` is left the Gemini client.
   */
  lemma GeminiQueryFails(env: Env, client: LlmClient, msgs: seq<Message>, calls: nat, fuel: nat)
    requires env.provider == GeminiChoice && msgs != [] && fuel > 0
    ensures Converse(env, client, msgs, calls, fuel)
      == Outcome(Failed(GeminiReplyUnread), msgs,
                 [GeminiRequest(GeminiModel, msgs[0].content, GeminiTemperature, Declarations(env.tools))],
                 GeminiClient)
  {
  }

  /** Every request is a Claude request with `tools`, whose messages extend `lo` and are a prefix of `hi`. */
  predicate AllClaudeBetween(requests: seq<LlmRequest>, lo: seq<Message>, hi: seq<Message>, tools: seq<Tool>) {
    forall k :: 0 <= k < |requests| ==>
      requests[k].ClaudeRequest? && lo <= requests[k].messages <= hi && requests[k].tools == tools
  }

  /** With Claude chosen, every request carries the whole transcript as it stood at that call. */
  lemma {:induction false} ClaudeSeesTheTranscript(env: Env, client: LlmClient, msgs: seq<Message>, calls: nat, fuel: nat)
    requires env.provider == ClaudeChoice
    ensures var o := Converse(env, client, msgs, calls, fuel);
      AllClaudeBetween(o.requests, msgs, o.transcript, env.tools)
    decreases fuel
  {
    if fuel > 0 {
      TurnStepAppends(env, client, msgs, calls);
      TurnStepRequests(env, client, msgs, calls);
      match TurnStep(env, client, msgs, calls)
      case Stop(o) =>
      case Go(request, ms, client') =>
        var rest := msgs + ms;
        ClaudeSeesTheTranscript(env, client', rest, calls + 1, fuel - 1);
        ConverseAppends(env, client', rest, calls + 1, fuel - 1);
        var o := Converse(env, client', rest, calls + 1, fuel - 1);
        assert Converse(env, client, msgs, calls, fuel) == Prepend([request], o);
        assert msgs <= rest <= o.transcript;
        assert AllClaudeBetween([request], msgs, o.transcript, env.tools);
        assert AllClaudeBetween(o.requests, msgs, o.transcript, env.tools);
    }
  }

  /** An unknown model choice ends the query at once: no request, nothing appended. */
  lemma UnknownChoiceStops(env: Env, client: LlmClient, msgs: seq<Message>, calls: nat, fuel: nat)
    requires env.provider == OtherChoice
    requires fuel > 0
    ensures Converse(env, client, msgs, calls, fuel)
      == Outcome(Failed(NotAResponse(UnsupportedChoiceReply)), msgs, [], client)
  {
  }

  lemma TurnStepPlain(env: Env, client: LlmClient, msgs: seq<Message>, calls: nat)
    requires AllPlain(msgs)
    ensures var t := TurnStep(env, client, msgs, calls); t.Go? ==> AllPlain(msgs + t.appended)
    ensures var t := TurnStep(env, client, msgs, calls); t.Stop? ==> AllPlain(t.outcome.transcript)
  {
    var (call, client') := CallLlm(env.provider, client, msgs, env.tools);
    if call.Sent? {
      var reply := env.llm(calls, call.request);
      RunToolsShape(reply, env.callTool);
    }
  }

  /** Every transcript the loop builds from plain messages stays plain. */
  lemma {:induction false} ConverseStaysPlain(env: Env, client: LlmClient, msgs: seq<Message>, calls: nat, fuel: nat)
    requires AllPlain(msgs)
    ensures AllPlain(Converse(env, client, msgs, calls, fuel).transcript)
    decreases fuel
  {
    if fuel > 0 {
      TurnStepPlain(env, client, msgs, calls);
      match TurnStep(env, client, msgs, calls)
      case Stop(o) =>
      case Go(request, ms, client') => ConverseStaysPlain(env, client', msgs + ms, calls + 1, fuel - 1);
    }
  }

  /**
   * What a query promises whatever the model and the tools do: the transcript
   * starts with the query alone; every `tool_use` it opens is answered in
   * order, but for the one whose tool raised; an answered query ends with the
   * model's text; and there is one assistant message per model call that
   * produced one.
   */
  lemma ProcessQueryGuarantees(env: Env, client: LlmClient, query: string, fuel: nat)
    ensures var o := ProcessQuerySpec(env, client, query, fuel);
      && |o.transcript| >= 1 && o.transcript[0] == UserQuery(query)
      && AnswersLastReply(env, 0, o, 1)
      && Replay(o.transcript, []).Some?
      && (!(o.status.Failed? && o.status.error.ToolFailed?) ==> Replay(o.transcript, []) == Some([]))
      && CountRole(o.transcript, Assistant) + (if ReplyUnread(o.status) then 1 else 0) == |o.requests|
  {
    var start := [UserQuery(query)];
    ConverseAppends(env, client, start, 0, fuel);
    assert Replay(start, []) == Some([]);
    ConverseKeepsProtocol(env, client, start, 0, fuel);
    assert CountRole(start, Assistant) == 0;
    ConverseCountsCalls(env, client, start, 0, fuel);
  }

  /** Once a Gemini query left the Gemini client in `self.llm`, a Claude query raises before any request. */
  lemma ClaudeQueryAfterGemini(env: Env, query: string, fuel: nat)
    requires env.provider == ClaudeChoice && fuel > 0
    ensures ProcessQuerySpec(env, GeminiClient, query, fuel)
      == Outcome(Failed(CallFailed(NoMessagesAttribute)), [UserQuery(query)], [], GeminiClient)
  {
  }

  /** The conversations dumped while the transcript grew from one message to `ms`: one per appended message. */
  function Snapshots(ms: seq<Message>): (r: seq<seq<Message>>)
    requires |ms| >= 1
    ensures |r| == |ms| - 1
  {
    seq(|ms| - 1, k requires 0 <= k < |ms| - 1 => ms[..k + 2])
  }

  lemma SnapshotsAppend(ms: seq<Message>, m: Message)
    requires |ms| >= 1
    ensures Snapshots(ms + [m]) == Snapshots(ms) + [ms + [m]]
  {
    var l := Snapshots(ms + [m]);
    var r := Snapshots(ms) + [ms + [m]];
    forall k | 0 <= k < |l| ensures l[k] == r[k] {
      if k < |ms| - 1 {
        assert (ms + [m])[..k + 2] == ms[..k + 2];
      } else {
        assert (ms + [m])[..k + 2] == ms + [m];
      }
    }
  }

  /**
   * `MCPClient` of the web backend: the stored model choice and tools, the
   * transcript of the current query, and the provider client in `self.llm`.
   * `requests` records every provider request made and `log` every
   * conversation `log_conversation` dumped, in order.
   */
  class McpClient {
    var modelChoice: string
    var llm: LlmClient
    var tools: seq<Tool>
    var messages: seq<Message>
    var requests: seq<LlmRequest>
    var log: seq<seq<Message>>

    constructor ()
      ensures modelChoice == DefaultModelChoice && llm == AnthropicClient
      ensures tools == [] && messages == [] && requests == [] && log == []
    {
      modelChoice := DefaultModelChoice;
      llm := AnthropicClient;
      tools := [];
      messages := [];
      requests := [];
      log := [];
    }

    /** `set_model`: any string is accepted; dispatch decides later what it means. */
    method SetModel(choice: string) returns (reply: string)
      modifies this`modelChoice
      ensures modelChoice == choice
      ensures reply == "Successfully set model to " + choice
    {
      modelChoice := choice;
      reply := "Successfully set model to " + choice;
    }

    /** `get_model_choice`: the last choice set, `"claude"` before any. */
    method GetModelChoice() returns (choice: string)
      ensures choice == modelChoice
    {
      choice := modelChoice;
    }

    /**
     * `connect_to_server`: a script that is neither `.py` nor `.js` raises
     * before anything changes; otherwise the server's tools become `self.tools`.
     */
    method ConnectToServer(path: string, serverTools: seq<Tool>) returns (r: Result<string, string>)
      modifies this`tools
      ensures r == Launch.ServerCommand(path)
      ensures tools == if r.Success? then serverTools else old(tools)
    {
      r := Launch.ServerCommand(path);
      if r.Success? {
        tools := serverTools;
      }
    }

    /** `log_conversation`: dumps the normalised transcript. */
    method LogConversation()
      modifies this`log
      ensures log == old(log) + [NormalizeTranscript(messages)]
    {
      var conversation := SerializeConversation(messages);
      log := log + [conversation];
    }

    /** Appends one message and logs; over plain messages each dump is the transcript so far. */
    method AppendAndLog(m: Message, ghost before: seq<seq<Message>>)
      requires |messages| >= 1 && AllPlain(messages) && PlainMessage(m)
      requires log == before + Snapshots(messages)
      modifies this`messages, this`log
      ensures messages == old(messages) + [m] && AllPlain(messages)
      ensures log == before + Snapshots(messages)
    {
      SnapshotsAppend(messages, m);
      messages := messages + [m];
      LogConversation();
      NormalizePlainTranscript(messages);
    }

    /** The inner `for content in response.content` loop of one reply. */
    method AnswerToolUses(reply: seq<Block>, callTool: (string, Json) -> Result<Json, string>,
                          ghost before: seq<seq<Message>>) returns (failure: Option<QueryError>)
      requires |messages| >= 1 && AllPlain(messages) && log == before + Snapshots(messages)
      modifies this`messages, this`log
      ensures messages == old(messages) + RunTools(reply, callTool).results
      ensures failure == RunTools(reply, callTool).failure
      ensures AllPlain(messages) && log == before + Snapshots(messages)
    {
      failure := None;
      var i := 0;
      while i < |reply| && failure.None?
        invariant 0 <= i <= |reply|
        invariant |old(messages)| <= |messages| && messages[..|old(messages)|] == old(messages)
        invariant AllPlain(messages) && log == before + Snapshots(messages)
        invariant failure.None? ==>
          var rest := RunTools(reply[i..], callTool);
          RunTools(reply, callTool) == ToolRun(messages[|old(messages)|..] + rest.results, rest.failure)
        invariant failure.Some? ==>
          RunTools(reply, callTool) == ToolRun(messages[|old(messages)|..], failure)
      {
        var block := reply[i];
        assert reply[i..][1..] == reply[i + 1..];
        if block.ToolUseBlock? {
          match callTool(block.name, block.input)
          case Failure(e) =>
            failure := Some(ToolFailed(block.id, block.name, e));
          case Success(content) =>
            ghost var answered := messages[|old(messages)|..];
            AppendAndLog(ToolResultMessage(block.id, content), before);
            assert messages[|old(messages)|..] == answered + [ToolResultMessage(block.id, content)];
        }
        i := i + 1;
      }
      assert messages == messages[..|old(messages)|] + messages[|old(messages)|..];
    }

    /** What one model reply leads to: the answer, or the assistant message and the tool results. */
    method HandleReply(reply: seq<Block>, callTool: (string, Json) -> Result<Json, string>,
                       ghost before: seq<seq<Message>>) returns (stop: Option<Status>)
      requires |messages| >= 1 && AllPlain(messages) && log == before + Snapshots(messages)
      modifies this`messages, this`log
      ensures match Round(reply, callTool)
        case Final(m) => stop == Some(Answered) && messages == old(messages) + [m]
        case Abort(e, ms) => stop == Some(Failed(e)) && messages == old(messages) + ms
        case Continue(ms) => stop == None && messages == old(messages) + ms
      ensures |messages| >= 1 && AllPlain(messages) && log == before + Snapshots(messages)
    {
      if reply == [] {
        stop := Some(Failed(EmptyReply));
      } else if reply[0].TextBlock? && |reply| == 1 {
        AppendAndLog(AssistantText(reply[0].text), before);
        stop := Some(Answered);
      } else {
        ghost var run := RunTools(reply, callTool);
        AppendAndLog(AssistantBlocks(reply), before);
        var failure := AnswerToolUses(reply, callTool, before);
        assert messages == old(messages) + ([AssistantBlocks(reply)] + run.results);
        stop := if failure.Some? then Some(Failed(failure.value)) else None;
      }
    }

    /**
     * One pass of the `while True` body: the `calls`-th model call, to the
     * provider the stored choice selects, and what follows from its reply.
     */
    method RunTurn(model: (nat, LlmRequest) -> seq<Block>, callTool: (string, Json) -> Result<Json, string>,
                   calls: nat, provider: Provider, ghost before: seq<seq<Message>>) returns (stop: Option<Status>)
      requires |messages| >= 1 && AllPlain(messages) && log == before + Snapshots(messages)
      modifies this`messages, this`llm, this`requests, this`log
      ensures var t := TurnStep(Env(provider, tools, model, callTool), old(llm), old(messages), calls);
        && (stop.Some? <==> t.Stop?)
        && (t.Stop? ==> stop.value == t.outcome.status && messages == t.outcome.transcript
                        && llm == t.outcome.client && requests == old(requests) + t.outcome.requests)
        && (t.Go? ==> messages == old(messages) + t.appended && llm == t.client
                      && requests == old(requests) + [t.request])
      ensures |messages| >= 1 && AllPlain(messages) && log == before + Snapshots(messages)
    {
      ghost var t := TurnStep(Env(provider, tools, model, callTool), llm, messages, calls);
      var dispatched := CallLlm(provider, llm, messages, tools);
      llm := dispatched.1;
      match dispatched.0
      case Sent(request) =>
        requests := requests + [request];
        if request.GeminiRequest? {
          stop := Some(Failed(GeminiReplyUnread));
        } else {
          assert t.Go? ==> t.request == request;
          stop := HandleReply(model(calls, request), callTool, before);
        }
      case NotSent(reply) =>
        stop := Some(Failed(NotAResponse(reply)));
      case Raised(e) =>
        stop := Some(Failed(CallFailed(e)));
    }

    /**
     * The `while True` loop from the current transcript, for at most `fuel`
     * model calls to `provider`, `model(k, request)` being the reply to the
     * `k`-th call: it ends in exactly the state `Converse` describes.
     */
    method RunLoop(provider: Provider, model: (nat, LlmRequest) -> seq<Block>,
                   callTool: (string, Json) -> Result<Json, string>, fuel: nat,
                   ghost before: seq<seq<Message>>) returns (status: Status)
      requires |messages| >= 1 && AllPlain(messages) && log == before + Snapshots(messages)
      modifies this`messages, this`llm, this`requests, this`log
      ensures var o := Converse(Env(provider, tools, model, callTool), old(llm), old(messages), 0, fuel);
        && status == o.status && messages == o.transcript && llm == o.client
        && requests == old(requests) + o.requests
      ensures |messages| >= 1 && AllPlain(messages) && log == before + Snapshots(messages)
    {
      ghost var env := Env(provider, tools, model, callTool);
      ghost var spec := Converse(env, llm, messages, 0, fuel);
      status := OutOfFuel;
      var calls: nat := 0;
      var done := false;
      ghost var sent: seq<LlmRequest> := [];
      while !done && calls < fuel
        invariant calls <= fuel
        invariant |messages| >= 1 && AllPlain(messages) && log == before + Snapshots(messages)
        invariant requests == old(requests) + sent
        invariant !done ==> status == OutOfFuel && spec == Prepend(sent, Converse(env, llm, messages, calls, fuel - calls))
        invariant done ==> spec == Outcome(status, messages, sent, llm)
        decreases fuel - calls
      {
        ghost var client, msgs, made := llm, messages, requests;
        ghost var turn := TurnStep(env, client, msgs, calls);
        var stop := RunTurn(model, callTool, calls, provider, before);
        if stop.Some? {
          ghost var made' := turn.outcome.requests;
          assert requests == made + made';
          ConverseStops(env, client, msgs, calls, fuel - calls);
          AppendAssoc(old(requests), sent, made');
          sent := sent + turn.outcome.requests;
          status := stop.value;
          done := true;
        } else {
          ghost var rest := Converse(env, llm, messages, calls + 1, fuel - (calls + 1));
          ConverseGoes(env, client, msgs, calls, fuel);
          PrependPrepend(sent, [turn.request], rest);
          AppendAssoc(old(requests), sent, [turn.request]);
          sent := sent + [turn.request];
        }
        calls := calls + 1;
      }
    }

    /**
     * `process_query`: restarts the transcript from the query and runs the
     * loop with the provider the stored choice selects. The end state is
     * exactly what `ProcessQuerySpec` describes, and each message appended
     * after the query was logged once, together with everything before it.
     */
    method ProcessQuery(query: string, model: (nat, LlmRequest) -> seq<Block>,
                        callTool: (string, Json) -> Result<Json, string>, fuel: nat) returns (status: Status)
      modifies this`messages, this`llm, this`requests, this`log
      ensures var o := ProcessQuerySpec(Env(Dispatch(modelChoice), tools, model, callTool), old(llm), query, fuel);
        && status == o.status && messages == o.transcript && llm == o.client
        && requests == old(requests) + o.requests
      ensures |messages| >= 1 && log == old(log) + Snapshots(messages)
    {
      messages := [UserQuery(query)];
      assert Snapshots(messages) == [];
      var provider := Dispatch(modelChoice);
      status := RunLoop(provider, model, callTool, fuel, old(log));
    }
  }
}
