/**
 * The command-line chat client: one round of tool use per query, and the
 * interactive loop around it.
 *
 * `process_query` makes one request with the tools, walks the blocks of that
 * first reply, and for each `tool_use` block calls the tool and makes one
 * follow-up request without tools. The assistant messages it appends all
 * share one list, `assistant_message_content`: a `SharedAssistant` entry of
 * the context stands for that list, and is read with the list's contents at
 * the moment the context is sent.
 */
module CliClient {
  import opened Wrappers
  import opened Seqs
  import opened Text
  import opened Transcript
  import opened PyRepr
  import Launch
  import Orchestrator

  const InitialModel := "claude-3-7-sonnet-20250219"
  const InitialMaxTokens := 3000
  const FollowUpModel := "claude-3-5-sonnet-20241022"
  const FollowUpMaxTokens := 2000

  /** The arguments of one `messages.create` call; follow-ups pass no `tools`. */
  datatype Request = Request(model: string, maxTokens: nat, messages: seq<Message>, tools: Option<seq<Tool>>)

  /** An element of `message_context`: a message of its own, or the shared assistant list. */
  datatype Entry = Fixed(m: Message) | SharedAssistant

  /** The messages the context holds while the shared list holds `shared`. */
  function Resolve(ctx: seq<Entry>, shared: seq<Block>): (ms: seq<Message>)
    ensures |ms| == |ctx|
    ensures forall k :: 0 <= k < |ctx| ==> ms[k] == if ctx[k].SharedAssistant? then AssistantBlocks(shared) else ctx[k].m
  {
    seq(|ctx|, k requires 0 <= k < |ctx| => if ctx[k].SharedAssistant? then AssistantBlocks(shared) else ctx[k].m)
  }

  /**
   * How `process_query` fails: the tool call raises, or a follow-up reply has
   * no first block (`IndexError`) or its first block has no `text` (`AttributeError`).
   */
  datatype CliError = ToolRaised(message: string) | FollowUpEmpty | FollowUpNotText

  /** The locals of `process_query` while it walks the first reply. */
  datatype Walk = Walk(ctx: seq<Entry>, shared: seq<Block>, finalText: seq<string>, sent: seq<Request>)

  /** The end of the walk: every block handled, or the error raised and the requests made until then. */
  datatype Ended = Done(w: Walk) | Raised(error: CliError, sent: seq<Request>)

  function SentOf(e: Ended): seq<Request> {
    if e.Done? then e.w.sent else e.sent
  }

  /** The `final_text` entry announcing a tool call: the arguments as `str` writes a dict. */
  function ToolNote(name: string, args: Json): string {
    "[Calling tool " + name + " with args " + JsonRepr(args) + "]"
  }

  /** `response.content[0].text` */
  function FirstText(reply: seq<Block>): (r: Result<string, CliError>)
    ensures r.Success? <==> reply != [] && reply[0].TextBlock?
    ensures r.Success? ==> r.value == reply[0].text
  {
    if reply == [] then Failure(FollowUpEmpty)
    else if reply[0].TextBlock? then Success(reply[0].text)
    else Failure(FollowUpNotText)
  }

  /** The first request: the query alone, with the tools. */
  function FirstRequest(query: string, tools: seq<Tool>): Request {
    Request(InitialModel, InitialMaxTokens, [UserQuery(query)], Some(tools))
  }

  /**
   * One block of the first reply. A text block is kept; a `tool_use` block
   * runs the tool, appends the shared assistant list and the tool's result,
   * and sends the whole context again; any other block is skipped. The model
   * answers the request numbered `base + |w.sent|`.
   */
  function BlockStep(b: Block, w: Walk, base: nat, model: (nat, Request) -> seq<Block>,
                     callTool: (string, Json) -> Result<Json, string>): Ended
  {
    match b
    case TextBlock(t) => Done(Walk(w.ctx, w.shared + [b], w.finalText + [t], w.sent))
    case ToolUseBlock(id, name, input) =>
      (match callTool(name, input)
       case Failure(e) => Raised(ToolRaised(e), w.sent)
       case Success(result) =>
         var shared := w.shared + [b];
         var ctx := w.ctx + [SharedAssistant, Fixed(ToolResultMessage(id, result))];
         var followUp := Request(FollowUpModel, FollowUpMaxTokens, Resolve(ctx, shared), None);
         match FirstText(model(base + |w.sent|, followUp))
         case Failure(e) => Raised(e, w.sent + [followUp])
         case Success(t) => Done(Walk(ctx, shared, w.finalText + [ToolNote(name, input), t], w.sent + [followUp])))
    case ToolResultBlock(_, _) => Done(w)
  }

  function WalkBlocks(blocks: seq<Block>, w: Walk, base: nat, model: (nat, Request) -> seq<Block>,
                      callTool: (string, Json) -> Result<Json, string>): Ended
    decreases |blocks|
  {
    if blocks == [] then Done(w)
    else match BlockStep(blocks[0], w, base, model, callTool)
      case Done(w') => WalkBlocks(blocks[1..], w', base, model, callTool)
      case r => r
  }

  /** `process_query(query)` when `base` requests were made before it. */
  function QuerySpec(query: string, tools: seq<Tool>, base: nat, model: (nat, Request) -> seq<Block>,
                     callTool: (string, Json) -> Result<Json, string>): Ended
  {
    var first := FirstRequest(query, tools);
    WalkBlocks(model(base, first), Walk([Fixed(UserQuery(query))], [], [], [first]), base, model, callTool)
  }

  /** The texts of the text blocks, in order. */
  function Texts(blocks: seq<Block>): (ts: seq<string>)
    ensures |ts| <= |blocks|
  {
    if blocks == [] then []
    else (if blocks[0].TextBlock? then [blocks[0].text] else []) + Texts(blocks[1..])
  }

  /** The text and `tool_use` blocks, in order: what the shared list collects. */
  function Kept(blocks: seq<Block>): (ks: seq<Block>)
    ensures |ks| <= |blocks|
  {
    if blocks == [] then []
    else (if blocks[0].ToolResultBlock? then [] else [blocks[0]]) + Kept(blocks[1..])
  }

  /** The ids answered by the `tool_result` messages of a context, in order. */
  function ResultIds(ctx: seq<Entry>): seq<string> {
    if ctx == [] then []
    else
      var head := if ctx[0].Fixed? && ctx[0].m.content.Items? && |ctx[0].m.content.items| == 1
                     && ctx[0].m.content.items[0].value.ToolResultBlock?
                  then [ctx[0].m.content.items[0].value.toolUseId] else [];
      head + ResultIds(ctx[1..])
  }

  lemma {:induction false} ResultIdsAppend(a: seq<Entry>, b: seq<Entry>)
    ensures ResultIds(a + b) == ResultIds(a) + ResultIds(b)
  {
    if a == [] {
      assert a + b == b;
    } else {
      assert (a + b)[0] == a[0];
      assert (a + b)[1..] == a[1..] + b;
      ResultIdsAppend(a[1..], b);
    }
  }

  /** Every request from `from` on is a follow-up: the second model, 2000 tokens, no tools. */
  predicate FollowUpsFrom(sent: seq<Request>, from: nat) {
    forall k :: from <= k < |sent| ==> sent[k].model == FollowUpModel && sent[k].maxTokens == FollowUpMaxTokens && sent[k].tools.None?
  }

  /** Every assistant entry after `from` is the shared list, and every entry appended is a pair. */
  predicate SharedFrom(ctx: seq<Entry>, from: nat) {
    forall k :: from <= k < |ctx| ==> (ctx[k].SharedAssistant? <==> (k - from) % 2 == 0)
  }

  lemma ToolUseIdsCons(blocks: seq<Block>)
    requires blocks != []
    ensures ToolUseIds(blocks) == (if blocks[0].ToolUseBlock? then [blocks[0].id] else []) + ToolUseIds(blocks[1..])
  {
  }

  /** A walk that handles every block adds two context entries and two `final_text` entries and one follow-up per `tool_use` block, and one `final_text` entry per text block. */
  lemma {:induction false} WalkSizes(blocks: seq<Block>, w: Walk, base: nat, model: (nat, Request) -> seq<Block>,
                                     callTool: (string, Json) -> Result<Json, string>)
    requires WalkBlocks(blocks, w, base, model, callTool).Done?
    ensures var w' := WalkBlocks(blocks, w, base, model, callTool).w;
      && w.ctx <= w'.ctx && |w'.ctx| == |w.ctx| + 2 * |ToolUses(blocks)|
      && w.finalText <= w'.finalText && |w'.finalText| == |w.finalText| + |Texts(blocks)| + 2 * |ToolUses(blocks)|
      && w.sent <= w'.sent && |w'.sent| == |w.sent| + |ToolUses(blocks)| && FollowUpsFrom(w'.sent, |w.sent|)
    decreases |blocks|
  {
    if blocks != [] {
      WalkSizes(blocks[1..], BlockStep(blocks[0], w, base, model, callTool).w, base, model, callTool);
    }
  }

  /** `response.content[0].text` of a follow-up reply that has a first text block. */
  function ReplyText(reply: seq<Block>): string {
    if reply != [] && reply[0].TextBlock? then reply[0].text else ""
  }

  /**
   * The `final_text` entries for `blocks`, block by block: a text block's
   * text; for a `tool_use` block, its note and then the first text of the
   * reply to its follow-up, the next of `followUps`, sent as call `n`.
   */
  function NotedTexts(blocks: seq<Block>, followUps: seq<Request>, n: nat, model: (nat, Request) -> seq<Block>): seq<string>
    decreases |blocks|
  {
    if blocks == [] then []
    else match blocks[0]
      case TextBlock(t) => [t] + NotedTexts(blocks[1..], followUps, n, model)
      case ToolUseBlock(_, name, input) =>
        if followUps == [] then [ToolNote(name, input)]
        else [ToolNote(name, input), ReplyText(model(n, followUps[0]))] + NotedTexts(blocks[1..], followUps[1..], n + 1, model)
      case ToolResultBlock(_, _) => NotedTexts(blocks[1..], followUps, n, model)
  }

  /** A walk that handles every block appends to `final_text` exactly the entries `NotedTexts` lists for its follow-ups. */
  lemma {:induction false} WalkTexts(blocks: seq<Block>, w: Walk, base: nat, model: (nat, Request) -> seq<Block>,
                                     callTool: (string, Json) -> Result<Json, string>, n: nat)
    requires WalkBlocks(blocks, w, base, model, callTool).Done? && n == base + |w.sent|
    ensures var w' := WalkBlocks(blocks, w, base, model, callTool).w;
      |w.sent| <= |w'.sent| && w'.finalText == w.finalText + NotedTexts(blocks, w'.sent[|w.sent|..], n, model)
    decreases |blocks|
  {
    if blocks == [] {
      assert WalkBlocks(blocks, w, base, model, callTool).w.sent[|w.sent|..] == [];
    } else {
      var b := blocks[0];
      WalkCons(blocks, w, base, model, callTool);
      var w1 := BlockStep(b, w, base, model, callTool).w;
      var w' := WalkBlocks(blocks[1..], w1, base, model, callTool).w;
      WalkSizes(blocks[1..], w1, base, model, callTool);
      WalkTexts(blocks[1..], w1, base, model, callTool, base + |w1.sent|);
      var rest := NotedTexts(blocks[1..], w'.sent[|w1.sent|..], base + |w1.sent|, model);
      match b
      case TextBlock(t) =>
        calc {
          w'.finalText;
          (w.finalText + [t]) + rest;
          { AppendAssoc(w.finalText, [t], rest); }
          w.finalText + ([t] + rest);
        }
      case ToolUseBlock(id, name, input) =>
        var followUp := w1.sent[|w.sent|];
        assert w1.sent == w.sent + [followUp];
        assert w'.sent[|w.sent|..] == [followUp] + w'.sent[|w1.sent|..];
        var t := ReplyText(model(n, followUp));
        assert w1.finalText == w.finalText + [ToolNote(name, input), t];
        calc {
          w'.finalText;
          (w.finalText + [ToolNote(name, input), t]) + rest;
          { AppendAssoc(w.finalText, [ToolNote(name, input), t], rest); }
          w.finalText + ([ToolNote(name, input), t] + rest);
        }
      case ToolResultBlock(_, _) =>
    }
  }

  /** A walk that completes went through its first block and then completed the rest. */
  lemma WalkCons(blocks: seq<Block>, w: Walk, base: nat, model: (nat, Request) -> seq<Block>,
                 callTool: (string, Json) -> Result<Json, string>)
    requires blocks != [] && WalkBlocks(blocks, w, base, model, callTool).Done?
    ensures BlockStep(blocks[0], w, base, model, callTool).Done?
    ensures WalkBlocks(blocks, w, base, model, callTool)
         == WalkBlocks(blocks[1..], BlockStep(blocks[0], w, base, model, callTool).w, base, model, callTool)
  {
  }

  /**
   * One handled block adds itself to the shared list unless it is a
   * `tool_result`, and appends nothing, or the shared list and its result.
   */
  lemma StepEntries(b: Block, w: Walk, base: nat, model: (nat, Request) -> seq<Block>,
                    callTool: (string, Json) -> Result<Json, string>)
    requires BlockStep(b, w, base, model, callTool).Done?
    ensures var mid := BlockStep(b, w, base, model, callTool).w;
      && mid.shared == w.shared + (if b.ToolResultBlock? then [] else [b])
      && (b.ToolUseBlock? ==> mid.ctx == w.ctx + [SharedAssistant, Fixed(ToolResultMessage(b.id, callTool(b.name, b.input).value))])
      && (!b.ToolUseBlock? ==> mid.ctx == w.ctx)
      && ResultIds(mid.ctx) == ResultIds(w.ctx) + (if b.ToolUseBlock? then [b.id] else [])
  {
    var mid := BlockStep(b, w, base, model, callTool).w;
    if b.ToolUseBlock? {
      var m := ToolResultMessage(b.id, callTool(b.name, b.input).value);
      var added := [SharedAssistant, Fixed(m)];
      ResultIdsAppend(w.ctx, added);
      assert ResultIds([Fixed(m)]) == [b.id] by {
        assert [Fixed(m)][1..] == [];
      }
      assert added[1..] == [Fixed(m)];
    } else {
      assert ResultIds(w.ctx) + [] == ResultIds(w.ctx);
      assert b.ToolResultBlock? ==> w.shared + [] == w.shared;
    }
  }

  /** The shared list ends up holding the text and `tool_use` blocks of the reply, in order. */
  lemma {:induction false} WalkShared(blocks: seq<Block>, w: Walk, base: nat, model: (nat, Request) -> seq<Block>,
                                      callTool: (string, Json) -> Result<Json, string>)
    requires WalkBlocks(blocks, w, base, model, callTool).Done?
    ensures WalkBlocks(blocks, w, base, model, callTool).w.shared == w.shared + Kept(blocks)
    decreases |blocks|
  {
    if blocks == [] {
      assert w.shared + [] == w.shared;
    } else {
      var b := blocks[0];
      var head := if b.ToolResultBlock? then [] else [b];
      var mid := BlockStep(b, w, base, model, callTool).w;
      WalkCons(blocks, w, base, model, callTool);
      StepEntries(b, w, base, model, callTool);
      WalkShared(blocks[1..], mid, base, model, callTool);
      assert Kept(blocks) == head + Kept(blocks[1..]);
      AppendAssoc(w.shared, head, Kept(blocks[1..]));
    }
  }

  /** Entries that alternate from `from + |added|` on still alternate from `from` on when `added` is empty or a pair. */
  lemma SharedFromExtend(ctx: seq<Entry>, from: nat, added: seq<Entry>)
    requires from + |added| <= |ctx| && ctx[from..from + |added|] == added
    requires added == [] || (|added| == 2 && added[0].SharedAssistant? && !added[1].SharedAssistant?)
    requires SharedFrom(ctx, from + |added|)
    ensures SharedFrom(ctx, from)
  {
    forall k | from <= k < |ctx|
      ensures ctx[k].SharedAssistant? <==> (k - from) % 2 == 0
    {
      if k >= from + |added| {
        assert (k - from - |added|) % 2 == (k - from) % 2;
      } else {
        assert ctx[k] == added[k - from];
      }
    }
  }

  /** The entries appended alternate the shared list and a result. */
  lemma {:induction false} WalkPairs(blocks: seq<Block>, w: Walk, base: nat, model: (nat, Request) -> seq<Block>,
                                     callTool: (string, Json) -> Result<Json, string>)
    requires WalkBlocks(blocks, w, base, model, callTool).Done?
    ensures SharedFrom(WalkBlocks(blocks, w, base, model, callTool).w.ctx, |w.ctx|)
    decreases |blocks|
  {
    if blocks != [] {
      var b := blocks[0];
      var mid := BlockStep(b, w, base, model, callTool).w;
      var ctx' := WalkBlocks(blocks, w, base, model, callTool).w.ctx;
      WalkCons(blocks, w, base, model, callTool);
      WalkPairs(blocks[1..], mid, base, model, callTool);
      WalkSizes(blocks[1..], mid, base, model, callTool);
      StepEntries(b, w, base, model, callTool);
      var added := mid.ctx[|w.ctx|..];
      assert mid.ctx == w.ctx + added;
      assert ctx'[|w.ctx|..|mid.ctx|] == added;
      SharedFromExtend(ctx', |w.ctx|, added);
    }
  }

  /** The results carry the `tool_use` ids of the blocks, in order. */
  lemma {:induction false} WalkResults(blocks: seq<Block>, w: Walk, base: nat, model: (nat, Request) -> seq<Block>,
                                       callTool: (string, Json) -> Result<Json, string>)
    requires WalkBlocks(blocks, w, base, model, callTool).Done?
    ensures ResultIds(WalkBlocks(blocks, w, base, model, callTool).w.ctx) == ResultIds(w.ctx) + ToolUseIds(blocks)
    decreases |blocks|
  {
    if blocks != [] {
      var b := blocks[0];
      var mid := BlockStep(b, w, base, model, callTool).w;
      WalkCons(blocks, w, base, model, callTool);
      WalkResults(blocks[1..], mid, base, model, callTool);
      StepEntries(b, w, base, model, callTool);
      ToolUseIdsCons(blocks);
      AppendAssoc(ResultIds(w.ctx), if b.ToolUseBlock? then [b.id] else [], ToolUseIds(blocks[1..]));
    }
  }

  /**
   * A query that completes leaves the context `[query, A, r1, A, r2, …]`:
   * one shared assistant list `A` and one result per `tool_use` block, the
   * k-th under the k-th block's id; the shared list holds every text and
   * `tool_use` block of the first reply, so every assistant message is the
   * same; `final_text` has one entry per text block and two per `tool_use`
   * block, in block order: the text, or the tool's note and the first text
   * of its follow-up's reply; one first request with the tools and one follow-up without per
   * `tool_use` block.
   */
  lemma ProcessQueryShape(query: string, tools: seq<Tool>, base: nat, model: (nat, Request) -> seq<Block>,
                          callTool: (string, Json) -> Result<Json, string>)
    requires QuerySpec(query, tools, base, model, callTool).Done?
    ensures var first := FirstRequest(query, tools); var reply := model(base, first);
      var w := QuerySpec(query, tools, base, model, callTool).w; var ms := Resolve(w.ctx, w.shared);
      && |ms| == 1 + 2 * |ToolUses(reply)| && ms[0] == UserQuery(query)
      && SharedFrom(w.ctx, 1) && ResultIds(w.ctx) == ToolUseIds(reply)
      && (forall k :: 0 <= k < |ms| && w.ctx[k].SharedAssistant? ==> ms[k] == AssistantBlocks(Kept(reply)))
      && |w.finalText| == |Texts(reply)| + 2 * |ToolUses(reply)|
      && |w.sent| == 1 + |ToolUses(reply)| && w.sent[0] == first && FollowUpsFrom(w.sent, 1)
      && w.finalText == NotedTexts(reply, w.sent[1..], base + 1, model)
  {
    var first := FirstRequest(query, tools);
    var start := Walk([Fixed(UserQuery(query))], [], [], [first]);
    WalkSizes(model(base, first), start, base, model, callTool);
    WalkShared(model(base, first), start, base, model, callTool);
    WalkResults(model(base, first), start, base, model, callTool);
    WalkPairs(model(base, first), start, base, model, callTool);
    WalkTexts(model(base, first), start, base, model, callTool, base + 1);
    assert [] + NotedTexts(model(base, first), QuerySpec(query, tools, base, model, callTool).w.sent[1..], base + 1, model)
        == NotedTexts(model(base, first), QuerySpec(query, tools, base, model, callTool).w.sent[1..], base + 1, model);
    assert [] + Kept(model(base, first)) == Kept(model(base, first));
    assert ResultIds(start.ctx) == [] by {
      assert start.ctx[1..] == [];
    }
  }

  /** Follow-up replies are only read for their first text: the one round makes no further tool call. */
  lemma {:induction false} OneRoundOnly(blocks: seq<Block>, w: Walk, base: nat, model: (nat, Request) -> seq<Block>,
                                        callTool: (string, Json) -> Result<Json, string>,
                                        model': (nat, Request) -> seq<Block>)
    requires forall n, r :: model(n, r) != [] && model'(n, r) != [] && model'(n, r)[0] == model(n, r)[0]
    ensures WalkBlocks(blocks, w, base, model, callTool) == WalkBlocks(blocks, w, base, model', callTool)
    decreases |blocks|
  {
    if blocks != [] {
      var b := blocks[0];
      assert BlockStep(b, w, base, model, callTool) == BlockStep(b, w, base, model', callTool);
      if BlockStep(b, w, base, model, callTool).Done? {
        OneRoundOnly(blocks[1..], BlockStep(b, w, base, model, callTool).w, base, model, callTool, model');
      }
    }
  }

  /** Every request sent obeys the tool-use protocol: each `tool_use` is answered at once, in order. */
  predicate ProtocolKept(sent: seq<Request>) {
    forall k :: 0 <= k < |sent| ==> Orchestrator.Replay(sent[k].messages, []) == Some([])
  }

  /** The requests of a query whose first reply is two `tool_use` blocks, both tools answering and both follow-ups text. */
  lemma TwoToolUseRequests(query: string, tools: seq<Tool>, base: nat, model: (nat, Request) -> seq<Block>,
                           callTool: (string, Json) -> Result<Json, string>, a: Block, b: Block)
    requires a.ToolUseBlock? && b.ToolUseBlock?
    requires model(base, FirstRequest(query, tools)) == [a, b]
    requires callTool(a.name, a.input).Success? && callTool(b.name, b.input).Success?
    requires forall n, r :: n != base ==> FirstText(model(n, r)).Success?
    ensures var e := QuerySpec(query, tools, base, model, callTool);
      var q, ta, tb := UserQuery(query), ToolResultMessage(a.id, callTool(a.name, a.input).value),
                       ToolResultMessage(b.id, callTool(b.name, b.input).value);
      && e.Done? && |e.w.sent| == 3
      && e.w.sent[1].messages == [q, AssistantBlocks([a]), ta]
      && e.w.sent[2].messages == [q, AssistantBlocks([a, b]), ta, AssistantBlocks([a, b]), tb]
  {
    var first := FirstRequest(query, tools);
    var w0 := Walk([Fixed(UserQuery(query))], [], [], [first]);
    var ra, rb := callTool(a.name, a.input).value, callTool(b.name, b.input).value;
    var ctx1 := w0.ctx + [SharedAssistant, Fixed(ToolResultMessage(a.id, ra))];
    var f1 := Request(FollowUpModel, FollowUpMaxTokens, Resolve(ctx1, [a]), None);
    var w1 := BlockStep(a, w0, base, model, callTool).w;
    assert w1.ctx == ctx1 && w1.shared == [a] && w1.sent == [first, f1];
    var ctx2 := ctx1 + [SharedAssistant, Fixed(ToolResultMessage(b.id, rb))];
    var f2 := Request(FollowUpModel, FollowUpMaxTokens, Resolve(ctx2, [a, b]), None);
    assert w1.shared + [b] == [a, b];
    assert w1.ctx + [SharedAssistant, Fixed(ToolResultMessage(b.id, rb))] == ctx2;
    assert FirstText(model(base + 2, f2)).Success?;
    var w2 := BlockStep(b, w1, base, model, callTool).w;
    assert w2.sent == [first, f1, f2];
    assert [a, b][1..] == [b];
    assert QuerySpec(query, tools, base, model, callTool) == WalkBlocks([b], w1, base, model, callTool);
    assert WalkBlocks([b], w1, base, model, callTool) == Done(w2);
  }

  lemma OneToolUseIds(a: Block)
    requires a.ToolUseBlock?
    ensures ItemToolUseIds(PlainItems([a])) == [a.id]
  {
    PlainItemsToolUseIds([a]);
    assert ToolUses([a]) == [a] + ToolUses([a][1..]);
  }

  lemma TwoToolUseIds(a: Block, b: Block)
    requires a.ToolUseBlock? && b.ToolUseBlock?
    ensures ItemToolUseIds(PlainItems([a, b])) == [a.id, b.id]
  {
    PlainItemsToolUseIds([a, b]);
    assert [a, b][1..] == [b];
    assert ToolUses([a, b]) == [a] + ToolUses([b]);
    assert ToolUses([b]) == [b] + ToolUses([b][1..]);
  }

  /** A query, one `tool_use` and its result obey the protocol. */
  lemma OneCallReplays(query: string, a: Block, ra: Json)
    requires a.ToolUseBlock?
    ensures Orchestrator.Replay([UserQuery(query), AssistantBlocks([a]), ToolResultMessage(a.id, ra)], []) == Some([])
  {
    var q, aa, ta := UserQuery(query), AssistantBlocks([a]), ToolResultMessage(a.id, ra);
    OneToolUseIds(a);
    var ms := [q, aa, ta];
    assert Orchestrator.Step(q, []) == Some([]);
    assert Orchestrator.Step(aa, []) == Some([a.id]);
    assert Orchestrator.Step(ta, [a.id]) == Some([]) by {
      assert [a.id][1..] == [];
    }
    assert ms[1..] == [aa, ta] && ms[1..][1..] == [ta] && [ta][1..] == [];
    assert Orchestrator.Replay([ta], [a.id]) == Orchestrator.Replay([], []);
    assert Orchestrator.Replay([aa, ta], []) == Orchestrator.Replay([ta], [a.id]);
    assert Orchestrator.Replay(ms, []) == Orchestrator.Replay([aa, ta], []);
  }

  /** An assistant message with blocks that arrives while a `tool_use` is still unanswered fails the replay, whatever follows. */
  lemma AssistantWhileOpenFails(pre: seq<Message>, m: Message, rest: seq<Message>)
    requires Orchestrator.Replay(pre, []).Some? && Orchestrator.Replay(pre, []).value != []
    requires m.role == Assistant && m.content.Items?
    ensures Orchestrator.Replay(pre + [m] + rest, []) == None
  {
    Orchestrator.ReplayAppend(pre + [m], rest, []);
    Orchestrator.ReplayAppend(pre, [m], []);
    assert Orchestrator.Step(m, Orchestrator.Replay(pre, []).value) == None;
  }

  /**
   * The shared list sent twice: after `result a`, the id of `b` is still
   * open when the second copy of `A[a,b]` arrives, so the replay fails.
   */
  lemma AliasedReplayFails(query: string, a: Block, b: Block, ra: Json, tb: Message)
    requires a.ToolUseBlock? && b.ToolUseBlock?
    ensures var pre := [UserQuery(query), AssistantBlocks([a, b]), ToolResultMessage(a.id, ra)];
      && Orchestrator.Replay(pre, []) == Some([b.id])
      && Orchestrator.Replay(pre + [AssistantBlocks([a, b]), tb], []) == None
  {
    var q, ab, ta := UserQuery(query), AssistantBlocks([a, b]), ToolResultMessage(a.id, ra);
    TwoToolUseIds(a, b);
    var pre := [q, ab, ta];
    assert Orchestrator.Step(q, []) == Some([]);
    assert Orchestrator.Step(ab, []) == Some([a.id, b.id]);
    assert Orchestrator.Step(ta, [a.id, b.id]) == Some([b.id]) by {
      assert [a.id, b.id][1..] == [b.id];
    }
    assert pre[1..] == [ab, ta] && [ab, ta][1..] == [ta] && [ta][1..] == [];
    assert Orchestrator.Replay([ta], [a.id, b.id]) == Some([b.id]);
    assert Orchestrator.Replay([ab, ta], []) == Some([b.id]);
    assert Orchestrator.Replay(pre, []) == Some([b.id]);
    AssistantWhileOpenFails(pre, ab, [tb]);
    assert pre + [ab] + [tb] == pre + [ab, tb];
  }

  /**
   * As written, a first reply with two `tool_use` blocks breaks the
   * protocol: the second follow-up sends the shared list twice, and its
   * first copy already holds the second `tool_use`, whose result does not
   * follow it.
   */
  lemma AliasBreaksSecondFollowUp(query: string, tools: seq<Tool>, base: nat, model: (nat, Request) -> seq<Block>,
                                  callTool: (string, Json) -> Result<Json, string>, a: Block, b: Block)
    requires a.ToolUseBlock? && b.ToolUseBlock?
    requires model(base, FirstRequest(query, tools)) == [a, b]
    requires callTool(a.name, a.input).Success? && callTool(b.name, b.input).Success?
    requires forall n, r :: n != base ==> FirstText(model(n, r)).Success?
    ensures var e := QuerySpec(query, tools, base, model, callTool);
      && e.Done? && |e.w.sent| == 3
      && Orchestrator.Replay(e.w.sent[1].messages, []) == Some([])
      && Orchestrator.Replay(e.w.sent[2].messages, []) == None
  {
    TwoToolUseRequests(query, tools, base, model, callTool, a, b);
    var ra := callTool(a.name, a.input).value;
    OneCallReplays(query, a, ra);
    var q, ab, ta, tb := UserQuery(query), AssistantBlocks([a, b]), ToolResultMessage(a.id, ra),
                         ToolResultMessage(b.id, callTool(b.name, b.input).value);
    AliasedReplayFails(query, a, b, ra, tb);
    assert [q, ab, ta] + [ab, tb] == [q, ab, ta, ab, tb];
  }

  /**
   * The evident intent: each `tool_use` gets an assistant message of its
   * own, holding the blocks since the previous tool call, after which the
   * list starts afresh.
   */
  function CorrectedBlockStep(b: Block, w: Walk, base: nat, model: (nat, Request) -> seq<Block>,
                              callTool: (string, Json) -> Result<Json, string>): Ended
  {
    match b
    case TextBlock(t) => Done(Walk(w.ctx, w.shared + [b], w.finalText + [t], w.sent))
    case ToolUseBlock(id, name, input) =>
      (match callTool(name, input)
       case Failure(e) => Raised(ToolRaised(e), w.sent)
       case Success(result) =>
         var ctx := w.ctx + [Fixed(AssistantBlocks(w.shared + [b])), Fixed(ToolResultMessage(id, result))];
         var followUp := Request(FollowUpModel, FollowUpMaxTokens, Resolve(ctx, []), None);
         match FirstText(model(base + |w.sent|, followUp))
         case Failure(e) => Raised(e, w.sent + [followUp])
         case Success(t) => Done(Walk(ctx, [], w.finalText + [ToolNote(name, input), t], w.sent + [followUp])))
    case ToolResultBlock(_, _) => Done(w)
  }

  function CorrectedWalk(blocks: seq<Block>, w: Walk, base: nat, model: (nat, Request) -> seq<Block>,
                         callTool: (string, Json) -> Result<Json, string>): Ended
    decreases |blocks|
  {
    if blocks == [] then Done(w)
    else match CorrectedBlockStep(blocks[0], w, base, model, callTool)
      case Done(w') => CorrectedWalk(blocks[1..], w', base, model, callTool)
      case r => r
  }

  function CorrectedQuery(query: string, tools: seq<Tool>, base: nat, model: (nat, Request) -> seq<Block>,
                          callTool: (string, Json) -> Result<Json, string>): Ended
  {
    var first := FirstRequest(query, tools);
    CorrectedWalk(model(base, first), Walk([Fixed(UserQuery(query))], [], [], [first]), base, model, callTool)
  }

  /** What the corrected walk keeps true between blocks. */
  predicate CorrectedInvariant(w: Walk) {
    && (forall k :: 0 <= k < |w.ctx| ==> w.ctx[k].Fixed?)
    && Orchestrator.Replay(Resolve(w.ctx, []), []) == Some([])
    && ToolUses(w.shared) == []
    && ProtocolKept(w.sent)
  }

  lemma ResolveAppend(a: seq<Entry>, b: seq<Entry>, shared: seq<Block>)
    ensures Resolve(a + b, shared) == Resolve(a, shared) + Resolve(b, shared)
  {
  }

  lemma CorrectedStepKeeps(b: Block, w: Walk, base: nat, model: (nat, Request) -> seq<Block>,
                           callTool: (string, Json) -> Result<Json, string>)
    requires CorrectedInvariant(w)
    ensures var e := CorrectedBlockStep(b, w, base, model, callTool);
      ProtocolKept(SentOf(e)) && (e.Done? ==> CorrectedInvariant(e.w))
  {
    var e := CorrectedBlockStep(b, w, base, model, callTool);
    if b.TextBlock? {
      ToolUsesAppend(w.shared, [b]);
      assert ToolUses([b]) == [] by {
        assert ToolUses([b]) == ToolUses([b][1..]);
      }
    } else if b.ToolUseBlock? && callTool(b.name, b.input).Success? {
      var asst := AssistantBlocks(w.shared + [b]);
      var res := ToolResultMessage(b.id, callTool(b.name, b.input).value);
      var ctx := w.ctx + [Fixed(asst), Fixed(res)];
      ResolveAppend(w.ctx, [Fixed(asst), Fixed(res)], []);
      assert Resolve([Fixed(asst), Fixed(res)], []) == [asst, res];
      ToolUsesAppend(w.shared, [b]);
      assert ToolUses([b]) == [b] by {
        assert ToolUses([b]) == [b] + ToolUses([b][1..]);
      }
      PlainItemsToolUseIds(w.shared + [b]);
      assert ToolUseIds(w.shared + [b]) == [b.id];
      Orchestrator.ReplayAppend(Resolve(w.ctx, []), [asst, res], []);
      assert Orchestrator.Step(asst, []) == Some([b.id]);
      assert [b.id][1..] == [];
      assert Orchestrator.Step(res, [b.id]) == Some([]);
      assert [asst, res][1..] == [res] && [res][1..] == [];
      assert Orchestrator.Replay([asst, res], []) == Orchestrator.Replay([res], [b.id]);
      assert Orchestrator.Replay([res], [b.id]) == Some([]);
      assert Resolve(ctx, []) == Resolve(w.ctx, []) + [asst, res];
      assert Orchestrator.Replay(Resolve(ctx, []), []) == Some([]);
      var followUp := Request(FollowUpModel, FollowUpMaxTokens, Resolve(ctx, []), None);
      assert ProtocolKept(w.sent + [followUp]);
    }
  }

  lemma {:induction false} CorrectedWalkKeeps(blocks: seq<Block>, w: Walk, base: nat, model: (nat, Request) -> seq<Block>,
                                              callTool: (string, Json) -> Result<Json, string>)
    requires CorrectedInvariant(w)
    ensures ProtocolKept(SentOf(CorrectedWalk(blocks, w, base, model, callTool)))
    decreases |blocks|
  {
    if blocks != [] {
      CorrectedStepKeeps(blocks[0], w, base, model, callTool);
      var e := CorrectedBlockStep(blocks[0], w, base, model, callTool);
      if e.Done? {
        CorrectedWalkKeeps(blocks[1..], e.w, base, model, callTool);
      }
    }
  }

  /** With a fresh list per tool call, every request of the query obeys the tool-use protocol, whatever the replies. */
  lemma CorrectedQueryKeepsProtocol(query: string, tools: seq<Tool>, base: nat, model: (nat, Request) -> seq<Block>,
                                    callTool: (string, Json) -> Result<Json, string>)
    ensures ProtocolKept(SentOf(CorrectedQuery(query, tools, base, model, callTool)))
  {
    var first := FirstRequest(query, tools);
    var w0 := Walk([Fixed(UserQuery(query))], [], [], [first]);
    assert Resolve(w0.ctx, []) == [UserQuery(query)];
    assert Orchestrator.Replay([UserQuery(query)], []) == Some([]) by {
      assert [UserQuery(query)][1..] == [];
    }
    assert CorrectedInvariant(w0);
    CorrectedWalkKeeps(model(base, first), w0, base, model, callTool);
  }

  /** What `chat_loop` makes of one input line once stripped: a quit command, or a query. */
  datatype Input = QuitLine | QueryLine(query: string)

  /** `query = line.strip()`, then `query.lower() == "quit"`. */
  function Classify(line: string): Input
  {
    var query := Strip(line);
    if Lower(query) == "quit" then QuitLine else QueryLine(query)
  }

  /** The lines read, each classified. */
  function Inputs(lines: seq<string>): (ins: seq<Input>)
    ensures |ins| == |lines|
  {
    if lines == [] then [] else [Classify(lines[0])] + Inputs(lines[1..])
  }

  lemma {:induction false} InputAt(lines: seq<string>, i: nat)
    requires i < |lines|
    ensures Inputs(lines)[i] == Classify(lines[i])
  {
    if i > 0 {
      InputAt(lines[1..], i - 1);
    }
  }

  /** The position of the first quit line, if any. */
  function FirstQuit(ins: seq<Input>): (r: Option<nat>)
    ensures r.Some? ==> r.value < |ins| && ins[r.value].QuitLine?
    ensures r.Some? ==> forall j :: 0 <= j < r.value ==> ins[j].QueryLine?
    ensures r.None? ==> forall j :: 0 <= j < |ins| ==> ins[j].QueryLine?
  {
    if ins == [] then None
    else if ins[0].QuitLine? then Some(0)
    else match FirstQuit(ins[1..])
      case Some(k) => Some(k + 1)
      case None => None
  }

  /** The queries of the query lines, in order; quit lines are skipped. */
  function Queries(ins: seq<Input>): seq<string> {
    if ins == [] then []
    else (if ins[0].QuitLine? then [] else [ins[0].query]) + Queries(ins[1..])
  }

  /**
   * `fuel` rounds of `chat_loop` over the input lines: whether it left the
   * loop, and the queries it passed to `process_query`. A quit line deletes
   * the history collection and leaves only when the deletion succeeds; an
   * error from the deletion or from `process_query` is caught and the loop
   * goes on. Once the input is exhausted every round raises `EOFError`,
   * which is caught too, so nothing more happens.
   */
  function Chat(ins: seq<Input>, deleteSucceeds: bool, fuel: nat): (bool, seq<string>)
    decreases fuel
  {
    if fuel == 0 || ins == [] then (false, [])
    else if ins[0].QuitLine? then
      if deleteSucceeds then (true, []) else Chat(ins[1..], deleteSucceeds, fuel - 1)
    else
      var rest := Chat(ins[1..], deleteSucceeds, fuel - 1);
      (rest.0, [ins[0].query] + rest.1)
  }

  lemma QueriesCons(ins: seq<Input>, k: nat)
    requires 1 <= k <= |ins|
    ensures Queries(ins[..k]) == (if ins[0].QuitLine? then [] else [ins[0].query]) + Queries(ins[1..][..k - 1])
  {
    assert ins[..k][0] == ins[0];
    assert ins[..k][1..] == ins[1..][..k - 1];
  }

  /**
   * When the deletion succeeds, the loop leaves exactly at the first quit
   * line read, having passed every line before it to `process_query`.
   */
  lemma {:induction false} QuitLeavesAtFirstQuit(ins: seq<Input>, fuel: nat)
    requires FirstQuit(ins).Some? && FirstQuit(ins).value < fuel
    ensures Chat(ins, true, fuel) == (true, Queries(ins[..FirstQuit(ins).value]))
    decreases fuel
  {
    var k := FirstQuit(ins).value;
    if k == 0 {
      assert ins[..0] == [];
    } else {
      assert FirstQuit(ins[1..]) == Some(k - 1);
      QuitLeavesAtFirstQuit(ins[1..], fuel - 1);
      QueriesCons(ins, k);
    }
  }

  /** Without a quit line in reach, the loop stays, passing on every line it read. */
  lemma {:induction false} NoQuitStays(ins: seq<Input>, fuel: nat)
    requires FirstQuit(ins).None? || FirstQuit(ins).value >= fuel
    ensures var n := if fuel < |ins| then fuel else |ins|;
      Chat(ins, true, fuel) == (false, Queries(ins[..n]))
    decreases fuel
  {
    if fuel == 0 || ins == [] {
      assert ins[..0] == [];
    } else {
      assert FirstQuit(ins[1..]).None? || FirstQuit(ins[1..]).value >= fuel - 1;
      NoQuitStays(ins[1..], fuel - 1);
      var n := if fuel < |ins| then fuel else |ins|;
      QueriesCons(ins, n);
    }
  }

  /**
   * As written, a failing deletion never ends the loop: every quit line is
   * skipped and every other line is passed on, for as many rounds as it runs.
   */
  lemma {:induction false} FailedDeleteNeverLeaves(ins: seq<Input>, fuel: nat)
    ensures var n := if fuel < |ins| then fuel else |ins|;
      Chat(ins, false, fuel) == (false, Queries(ins[..n]))
    decreases fuel
  {
    if fuel == 0 || ins == [] {
      assert ins[..0] == [];
    } else {
      FailedDeleteNeverLeaves(ins[1..], fuel - 1);
      var n := if fuel < |ins| then fuel else |ins|;
      var rest := Queries(ins[1..][..n - 1]);
      assert Chat(ins[1..], false, fuel - 1) == (false, rest);
      QueriesCons(ins, n);
      if ins[0].QuitLine? {
        assert Chat(ins, false, fuel) == Chat(ins[1..], false, fuel - 1);
        assert Queries(ins[..n]) == [] + rest == rest;
      } else {
        assert Chat(ins, false, fuel) == (false, [ins[0].query] + rest);
      }
    }
  }

  /** One round of the loop, while input and fuel remain. */
  lemma ChatRound(ins: seq<Input>, deleteSucceeds: bool, fuel: nat)
    requires ins != [] && fuel > 0
    ensures var rest := Chat(ins[1..], deleteSucceeds, fuel - 1);
      Chat(ins, deleteSucceeds, fuel)
        == if ins[0].QueryLine? then (rest.0, [ins[0].query] + rest.1)
           else if deleteSucceeds then (true, []) else rest
  {
  }

  /** After `i` rounds that passed on `asked`, the rest of the loop yields the rest of `Chat`. */
  ghost predicate ChatFrom(ins: seq<Input>, deleteSucceeds: bool, fuel: nat, i: nat, asked: seq<string>)
    requires i <= |ins| && i <= fuel
  {
    var rest := Chat(ins[i..], deleteSucceeds, fuel - i);
    Chat(ins, deleteSucceeds, fuel) == (rest.0, asked + rest.1)
  }

  lemma ChatStarts(ins: seq<Input>, deleteSucceeds: bool, fuel: nat)
    ensures ChatFrom(ins, deleteSucceeds, fuel, 0, [])
  {
    assert ins[0..] == ins;
    assert [] + Chat(ins, deleteSucceeds, fuel).1 == Chat(ins, deleteSucceeds, fuel).1;
  }

  lemma ChatAsks(ins: seq<Input>, deleteSucceeds: bool, fuel: nat, i: nat, asked: seq<string>)
    requires i < |ins| && i < fuel && ChatFrom(ins, deleteSucceeds, fuel, i, asked)
    requires ins[i].QueryLine?
    ensures ChatFrom(ins, deleteSucceeds, fuel, i + 1, asked + [ins[i].query])
  {
    ChatRound(ins[i..], deleteSucceeds, fuel - i);
    assert ins[i..][1..] == ins[i + 1..];
    var rest := Chat(ins[i + 1..], deleteSucceeds, fuel - i - 1);
    AppendAssoc(asked, [ins[i].query], rest.1);
  }

  lemma ChatSkipsQuit(ins: seq<Input>, fuel: nat, i: nat, asked: seq<string>)
    requires i < |ins| && i < fuel && ChatFrom(ins, false, fuel, i, asked)
    requires ins[i].QuitLine?
    ensures ChatFrom(ins, false, fuel, i + 1, asked)
  {
    ChatRound(ins[i..], false, fuel - i);
    assert ins[i..][1..] == ins[i + 1..];
  }

  lemma ChatLeaves(ins: seq<Input>, fuel: nat, i: nat, asked: seq<string>)
    requires i < |ins| && i < fuel && ChatFrom(ins, true, fuel, i, asked)
    requires ins[i].QuitLine?
    ensures Chat(ins, true, fuel) == (true, asked)
  {
    ChatRound(ins[i..], true, fuel - i);
    assert asked + [] == asked;
  }

  lemma ChatStops(ins: seq<Input>, deleteSucceeds: bool, fuel: nat, i: nat, asked: seq<string>)
    requires i <= |ins| && i <= fuel && ChatFrom(ins, deleteSucceeds, fuel, i, asked)
    requires i == |ins| || i == fuel
    ensures Chat(ins, deleteSucceeds, fuel) == (false, asked)
  {
    assert ins[i..] == [] || fuel - i == 0;
    assert asked + [] == asked;
  }

  /** The requests one `process_query` makes when `base` requests were made before it. */
  function QueryRequests(query: string, tools: seq<Tool>, base: nat, model: (nat, Request) -> seq<Block>,
                         callTool: (string, Json) -> Result<Json, string>): seq<Request> {
    SentOf(QuerySpec(query, tools, base, model, callTool))
  }

  /** The requests every query sends, given `tools`, the model and the tool calls. */
  function QueryAsker(tools: seq<Tool>, model: (nat, Request) -> seq<Block>,
                      callTool: (string, Json) -> Result<Json, string>): (string, nat) -> seq<Request> {
    (query: string, base: nat) => QueryRequests(query, tools, base, model, callTool)
  }

  /** The requests of the queries, each numbered on from the ones before it. */
  function AskAll(queries: seq<string>, base: nat, ask: (string, nat) -> seq<Request>): seq<Request>
    decreases |queries|
  {
    if queries == [] then []
    else
      var sent := ask(queries[0], base);
      sent + AskAll(queries[1..], base + |sent|, ask)
  }

  lemma {:induction false} AskAllAppend(queries: seq<string>, q: string, base: nat, ask: (string, nat) -> seq<Request>)
    ensures AskAll(queries + [q], base, ask)
         == AskAll(queries, base, ask) + ask(q, base + |AskAll(queries, base, ask)|)
    decreases |queries|
  {
    var last := ask(q, base + |AskAll(queries, base, ask)|);
    if queries == [] {
      assert [q][1..] == [];
      assert AskAll([q], base, ask) == last + [];
    } else {
      var sent := ask(queries[0], base);
      assert (queries + [q])[1..] == queries[1..] + [q];
      AskAllAppend(queries[1..], q, base + |sent|, ask);
      AppendAssoc(sent, AskAll(queries[1..], base + |sent|, ask), last);
    }
  }

  /** The requests recorded after one more query are those of `AskAll` with that query appended. */
  lemma AskedOneMore(initial: seq<Request>, asked: seq<string>, query: string, base: nat,
                     ask: (string, nat) -> seq<Request>, before: seq<Request>, after: seq<Request>)
    requires |initial| == base && before == initial + AskAll(asked, base, ask)
    requires after == before + ask(query, |before|)
    ensures after == initial + AskAll(asked + [query], base, ask)
  {
    AskAllAppend(asked, query, base, ask);
    AppendAssoc(initial, AskAll(asked, base, ask), ask(query, |before|));
  }

  /** The command-line client: the server's tools, the context of the last query, and every request it made. */
  class CliChatClient {
    var tools: seq<Tool>
    /** `self.message_context`: absent until a query completes. */
    var messageContext: Option<seq<Message>>
    var requests: seq<Request>

    constructor ()
      ensures tools == [] && messageContext.None? && requests == []
    {
      tools := [];
      messageContext := None;
      requests := [];
    }

    /** `connect_to_server(path)`: only a `.py` or `.js` script is launched, and its tools are listed. */
    method ConnectToServer(path: string, serverTools: seq<Tool>) returns (r: Result<string, string>)
      modifies this`tools
      ensures r == Launch.ServerCommand(path)
      ensures tools == if r.Success? then serverTools else old(tools)
    {
      r := Launch.ServerCommand(path);
      if r.Success? {
        tools := serverTools;
      }
    }

    /**
     * `process_query(query)`: the joined `final_text`, with the context kept
     * and every request recorded; or the error raised, with the context
     * left as it was and the requests made until then recorded.
     */
    method ProcessQuery(query: string, model: (nat, Request) -> seq<Block>,
                        callTool: (string, Json) -> Result<Json, string>) returns (r: Result<string, CliError>)
      modifies this`messageContext, this`requests
      ensures requests == old(requests) + QueryRequests(query, tools, old(|requests|), model, callTool)
      ensures var e := QuerySpec(query, tools, old(|requests|), model, callTool);
        && (e.Done? ==> r == Success(Join("\n", e.w.finalText)) && messageContext == Some(Resolve(e.w.ctx, e.w.shared)))
        && (e.Raised? ==> r == Failure(e.error) && messageContext == old(messageContext))
    {
      var base := |requests|;
      var context := [Fixed(UserQuery(query))];
      var first := Request(InitialModel, InitialMaxTokens, Resolve(context, []), Some(tools));
      assert first == FirstRequest(query, tools);
      requests := requests + [first];
      var reply := model(base, first);
      var finalText: seq<string> := [];
      var assistantContent: seq<Block> := [];
      ghost var sent := [first];
      for i := 0 to |reply|
        invariant requests == old(requests) + sent
        invariant messageContext == old(messageContext)
        invariant QuerySpec(query, tools, base, model, callTool)
               == WalkBlocks(reply[i..], Walk(context, assistantContent, finalText, sent), base, model, callTool)
      {
        ghost var w := Walk(context, assistantContent, finalText, sent);
        assert reply[i..][1..] == reply[i + 1..];
        var content := reply[i];
        match content {
          case TextBlock(t) =>
            finalText := finalText + [t];
            assistantContent := assistantContent + [content];
            assert BlockStep(content, w, base, model, callTool) == Done(Walk(context, assistantContent, finalText, sent));
          case ToolUseBlock(id, name, input) =>
            var result := callTool(name, input);
            if result.Failure? {
              assert BlockStep(content, w, base, model, callTool) == Raised(ToolRaised(result.error), sent);
              return Failure(ToolRaised(result.error));
            }
            finalText := finalText + [ToolNote(name, input)];
            assistantContent := assistantContent + [content];
            context := context + [SharedAssistant, Fixed(ToolResultMessage(id, result.value))];
            var followUp := Request(FollowUpModel, FollowUpMaxTokens, Resolve(context, assistantContent), None);
            var index := |requests|;
            requests := requests + [followUp];
            var response := model(index, followUp);
            assert index == base + |w.sent|;
            sent := sent + [followUp];
            if response == [] {
              assert BlockStep(content, w, base, model, callTool) == Raised(FollowUpEmpty, sent);
              return Failure(FollowUpEmpty);
            }
            if !response[0].TextBlock? {
              assert BlockStep(content, w, base, model, callTool) == Raised(FollowUpNotText, sent);
              return Failure(FollowUpNotText);
            }
            finalText := finalText + [response[0].text];
            assert w.finalText + [ToolNote(name, input), response[0].text] == finalText;
            assert BlockStep(content, w, base, model, callTool) == Done(Walk(context, assistantContent, finalText, sent));
          case ToolResultBlock(_, _) =>
            assert BlockStep(content, w, base, model, callTool) == Done(w);
        }
      }
      messageContext := Some(Resolve(context, assistantContent));
      r := Success(Join("\n", finalText));
    }

    /** One query of the chat loop; its reply or error is not kept, only the requests it sent. */
    method Ask(query: string, model: (nat, Request) -> seq<Block>, callTool: (string, Json) -> Result<Json, string>,
               ghost initial: seq<Request>, ghost base: nat, ghost asked: seq<string>)
      modifies this`messageContext, this`requests
      requires |initial| == base && requests == initial + AskAll(asked, base, QueryAsker(tools, model, callTool))
      ensures requests == initial + AskAll(asked + [query], base, QueryAsker(tools, model, callTool))
    {
      ghost var before := requests;
      var _ := ProcessQuery(query, model, callTool);
      assert QueryAsker(tools, model, callTool)(query, |before|) == QueryRequests(query, tools, |before|, model, callTool);
      AskedOneMore(initial, asked, query, base, QueryAsker(tools, model, callTool), before, requests);
    }

    /**
     * `chat_loop()` for `fuel` rounds over the input `lines`, with the
     * deletion of the history collection answering `deleteCollection`:
     * whether it left the loop, and the queries it processed.
     */
    method ChatLoop(lines: seq<string>, deleteCollection: Result<(), string>, model: (nat, Request) -> seq<Block>,
                    callTool: (string, Json) -> Result<Json, string>, fuel: nat) returns (left: bool, asked: seq<string>)
      modifies this`messageContext, this`requests
      ensures (left, asked) == Chat(Inputs(lines), deleteCollection.Success?, fuel)
      ensures requests == old(requests) + AskAll(asked, old(|requests|), QueryAsker(tools, model, callTool))
    {
      ghost var ins := Inputs(lines);
      ghost var ok := deleteCollection.Success?;
      ghost var base := |requests|;
      left, asked := false, [];
      ChatStarts(ins, ok, fuel);
      var i := 0;
      while i < |lines| && i < fuel
        invariant 0 <= i <= |lines| && i <= fuel
        invariant ChatFrom(ins, ok, fuel, i, asked)
        invariant requests == old(requests) + AskAll(asked, base, QueryAsker(tools, model, callTool))
      {
        var input := Classify(lines[i]);
        InputAt(lines, i);
        match input {
          case QuitLine =>
            if deleteCollection.Success? {
              ChatLeaves(ins, fuel, i, asked);
              return true, asked;
            }
            ChatSkipsQuit(ins, fuel, i, asked);
          case QueryLine(query) =>
            ChatAsks(ins, ok, fuel, i, asked);
            Ask(query, model, callTool, old(requests), base, asked);
            asked := asked + [query];
        }
        i := i + 1;
      }
      ChatStops(ins, ok, fuel, i, asked);
    }
  }
}
