/**
 * The conversation data that flows between the chat clients, the model
 * providers and the tool server: JSON values, content blocks, messages and
 * tool descriptions.
 */
module Transcript {
  import opened Wrappers

  /** A JSON value; objects keep the insertion order of their keys, as Python dicts do. */
  datatype Json =
    | JNull
    | JBool(b: bool)
    | JInt(i: int)
    | JStr(s: string)
    | JArr(elems: seq<Json>)
    | JObj(fields: seq<(string, Json)>)

  /** One content block: the `type` tag of the provider SDK becomes the constructor. */
  datatype Block =
    | TextBlock(text: string)
    | ToolUseBlock(id: string, name: string, input: Json)
    | ToolResultBlock(toolUseId: string, content: Json)

  /**
   * An element of a message's content list. `value` is the element itself; the
   * three options are what its `to_dict()`, `dict()` and `model_dump()` methods
   * return when the element has them (a plain dict has none of the three).
   */
  datatype Item = Item(value: Block, toDict: Option<Block>, asDict: Option<Block>, modelDump: Option<Block>)

  /** A message's `content`: a string, a list, or any other Python value. */
  datatype Content = Str(s: string) | Items(items: seq<Item>) | OtherContent

  datatype Role = User | Assistant

  datatype Message = Message(role: Role, content: Content)

  /** An MCP tool as the server lists it. */
  datatype Tool = Tool(name: string, description: string, inputSchema: seq<(string, Json)>)

  /** A plain dict element: none of the three serialisation methods. */
  function Plain(b: Block): (it: Item)
    ensures it.value == b && it.toDict.None? && it.asDict.None? && it.modelDump.None?
  {
    Item(b, None, None, None)
  }

  predicate IsPlain(it: Item) {
    it.toDict.None? && it.asDict.None? && it.modelDump.None?
  }

  function PlainItems(blocks: seq<Block>): (items: seq<Item>)
    ensures |items| == |blocks|
    ensures forall k :: 0 <= k < |blocks| ==> items[k] == Plain(blocks[k])
  {
    seq(|blocks|, k requires 0 <= k < |blocks| => Plain(blocks[k]))
  }

  /** `{"role": "user", "content": query}` */
  function UserQuery(query: string): Message {
    Message(User, Str(query))
  }

  /** `{"role": "assistant", "content": text}` */
  function AssistantText(text: string): Message {
    Message(Assistant, Str(text))
  }

  /** `{"role": "assistant", "content": response.to_dict()["content"]}` */
  function AssistantBlocks(blocks: seq<Block>): Message {
    Message(Assistant, Items(PlainItems(blocks)))
  }

  /** `{"role": "user", "content": [{"type": "tool_result", "tool_use_id": id, "content": c}]}` */
  function ToolResultMessage(id: string, content: Json): Message {
    Message(User, Items([Plain(ToolResultBlock(id, content))]))
  }

  /** The `tool_use` blocks among `blocks`, in order. */
  function ToolUses(blocks: seq<Block>): (uses: seq<Block>)
    ensures |uses| <= |blocks|
    ensures forall k :: 0 <= k < |uses| ==> uses[k].ToolUseBlock?
  {
    if blocks == [] then []
    else (if blocks[0].ToolUseBlock? then [blocks[0]] else []) + ToolUses(blocks[1..])
  }

  /** The ids of the `tool_use` blocks among `blocks`, in order. */
  function ToolUseIds(blocks: seq<Block>): (ids: seq<string>)
    ensures |ids| == |ToolUses(blocks)|
  {
    var uses := ToolUses(blocks);
    seq(|uses|, k requires 0 <= k < |uses| => uses[k].id)
  }

  lemma {:induction false} ToolUsesAppend(a: seq<Block>, b: seq<Block>)
    ensures ToolUses(a + b) == ToolUses(a) + ToolUses(b)
  {
    if a == [] {
      assert a + b == b;
    } else {
      assert (a + b)[0] == a[0];
      assert (a + b)[1..] == a[1..] + b;
      ToolUsesAppend(a[1..], b);
    }
  }

  /** The ids of the `tool_use` elements of a content list, in order. */
  function ItemToolUseIds(items: seq<Item>): seq<string> {
    if items == [] then []
    else (if items[0].value.ToolUseBlock? then [items[0].value.id] else []) + ItemToolUseIds(items[1..])
  }

  lemma {:induction false} PlainItemsToolUseIds(blocks: seq<Block>)
    ensures ItemToolUseIds(PlainItems(blocks)) == ToolUseIds(blocks)
  {
    if blocks != [] {
      assert PlainItems(blocks)[1..] == PlainItems(blocks[1..]);
      PlainItemsToolUseIds(blocks[1..]);
      var head := if blocks[0].ToolUseBlock? then [blocks[0].id] else [];
      assert ToolUseIds(blocks) == head + ToolUseIds(blocks[1..]);
    }
  }

  /** A string, or a list of plain dicts. */
  predicate PlainMessage(m: Message) {
    match m.content
    case Str(_) => true
    case Items(items) => forall j :: 0 <= j < |items| ==> IsPlain(items[j])
    case OtherContent => false
  }

  /** Every message content is a string or a list of plain dicts. */
  predicate AllPlain(ms: seq<Message>) {
    forall k :: 0 <= k < |ms| ==> PlainMessage(ms[k])
  }

  function CountRole(ms: seq<Message>, role: Role): (n: nat)
    ensures n <= |ms|
  {
    if ms == [] then 0 else CountRole(ms[..|ms| - 1], role) + (if ms[|ms| - 1].role == role then 1 else 0)
  }

  lemma CountRoleAppend(a: seq<Message>, b: seq<Message>, role: Role)
    ensures CountRole(a + b, role) == CountRole(a, role) + CountRole(b, role)
    decreases |b|
  {
    if b != [] {
      assert (a + b)[..|a + b| - 1] == a + b[..|b| - 1];
      CountRoleAppend(a, b[..|b| - 1], role);
    } else {
      assert a + b == a;
    }
  }
}
