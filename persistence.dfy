/**
 * The normalisation step of `MCPClient.log_conversation`: every message becomes
 * `{"role", "content"}` with list elements turned into plain dicts before the
 * JSON dump. The file write itself is not modelled.
 */
module Persistence {
  import opened Wrappers
  import opened Transcript

  /** One list element: `to_dict()`, else `dict()`, else `model_dump()`, else the element unchanged. */
  function NormalizeItem(it: Item): (r: Item)
    ensures it.toDict.Some? ==> r == Plain(it.toDict.value)
    ensures it.toDict.None? && it.asDict.Some? ==> r == Plain(it.asDict.value)
    ensures it.toDict.None? && it.asDict.None? && it.modelDump.Some? ==> r == Plain(it.modelDump.value)
    ensures IsPlain(it) ==> r == it
  {
    if it.toDict.Some? then Plain(it.toDict.value)
    else if it.asDict.Some? then Plain(it.asDict.value)
    else if it.modelDump.Some? then Plain(it.modelDump.value)
    else it
  }

  /** The serialisable form of one message: string content as is, list content element by element, anything else an empty list. */
  function NormalizeMessage(m: Message): Message {
    Message(m.role,
      match m.content
      case Str(s) => Str(s)
      case Items(items) => Items(seq(|items|, k requires 0 <= k < |items| => NormalizeItem(items[k])))
      case OtherContent => Items([]))
  }

  /** The list `log_conversation` dumps for a transcript. */
  function NormalizeTranscript(ms: seq<Message>): seq<Message> {
    seq(|ms|, k requires 0 <= k < |ms| => NormalizeMessage(ms[k]))
  }

  /**
   * The loops of `log_conversation` that build `serializable_conversation`:
   * the outer one over the messages, the inner one over a list content.
   */
  method SerializeConversation(messages: seq<Message>) returns (conversation: seq<Message>)
    ensures conversation == NormalizeTranscript(messages)
  {
    conversation := [];
    var i := 0;
    while i < |messages|
      invariant 0 <= i <= |messages|
      invariant conversation == NormalizeTranscript(messages[..i])
    {
      var message := messages[i];
      var content: Content := Items([]);
      match message.content {
        case Str(s) =>
          content := Str(s);
        case Items(items) =>
          var out: seq<Item> := [];
          var j := 0;
          while j < |items|
            invariant 0 <= j <= |items|
            invariant |out| == j
            invariant forall k :: 0 <= k < j ==> out[k] == NormalizeItem(items[k])
          {
            var item := items[j];
            if item.toDict.Some? {
              out := out + [Plain(item.toDict.value)];
            } else if item.asDict.Some? {
              out := out + [Plain(item.asDict.value)];
            } else if item.modelDump.Some? {
              out := out + [Plain(item.modelDump.value)];
            } else {
              out := out + [item];
            }
            j := j + 1;
          }
          assert out == seq(|items|, k requires 0 <= k < |items| => NormalizeItem(items[k]));
          content := Items(out);
        case OtherContent =>
      }
      assert Message(message.role, content) == NormalizeMessage(message);
      assert messages[..i + 1] == messages[..i] + [message];
      conversation := conversation + [Message(message.role, content)];
      i := i + 1;
    }
    assert messages[..i] == messages;
  }

  /** Same length and order as the transcript, each role kept, strings copied, lists mapped element by element. */
  lemma NormalizeTranscriptShape(ms: seq<Message>)
    ensures var r := NormalizeTranscript(ms);
      |r| == |ms| &&
      forall k :: 0 <= k < |ms| ==>
        && r[k].role == ms[k].role
        && (ms[k].content.Str? ==> r[k].content == ms[k].content)
        && (ms[k].content.Items? ==> r[k].content.Items? && |r[k].content.items| == |ms[k].content.items|)
  {
  }

  /** Elements without any of the three methods pass through unchanged. */
  lemma NormalizeKeepsPlainItems(m: Message, j: nat)
    requires m.content.Items? && j < |m.content.items| && IsPlain(m.content.items[j])
    ensures NormalizeMessage(m).content.items[j] == m.content.items[j]
  {
  }

  /** Normalising produces plain dicts only, so normalising again changes nothing. */
  lemma {:induction false} NormalizeIdempotent(ms: seq<Message>)
    ensures AllPlain(NormalizeTranscript(ms))
    ensures NormalizeTranscript(NormalizeTranscript(ms)) == NormalizeTranscript(ms)
  {
    var r := NormalizeTranscript(ms);
    forall k | 0 <= k < |r| ensures PlainMessage(r[k]) && NormalizeMessage(r[k]) == r[k] {
      NormalizeMessageFixed(r[k]);
    }
  }

  /** A transcript of plain dicts and strings is dumped as it is. */
  lemma {:induction false} NormalizePlainTranscript(ms: seq<Message>)
    requires AllPlain(ms)
    ensures NormalizeTranscript(ms) == ms
  {
    forall k | 0 <= k < |ms| ensures NormalizeMessage(ms[k]) == ms[k] {
      NormalizeMessageFixed(ms[k]);
    }
  }

  lemma NormalizeMessageFixed(m: Message)
    requires PlainMessage(m)
    ensures NormalizeMessage(m) == m
  {
    if m.content.Items? {
      assert NormalizeMessage(m).content.items == m.content.items;
    }
  }
}
