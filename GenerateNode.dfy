/**
 * The response-generation node of the conversation graph
 * (ai-service/app/services/brain/nodes/generate.py).
 *
 * The node converts the graph's messages to the language model's chat
 * format (human messages become "user", AI messages "assistant", plain
 * dictionaries pass through, anything else is dropped), puts the persona's
 * system message in front, asks the language model, and returns its text
 * as one AI message together with its emotion. The language model is a
 * function parameter.
 */
module GenerateNode {
  import opened Base
  import opened Prompter

  /** A message in the graph's state. */
  datatype BrainMessage =
    | HumanMessage(content: string)
    | AIMessage(content: string)
    | DictMessage(message: ChatMessage)
    | OtherMessage

  /** What `llm_service.generate` returns: the reply text and its emotion. */
  datatype LlmReply = LlmReply(text: string, emotion: string)

  /** The node's result: the new messages and the emotion. */
  datatype NodeOutput = NodeOutput(messages: seq<BrainMessage>, emotion: string)

  predicate Kept(m: BrainMessage) {
    !m.OtherMessage?
  }

  /** The chat form of one kept message. */
  function ChatForm(m: BrainMessage): ChatMessage
    requires Kept(m)
  {
    match m
    case HumanMessage(c) => ChatMessage("user", c)
    case AIMessage(c) => ChatMessage("assistant", c)
    case DictMessage(d) => d
  }

  /** The reformatted list the loop builds: kept messages in chat form, in order. */
  function Reformat(msgs: seq<BrainMessage>): seq<ChatMessage> {
    if msgs == [] then []
    else
      var last := msgs[|msgs| - 1];
      Reformat(msgs[..|msgs| - 1]) + (if Kept(last) then [ChatForm(last)] else [])
  }

  /** Reformatting never makes the list longer, and keeps its length when nothing is dropped. */
  lemma {:induction false} ReformatLength(msgs: seq<BrainMessage>)
    ensures |Reformat(msgs)| <= |msgs|
    ensures (forall i :: 0 <= i < |msgs| ==> Kept(msgs[i])) ==> |Reformat(msgs)| == |msgs|
  {
    if msgs != [] {
      var init := msgs[..|msgs| - 1];
      ReformatLength(init);
      if forall i :: 0 <= i < |msgs| ==> Kept(msgs[i]) {
        assert forall i :: 0 <= i < |init| ==> init[i] == msgs[i];
      }
    }
  }

  /** Reformatting works message by message: the kept messages keep their relative order. */
  lemma {:induction false} ReformatAppend(a: seq<BrainMessage>, b: seq<BrainMessage>)
    ensures Reformat(a + b) == Reformat(a) + Reformat(b)
    decreases |b|
  {
    if b == [] {
      assert a + b == a;
    } else {
      var b' := b[..|b| - 1];
      var ab := a + b;
      assert ab[..|ab| - 1] == a + b';
      assert ab[|ab| - 1] == b[|b| - 1];
      ReformatAppend(a, b');
    }
  }

  /** Human and AI messages get their roles with the content copied, dictionaries pass unchanged, others vanish. */
  lemma {:induction false} ReformatOne(m: BrainMessage)
    ensures m.HumanMessage? ==> Reformat([m]) == [ChatMessage("user", m.content)]
    ensures m.AIMessage? ==> Reformat([m]) == [ChatMessage("assistant", m.content)]
    ensures m.DictMessage? ==> Reformat([m]) == [m.message]
    ensures m.OtherMessage? ==> Reformat([m]) == []
  {
    assert [m][..0] == [];
  }

  /** When nothing is dropped, position i of the result is the chat form of message i. */
  lemma {:induction false} ReformatAllKept(msgs: seq<BrainMessage>)
    requires forall i :: 0 <= i < |msgs| ==> Kept(msgs[i])
    ensures |Reformat(msgs)| == |msgs|
    ensures forall i :: 0 <= i < |msgs| ==> Reformat(msgs)[i] == ChatForm(msgs[i])
  {
    if msgs != [] {
      var init := msgs[..|msgs| - 1];
      assert forall i :: 0 <= i < |init| ==> init[i] == msgs[i];
      ReformatAllKept(init);
    }
  }

  /** The list sent to the language model: the system message, then the reformatted messages. */
  function Sent(system: ChatMessage, msgs: seq<BrainMessage>): (r: seq<ChatMessage>)
    ensures |r| == 1 + |Reformat(msgs)| && r[0] == system && r[1..] == Reformat(msgs)
  {
    [system] + Reformat(msgs)
  }

  /**
   * `generate_response`: the loop reformats the messages, the system message
   * from `prompter.build("")` is inserted at index 0, and the reply becomes a
   * single AI message with the reply's emotion. None where building the
   * system prompt raises.
   */
  method GenerateResponse(msgs: seq<BrainMessage>, prompter: Prompter, now: string, generate: seq<ChatMessage> -> LlmReply)
    returns (out: Option<NodeOutput>)
    ensures out.Some? <==> prompter.SystemMessage(now).Some?
    ensures out.Some? ==>
      var reply := generate(Sent(prompter.SystemMessage(now).value, msgs));
      out.value == NodeOutput([AIMessage(reply.text)], reply.emotion)
  {
    var formatted: seq<ChatMessage> := [];
    var i := 0;
    while i < |msgs|
      invariant 0 <= i <= |msgs|
      invariant formatted == Reformat(msgs[..i])
    {
      assert msgs[..i + 1][..i] == msgs[..i];
      var m := msgs[i];
      if m.HumanMessage? {
        formatted := formatted + [ChatMessage("user", m.content)];
      } else if m.AIMessage? {
        formatted := formatted + [ChatMessage("assistant", m.content)];
      } else if m.DictMessage? {
        formatted := formatted + [m.message];
      }
      i := i + 1;
    }
    assert msgs[..i] == msgs;
    var built := prompter.Build("", None, now);
    if built.None? {
      return None;
    }
    var system := built.value[0];
    formatted := [system] + formatted;
    var reply := generate(formatted);
    out := Some(NodeOutput([AIMessage(reply.text)], reply.emotion));
  }
}
