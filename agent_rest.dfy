/**
 * History correlation of agent-rest.ts: `combineToolCallandResult`, which
 * folds a thread's stored messages into the transcript the chat view shows
 * by dropping tool messages and writing each tool's result onto the call
 * that asked for it, and the per-thread mapping of `getAllThreadsByUserId`.
 */
module AgentRest {
  import opened Wrappers
  import opened Messages

  /** A thread as returned by the history endpoint, with the id the client sets on it. */
  datatype Thread = Thread(id: string, messages: seq<Message>)

  /** One message of the `forEach` (lines 14-33): a non-tool message is kept, a tool message is attached. */
  function Absorb(acc: seq<Message>, m: Message): (r: seq<Message>)
    ensures |r| == |acc| + (if m.role != Tool then 1 else 0)
    ensures m.role != Tool ==> r[|acc|] == m
  {
    if m.role != Tool then acc + [m]
    else if IsKey(m.toolCallId) then AttachResult(acc, m.toolCallId.value, m.content)
    else acc
  }

  /** The combined transcript: the messages absorbed from first to last. */
  function Combined(msgs: seq<Message>): (r: seq<Message>)
    ensures |r| <= |msgs|
  {
    if msgs == [] then [] else Absorb(Combined(msgs[..|msgs| - 1]), msgs[|msgs| - 1])
  }

  /** Absorbing a message leaves every earlier message's sender, content and id alone. */
  lemma AbsorbKeeps(acc: seq<Message>, m: Message)
    ensures forall k :: 0 <= k < |acc| ==>
      && Absorb(acc, m)[k].role == acc[k].role
      && Absorb(acc, m)[k].content == acc[k].content
      && Absorb(acc, m)[k].id == acc[k].id
  {
  }

  /** No tool message survives the combiner. */
  lemma {:induction false} CombinedHasNoTool(msgs: seq<Message>)
    ensures forall k :: 0 <= k < |Combined(msgs)| ==> Combined(msgs)[k].role != Tool
  {
    if msgs != [] {
      var init := msgs[..|msgs| - 1];
      CombinedHasNoTool(init);
      AbsorbKeeps(Combined(init), msgs[|msgs| - 1]);
    }
  }

  /** The messages that are not tool messages, in order. */
  function NonTool(msgs: seq<Message>): (r: seq<Message>)
    ensures |r| <= |msgs|
    ensures forall k :: 0 <= k < |r| ==> r[k].role != Tool
  {
    if msgs == [] then []
    else NonTool(msgs[..|msgs| - 1]) + (if msgs[|msgs| - 1].role != Tool then [msgs[|msgs| - 1]] else [])
  }

  /** `combineToolCallandResult` (lines 12-36). */
  method CombineToolCallAndResult(messages: seq<Message>) returns (newMessages: seq<Message>)
    ensures newMessages == Combined(messages)
  {
    newMessages := [];
    var n := 0;
    while n < |messages|
      invariant 0 <= n <= |messages|
      invariant newMessages == Combined(messages[..n])
    {
      var message := messages[n];
      assert messages[..n + 1][..n] == messages[..n];
      if message.role != Tool {
        newMessages := newMessages + [message];
      } else {
        newMessages := WriteResult(newMessages, message);
      }
      n := n + 1;
    }
    assert messages[..n] == messages;
  }

  /**
   * Lines 19-31, the inner loop for one tool message: every AI message with
   * calls gets the result written onto its first call with the message's id.
   */
  method WriteResult(msgs: seq<Message>, message: Message) returns (newMessages: seq<Message>)
    requires message.role == Tool
    ensures newMessages == Absorb(msgs, message)
  {
    newMessages := msgs;
    var toolCallId := message.toolCallId;
    ghost var target := Absorb(msgs, message);
    var i := 0;
    while i < |newMessages|
      invariant 0 <= i <= |newMessages| == |msgs|
      invariant forall k :: 0 <= k < i ==> newMessages[k] == target[k]
      invariant forall k :: i <= k < |newMessages| ==> newMessages[k] == msgs[k]
    {
      var m := newMessages[i];
      if m.role == Ai {
        if |m.toolCalls| > 0 && toolCallId.Some? && toolCallId.value != "" {
          var j := FirstMatch(m.toolCalls, toolCallId.value);
          if j.Some? {
            var toolCall := m.toolCalls[j.value];
            newMessages := newMessages[i := m.(toolCalls := m.toolCalls[j.value := toolCall.(result := Some(message.content))])];
          }
        }
      }
      assert newMessages[i] == target[i];
      i := i + 1;
    }
  }

  /**
   * The combined transcript is the input without its tool messages, each
   * kept message in the same place and unchanged but for tool-call results.
   */
  lemma {:induction false} CombinedShape(msgs: seq<Message>)
    ensures |Combined(msgs)| == |NonTool(msgs)|
    ensures forall k :: 0 <= k < |NonTool(msgs)| ==> Shape(Combined(msgs)[k]) == Shape(NonTool(msgs)[k])
  {
    if msgs != [] {
      var init := msgs[..|msgs| - 1];
      var m := msgs[|msgs| - 1];
      CombinedShape(init);
      if m.role == Tool && IsKey(m.toolCallId) {
        AttachKeepsShape(Combined(init), m.toolCallId.value, m.content);
      }
    }
  }

  /** Messages that are not tool messages pass through the combiner unchanged when no result follows. */
  lemma {:induction false} CombinedWithoutTools(msgs: seq<Message>)
    requires forall k :: 0 <= k < |msgs| ==> msgs[k].role != Tool
    ensures Combined(msgs) == msgs
  {
    if msgs != [] {
      CombinedWithoutTools(msgs[..|msgs| - 1]);
      assert msgs[..|msgs| - 1] + [msgs[|msgs| - 1]] == msgs;
    }
  }

  /** The combiner never sees a call in a later message: ids of calls are those of the kept messages. */
  lemma NoCallKept(msgs: seq<Message>, callId: string)
    requires NoCallWithId(msgs, callId)
    ensures NoCallWithId(Combined(msgs), callId)
  {
    CombinedShape(msgs);
    NonToolCalls(msgs, callId);
    var c := Combined(msgs);
    var nt := NonTool(msgs);
    forall k, i | 0 <= k < |c| && CallsTools(c[k]) && 0 <= i < |c[k].toolCalls|
      ensures c[k].toolCalls[i].id != callId
    {
      assert Shape(c[k]) == Shape(nt[k]);
      assert Shape(c[k]).toolCalls[i] == c[k].toolCalls[i].(result := None);
      assert c[k].toolCalls[i].id == Shape(nt[k]).toolCalls[i].id == nt[k].toolCalls[i].id;
    }
  }

  /** Filtering keeps the absence of a call id. */
  lemma {:induction false} NonToolCalls(msgs: seq<Message>, callId: string)
    requires NoCallWithId(msgs, callId)
    ensures NoCallWithId(NonTool(msgs), callId)
  {
    if msgs != [] {
      var init := msgs[..|msgs| - 1];
      assert NoCallWithId(init, callId) by {
        forall k, i | 0 <= k < |init| && CallsTools(init[k]) && 0 <= i < |init[k].toolCalls|
          ensures init[k].toolCalls[i].id != callId
        {
          assert init[k] == msgs[k];
        }
      }
      NonToolCalls(init, callId);
    }
  }

  /**
   * A tool result that arrives before its call is never attached: only the
   * messages already combined are scanned.
   */
  lemma ResultBeforeCall(pre: seq<Message>, tool: Message)
    requires tool.role == Tool && IsKey(tool.toolCallId)
    requires NoCallWithId(pre, tool.toolCallId.value)
    ensures Combined(pre + [tool]) == Combined(pre)
  {
    var msgs := pre + [tool];
    assert msgs[..|msgs| - 1] == pre;
    NoCallKept(pre, tool.toolCallId.value);
    AttachUnmatched(Combined(pre), tool.toolCallId.value, tool.content);
  }

  /** A tool message without a usable `tool_call_id` is dropped and attaches nothing. */
  lemma ResultWithoutId(pre: seq<Message>, tool: Message)
    requires tool.role == Tool && !IsKey(tool.toolCallId)
    ensures Combined(pre + [tool]) == Combined(pre)
  {
    var msgs := pre + [tool];
    assert msgs[..|msgs| - 1] == pre;
  }

  /** Two results for the same id: the later one overwrites the earlier. */
  lemma LaterResultWins(pre: seq<Message>, first: Message, second: Message)
    requires first.role == Tool && second.role == Tool && IsKey(first.toolCallId)
    requires second.toolCallId == first.toolCallId
    ensures Combined(pre + [first, second]) == Combined(pre + [second])
  {
    var id := first.toolCallId.value;
    var a := pre + [first, second];
    var b := pre + [second];
    assert a[..|a| - 1] == pre + [first];
    assert (pre + [first])[..|pre|] == pre;
    assert b[..|b| - 1] == pre;
    AttachOverwrites(Combined(pre), id, first.content, second.content);
  }

  /**
   * A call followed by its result: the call is kept with the result written
   * on it, and every message before it is unchanged.
   */
  lemma CallThenResult(pre: seq<Message>, call: ToolCall, v: Content, msgId: MessageId, toolId: MessageId)
    requires call.id != "" && NoCallWithId(pre, call.id)
    ensures var m := Message(Ai, Text(""), [call], None, msgId);
      var tool := Message(Tool, v, [], Some(call.id), toolId);
      Combined(pre + [m, tool]) == Combined(pre) + [m.(toolCalls := [call.(result := Some(v))])]
  {
    var m := Message(Ai, Text(""), [call], None, msgId);
    var tool := Message(Tool, v, [], Some(call.id), toolId);
    var a := pre + [m, tool];
    assert a[..|a| - 1] == pre + [m];
    assert (pre + [m])[..|pre|] == pre;
    NoCallKept(pre, call.id);
    AttachAppend(Combined(pre), [m], call.id, v);
    AttachUnmatched(Combined(pre), call.id, v);
    assert FirstMatch(m.toolCalls, call.id) == Some(0);
    assert SetResult(m.toolCalls, call.id, v) == [call.(result := Some(v))];
  }

  /** Lines 83-88: every thread keeps its id and place; only its messages are combined. */
  function TransformThreads(threads: seq<Thread>): (r: seq<Thread>)
    ensures |r| == |threads|
    ensures forall i :: 0 <= i < |r| ==> r[i].id == threads[i].id && |r[i].messages| == |NonTool(threads[i].messages)|
    ensures forall i :: 0 <= i < |r| ==> r[i] == threads[i].(messages := Combined(threads[i].messages))
  {
    seq(|threads|, i requires 0 <= i < |threads| => CombineThread(threads[i]))
  }

  /** One thread of the mapping. */
  function CombineThread(th: Thread): (r: Thread)
    ensures r.id == th.id && |r.messages| == |NonTool(th.messages)|
  {
    CombinedShape(th.messages);
    th.(messages := Combined(th.messages))
  }
}
