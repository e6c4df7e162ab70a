/**
 * The message shapes the front end exchanges with the agent: the LangGraph
 * `Message` as this code uses it, the `ToolCall` and `StreamEvent` records of
 * useDataStream.tsx, and the rule that attaches a tool's result to the call
 * that asked for it.  That rule is shared by the live stream reducer and by
 * the history loader, which apply it in the same way.
 */
module Messages {
  import opened Wrappers

  /**
   * A JSON value the code passes along without looking inside it: its
   * serialized form, and the string JavaScript's `+` turns it into
   * (`"[object Object]"` for an object, the comma-joined elements for an
   * array).
   */
  datatype Json = Json(repr: string, shown: string)

  /** A message's `content`: a string, or some other JSON value. */
  datatype Content = Text(text: string) | Structured(value: Json)

  /** The string `content + token` starts with: the text itself, or the value's string form. */
  function AsString(c: Content): (r: string)
    ensures c.Text? ==> r == c.text
    ensures c.Structured? ==> r == c.value.shown
  {
    match c
    case Text(t) => t
    case Structured(v) => v.shown
  }

  /** A message's `type` field; `OtherRole` is any other value, or none. */
  datatype Role = Human | Ai | Tool | OtherRole(name: string)

  /**
   * A message's `id`: absent, given by the sender, or the n-th value the
   * client drew from `Date.now()` and `Math.random()`.
   */
  datatype MessageId = NoId | Given(value: string) | Fresh(n: nat)

  /**
   * A tool call request (`name`, `args`, `id`), with the `content` field the
   * client writes onto it once the tool's result arrives.
   */
  datatype ToolCall = ToolCall(name: string, args: Json, id: string, result: Option<Content>)

  /**
   * A transcript message.  An absent `tool_calls` field is the empty list:
   * the code treats both alike.
   */
  datatype Message = Message(
    role: Role,
    content: Content,
    toolCalls: seq<ToolCall>,
    toolCallId: Option<string>,
    id: MessageId)

  /** The `type` field of a `StreamEvent`. */
  datatype EventType = ToolCallEvent | ToolResultEvent | TokenEvent | ErrorEvent

  /**
   * A `StreamEvent`; its `content` is modelled as the string the renderer
   * shows for it (the string itself, or its JSON text).
   */
  datatype StreamEvent = StreamEvent(
    id: string,
    kind: EventType,
    content: string,
    timestamp: string,
    chunkId: Option<int>,
    toolCalls: Option<seq<ToolCall>>)

  /** An AI message that requests at least one tool call. */
  predicate CallsTools(m: Message)
  {
    m.role == Ai && |m.toolCalls| > 0
  }

  /** A `tool_call_id` that JavaScript treats as true: present and non-empty. */
  predicate IsKey(id: Option<string>)
  {
    id.Some? && id.value != ""
  }

  /** `calls.find(c => c.id === callId)`, as an index. */
  function FirstMatch(calls: seq<ToolCall>, callId: string): (r: Option<nat>)
    ensures r.Some? ==> r.value < |calls| && calls[r.value].id == callId
    ensures r.Some? ==> forall i :: 0 <= i < r.value ==> calls[i].id != callId
    ensures r.None? ==> forall i :: 0 <= i < |calls| ==> calls[i].id != callId
  {
    if |calls| == 0 then None
    else if calls[0].id == callId then Some(0)
    else match FirstMatch(calls[1..], callId)
      case None => None
      case Some(i) => Some(i + 1)
  }

  /** Writes `v` as the result of the first call whose id is `callId`. */
  function SetResult(calls: seq<ToolCall>, callId: string, v: Content): (r: seq<ToolCall>)
    ensures |r| == |calls|
    ensures forall i :: 0 <= i < |r| ==>
      r[i] == if FirstMatch(calls, callId) == Some(i) then calls[i].(result := Some(v)) else calls[i]
  {
    match FirstMatch(calls, callId)
    case None => calls
    case Some(j) => calls[j := calls[j].(result := Some(v))]
  }

  /** The tool-result rule on one message: only AI messages with tool calls are touched. */
  function AttachToMessage(m: Message, callId: string, v: Content): Message
  {
    if CallsTools(m) then m.(toolCalls := SetResult(m.toolCalls, callId, v)) else m
  }

  /**
   * The tool-result rule on a transcript: in every AI message that has tool
   * calls, the first call whose id is `callId` gets `v` as its result.  No
   * message is added, removed or moved, and nothing else changes.
   */
  function AttachResult(msgs: seq<Message>, callId: string, v: Content): (r: seq<Message>)
    ensures |r| == |msgs|
    ensures forall k :: 0 <= k < |r| ==>
      && r[k].role == msgs[k].role && r[k].content == msgs[k].content
      && r[k].toolCallId == msgs[k].toolCallId && r[k].id == msgs[k].id
      && |r[k].toolCalls| == |msgs[k].toolCalls|
    ensures forall k, i :: 0 <= k < |r| && 0 <= i < |r[k].toolCalls| ==>
      r[k].toolCalls[i] ==
        if CallsTools(msgs[k]) && FirstMatch(msgs[k].toolCalls, callId) == Some(i)
        then msgs[k].toolCalls[i].(result := Some(v))
        else msgs[k].toolCalls[i]
  {
    seq(|msgs|, k requires 0 <= k < |msgs| => AttachToMessage(msgs[k], callId, v))
  }

  /** The message with every tool-call result erased: what attaching cannot change. */
  function Shape(m: Message): Message
  {
    m.(toolCalls := seq(|m.toolCalls|, i requires 0 <= i < |m.toolCalls| => m.toolCalls[i].(result := None)))
  }

  /** Attaching a result changes no message's shape. */
  lemma AttachKeepsShape(msgs: seq<Message>, callId: string, v: Content)
    ensures |AttachResult(msgs, callId, v)| == |msgs|
    ensures forall k :: 0 <= k < |msgs| ==> Shape(AttachResult(msgs, callId, v)[k]) == Shape(msgs[k])
  {
    var r := AttachResult(msgs, callId, v);
    forall k | 0 <= k < |msgs|
      ensures Shape(r[k]) == Shape(msgs[k])
    {
      assert Shape(r[k]).toolCalls == Shape(msgs[k]).toolCalls;
    }
  }

  /** No message holds a call with this id among those the rule looks at. */
  predicate NoCallWithId(msgs: seq<Message>, callId: string)
  {
    forall k, i :: 0 <= k < |msgs| && CallsTools(msgs[k]) && 0 <= i < |msgs[k].toolCalls| ==>
      msgs[k].toolCalls[i].id != callId
  }

  /** A result whose id matches no call is dropped: the transcript is unchanged. */
  lemma AttachUnmatched(msgs: seq<Message>, callId: string, v: Content)
    requires NoCallWithId(msgs, callId)
    ensures AttachResult(msgs, callId, v) == msgs
  {
    var r := AttachResult(msgs, callId, v);
    forall k | 0 <= k < |msgs|
      ensures r[k] == msgs[k]
    {
      if CallsTools(msgs[k]) {
        assert FirstMatch(msgs[k].toolCalls, callId).None?;
        assert r[k].toolCalls == msgs[k].toolCalls;
      }
    }
  }

  /** A second result for the same id overwrites the first: last write wins. */
  lemma AttachOverwrites(msgs: seq<Message>, callId: string, v1: Content, v2: Content)
    ensures AttachResult(AttachResult(msgs, callId, v1), callId, v2) == AttachResult(msgs, callId, v2)
  {
    var a := AttachResult(msgs, callId, v1);
    var b := AttachResult(a, callId, v2);
    var c := AttachResult(msgs, callId, v2);
    forall k | 0 <= k < |msgs|
      ensures b[k] == c[k]
    {
      if CallsTools(msgs[k]) {
        FirstMatchIgnoresResults(msgs[k].toolCalls, a[k].toolCalls, callId);
        assert b[k].toolCalls == c[k].toolCalls;
      }
    }
  }

  /** `find` looks only at ids, so changing results does not move the first match. */
  lemma {:induction false} FirstMatchIgnoresResults(xs: seq<ToolCall>, ys: seq<ToolCall>, callId: string)
    requires |xs| == |ys| && forall i :: 0 <= i < |xs| ==> xs[i].id == ys[i].id
    ensures FirstMatch(xs, callId) == FirstMatch(ys, callId)
  {
    if |xs| > 0 && xs[0].id != callId {
      FirstMatchIgnoresResults(xs[1..], ys[1..], callId);
    }
  }

  /** Attaching distributes over concatenation of transcripts. */
  lemma AttachAppend(a: seq<Message>, b: seq<Message>, callId: string, v: Content)
    ensures AttachResult(a + b, callId, v) == AttachResult(a, callId, v) + AttachResult(b, callId, v)
  {
  }

  /**
   * Attaches `v` to the first matching call in every AI message with tool
   * calls, one message at a time (the `forEach` / index loop over the list).
   */
  method AttachAll(msgs: seq<Message>, callId: string, v: Content) returns (r: seq<Message>)
    ensures r == AttachResult(msgs, callId, v)
  {
    r := msgs;
    var i := 0;
    while i < |r|
      invariant 0 <= i <= |r| == |msgs|
      invariant forall k :: 0 <= k < i ==> r[k] == AttachToMessage(msgs[k], callId, v)
      invariant forall k :: i <= k < |r| ==> r[k] == msgs[k]
    {
      var m := r[i];
      if m.role == Ai && |m.toolCalls| > 0 {
        var j := FirstMatch(m.toolCalls, callId);
        if j.Some? {
          var call := m.toolCalls[j.value];
          r := r[i := m.(toolCalls := m.toolCalls[j.value := call.(result := Some(v))])];
        }
      }
      assert r[i] == AttachToMessage(msgs[i], callId, v);
      i := i + 1;
    }
    assert forall k :: 0 <= k < |r| ==> r[k] == AttachResult(msgs, callId, v)[k];
  }
}
