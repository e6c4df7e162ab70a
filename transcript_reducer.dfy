/**
 * The transcript reducer of useDataStream.tsx (lines 143-213): the chunk
 * de-duplicator and the state machine that folds one parsed chunk into the
 * message list, driven by the single `isStreamingTokensRef` flag.
 */
module TranscriptReducer {
  import opened Wrappers
  import opened Text
  import opened Messages

  /** The chunk's `type` field. */
  datatype ChunkType = TokenType | MessageType | ErrorType | OtherType(name: string)

  /**
   * The chunk's `content` field: a string, a message object (any object;
   * one without a `type` has `OtherRole`), or another JSON value such as a
   * number or `null`.
   */
  datatype Payload = PText(text: string) | PMessage(message: Message) | POther(value: Json)

  /** A parsed chunk `{type, content, chunk_id}`. */
  datatype Chunk = Chunk(kind: ChunkType, content: Payload, chunkId: Option<int>)

  /** The outcome of `JSON.parse` on one block. */
  datatype Parsed = Malformed | Parsed(chunk: Chunk)

  /**
   * The reducer state: the message list, `isStreamingTokensRef`, the
   * `processedChunkIdsRef` set, and how many fresh message ids have been
   * drawn so far.
   */
  datatype Transcript = Transcript(messages: seq<Message>, streaming: bool, seen: set<int>, drawn: nat)

  /** The AI message a token run starts (`{type: "ai", content, tool_calls: []}`). */
  function TokenMessage(text: string, id: MessageId): Message
  {
    Message(Ai, Text(text), [], None, id)
  }

  /**
   * `newMessages[newMessages.length - 1].content += content`: the last
   * message's content becomes its string form followed by the token, so
   * structured content turns into text.  Appending to an empty list throws
   * in the source; the model leaves the list as it is.
   */
  function AppendToLast(msgs: seq<Message>, s: string): (r: seq<Message>)
    ensures |r| == |msgs|
    ensures |msgs| > 0 ==> r[..|r| - 1] == msgs[..|msgs| - 1]
    ensures |msgs| > 0 ==>
      r[|r| - 1] == msgs[|msgs| - 1].(content := Text(AsString(msgs[|msgs| - 1].content) + s))
    ensures |msgs| > 0 && msgs[|msgs| - 1].content.Text? ==>
      r[|r| - 1] == msgs[|msgs| - 1].(content := Text(msgs[|msgs| - 1].content.text + s))
  {
    if |msgs| == 0 then msgs
    else
      var last := msgs[|msgs| - 1];
      msgs[|msgs| - 1 := last.(content := Text(AsString(last.content) + s))]
  }

  /** One chunk that got past de-duplication (lines 156-209). */
  function Reduce(t: Transcript, c: Chunk): Transcript
  {
    if c.kind == MessageType && c.content.PMessage? then
      var m := c.content.message;
      if m.role == Human then t
      else if CallsTools(m) then t.(messages := t.messages + [m], streaming := false)
      else if m.role == Tool && IsKey(m.toolCallId) then
        t.(messages := AttachResult(t.messages, m.toolCallId.value, m.content), streaming := false)
      else t.(streaming := false)
    else if c.kind == TokenType && c.content.PText? then
      var s := c.content.text;
      if !t.streaming then
        t.(messages := t.messages + [TokenMessage(s, Fresh(t.drawn))], streaming := true, drawn := t.drawn + 1)
      else
        t.(messages := AppendToLast(t.messages, s))
    else t
  }

  /**
   * What one chunk can do: at most one message is added, and a fresh id is
   * drawn only for the message that opens a token run; a non-human message
   * chunk clears the flag; a chunk that is neither a message nor a text
   * token changes nothing.
   */
  lemma ReduceEffect(t: Transcript, c: Chunk)
    ensures var r := Reduce(t, c);
      && r.seen == t.seen
      && |t.messages| <= |r.messages| <= |t.messages| + 1
      && (r.drawn == t.drawn
          || (r.drawn == t.drawn + 1 && r.streaming && |r.messages| == |t.messages| + 1
              && r.messages[|t.messages|].id == Fresh(t.drawn)))
      && (c.kind == MessageType && c.content.PMessage? && c.content.message.role != Human ==> !r.streaming)
      && (!(c.kind == MessageType && c.content.PMessage?) && !(c.kind == TokenType && c.content.PText?) ==> r == t)
  {
  }

  /**
   * The reducer never removes a message and never changes who sent one or
   * its id: it only appends, attaches a result, or extends the last text.
   */
  lemma ReduceKeepsSenders(t: Transcript, c: Chunk)
    ensures forall k :: 0 <= k < |t.messages| ==>
      Reduce(t, c).messages[k].role == t.messages[k].role && Reduce(t, c).messages[k].id == t.messages[k].id
  {
  }

  /** The chunk has an id already recorded in this submission. */
  predicate IsDuplicate(t: Transcript, c: Chunk)
  {
    c.chunkId.Some? && c.chunkId.value in t.seen
  }

  /** Records a chunk id if it is truthy (present and non-zero). */
  function Record(seen: set<int>, id: Option<int>): set<int>
  {
    if id.Some? && id.value != 0 then seen + {id.value} else seen
  }

  /** A parsed block: skipped when malformed or a duplicate, otherwise recorded and reduced. */
  function Deliver(t: Transcript, p: Parsed): Transcript
  {
    match p
    case Malformed => t
    case Parsed(c) =>
      if IsDuplicate(t, c) then t
      else Reduce(t.(seen := Record(t.seen, c.chunkId)), c)
  }

  /** Delivers a sequence of parsed blocks in order. */
  function DeliverAll(t: Transcript, ps: seq<Parsed>): Transcript
    decreases |ps|
  {
    if ps == [] then t else DeliverAll(Deliver(t, ps[0]), ps[1..])
  }

  /**
   * A parsed block that is malformed changes nothing; otherwise its id, if
   * truthy, is recorded for good, and at most one message and one fresh id
   * are added.
   */
  lemma DeliverEffect(t: Transcript, p: Parsed)
    ensures var r := Deliver(t, p);
      && (p.Malformed? ==> r == t)
      && t.seen <= r.seen
      && (p.Parsed? && p.chunk.chunkId.Some? && p.chunk.chunkId.value != 0 ==> p.chunk.chunkId.value in r.seen)
      && |t.messages| <= |r.messages| <= |t.messages| + 1
      && t.drawn <= r.drawn <= t.drawn + 1
  {
    if p.Parsed? && !IsDuplicate(t, p.chunk) {
      ReduceEffect(t.(seen := Record(t.seen, p.chunk.chunkId)), p.chunk);
    }
  }

  /** Delivering a list only adds: ids stay recorded, and each block adds at most one message and one id. */
  lemma {:induction false} DeliverAllBounds(t: Transcript, ps: seq<Parsed>)
    ensures var r := DeliverAll(t, ps);
      && t.seen <= r.seen
      && |t.messages| <= |r.messages| <= |t.messages| + |ps|
      && t.drawn <= r.drawn <= t.drawn + |ps|
    decreases |ps|
  {
    if ps != [] {
      DeliverEffect(t, ps[0]);
      DeliverAllBounds(Deliver(t, ps[0]), ps[1..]);
    }
  }

  lemma {:induction false} DeliverAllAppend(t: Transcript, a: seq<Parsed>, b: seq<Parsed>)
    ensures DeliverAll(t, a + b) == DeliverAll(DeliverAll(t, a), b)
    decreases |a|
  {
    if a != [] {
      assert (a + b)[1..] == a[1..] + b;
      DeliverAllAppend(Deliver(t, a[0]), a[1..], b);
    } else {
      assert a + b == b;
    }
  }

  lemma DeliverAllCons(t: Transcript, p: Parsed, ps: seq<Parsed>)
    ensures DeliverAll(t, [p] + ps) == DeliverAll(Deliver(t, p), ps)
  {
    assert ([p] + ps)[1..] == ps;
  }

  lemma DeliverAllOne(t: Transcript, p: Parsed)
    ensures DeliverAll(t, [p]) == Deliver(t, p)
  {
    DeliverAllCons(t, p, []);
    assert [p] + [] == [p];
  }

  lemma DeliverAllTwo(t: Transcript, p: Parsed, q: Parsed)
    ensures DeliverAll(t, [p, q]) == Deliver(Deliver(t, p), q)
  {
    DeliverAllCons(t, p, [q]);
    assert [p] + [q] == [p, q];
    DeliverAllOne(Deliver(t, p), q);
  }

  // ---------------------------------------------------------------------
  // De-duplication
  // ---------------------------------------------------------------------

  /** A re-delivered chunk id changes nothing: neither messages nor the flag nor the set. */
  lemma DuplicateIsNoOp(t: Transcript, c: Chunk)
    requires c.chunkId.Some? && c.chunkId.value in t.seen
    ensures Deliver(t, Parsed(c)) == t
  {
  }

  /** Delivering a chunk with a truthy id makes every later copy of it a no-op. */
  lemma SecondCopyIsNoOp(t: Transcript, c: Chunk)
    requires c.chunkId.Some? && c.chunkId.value != 0
    ensures DeliverAll(t, [Parsed(c), Parsed(c)]) == Deliver(t, Parsed(c))
  {
    var t1 := Deliver(t, Parsed(c));
    assert c.chunkId.value in t1.seen by {
      if !IsDuplicate(t, c) {
        ReduceKeepsSeen(t.(seen := Record(t.seen, c.chunkId)), c);
      }
    }
    DeliverAllTwo(t, Parsed(c), Parsed(c));
  }

  /** Only `Deliver`'s bookkeeping touches the seen set; the reducer proper never does. */
  lemma ReduceKeepsSeen(t: Transcript, c: Chunk)
    ensures Reduce(t, c).seen == t.seen
  {
  }

  /**
   * A chunk whose id is absent or 0 is never recorded, so delivering it
   * twice applies it twice.
   */
  lemma FalsyIdNeverDeduplicated(t: Transcript, c: Chunk)
    requires c.chunkId.None? || c.chunkId.value == 0
    requires c.chunkId.None? || 0 !in t.seen
    ensures Deliver(t, Parsed(c)) == Reduce(t, c)
    ensures DeliverAll(t, [Parsed(c), Parsed(c)]) == Reduce(Reduce(t, c), c)
  {
    ReduceKeepsSeen(t, c);
    DeliverAllTwo(t, Parsed(c), Parsed(c));
  }

  // ---------------------------------------------------------------------
  // Token coalescing
  // ---------------------------------------------------------------------

  /** A token chunk with no id. */
  function TokenChunk(s: string): Parsed
  {
    Parsed(Chunk(TokenType, PText(s), None))
  }

  /** A run of token chunks carrying the given texts. */
  function TokenChunks(texts: seq<string>): (r: seq<Parsed>)
    ensures |r| == |texts|
    ensures forall i :: 0 <= i < |r| ==> r[i] == TokenChunk(texts[i])
  {
    seq(|texts|, i requires 0 <= i < |texts| => TokenChunk(texts[i]))
  }

  /**
   * While the flag is set, every token is appended to the last message's
   * content (which becomes text, from its string form, at the first token);
   * an empty token keeps the run going.
   */
  lemma {:induction false} ContinueRun(t: Transcript, texts: seq<string>)
    requires t.streaming && |t.messages| > 0
    ensures var r := DeliverAll(t, TokenChunks(texts));
      && r.streaming && r.seen == t.seen && r.drawn == t.drawn
      && |r.messages| == |t.messages|
      && r.messages[..|r.messages| - 1] == t.messages[..|t.messages| - 1]
      && r.messages[|r.messages| - 1]
         == if texts == [] then t.messages[|t.messages| - 1]
            else t.messages[|t.messages| - 1].(content := Text(AsString(t.messages[|t.messages| - 1].content) + Concat(texts)))
    decreases |texts|
  {
    if texts != [] {
      var n := |t.messages|;
      var last := t.messages[n - 1];
      var t1 := Deliver(t, TokenChunk(texts[0]));
      assert t1 == t.(messages := AppendToLast(t.messages, texts[0]));
      assert TokenChunks(texts)[1..] == TokenChunks(texts[1..]);
      ContinueRun(t1, texts[1..]);
      if texts[1..] == [] {
        assert Concat(texts) == texts[0] + Concat(texts[1..]);
        assert texts[0] + "" == texts[0];
      } else {
        assert AsString(last.content) + texts[0] + Concat(texts[1..]) == AsString(last.content) + Concat(texts);
      }
    }
  }

  /** While the flag is set, one token is appended to the last message and nothing else changes. */
  lemma TokenWhileStreaming(t: Transcript, s: string)
    requires t.streaming
    ensures Deliver(t, TokenChunk(s)) == t.(messages := AppendToLast(t.messages, s))
  {
  }

  /**
   * n consecutive token chunks, arriving when the flag is clear, add exactly
   * one new AI message whose text is their concatenation, and set the flag.
   */
  lemma TokenRun(t: Transcript, texts: seq<string>)
    requires !t.streaming && |texts| > 0
    ensures var r := DeliverAll(t, TokenChunks(texts));
      && r.streaming && r.seen == t.seen && r.drawn == t.drawn + 1
      && r.messages == t.messages + [TokenMessage(Concat(texts), Fresh(t.drawn))]
  {
    var t1 := Deliver(t, TokenChunk(texts[0]));
    assert t1.messages == t.messages + [TokenMessage(texts[0], Fresh(t.drawn))];
    assert TokenChunks(texts)[1..] == TokenChunks(texts[1..]);
    assert TokenChunks(texts) == [TokenChunk(texts[0])] + TokenChunks(texts[1..]);
    ContinueRun(t1, texts[1..]);
    var r := DeliverAll(t, TokenChunks(texts));
    assert r == DeliverAll(t1, TokenChunks(texts[1..]));
    assert r.messages[..|r.messages| - 1] == t.messages;
    var first := TokenMessage(texts[0], Fresh(t.drawn));
    assert t1.messages[|t1.messages| - 1] == first;
    assert Concat(texts) == texts[0] + Concat(texts[1..]);
    if texts[1..] == [] {
      assert texts[0] + "" == texts[0];
    } else {
      assert AsString(first.content) == texts[0];
    }
    assert r.messages[|r.messages| - 1] == TokenMessage(Concat(texts), Fresh(t.drawn));
    assert r.messages == r.messages[..|r.messages| - 1] + [r.messages[|r.messages| - 1]];
  }

  // ---------------------------------------------------------------------
  // Structured messages
  // ---------------------------------------------------------------------

  /** A message chunk with no id. */
  function MessageChunk(m: Message): Parsed
  {
    Parsed(Chunk(MessageType, PMessage(m), None))
  }

  /**
   * An AI message with tool calls is appended verbatim as exactly one new
   * message, and it ends any token run: the next token starts a fresh
   * message instead of extending it.
   */
  lemma ToolCallAppends(t: Transcript, m: Message, s: string)
    requires CallsTools(m)
    ensures Deliver(t, MessageChunk(m)) == t.(messages := t.messages + [m], streaming := false)
    ensures DeliverAll(t, [MessageChunk(m), TokenChunk(s)]).messages
         == t.messages + [m, TokenMessage(s, Fresh(t.drawn))]
  {
    var t1 := t.(messages := t.messages + [m], streaming := false);
    assert Deliver(t, MessageChunk(m)) == Reduce(t, MessageChunk(m).chunk);
    assert Reduce(t, MessageChunk(m).chunk) == t1;
    DeliverAllTwo(t, MessageChunk(m), TokenChunk(s));
  }

  /**
   * A tool message adds nothing; it writes its content onto the first
   * matching call in every AI message with tool calls, and clears the flag.
   * Without a usable `tool_call_id` it only clears the flag.
   */
  lemma ToolResultAttaches(t: Transcript, m: Message)
    requires m.role == Tool
    ensures var r := Deliver(t, MessageChunk(m));
      && !r.streaming && r.seen == t.seen && r.drawn == t.drawn
      && r.messages == (if IsKey(m.toolCallId) then AttachResult(t.messages, m.toolCallId.value, m.content) else t.messages)
      && |r.messages| == |t.messages|
  {
  }

  /** Any other non-human message (an AI message without tool calls, say) only clears the flag. */
  lemma OtherMessageClearsFlag(t: Transcript, m: Message)
    requires m.role != Human && m.role != Tool && !CallsTools(m)
    ensures Deliver(t, MessageChunk(m)) == t.(streaming := false)
  {
  }

  /**
   * Human messages, error chunks, tokens whose content is not a string,
   * and blocks that fail to parse leave the messages and the flag alone.
   */
  lemma IgnoredChunks(t: Transcript, c: Chunk)
    requires || (c.kind == MessageType && c.content.PMessage? && c.content.message.role == Human)
             || c.kind == ErrorType || c.kind.OtherType?
             || (c.kind == TokenType && !c.content.PText?)
             || (c.kind == MessageType && !c.content.PMessage?)
    ensures var r := Deliver(t, Parsed(c));
      r.messages == t.messages && r.streaming == t.streaming && r.drawn == t.drawn
    ensures Deliver(t, Malformed) == t
  {
  }

  /** A malformed block between two tokens does not break their run: `A`, junk, `B` give one `AB`. */
  lemma MalformedInsideRun(t: Transcript)
    requires !t.streaming
    ensures DeliverAll(t, [TokenChunk("A"), Malformed, TokenChunk("B")]).messages
         == t.messages + [TokenMessage("AB", Fresh(t.drawn))]
  {
    var t1 := Deliver(t, TokenChunk("A"));
    assert t1.messages == t.messages + [TokenMessage("A", Fresh(t.drawn))];
    var t3 := Deliver(t1, TokenChunk("B"));
    assert t3.messages == t.messages + [TokenMessage("AB", Fresh(t.drawn))] by {
      assert "A" + "B" == "AB";
    }
    assert DeliverAll(t, [TokenChunk("A"), Malformed, TokenChunk("B")]) == t3;
  }

  /** A result for a call that only the last message holds is attached there and nowhere else. */
  lemma AttachToLastCall(head: seq<Message>, m: Message, call: ToolCall, v: Content)
    requires NoCallWithId(head, call.id) && m.role == Ai && m.toolCalls == [call]
    ensures AttachResult(head + [m], call.id, v) == head + [m.(toolCalls := [call.(result := Some(v))])]
  {
    AttachAppend(head, [m], call.id, v);
    AttachUnmatched(head, call.id, v);
    assert FirstMatch(m.toolCalls, call.id) == Some(0);
    assert SetResult(m.toolCalls, call.id, v) == [call.(result := Some(v))];
  }

  /**
   * A tool call, its result, and a closing token, arriving after a token
   * run: the call is appended with its result, and the closing token starts
   * a new message.
   */
  lemma CallResultToken(t: Transcript, call: ToolCall, v: Content, s: string)
    requires call.id != "" && NoCallWithId(t.messages, call.id)
    ensures var m := Message(Ai, Text(""), [call], None, NoId);
      var tool := Message(Tool, v, [], Some(call.id), NoId);
      var r := DeliverAll(t, [MessageChunk(m), MessageChunk(tool), TokenChunk(s)]);
      && r.messages == t.messages + [m.(toolCalls := [call.(result := Some(v))]), TokenMessage(s, Fresh(t.drawn))]
      && r.drawn == t.drawn + 1
  {
    var m := Message(Ai, Text(""), [call], None, NoId);
    var tool := Message(Tool, v, [], Some(call.id), NoId);
    var t3 := Deliver(t, MessageChunk(m));
    ToolCallAppends(t, m, "");
    var t4 := Deliver(t3, MessageChunk(tool));
    ToolResultAttaches(t3, tool);
    AttachToLastCall(t.messages, m, call, v);
    DeliverAllCons(t, MessageChunk(m), [MessageChunk(tool), TokenChunk(s)]);
    assert [MessageChunk(m), MessageChunk(tool), TokenChunk(s)] == [MessageChunk(m)] + [MessageChunk(tool), TokenChunk(s)];
    DeliverAllTwo(t3, MessageChunk(tool), TokenChunk(s));
  }

  /**
   * A token run, then a tool call, its result, and a closing token: the
   * transcript holds the coalesced text, the call with its result attached,
   * and a new message for the closing token.
   */
  lemma CallRoundTrip(t: Transcript, call: ToolCall, v: Content)
    requires !t.streaming && call.id != ""
    requires NoCallWithId(t.messages, call.id)
    ensures var m := Message(Ai, Text(""), [call], None, NoId);
      var tool := Message(Tool, v, [], Some(call.id), NoId);
      DeliverAll(t, [TokenChunk("Hel"), TokenChunk("lo"), MessageChunk(m), MessageChunk(tool), TokenChunk("Done")]).messages
      == t.messages + [TokenMessage("Hello", Fresh(t.drawn)), m.(toolCalls := [call.(result := Some(v))]),
                       TokenMessage("Done", Fresh(t.drawn + 1))]
  {
    var m := Message(Ai, Text(""), [call], None, NoId);
    var tool := Message(Tool, v, [], Some(call.id), NoId);
    var run := [TokenChunk("Hel"), TokenChunk("lo")];
    var rest := [MessageChunk(m), MessageChunk(tool), TokenChunk("Done")];
    var t2 := DeliverAll(t, run);
    HelloRun(t);
    CallResultToken(t2, call, v, "Done");
    SplitFive(TokenChunk("Hel"), TokenChunk("lo"), MessageChunk(m), MessageChunk(tool), TokenChunk("Done"));
    DeliverAllAppend(t, run, rest);
  }

  /** Two tokens arriving when the flag is clear make one message of their joined text. */
  lemma HelloRun(t: Transcript)
    requires !t.streaming
    ensures var r := DeliverAll(t, [TokenChunk("Hel"), TokenChunk("lo")]);
      && r.messages == t.messages + [TokenMessage("Hello", Fresh(t.drawn))]
      && r.drawn == t.drawn + 1
  {
    assert [TokenChunk("Hel"), TokenChunk("lo")] == TokenChunks(["Hel", "lo"]);
    TokenRun(t, ["Hel", "lo"]);
    assert Concat(["Hel", "lo"]) == "Hello" by {
      assert Concat(["lo"]) == "lo";
    }
  }
}
