/**
 * The canned answer of controllers/v1/agent.ts as the client's reducer sees
 * it: a run of sixteen tokens, then five rounds of a tool call, its result
 * and a run of tokens, then a closing AI message and the end marker.
 * The texts of the tokens and the JSON arguments and results are kept as
 * parameters; the call ids, tool names and run lengths are those of the
 * fixture.
 */
module StreamScenario {
  import opened Wrappers
  import opened Text
  import opened Messages
  import opened TranscriptReducer
  import opened StreamDecoder

  /** The AI message that requests one tool call (`"content": ""`, one entry in `tool_calls`). */
  function CallMessage(call: ToolCall, id: MessageId): Message
  {
    Message(Ai, Text(""), [call], None, id)
  }

  /** The tool message that answers it (`"tool_call_id"` is the call's id). */
  function ResultMessage(call: ToolCall, v: Content, id: MessageId): Message
  {
    Message(Tool, v, [], Some(call.id), id)
  }

  /** The call message once the result has been written onto its call. */
  function Answered(call: ToolCall, v: Content, id: MessageId): Message
  {
    CallMessage(call, id).(toolCalls := [call.(result := Some(v))])
  }

  /** A tool call, its result, and the token texts that follow them. */
  datatype Round = Round(call: ToolCall, result: Content, tokens: seq<string>)

  /** The chunks of one round, as the decoder hands them to the reducer. */
  function RoundChunks(r: Round): seq<Parsed>
  {
    [MessageChunk(CallMessage(r.call, NoId)), MessageChunk(ResultMessage(r.call, r.result, NoId))]
    + TokenChunks(r.tokens)
  }

  /** The chunks of the rounds, in order. */
  function RoundsChunks(rs: seq<Round>): seq<Parsed>
  {
    if rs == [] then [] else RoundChunks(rs[0]) + RoundsChunks(rs[1..])
  }

  /**
   * The messages the rounds add: each answered call and then one AI
   * message for its tokens, drawing fresh ids from `drawn` on.
   */
  function RoundsMessages(rs: seq<Round>, drawn: nat): (r: seq<Message>)
    ensures |r| == 2 * |rs|
  {
    if rs == [] then []
    else
      [Answered(rs[0].call, rs[0].result, NoId), TokenMessage(Concat(rs[0].tokens), Fresh(drawn))]
      + RoundsMessages(rs[1..], drawn + 1)
  }

  /** Every round has a usable call id, different from the others, and at least one token. */
  predicate WellFormedRounds(rs: seq<Round>)
  {
    && (forall i :: 0 <= i < |rs| ==> rs[i].call.id != "" && |rs[i].tokens| > 0)
    && (forall i, j :: 0 <= i < j < |rs| ==> rs[i].call.id != rs[j].call.id)
  }

  /** No message of the list holds a call with any of the rounds' ids. */
  predicate CallsAbsent(msgs: seq<Message>, rs: seq<Round>)
  {
    forall i :: 0 <= i < |rs| ==> NoCallWithId(msgs, rs[i].call.id)
  }

  /** Appending messages that hold no call with an id keeps it absent. */
  lemma NoCallAppend(a: seq<Message>, b: seq<Message>, callId: string)
    requires NoCallWithId(a, callId) && NoCallWithId(b, callId)
    ensures NoCallWithId(a + b, callId)
  {
    forall k, i | 0 <= k < |a + b| && CallsTools((a + b)[k]) && 0 <= i < |(a + b)[k].toolCalls|
      ensures (a + b)[k].toolCalls[i].id != callId
    {
      if k >= |a| {
        assert (a + b)[k] == b[k - |a|];
      }
    }
  }

  /**
   * A round arriving at any transcript: the call is appended with its
   * result written on it, and its tokens start one new message.
   */
  lemma OneRound(t: Transcript, r: Round)
    requires r.call.id != "" && |r.tokens| > 0 && NoCallWithId(t.messages, r.call.id)
    ensures var u := DeliverAll(t, RoundChunks(r));
      && u.messages == t.messages + [Answered(r.call, r.result, NoId), TokenMessage(Concat(r.tokens), Fresh(t.drawn))]
      && u.streaming && u.seen == t.seen && u.drawn == t.drawn + 1
  {
    var m := CallMessage(r.call, NoId);
    var tool := ResultMessage(r.call, r.result, NoId);
    var t1 := Deliver(t, MessageChunk(m));
    ToolCallAppends(t, m, "");
    var t2 := Deliver(t1, MessageChunk(tool));
    ToolResultAttaches(t1, tool);
    AttachToLastCall(t.messages, m, r.call, r.result);
    assert t2 == t.(messages := t.messages + [Answered(r.call, r.result, NoId)], streaming := false);
    DeliverAllTwo(t, MessageChunk(m), MessageChunk(tool));
    DeliverAllAppend(t, [MessageChunk(m), MessageChunk(tool)], TokenChunks(r.tokens));
    TokenRun(t2, r.tokens);
  }

  /**
   * Once the first round has added its messages, the remaining rounds are
   * still well formed and their ids still absent.
   */
  lemma RemainingRounds(msgs: seq<Message>, added: seq<Message>, rs: seq<Round>)
    requires |rs| > 0 && WellFormedRounds(rs) && CallsAbsent(msgs, rs)
    requires forall k, i :: 0 <= k < |added| && CallsTools(added[k]) && 0 <= i < |added[k].toolCalls| ==>
      added[k].toolCalls[i].id == rs[0].call.id
    ensures WellFormedRounds(rs[1..]) && CallsAbsent(msgs + added, rs[1..])
  {
    forall i | 0 <= i < |rs[1..]|
      ensures NoCallWithId(msgs + added, rs[1..][i].call.id)
    {
      assert rs[1..][i] == rs[i + 1];
      assert rs[0].call.id != rs[i + 1].call.id;
      NoCallAppend(msgs, added, rs[i + 1].call.id);
    }
    forall i, j | 0 <= i < j < |rs[1..]|
      ensures rs[1..][i].call.id != rs[1..][j].call.id
    {
      assert rs[1..][i] == rs[i + 1] && rs[1..][j] == rs[j + 1];
    }
  }

  /**
   * Rounds with distinct ids, none of them among the calls already shown:
   * each round adds its answered call and one message for its tokens.
   */
  lemma {:induction false} RoundsDeliver(t: Transcript, rs: seq<Round>)
    requires WellFormedRounds(rs) && CallsAbsent(t.messages, rs)
    ensures var u := DeliverAll(t, RoundsChunks(rs));
      && u.messages == t.messages + RoundsMessages(rs, t.drawn)
      && u.seen == t.seen && u.drawn == t.drawn + |rs|
      && u.streaming == (if rs == [] then t.streaming else true)
    decreases |rs|
  {
    if rs == [] {
      assert t.messages + [] == t.messages;
    } else {
      var r := rs[0];
      OneRound(t, r);
      var t1 := DeliverAll(t, RoundChunks(r));
      var added := [Answered(r.call, r.result, NoId), TokenMessage(Concat(r.tokens), Fresh(t.drawn))];
      RemainingRounds(t.messages, added, rs);
      RoundsDeliver(t1, rs[1..]);
      DeliverAllAppend(t, RoundChunks(r), RoundsChunks(rs[1..]));
      assert RoundsMessages(rs, t.drawn) == added + RoundsMessages(rs[1..], t.drawn + 1);
      AppendAssoc(t.messages, added, RoundsMessages(rs[1..], t.drawn + 1));
    }
  }

  /** Where the rounds' messages sit: call `i` at `2i`, its tokens' message right after. */
  lemma {:induction false} RoundsMessagesAt(rs: seq<Round>, drawn: nat, i: nat)
    requires i < |rs|
    ensures RoundsMessages(rs, drawn)[2 * i] == Answered(rs[i].call, rs[i].result, NoId)
    ensures RoundsMessages(rs, drawn)[2 * i + 1] == TokenMessage(Concat(rs[i].tokens), Fresh(drawn + i))
  {
    if i > 0 {
      RoundsMessagesAt(rs[1..], drawn + 1, i - 1);
      assert rs[1..][i - 1] == rs[i];
    }
  }

  // ---------------------------------------------------------------------
  // The fixture of handleStreamPost
  // ---------------------------------------------------------------------

  /** The ids of the five calls (lines 40, 55, 70, 85 and 100). */
  const CallIds: seq<string> := ["call_101", "call_102", "call_103", "call_104", "call_105"]

  /** The tools they name. */
  const ToolNames: seq<string> := ["identify_data_products", "get_guidance", "get_metadata", "generate_sql", "execute_sql"]

  /** How many tokens follow each call: thinking1-4 and the summary. */
  const RunLengths: seq<nat> := [6, 6, 6, 6, 39]

  /** How many tokens open the answer (initialTokens). */
  const InitialRun: nat := 16

  /** Rounds carrying the fixture's calls, in order, with no result yet on the calls. */
  predicate FixtureRounds(rs: seq<Round>)
  {
    && |rs| == 5
    && forall i :: 0 <= i < 5 ==>
      && rs[i].call.id == CallIds[i] && rs[i].call.name == ToolNames[i]
      && rs[i].call.result.None? && |rs[i].tokens| == RunLengths[i]
  }

  /** What the decoder delivers for the fixture: the opening run, the rounds, the closing message. */
  function FixtureChunks(initial: seq<string>, rs: seq<Round>, closing: Message): seq<Parsed>
  {
    TokenChunks(initial) + RoundsChunks(rs) + [MessageChunk(closing)]
  }

  /** The fixture's call ids are usable and pairwise different. */
  lemma FixtureIdsDistinct(rs: seq<Round>)
    requires FixtureRounds(rs)
    ensures WellFormedRounds(rs)
  {
    forall i, j | 0 <= i < j < |rs|
      ensures rs[i].call.id != rs[j].call.id
    {
      assert CallIds[i][7] != CallIds[j][7];
    }
  }

  /**
   * The transcript the fixture builds: eleven new AI messages, the opening
   * text, then each of the five calls with its result and the text that
   * follows it; the closing message without calls only ends the last run.
   */
  lemma FixtureTranscript(t: Transcript, initial: seq<string>, rs: seq<Round>, closing: Message)
    requires !t.streaming && |initial| == InitialRun && FixtureRounds(rs)
    requires closing.role == Ai && closing.toolCalls == []
    requires CallsAbsent(t.messages, rs)
    ensures var u := DeliverAll(t, FixtureChunks(initial, rs, closing));
      && u.messages == t.messages + [TokenMessage(Concat(initial), Fresh(t.drawn))] + RoundsMessages(rs, t.drawn + 1)
      && |u.messages| == |t.messages| + 11
      && !u.streaming && u.drawn == t.drawn + 6
  {
    TokenRun(t, initial);
    var t1 := DeliverAll(t, TokenChunks(initial));
    var opening := TokenMessage(Concat(initial), Fresh(t.drawn));
    FixtureIdsDistinct(rs);
    assert CallsAbsent(t1.messages, rs) by {
      forall i | 0 <= i < |rs|
        ensures NoCallWithId(t1.messages, rs[i].call.id)
      {
        NoCallAppend(t.messages, [opening], rs[i].call.id);
      }
    }
    RoundsDeliver(t1, rs);
    var t2 := DeliverAll(t1, RoundsChunks(rs));
    OtherMessageClearsFlag(t2, closing);
    DeliverAllOne(t2, MessageChunk(closing));
    DeliverAllAppend(t, TokenChunks(initial), RoundsChunks(rs));
    DeliverAllAppend(t, TokenChunks(initial) + RoundsChunks(rs), [MessageChunk(closing)]);
    var u := DeliverAll(t, FixtureChunks(initial, rs, closing));
    assert u.messages == t.messages + [opening] + RoundsMessages(rs, t.drawn + 1);
  }

  /** Call `i` of the fixture is message `1 + 2i` of the new ones, with its result written on it. */
  lemma FixtureCalls(t: Transcript, initial: seq<string>, rs: seq<Round>, closing: Message, i: nat)
    requires !t.streaming && |initial| == InitialRun && FixtureRounds(rs)
    requires closing.role == Ai && closing.toolCalls == []
    requires CallsAbsent(t.messages, rs)
    requires i < 5
    ensures var u := DeliverAll(t, FixtureChunks(initial, rs, closing));
      && |u.messages| == |t.messages| + 11
      && u.messages[|t.messages| + 1 + 2 * i].toolCalls == [rs[i].call.(result := Some(rs[i].result))]
      && u.messages[|t.messages| + 1 + 2 * i].toolCalls[0].name == ToolNames[i]
      && u.messages[|t.messages| + 2 + 2 * i].content == Text(Concat(rs[i].tokens))
  {
    FixtureTranscript(t, initial, rs, closing);
    var u := DeliverAll(t, FixtureChunks(initial, rs, closing));
    var pre := t.messages + [TokenMessage(Concat(initial), Fresh(t.drawn))];
    var ms := RoundsMessages(rs, t.drawn + 1);
    assert u.messages == pre + ms;
    assert u.messages[|pre| + 2 * i] == ms[2 * i] && u.messages[|pre| + 2 * i + 1] == ms[2 * i + 1];
    RoundsMessagesAt(rs, t.drawn + 1, i);
    assert rs[i].call.name == ToolNames[i];
  }
}
