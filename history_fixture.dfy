/**
 * The canned history of controllers/v1/agent.ts (`handleHistoryGet`): one
 * known thread with two questions, seven tool calls each followed by its
 * result, and two answers; every other thread has no history.  The texts
 * and the JSON of arguments and results are kept as parameters.
 */
module HistoryFixture {
  import opened Wrappers
  import opened Messages
  import opened AgentRest
  import opened StreamScenario
  import opened ChatTypes
  import opened ChatContext

  /** A stretch of a stored thread: one message, or a call and the tool message answering it. */
  datatype Segment =
    | Say(m: Message)
    | Ask(call: ToolCall, result: Content, callId: MessageId, resultId: MessageId)

  /** The stored messages of the segments, in order. */
  function SegmentMessages(segs: seq<Segment>): seq<Message>
  {
    if segs == [] then []
    else
      var last := segs[|segs| - 1];
      SegmentMessages(segs[..|segs| - 1])
      + match last
        case Say(m) => [m]
        case Ask(call, v, ci, ri) => [CallMessage(call, ci), ResultMessage(call, v, ri)]
  }

  /** The transcript the segments should show: each call with its result on it, and no tool messages. */
  function SegmentTranscript(segs: seq<Segment>): (r: seq<Message>)
    ensures |r| == |segs|
  {
    if segs == [] then []
    else
      var last := segs[|segs| - 1];
      SegmentTranscript(segs[..|segs| - 1])
      + match last
        case Say(m) => [m]
        case Ask(call, v, ci, _) => [Answered(call, v, ci)]
  }

  /**
   * Single messages are not tool messages and call no tool; the calls have
   * usable ids, different from each other.
   */
  predicate WellFormedSegments(segs: seq<Segment>)
  {
    && (forall i :: 0 <= i < |segs| && segs[i].Say? ==> segs[i].m.role != Tool && segs[i].m.toolCalls == [])
    && (forall i :: 0 <= i < |segs| && segs[i].Ask? ==> segs[i].call.id != "")
    && (forall i, j :: 0 <= i < j < |segs| && segs[i].Ask? && segs[j].Ask? ==> segs[i].call.id != segs[j].call.id)
  }

  /** The stored messages hold no call with an id that no segment asks. */
  lemma {:induction false} SegmentCalls(segs: seq<Segment>, callId: string)
    requires forall i :: 0 <= i < |segs| && segs[i].Say? ==> segs[i].m.toolCalls == []
    requires forall i :: 0 <= i < |segs| && segs[i].Ask? ==> segs[i].call.id != callId
    ensures NoCallWithId(SegmentMessages(segs), callId)
  {
    if segs != [] {
      var init := segs[..|segs| - 1];
      var last := segs[|segs| - 1];
      assert forall i :: 0 <= i < |init| ==> init[i] == segs[i];
      SegmentCalls(init, callId);
      match last
      case Say(m) =>
        NoCallAppend(SegmentMessages(init), [m], callId);
      case Ask(call, v, ci, ri) =>
        NoCallAppend(SegmentMessages(init), [CallMessage(call, ci), ResultMessage(call, v, ri)], callId);
    }
  }

  /** A message that is not a tool message is kept by the combiner as it is. */
  lemma CombinedKeeps(pre: seq<Message>, m: Message)
    requires m.role != Tool
    ensures Combined(pre + [m]) == Combined(pre) + [m]
  {
    assert (pre + [m])[..|pre|] == pre;
  }

  /** Combining the stored messages of well-formed segments gives their transcript. */
  lemma {:induction false} CombinedSegments(segs: seq<Segment>)
    requires WellFormedSegments(segs)
    ensures Combined(SegmentMessages(segs)) == SegmentTranscript(segs)
  {
    if segs != [] {
      var init := segs[..|segs| - 1];
      var last := segs[|segs| - 1];
      assert forall i :: 0 <= i < |init| ==> init[i] == segs[i];
      CombinedSegments(init);
      match last
      case Say(m) =>
        CombinedKeeps(SegmentMessages(init), m);
      case Ask(call, v, ci, ri) =>
        SegmentCalls(init, call.id);
        CallThenResult(SegmentMessages(init), call, v, ci, ri);
        assert SegmentMessages(segs) == SegmentMessages(init) + [CallMessage(call, ci), ResultMessage(call, v, ri)];
    }
  }

  /** The last segment of a prefix adds one stored message, or two for a call. */
  lemma SegmentMessagesSnoc(segs: seq<Segment>, k: nat)
    requires 0 < k <= |segs|
    ensures |SegmentMessages(segs[..k])| == |SegmentMessages(segs[..k - 1])| + (if segs[k - 1].Ask? then 2 else 1)
  {
    assert segs[..k][..k - 1] == segs[..k - 1];
  }

  /** Entry `i` of the transcript is segment `i`'s message, with the answer on it for a call. */
  lemma {:induction false} SegmentTranscriptAt(segs: seq<Segment>, i: nat)
    requires i < |segs|
    ensures SegmentTranscript(segs)[i] == match segs[i]
      case Say(m) => m
      case Ask(call, v, ci, _) => Answered(call, v, ci)
  {
    var init := segs[..|segs| - 1];
    if i < |segs| - 1 {
      SegmentTranscriptAt(init, i);
      assert init[i] == segs[i];
    }
  }

  /** The transcript of well-formed segments holds no tool message. */
  lemma TranscriptWithoutTools(segs: seq<Segment>)
    requires WellFormedSegments(segs)
    ensures forall k :: 0 <= k < |segs| ==> SegmentTranscript(segs)[k].role != Tool
  {
    forall k | 0 <= k < |segs|
      ensures SegmentTranscript(segs)[k].role != Tool
    {
      SegmentTranscriptAt(segs, k);
    }
  }

  // ---------------------------------------------------------------------
  // The fixture of handleHistoryGet
  // ---------------------------------------------------------------------

  /** The one thread with a history (line 217). */
  const KnownThread: string := "aefb4483-3372-403a-86e7-db16d57a0cce"

  /** The ids of the seven calls. */
  const HistoryCallIds: seq<string> := ["call_001", "call_002", "call_003", "call_004", "call_005", "call_006", "call_007"]

  /** The tools they name. */
  const HistoryTools: seq<string> :=
    ["identify_data_products", "get_metadata", "generate_sql", "execute_sql",
     "identify_data_products", "generate_sql", "execute_sql"]

  /** The texts of the two questions and two answers, and the JSON of each call's arguments and result. */
  datatype HistoryTexts = HistoryTexts(
    question1: string, answer1: string, question2: string, answer2: string,
    args: nat -> Json, results: nat -> Json)

  /** `msg_${threadId}_k`. */
  function MessageKey(threadId: string, k: string): MessageId
  {
    Given("msg_" + threadId + "_" + k)
  }

  /** Call `i` of the history, before any result is written onto it. */
  function HistoryCall(h: HistoryTexts, i: nat): ToolCall
    requires i < 7
  {
    ToolCall(HistoryTools[i], h.args(i), HistoryCallIds[i], None)
  }

  /** Call `i` and its result, stored as messages `k` and `k + 1`. */
  function HistoryAsk(threadId: string, h: HistoryTexts, i: nat, k: string, k1: string): Segment
    requires i < 7
  {
    Ask(HistoryCall(h, i), Structured(h.results(i)), MessageKey(threadId, k), MessageKey(threadId, k1))
  }

  /** The segments of lines 218-427, in order. */
  function HistorySegments(threadId: string, h: HistoryTexts): (r: seq<Segment>)
    ensures |r| == 11
  {
    [ Say(Message(Human, Text(h.question1), [], None, MessageKey(threadId, "1"))),
      HistoryAsk(threadId, h, 0, "2", "3"),
      HistoryAsk(threadId, h, 1, "4", "5"),
      HistoryAsk(threadId, h, 2, "6", "7"),
      HistoryAsk(threadId, h, 3, "8", "9"),
      Say(Message(Ai, Text(h.answer1), [], None, MessageKey(threadId, "10"))),
      Say(Message(Human, Text(h.question2), [], None, MessageKey(threadId, "11"))),
      HistoryAsk(threadId, h, 4, "12", "13"),
      HistoryAsk(threadId, h, 5, "14", "15"),
      HistoryAsk(threadId, h, 6, "16", "17"),
      Say(Message(Ai, Text(h.answer2), [], None, MessageKey(threadId, "18"))) ]
  }

  /** `handleHistoryGet` (lines 210-432): the known thread's eighteen messages, or none. */
  function HandleHistoryGet(threadId: string, h: HistoryTexts): (r: seq<Message>)
    ensures threadId != KnownThread ==> r == []
  {
    if threadId == KnownThread then SegmentMessages(HistorySegments(threadId, h)) else []
  }

  /** Which segments are calls, and which call each one is. */
  lemma HistoryAsks(threadId: string, h: HistoryTexts)
    ensures var segs := HistorySegments(threadId, h);
      forall i :: 0 <= i < 11 ==> (segs[i].Ask? <==> i in {1, 2, 3, 4, 7, 8, 9})
  {
  }

  /** The history's segments are well formed: its calls' ids are pairwise different. */
  lemma HistoryWellFormed(threadId: string, h: HistoryTexts)
    ensures WellFormedSegments(HistorySegments(threadId, h))
  {
    var segs := HistorySegments(threadId, h);
    forall i, j | 0 <= i < j < |segs| && segs[i].Ask? && segs[j].Ask?
      ensures segs[i].call.id != segs[j].call.id
    {
      assert segs[i].call.id[7] != segs[j].call.id[7];
    }
  }

  /** The stored history has eighteen messages. */
  lemma HistoryLength(threadId: string, h: HistoryTexts)
    ensures |SegmentMessages(HistorySegments(threadId, h))| == 18
  {
    var segs := HistorySegments(threadId, h);
    assert segs[..0] == [];
    SegmentMessagesSnoc(segs, 1);
    SegmentMessagesSnoc(segs, 2);
    SegmentMessagesSnoc(segs, 3);
    SegmentMessagesSnoc(segs, 4);
    SegmentMessagesSnoc(segs, 5);
    SegmentMessagesSnoc(segs, 6);
    SegmentMessagesSnoc(segs, 7);
    SegmentMessagesSnoc(segs, 8);
    SegmentMessagesSnoc(segs, 9);
    SegmentMessagesSnoc(segs, 10);
    SegmentMessagesSnoc(segs, 11);
    assert segs[..11] == segs;
  }

  /** Where the seven calls stand in the transcript. */
  const CallPositions: seq<nat> := [1, 2, 3, 4, 7, 8, 9]

  /**
   * Loading the known thread shows eleven messages, none of them a tool
   * message: the first question first, and the seven calls, each with its
   * result written on it.
   */
  lemma HistoryCombined(h: HistoryTexts)
    ensures var c := Combined(HandleHistoryGet(KnownThread, h));
      && c == SegmentTranscript(HistorySegments(KnownThread, h))
      && |c| == 11
      && (forall k :: 0 <= k < 11 ==> c[k].role != Tool)
      && c[0] == Message(Human, Text(h.question1), [], None, MessageKey(KnownThread, "1"))
  {
    var segs := HistorySegments(KnownThread, h);
    HistoryWellFormed(KnownThread, h);
    CombinedSegments(segs);
    TranscriptWithoutTools(segs);
    SegmentTranscriptAt(segs, 0);
  }

  /** Call `i` of the history carries its result, and keeps its tool name, id and arguments. */
  lemma HistoryCallAnswered(h: HistoryTexts, i: nat)
    requires i < 7
    ensures var c := Combined(HandleHistoryGet(KnownThread, h));
      && |c| == 11
      && c[CallPositions[i]].toolCalls == [HistoryCall(h, i).(result := Some(Structured(h.results(i))))]
      && c[CallPositions[i]].toolCalls[0].name == HistoryTools[i]
      && c[CallPositions[i]].toolCalls[0].id == HistoryCallIds[i]
  {
    var segs := HistorySegments(KnownThread, h);
    HistoryCombined(h);
    SegmentTranscriptAt(segs, CallPositions[i]);
  }

  /**
   * Loading a history made of the known thread alone: one chat, titled and
   * previewed with the first question, showing the eleven combined messages.
   * This holds for a thread object that carries the messages under
   * `messages`; the endpoint itself answers with the bare array, on which
   * the client's loader throws and keeps the chats it had.
   */
  lemma HistoryLoaded(state: ChatState, h: HistoryTexts)
    ensures var r := LoadUserHistory(state, Some([Thread(KnownThread, HandleHistoryGet(KnownThread, h))]));
      && |r.chats| == 1 && !r.isLoading
      && r.chats[0].id == KnownThread
      && r.chats[0].title == Str(h.question1) && r.chats[0].preview == Str(h.question1)
      && r.chats[0].messages == Combined(HandleHistoryGet(KnownThread, h))
      && |r.chats[0].messages| == 11
  {
    var th := Thread(KnownThread, HandleHistoryGet(KnownThread, h));
    HistoryCombined(h);
    assert TransformThreads([th])[0] == CombineThread(th);
    var c := Combined(th.messages);
    var t := HistoryTitle(c);
    assert t.Some? && t.value == c[0].content;
  }

  /** Any other thread has no history, and combining it gives nothing. */
  lemma OtherThreadEmpty(threadId: string, h: HistoryTexts)
    requires threadId != KnownThread
    ensures Combined(HandleHistoryGet(threadId, h)) == []
  {
  }
}
