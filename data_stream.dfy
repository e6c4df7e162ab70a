/**
 * The `useDataStream` hook (useDataStream.tsx): its state (`messages`,
 * `streamEvents`, `isLoading` and the three refs) and the `submit` and
 * `stop` callbacks, run one call at a time.  The network is a parameter:
 * a `Response` says how `fetch` and the reader behave, and the parsing of
 * one block is the function `parse`.
 */
module DataStream {
  import opened Wrappers
  import opened Text
  import opened Messages
  import opened TranscriptReducer
  import opened StreamDecoder

  /** An `AbortController`: only whether it has been aborted. */
  class AbortController {
    var aborted: bool

    constructor ()
      ensures !aborted
    {
      aborted := false;
    }

    /** `abort()`: aborting twice is the same as aborting once. */
    method Abort()
      modifies this
      ensures aborted
    {
      aborted := true;
    }
  }

  /** The `Error` objects the `try` block can throw. */
  datatype Problem =
    | HttpStatus(status: int)   // line 107
    | NoReader                  // line 112
    | NoLastMessage             // `messages[messages.length - 1].content` on an empty list, line 97
    | Raised(name: string)      // a rejection of `fetch` or `read`, by its `name`

  /** A thrown value: an `Error`, or something that is not one. */
  datatype Thrown = Failure(problem: Problem) | NotAnError

  /** The `name` of a thrown `Error`. */
  function ErrorName(p: Problem): string
  {
    match p
    case HttpStatus(_) => "Error"
    case NoReader => "Error"
    case NoLastMessage => "TypeError"
    case Raised(n) => n
  }

  /** Lines 218-223: an `Error` other than an `AbortError` reaches `onError`. */
  predicate Reports(e: Thrown)
  {
    e.Failure? && ErrorName(e.problem) != "AbortError"
  }

  /** What `onError` receives for one submission's outcome: nothing, or one error. */
  function ReportsOf(outcome: Option<Thrown>): (r: seq<Thrown>)
    ensures |r| <= 1
    ensures r != [] <==> outcome.Some? && Reports(outcome.value)
    ensures r != [] ==> r[0] == outcome.value
  {
    if outcome.Some? && Reports(outcome.value) then [outcome.value] else []
  }

  /**
   * How the server answers: `fetch` rejects; the status is not ok; there is
   * no body; or the body yields decoded texts and then either `done` (None)
   * or a rejected `read`.
   */
  datatype Response =
    | FetchRejected(thrown: Thrown)
    | NotOk(status: int)
    | NoBody
    | Body(texts: seq<string>, end: Option<Thrown>)

  /** The transcript and outcome of one `submit`, as a function of the state before it. */
  datatype Submission = Submission(t: Transcript, outcome: Option<Thrown>)

  /**
   * `submit` as a function: the seen set is cleared, the given list
   * replaces the messages, and each read's batch of blocks is folded in.
   * The streaming flag and the id counter carry over.
   */
  function Submitted(t0: Transcript, given: seq<Message>, response: Response, parse: string -> Parsed): (r: Submission)
  {
    var t := t0.(messages := given, seen := {});
    if given == [] then Submission(t, Some(Failure(NoLastMessage)))
    else match response
      case FetchRejected(e) => Submission(t, Some(e))
      case NotOk(status) => Submission(t, Some(Failure(HttpStatus(status))))
      case NoBody => Submission(t, Some(Failure(NoReader)))
      case Body(texts, end) => Submission(RunBatches(t, Batches("", texts), parse), end)
  }

  /**
   * A submission keeps at least the given messages and never reuses a
   * drawn id; it ends without an error exactly when the list was non-empty
   * and the body was read to `done`, and a failed `read` is its outcome.
   */
  lemma SubmittedOutcome(t0: Transcript, given: seq<Message>, response: Response, parse: string -> Parsed)
    ensures var r := Submitted(t0, given, response, parse);
      && |given| <= |r.t.messages| && t0.drawn <= r.t.drawn
      && (r.outcome.None? <==> given != [] && response.Body? && response.end.None?)
      && (given != [] && response.Body? ==> r.outcome == response.end)
  {
    if given != [] && response.Body? {
      RunBatchesBounds(t0.(messages := given, seen := {}), Batches("", response.texts), parse);
    }
  }

  /**
   * Nothing of an earlier submission's chunk ids survives: the outcome does
   * not depend on the seen set it starts with.
   */
  lemma SeenResetPerSubmit(t0: Transcript, seen: set<int>, given: seq<Message>, response: Response, parse: string -> Parsed)
    ensures Submitted(t0.(seen := seen), given, response, parse) == Submitted(t0, given, response, parse)
  {
    assert t0.(seen := seen).(messages := given, seen := {}) == t0.(messages := given, seen := {});
  }

  /**
   * When the request fails before a body is read, the messages are the
   * given list, and the failure is reported unless it is an abort.
   */
  lemma FailureBeforeBody(t0: Transcript, given: seq<Message>, response: Response, parse: string -> Parsed)
    requires given == [] || !response.Body?
    ensures var s := Submitted(t0, given, response, parse);
      && s.t == t0.(messages := given, seen := {})
      && s.outcome.Some?
      && (Reports(s.outcome.value) <==> given != [] && response.FetchRejected? ==> Reports(response.thrown))
  {
  }

  /** An empty list to submit is a `TypeError`, and it is reported. */
  lemma EmptySubmitReported(t0: Transcript, response: Response, parse: string -> Parsed)
    ensures var s := Submitted(t0, [], response, parse);
      s.t.messages == [] && ReportsOf(s.outcome) == [Failure(NoLastMessage)]
  {
  }

  /**
   * An abort is never reported, and neither is a thrown value that is not an
   * `Error`; any other error is reported exactly once.
   */
  lemma ReportRule(e: Thrown)
    ensures ReportsOf(Some(Failure(Raised("AbortError")))) == []
    ensures ReportsOf(Some(NotAnError)) == []
    ensures ReportsOf(None) == []
    ensures e.Failure? && ErrorName(e.problem) != "AbortError" ==> ReportsOf(Some(e)) == [e]
  {
  }

  /**
   * The streaming flag is not reset by `submit`: when a token run was left
   * open, a first token of the next submission is appended to the last
   * given message instead of starting a new one.
   */
  lemma OpenRunCarriesOver(t0: Transcript, given: seq<Message>, j: string, s: string, parse: string -> Parsed)
    requires t0.streaming && given != []
    requires Trim(j) == j && j != "" && !IsDone(j) && !StartsWith(j, "data: ") && '\n' !in j
    requires parse(j) == TokenChunk(s)
    ensures var r := Submitted(t0, given, Body([j + Sep], None), parse).t.messages;
      var last := given[|given| - 1];
      r == given[..|given| - 1] + [last.(content := Text(AsString(last.content) + s))]
  {
    var t := t0.(messages := given, seen := {});
    var sub := Submitted(t0, given, Body([j + Sep], None), parse);
    assert sub.t == Deliver(t, TokenChunk(s)) by {
      assert sub.t == RunBatches(t, Batches("", [j + Sep]), parse);
      OneFramedRead(j);
      ClassifyPayload(j);
      OneBlock(t, j, parse);
    }
    TokenWhileStreaming(t, s);
    SplitLast(AppendToLast(given, s));
  }

  /** A single read carrying one framed line hands exactly that line over as the only block. */
  lemma OneFramedRead(j: string)
    requires '\n' !in j
    ensures Batches("", [j + Sep]) == [[j]]
  {
    SplitAfterPiece(j, Sep, "");
    assert j + Sep + "" == "" + (j + Sep);
    assert SplitOn("", Sep) == [""];
    assert [j] + [""] == [j, ""];
    assert [j + Sep][1..] == [];
  }

  /** A batch of one data block delivers that block's parse. */
  lemma OneBlock(t: Transcript, j: string, parse: string -> Parsed)
    requires Classify(j) == Data(j)
    ensures RunBatches(t, [[j]], parse) == Deliver(t, parse(j))
  {
    assert [j][0] == j && [j][1..] == [];
    assert RunBlocks(t, [j], parse) == RunBlocks(Deliver(t, parse(j)), [], parse);
    assert [[j]][0] == [j] && [[j]][1..] == [];
    assert RunBatches(t, [[j]], parse) == RunBatches(RunBlocks(t, [j], parse), [], parse);
  }

  /**
   * The hook's state.  `seen`, `streaming` and `controller` are the refs
   * `processedChunkIdsRef`, `isStreamingTokensRef` and `abortControllerRef`;
   * `drawn` counts the fresh message ids drawn so far; `reported` lists the
   * errors passed to `onError`.
   */
  class DataStreamHook {
    var messages: seq<Message>
    var streamEvents: seq<StreamEvent>
    var isLoading: bool
    var controller: AbortController?
    var seen: set<int>
    var streaming: bool
    var drawn: nat
    var reported: seq<Thrown>

    /** The part of the state the reducer works on. */
    function State(): Transcript
      reads this
    {
      Transcript(messages, streaming, seen, drawn)
    }

    /** Lines 36-50: the messages stored for this thread, or none. */
    constructor (stored: seq<Message>)
      ensures messages == stored && streamEvents == [] && !isLoading && controller == null
      ensures seen == {} && !streaming && drawn == 0 && reported == []
    {
      messages := stored;
      streamEvents := [];
      isLoading := false;
      controller := null;
      seen := {};
      streaming := false;
      drawn := 0;
      reported := [];
    }

    /**
     * Lines 71-82: aborts the running request, installs a new controller,
     * clears the seen set, sets the loading flag, and replaces the messages
     * and the events.  The streaming flag is left alone.
     */
    method Begin(given: seq<Message>)
      modifies this, controller
      ensures old(controller) != null ==> old(controller).aborted
      ensures controller != null && fresh(controller) && !controller.aborted
      ensures isLoading && seen == {} && messages == given && streamEvents == []
      ensures streaming == old(streaming) && drawn == old(drawn) && reported == old(reported)
    {
      if controller != null {
        controller.Abort();
      }
      controller := new AbortController();
      seen := {};
      isLoading := true;
      messages := given;
      streamEvents := [];
    }

    /**
     * Lines 143-213 for one parsed block: a duplicate id is skipped, a
     * truthy id is recorded, and the chunk is folded into the messages.
     */
    method Apply(p: Parsed)
      modifies this
      ensures State() == Deliver(old(State()), p)
      ensures streamEvents == old(streamEvents) && isLoading == old(isLoading)
      ensures controller == old(controller) && reported == old(reported)
    {
      if p.Malformed? {
        return;
      }
      var c := p.chunk;
      if c.chunkId.Some? && c.chunkId.value in seen {
        return;
      }
      if c.chunkId.Some? && c.chunkId.value != 0 {
        seen := seen + {c.chunkId.value};
      }
      if c.kind == MessageType && c.content.PMessage? && c.content.message.role != Human {
        var m := c.content.message;
        streaming := false;
        if m.role == Ai && |m.toolCalls| > 0 {
          messages := messages + [m];
        } else if m.role == Tool {
          if m.toolCallId.Some? && m.toolCallId.value != "" {
            messages := AttachAll(messages, m.toolCallId.value, m.content);
          }
        }
      } else if c.kind == TokenType && c.content.PText? {
        var s := c.content.text;
        if !streaming {
          messages := messages + [TokenMessage(s, Fresh(drawn))];
          drawn := drawn + 1;
          streaming := true;
        } else if |messages| > 0 {
          var last := messages[|messages| - 1];
          messages := messages[|messages| - 1 := last.(content := Text(AsString(last.content) + s))];
        }
      }
    }

    /**
     * Lines 130-213, the body of the `for` loop: trims the block, skips it
     * when empty, strips one `data: `, reports the end marker, and otherwise
     * applies the parsed chunk.
     */
    method Block(line: string, parse: string -> Parsed) returns (stop: bool)
      modifies this
      ensures stop <==> Classify(line).Stop?
      ensures State() == if Classify(line).Data? then Deliver(old(State()), parse(Classify(line).json)) else old(State())
      ensures streamEvents == old(streamEvents) && isLoading == old(isLoading)
      ensures controller == old(controller) && reported == old(reported)
    {
      var trimmed := Trim(line);
      if trimmed == "" {
        return false;
      }
      var json := trimmed;
      if StartsWith(trimmed, "data: ") {
        json := trimmed[6..];
      }
      if json == "[DONE]" || json == "DONE" {
        return true;
      }
      Apply(parse(json));
      stop := false;
    }

    /**
     * Lines 129-214, the `for` loop over one batch: the blocks are handled
     * in order until an end marker.
     */
    method RunBatch(blocks: seq<string>, parse: string -> Parsed)
      modifies this
      ensures State() == RunBlocks(old(State()), blocks, parse)
      ensures streamEvents == old(streamEvents) && isLoading == old(isLoading)
      ensures controller == old(controller) && reported == old(reported)
    {
      ghost var s0 := State();
      assert blocks[0..] == blocks;
      var i := 0;
      while i < |blocks|
        invariant 0 <= i <= |blocks|
        invariant RunBlocks(State(), blocks[i..], parse) == RunBlocks(s0, blocks, parse)
        invariant streamEvents == old(streamEvents) && isLoading == old(isLoading)
        invariant controller == old(controller) && reported == old(reported)
      {
        ghost var before := State();
        RunBlocksAt(before, blocks, i, parse);
        var stop := Block(blocks[i], parse);
        if stop {
          assert State() == RunBlocks(s0, blocks, parse);
          break;
        }
        assert RunBlocks(State(), blocks[i + 1..], parse) == RunBlocks(before, blocks[i..], parse);
        i := i + 1;
      }
      assert i == |blocks| ==> blocks[i..] == [];
    }

    /**
     * Lines 123-127 for one read: the text is added to the buffer, the
     * buffer is cut at blank lines, the complete blocks go to the loop
     * and the last piece is kept.
     */
    method Read(buffer: string, text: string, parse: string -> Parsed) returns (rest: string)
      modifies this
      ensures State() == RunBlocks(old(State()), Init(SplitOn(buffer + text, Sep)), parse)
      ensures rest == Last(SplitOn(buffer + text, Sep))
      ensures streamEvents == old(streamEvents) && isLoading == old(isLoading)
      ensures controller == old(controller) && reported == old(reported)
    {
      var lines := SplitOn(buffer + text, Sep);
      rest := lines[|lines| - 1];
      RunBatch(lines[..|lines| - 1], parse);
    }

    /** Lines 217-227: reports the outcome when it should, then clears loading and the controller. */
    method Finish(outcome: Option<Thrown>)
      modifies this
      ensures reported == old(reported) + ReportsOf(outcome)
      ensures !isLoading && controller == null
      ensures State() == old(State()) && streamEvents == old(streamEvents)
    {
      if outcome.Some? {
        var e := outcome.value;
        if e.Failure? && ErrorName(e.problem) != "AbortError" {
          reported := reported + [e];
        }
      }
      isLoading := false;
      controller := null;
    }

    /**
     * The `while` loop of lines 116-215: every read goes through `Read`
     * with the buffer it left; the result is the final buffer.
     */
    method ReadAll(texts: seq<string>, parse: string -> Parsed) returns (buffer: string)
      modifies this
      ensures State() == RunBatches(old(State()), Batches("", texts), parse)
      ensures buffer == FinalBuffer("", texts)
      ensures streamEvents == old(streamEvents) && isLoading == old(isLoading)
      ensures controller == old(controller) && reported == old(reported)
    {
      buffer := "";
      var i := 0;
      while i < |texts|
        invariant 0 <= i <= |texts|
        invariant RunBatches(State(), Batches(buffer, texts[i..]), parse) == RunBatches(old(State()), Batches("", texts), parse)
        invariant FinalBuffer(buffer, texts[i..]) == FinalBuffer("", texts)
        invariant streamEvents == old(streamEvents) && isLoading == old(isLoading)
        invariant controller == old(controller) && reported == old(reported)
      {
        assert texts[i..][0] == texts[i] && texts[i..][1..] == texts[i + 1..];
        buffer := Read(buffer, texts[i], parse);
        i := i + 1;
      }
    }

    /** `submit` (lines 66-228), run to completion. */
    method Submit(given: seq<Message>, response: Response, parse: string -> Parsed)
      modifies this, controller
      ensures old(controller) != null ==> old(controller).aborted
      ensures State() == Submitted(old(State()), given, response, parse).t
      ensures reported == old(reported) + ReportsOf(Submitted(old(State()), given, response, parse).outcome)
      ensures !isLoading && controller == null && streamEvents == []
    {
      Begin(given);
      var outcome: Option<Thrown>;
      if given == [] {
        outcome := Some(Failure(NoLastMessage));
      } else {
        match response
        case FetchRejected(e) =>
          outcome := Some(e);
        case NotOk(status) =>
          outcome := Some(Failure(HttpStatus(status)));
        case NoBody =>
          outcome := Some(Failure(NoReader));
        case Body(texts, end) =>
          var rest := ReadAll(texts, parse);
          outcome := end;
      }
      Finish(outcome);
    }

    /** `stop` (lines 230-235): aborts the current controller, if any, and clears loading. */
    method Stop()
      modifies this, controller
      ensures controller == old(controller) && (controller != null ==> controller.aborted)
      ensures !isLoading
      ensures State() == old(State()) && streamEvents == old(streamEvents) && reported == old(reported)
    {
      if controller != null {
        controller.Abort();
      }
      isLoading := false;
    }
  }
}
