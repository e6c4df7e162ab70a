/**
 * The canned answer end to end: what `handleStreamPost` writes, cut into
 * reads in any way, read by the client's `submit`, gives the transcript of
 * the fixture's chunks, provided every written line but the last is a JSON
 * object and the last is the end marker.
 */
module StreamWire {
  import opened Wrappers
  import opened Text
  import opened Messages
  import opened TranscriptReducer
  import opened StreamDecoder
  import opened DataStream
  import opened AgentController
  import opened StreamScenario

  /** A written line that holds one JSON object: it opens with `{` and closes with `}`. */
  predicate ObjectLine(j: string)
  {
    |j| >= 2 && j[0] == '{' && j[|j| - 1] == '}'
  }

  /** What `JSON.parse` makes of each line. */
  function ParseAll(objs: seq<string>, parse: string -> Parsed): (r: seq<Parsed>)
    ensures |r| == |objs|
  {
    if objs == [] then [] else [parse(objs[0])] + ParseAll(objs[1..], parse)
  }

  /** An object line is handed to the parser as it is. */
  lemma ObjectClassified(j: string)
    requires ObjectLine(j)
    ensures Classify(j) == Data(j)
  {
    KeepsTrim(j);
    assert j[0] != "data: "[0];
    assert j != "[DONE]" && j != "DONE" by {
      assert "[DONE]"[0] != j[0] && "DONE"[0] != j[0];
    }
    ClassifyPayload(j);
  }

  /** No object line is the end marker. */
  lemma ObjectsNoStop(objs: seq<string>)
    requires forall k :: 0 <= k < |objs| ==> ObjectLine(objs[k])
    ensures NoStop(objs)
  {
    forall k | 0 <= k < |objs|
      ensures !Classify(objs[k]).Stop?
    {
      ObjectClassified(objs[k]);
    }
  }

  /** A batch of object lines delivers their parses in order. */
  lemma {:induction false} ObjectsRun(t: Transcript, objs: seq<string>, parse: string -> Parsed)
    requires forall k :: 0 <= k < |objs| ==> ObjectLine(objs[k])
    ensures RunBlocks(t, objs, parse) == DeliverAll(t, ParseAll(objs, parse))
    decreases |objs|
  {
    if objs != [] {
      ObjectClassified(objs[0]);
      var rest := objs[1..];
      assert forall k :: 0 <= k < |rest| ==> ObjectLine(rest[k]) by {
        forall k | 0 <= k < |rest| ensures ObjectLine(rest[k]) {
          assert rest[k] == objs[k + 1];
        }
      }
      ObjectsRun(Deliver(t, parse(objs[0])), rest, parse);
      DeliverAllCons(t, parse(objs[0]), ParseAll(rest, parse));
    }
  }

  /** The end marker after the objects ends the stream and adds nothing. */
  lemma ObjectsThenDone(t: Transcript, objs: seq<string>, parse: string -> Parsed)
    requires forall k :: 0 <= k < |objs| ==> ObjectLine(objs[k])
    ensures RunBlocks(t, objs + ["[DONE]"], parse) == DeliverAll(t, ParseAll(objs, parse))
    ensures StopsOnlyAtEnd(objs + ["[DONE]"])
  {
    ClassifyDone("[DONE]");
    StopEndsBatch(t, objs, "[DONE]", [], parse);
    AppendNil(objs + ["[DONE]"]);
    ObjectsRun(t, objs, parse);
    ObjectsStopAtEnd(objs);
  }

  /** Only the end marker after the object lines is a stop. */
  lemma ObjectsStopAtEnd(objs: seq<string>)
    requires forall k :: 0 <= k < |objs| ==> ObjectLine(objs[k])
    ensures StopsOnlyAtEnd(objs + ["[DONE]"])
  {
    ObjectsNoStop(objs);
    forall k | 0 <= k < |objs + ["[DONE]"]| - 1
      ensures !Classify((objs + ["[DONE]"])[k]).Stop?
    {
      assert (objs + ["[DONE]"])[k] == objs[k];
    }
  }

  /**
   * A `submit` that reads a body framed from object lines and the end
   * marker, cut into reads in any way, delivers the lines' parses in order
   * to the given messages, and ends without an error.
   */
  lemma FramedSubmitted(lines: seq<string>, texts: seq<string>, objs: seq<string>, parse: string -> Parsed,
                        t0: Transcript, given: seq<Message>)
    requires OneLineEach(lines) && Concat(texts) == Framed(lines)
    requires Kept(lines) == objs + ["[DONE]"]
    requires forall k :: 0 <= k < |objs| ==> ObjectLine(objs[k])
    requires given != []
    ensures Submitted(t0, given, Body(texts, None), parse)
      == Submission(DeliverAll(t0.(messages := given, seen := {}), ParseAll(objs, parse)), None)
  {
    var t := t0.(messages := given, seen := {});
    ObjectsThenDone(t, objs, parse);
    WireRoundTrip(t, lines, texts, parse);
    BodySubmitted(t0, given, texts, parse);
  }

  /** A body that ends normally: the reads' batches folded into the given messages, no error. */
  lemma BodySubmitted(t0: Transcript, given: seq<Message>, texts: seq<string>, parse: string -> Parsed)
    requires given != []
    ensures Submitted(t0, given, Body(texts, None), parse)
      == Submission(RunBatches(t0.(messages := given, seen := {}), Batches("", texts), parse), None)
  {
  }

  /** Delivering the fixture's chunks to the given messages gives the eleven new messages. */
  lemma FixtureOutcome(t0: Transcript, given: seq<Message>, initial: seq<string>, rs: seq<Round>, closing: Message)
    requires !t0.streaming
    requires |initial| == InitialRun && FixtureRounds(rs)
    requires closing.role == Ai && closing.toolCalls == []
    requires CallsAbsent(given, rs)
    ensures var u := DeliverAll(t0.(messages := given, seen := {}), FixtureChunks(initial, rs, closing));
      && u.messages == given + [TokenMessage(Concat(initial), Fresh(t0.drawn))] + RoundsMessages(rs, t0.drawn + 1)
      && |u.messages| == |given| + 11
      && !u.streaming
  {
    var t := t0.(messages := given, seen := {});
    assert t.messages == given && t.drawn == t0.drawn && !t.streaming;
    FixtureTranscript(t, initial, rs, closing);
  }

  /**
   * The same read end to end: the messages are those given followed by
   * the eleven the fixture builds.
   */
  lemma FixtureOverTheWire(f: StreamFixture, texts: seq<string>, objs: seq<string>, parse: string -> Parsed,
                           t0: Transcript, given: seq<Message>,
                           initial: seq<string>, rs: seq<Round>, closing: Message)
    requires Concat(texts) == FixtureBody(f)
    requires Kept(FixtureLines(f)) == objs + ["[DONE]"]
    requires forall k :: 0 <= k < |objs| ==> ObjectLine(objs[k])
    requires ParseAll(objs, parse) == FixtureChunks(initial, rs, closing)
    requires !t0.streaming && given != []
    requires |initial| == InitialRun && FixtureRounds(rs)
    requires closing.role == Ai && closing.toolCalls == []
    requires CallsAbsent(given, rs)
    ensures var s := Submitted(t0, given, Body(texts, None), parse);
      && s.outcome == None
      && s.t.messages == given + [TokenMessage(Concat(initial), Fresh(t0.drawn))] + RoundsMessages(rs, t0.drawn + 1)
      && |s.t.messages| == |given| + 11
      && !s.t.streaming
  {
    FixtureFramed(f);
    FramedSubmitted(FixtureLines(f), texts, objs, parse, t0, given);
    FixtureOutcome(t0, given, initial, rs, closing);
  }
}
