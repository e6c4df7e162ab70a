/**
 * The stream endpoint of controllers/v1/agent.ts as a writer of server-sent
 * event frames: `streamTokens` and `streamToolCall` write every non-blank
 * line of a text followed by a blank line, and `handleStreamPost` writes
 * the fixture's sections in order and ends the response. The client's
 * decoder reads back exactly the written lines, however the transport cuts
 * the text into reads.
 */
module AgentController {
  import opened Wrappers
  import opened Text
  import opened TranscriptReducer
  import opened StreamDecoder

  /** The response stream `reply.raw`: the text written so far and whether it was ended. */
  class Reply {
    var body: string
    var ended: bool

    constructor()
      ensures body == "" && !ended
    {
      body := "";
      ended := false;
    }

    /** `reply.raw.write(chunk)`. */
    method Write(chunk: string)
      modifies this
      ensures body == old(body) + chunk && ended == old(ended)
    {
      body := body + chunk;
    }

    /** `reply.raw.end()`. */
    method End()
      modifies this
      ensures body == old(body) && ended
    {
      ended := true;
    }
  }

  /** `chunk.trim()` is truthy: some character is not white space. */
  predicate Written(line: string)
  {
    exists i :: 0 <= i < |line| && !IsSpace(line[i])
  }

  /** The test of lines 163 and 172 is `Written`. */
  lemma WrittenIsTrimmed(line: string)
    ensures Trim(line) != "" <==> Written(line)
  {
    TrimSpec(line);
  }

  /** The lines that are written: those whose trim is non-empty, in order. */
  function Kept(lines: seq<string>): (r: seq<string>)
    ensures |r| <= |lines|
    ensures forall k :: 0 <= k < |r| ==> Written(r[k]) && r[k] in lines
    ensures forall k :: 0 <= k < |lines| && Written(lines[k]) ==> lines[k] in r
  {
    if lines == [] then []
    else
      var rest := Kept(lines[1..]);
      var r := (if Written(lines[0]) then [lines[0]] else []) + rest;
      assert forall k :: 1 <= k < |lines| ==> lines[k] == lines[1..][k - 1];
      assert forall x :: x in rest ==> x in r;
      r
  }

  /**
   * What the loop writes for the lines: each kept line followed by a blank
   * line, so nothing at all when no line is kept.
   */
  function Framed(lines: seq<string>): (r: string)
    ensures r == "" <==> Kept(lines) == []
  {
    if lines == [] then ""
    else (if Written(lines[0]) then lines[0] + Sep else "") + Framed(lines[1..])
  }

  /** Whatever the loop writes ends with a blank line. */
  lemma {:induction false} FramedEndsBlank(lines: seq<string>)
    ensures var r := Framed(lines); r != "" ==> |r| >= 2 && r[|r| - 2..] == Sep
  {
    if lines != [] {
      FramedEndsBlank(lines[1..]);
      var rest := Framed(lines[1..]);
      var r := Framed(lines);
      if rest != "" {
        assert r[|r| - 2..] == rest[|rest| - 2..];
      }
    }
  }

  /** What one call of `streamTokens` or `streamToolCall` writes for a text. */
  function Frame(text: string): (r: string)
    ensures r == "" <==> Kept(SplitOn(text, "\n")) == []
  {
    Framed(SplitOn(text, "\n"))
  }

  /**
   * `streamTokens` (lines 161-168) and `streamToolCall` (lines 170-181),
   * which write the same frames and differ only in the pauses between them.
   */
  method StreamLines(reply: Reply, text: string)
    modifies reply
    ensures reply.body == old(reply.body) + Frame(text) && reply.ended == old(reply.ended)
  {
    var lines := SplitOn(text, "\n");
    var i := 0;
    while i < |lines|
      invariant 0 <= i <= |lines|
      invariant reply.body + Framed(lines[i..]) == old(reply.body) + Framed(lines)
      invariant reply.ended == old(reply.ended)
    {
      var chunk := lines[i];
      FramedAt(lines, i);
      WrittenIsTrimmed(chunk);
      if Trim(chunk) != "" {
        AppendAssoc(reply.body, chunk + Sep, Framed(lines[i + 1..]));
        reply.Write(chunk + Sep);
      } else {
        assert "" + Framed(lines[i + 1..]) == Framed(lines[i + 1..]);
      }
      i := i + 1;
    }
    assert reply.body + "" == reply.body;
  }

  /** `Framed` on a suffix, unfolded once at its first line. */
  lemma FramedAt(lines: seq<string>, i: nat)
    requires i < |lines|
    ensures Framed(lines[i..]) == (if Written(lines[i]) then lines[i] + Sep else "") + Framed(lines[i + 1..])
  {
    assert lines[i..][0] == lines[i] && lines[i..][1..] == lines[i + 1..];
  }

  /** The literal texts `handleStreamPost` streams (lines 20-149), kept opaque. */
  datatype StreamFixture = StreamFixture(
    initialTokens: string,
    toolCall1: string, thinking1: string,
    toolCall2: string, thinking2: string,
    toolCall3: string, thinking3: string,
    toolCall4: string, thinking4: string,
    toolCall5: string,
    summaryTokens: string)

  /** The body in the order of lines 184-204. */
  function FixtureBody(f: StreamFixture): string
  {
    Frame(f.initialTokens)
    + Frame(f.toolCall1) + Frame(f.thinking1)
    + Frame(f.toolCall2) + Frame(f.thinking2)
    + Frame(f.toolCall3) + Frame(f.thinking3)
    + Frame(f.toolCall4) + Frame(f.thinking4)
    + Frame(f.toolCall5) + Frame(f.summaryTokens)
  }

  /** `handleStreamPost` (lines 184-207) without the headers and pauses. */
  method HandleStreamPost(reply: Reply, f: StreamFixture)
    modifies reply
    ensures reply.body == old(reply.body) + Frame(f.initialTokens)
      + Frame(f.toolCall1) + Frame(f.thinking1)
      + Frame(f.toolCall2) + Frame(f.thinking2)
      + Frame(f.toolCall3) + Frame(f.thinking3)
      + Frame(f.toolCall4) + Frame(f.thinking4)
      + Frame(f.toolCall5) + Frame(f.summaryTokens)
    ensures reply.ended
  {
    var StreamFixture(initialTokens, toolCall1, thinking1, toolCall2, thinking2,
      toolCall3, thinking3, toolCall4, thinking4, toolCall5, summaryTokens) := f;
    StreamLines(reply, initialTokens);
    StreamLines(reply, toolCall1);
    StreamLines(reply, thinking1);
    StreamLines(reply, toolCall2);
    StreamLines(reply, thinking2);
    StreamLines(reply, toolCall3);
    StreamLines(reply, thinking3);
    StreamLines(reply, toolCall4);
    StreamLines(reply, thinking4);
    StreamLines(reply, toolCall5);
    StreamLines(reply, summaryTokens);
    reply.End();
  }

  /** On a fresh response, the body `handleStreamPost` writes is the fixture's body. */
  lemma FreshBody(f: StreamFixture)
    ensures "" + Frame(f.initialTokens)
      + Frame(f.toolCall1) + Frame(f.thinking1)
      + Frame(f.toolCall2) + Frame(f.thinking2)
      + Frame(f.toolCall3) + Frame(f.thinking3)
      + Frame(f.toolCall4) + Frame(f.thinking4)
      + Frame(f.toolCall5) + Frame(f.summaryTokens) == FixtureBody(f)
  {
    assert "" + Frame(f.initialTokens) == Frame(f.initialTokens);
  }

  /** The lines of the fixture's sections, in the order they are streamed. */
  function FixtureLines(f: StreamFixture): seq<string>
  {
    SplitOn(f.initialTokens, "\n")
    + SplitOn(f.toolCall1, "\n") + SplitOn(f.thinking1, "\n")
    + SplitOn(f.toolCall2, "\n") + SplitOn(f.thinking2, "\n")
    + SplitOn(f.toolCall3, "\n") + SplitOn(f.thinking3, "\n")
    + SplitOn(f.toolCall4, "\n") + SplitOn(f.thinking4, "\n")
    + SplitOn(f.toolCall5, "\n") + SplitOn(f.summaryTokens, "\n")
  }

  // ---------------------------------------------------------------------
  // Framing round trip
  // ---------------------------------------------------------------------

  /** Framing distributes over concatenation. */
  lemma FramedAppend(a: seq<string>, b: seq<string>)
    ensures Framed(a + b) == Framed(a) + Framed(b)
    ensures Kept(a + b) == Kept(a) + Kept(b)
    ensures OneLineEach(a) && OneLineEach(b) ==> OneLineEach(a + b)
  {
    FramedDistributes(a, b);
    KeptDistributes(a, b);
    if OneLineEach(a) && OneLineEach(b) {
      OneLineEachAppend(a, b);
    }
  }

  /** Two lists of single lines make one list of single lines. */
  lemma OneLineEachAppend(a: seq<string>, b: seq<string>)
    requires OneLineEach(a) && OneLineEach(b)
    ensures OneLineEach(a + b)
  {
    forall k | 0 <= k < |a + b| ensures '\n' !in (a + b)[k] {
      if k >= |a| {
        assert (a + b)[k] == b[k - |a|];
      }
    }
  }

  /** The framed text of two lists of lines is the framed text of each, one after the other. */
  lemma {:induction false} FramedDistributes(a: seq<string>, b: seq<string>)
    ensures Framed(a + b) == Framed(a) + Framed(b)
  {
    if a != [] {
      FramedDistributes(a[1..], b);
      assert (a + b)[1..] == a[1..] + b;
      assert (a + b)[0] == a[0];
      var head := if Written(a[0]) then a[0] + Sep else "";
      AppendAssoc(head, Framed(a[1..]), Framed(b));
    } else {
      assert a + b == b;
    }
  }

  /** The kept lines of two lists are those of each, one after the other. */
  lemma {:induction false} KeptDistributes(a: seq<string>, b: seq<string>)
    ensures Kept(a + b) == Kept(a) + Kept(b)
  {
    if a != [] {
      KeptDistributes(a[1..], b);
      assert (a + b)[1..] == a[1..] + b;
      assert (a + b)[0] == a[0];
      AppendAssoc(if Written(a[0]) then [a[0]] else [], Kept(a[1..]), Kept(b));
    } else {
      assert a + b == b;
    }
  }

  /** A string without the separator `"\n"` has no newline character. */
  lemma NoNewline(l: string)
    requires Free(l, "\n")
    ensures '\n' !in l
  {
    forall i | 0 <= i < |l| ensures l[i] != '\n' {
      assert !OccursAt(l, "\n", i);
      assert l[i..i + 1] == [l[i]];
    }
  }

  /** No line holds a newline character. */
  predicate OneLineEach(lines: seq<string>)
  {
    forall k :: 0 <= k < |lines| ==> '\n' !in lines[k]
  }

  /** The pieces of `split('\n')` hold no newline. */
  lemma LinesHaveNoNewline(text: string)
    ensures OneLineEach(SplitOn(text, "\n"))
  {
    SplitJoin(text, "\n");
    forall k | 0 <= k < |SplitOn(text, "\n")| ensures '\n' !in SplitOn(text, "\n")[k] {
      NoNewline(SplitOn(text, "\n")[k]);
    }
  }

  /**
   * Cutting the framed text at every blank line gives back exactly the
   * kept lines, in order, and an empty remainder.
   */
  lemma {:induction false} FramedSplit(lines: seq<string>)
    requires OneLineEach(lines)
    ensures SplitOn(Framed(lines), Sep) == Kept(lines) + [""]
  {
    if lines == [] {
      assert Find("", Sep, 0) == None;
    } else {
      var rest := Framed(lines[1..]);
      FramedSplit(lines[1..]);
      if Written(lines[0]) {
        assert Sep[0] !in lines[0];
        SplitAfterPiece(lines[0], Sep, rest);
        assert Framed(lines) == lines[0] + Sep + rest;
        assert Kept(lines) == [lines[0]] + Kept(lines[1..]);
      } else {
        assert Framed(lines) == rest;
        assert Kept(lines) == Kept(lines[1..]);
      }
    }
  }

  /** The same for one section's text. */
  lemma FrameSplit(text: string)
    ensures SplitOn(Frame(text), Sep) == Kept(SplitOn(text, "\n")) + [""]
  {
    LinesHaveNoNewline(text);
    FramedSplit(SplitOn(text, "\n"));
  }

  /** The whole fixture body is the framing of all its lines. */
  lemma FixtureFramed(f: StreamFixture)
    ensures FixtureBody(f) == Framed(FixtureLines(f))
    ensures OneLineEach(FixtureLines(f))
  {
    LinesHaveNoNewline(f.initialTokens);
    LinesHaveNoNewline(f.toolCall1);
    LinesHaveNoNewline(f.thinking1);
    LinesHaveNoNewline(f.toolCall2);
    LinesHaveNoNewline(f.thinking2);
    LinesHaveNoNewline(f.toolCall3);
    LinesHaveNoNewline(f.thinking3);
    LinesHaveNoNewline(f.toolCall4);
    LinesHaveNoNewline(f.thinking4);
    LinesHaveNoNewline(f.toolCall5);
    LinesHaveNoNewline(f.summaryTokens);
    ghost var a0 := SplitOn(f.initialTokens, "\n");
    FramedAppend(a0, SplitOn(f.toolCall1, "\n"));
    ghost var a1 := a0 + SplitOn(f.toolCall1, "\n");
    FramedAppend(a1, SplitOn(f.thinking1, "\n"));
    ghost var a2 := a1 + SplitOn(f.thinking1, "\n");
    FramedAppend(a2, SplitOn(f.toolCall2, "\n"));
    ghost var a3 := a2 + SplitOn(f.toolCall2, "\n");
    FramedAppend(a3, SplitOn(f.thinking2, "\n"));
    ghost var a4 := a3 + SplitOn(f.thinking2, "\n");
    FramedAppend(a4, SplitOn(f.toolCall3, "\n"));
    ghost var a5 := a4 + SplitOn(f.toolCall3, "\n");
    FramedAppend(a5, SplitOn(f.thinking3, "\n"));
    ghost var a6 := a5 + SplitOn(f.thinking3, "\n");
    FramedAppend(a6, SplitOn(f.toolCall4, "\n"));
    ghost var a7 := a6 + SplitOn(f.toolCall4, "\n");
    FramedAppend(a7, SplitOn(f.thinking4, "\n"));
    ghost var a8 := a7 + SplitOn(f.thinking4, "\n");
    FramedAppend(a8, SplitOn(f.toolCall5, "\n"));
    ghost var a9 := a8 + SplitOn(f.toolCall5, "\n");
    FramedAppend(a9, SplitOn(f.summaryTokens, "\n"));
  }

  /**
   * End to end: whatever reads the transport cuts a framed text into, the
   * client's buffer ends empty and the transcript is that of handling the
   * written lines as one batch, provided only the last of them may be the
   * end marker.
   */
  lemma WireRoundTrip(t: Transcript, lines: seq<string>, texts: seq<string>, parse: string -> Parsed)
    requires OneLineEach(lines)
    requires Concat(texts) == Framed(lines)
    requires StopsOnlyAtEnd(Kept(lines))
    ensures Flatten(Batches("", texts)) == Kept(lines)
    ensures FinalBuffer("", texts) == ""
    ensures RunBatches(t, Batches("", texts), parse) == RunBlocks(t, Kept(lines), parse)
  {
    var flat := Flatten(Batches("", texts));
    var last := FinalBuffer("", texts);
    assert Free("", Sep);
    BatchesCover("", texts);
    assert "" + Concat(texts) == Framed(lines);
    FramedSplit(lines);
    SnocInjective(flat, last, Kept(lines), "");
    RunBatchesFlat(t, Batches("", texts), parse);
  }
}
