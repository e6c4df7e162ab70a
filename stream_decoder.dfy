/**
 * The client's framing of the response body (useDataStream.tsx lines
 * 115-141): text is accumulated in a buffer, cut at every blank line
 * ("\n\n"), the trailing partial block is kept for the next read, and each
 * complete block is trimmed, stripped of one leading `data: ` and either
 * skipped, taken as the end marker, or handed to `JSON.parse`.
 */
module StreamDecoder {
  import opened Wrappers
  import opened Text
  import opened TranscriptReducer

  /** The block separator. */
  const Sep: string := "\n\n"

  /** What the loop body does with one complete block. */
  datatype Block = Skip | Stop | Data(json: string)

  /** The text after one optional leading `data: `. */
  function StripData(s: string): (r: string)
    ensures StartsWith(s, "data: ") ==> s == "data: " + r
    ensures !StartsWith(s, "data: ") ==> r == s
  {
    if StartsWith(s, "data: ") then s[6..] else s
  }

  /** The end-of-stream marker, in either spelling. */
  predicate IsDone(j: string)
  {
    j == "[DONE]" || j == "DONE"
  }

  /** Lines 130-141: trim, skip when empty, strip `data: `, stop on the marker. */
  function Classify(line: string): (r: Block)
    ensures r == Skip <==> Trim(line) == ""
    ensures r == Stop <==> Trim(line) != "" && IsDone(StripData(Trim(line)))
    ensures r.Data? ==> (Trim(line) == r.json || Trim(line) == "data: " + r.json)
    ensures r.Data? ==> r.json != "" && !IsDone(r.json)
  {
    var tl := Trim(line);
    if tl == "" then Skip
    else
      var j := StripData(tl);
      if IsDone(j) then Stop
      else
        assert j != "" by {
          TrimSpec(line);
          assert !IsSpace(tl[|tl| - 1]);
        }
        Data(j)
  }

  /** A block is skipped exactly when it is all white space. */
  lemma ClassifySkip(line: string)
    ensures Classify(line) == Skip <==> forall i :: 0 <= i < |line| ==> IsSpace(line[i])
  {
    TrimSpec(line);
  }

  /**
   * What reaches `JSON.parse` is the trimmed block with at most one
   * `data: ` taken off its front; it is never the end marker.
   */
  lemma ClassifyData(line: string)
    requires Classify(line).Data?
    ensures var j := Classify(line).json;
      && (Trim(line) == j || Trim(line) == "data: " + j)
      && !IsDone(j) && j != ""
      && Trim(line) != ""
  {
  }

  /** Only one `data: ` is removed: a doubled prefix leaves the second one in place. */
  lemma ClassifyStripsOnce(j: string)
    requires Trim(j) == j && j != "" && !IsDone(j)
    ensures Classify("data: data: " + j) == Data("data: " + j)
  {
    var s := "data: data: " + j;
    KeepsTrim(s);
    assert s[..6] == "data: ";
    assert s[6..] == "data: " + j;
  }

  /** Both marker spellings, with or without `data: `, end the batch. */
  lemma ClassifyDone(j: string)
    requires IsDone(j)
    ensures Classify(j) == Stop && Classify("data: " + j) == Stop
  {
    var s := "data: " + j;
    KeepsTrim(j);
    assert s[|s| - 1] == j[|j| - 1];
    KeepsTrim(s);
    assert s[..6] == "data: ";
    assert s[6..] == j;
    assert j[0] != 'd';
  }

  /**
   * A trimmed, non-empty JSON text that is not the marker is passed on as it
   * is, whether it was sent bare or after `data: `.
   */
  lemma ClassifyPayload(j: string)
    requires Trim(j) == j && j != "" && !IsDone(j) && !StartsWith(j, "data: ")
    ensures Classify(j) == Data(j)
    ensures Classify("data: " + j) == Data(j)
  {
    var s := "data: " + j;
    TrimSpec(j);
    assert s[|s| - 1] == j[|j| - 1];
    KeepsTrim(s);
    assert s[..6] == "data: ";
    assert s[6..] == j;
  }

  /** A string that neither starts nor ends with white space is its own trim. */
  lemma KeepsTrim(s: string)
    requires s != [] && !IsSpace(s[0]) && !IsSpace(s[|s| - 1])
    ensures Trim(s) == s
  {
    assert TrimStart(s) == s;
  }

  // ---------------------------------------------------------------------
  // One batch of blocks
  // ---------------------------------------------------------------------

  /** No block of the list is the end marker. */
  predicate NoStop(blocks: seq<string>)
  {
    forall i :: 0 <= i < |blocks| ==> !Classify(blocks[i]).Stop?
  }

  /**
   * The `for` loop of lines 129-214 on one batch: blocks are handled left
   * to right, and the first end marker ends the batch.
   */
  function RunBlocks(t: Transcript, blocks: seq<string>, parse: string -> Parsed): (r: Transcript)
    decreases |blocks|
  {
    if blocks == [] then t
    else match Classify(blocks[0])
      case Stop => t
      case Skip => RunBlocks(t, blocks[1..], parse)
      case Data(j) => RunBlocks(Deliver(t, parse(j)), blocks[1..], parse)
  }

  /**
   * A batch only ever adds: chunk ids are recorded and never forgotten,
   * no message is removed, and each block adds at most one message and
   * draws at most one fresh id.
   */
  lemma {:induction false} RunBlocksBounds(t: Transcript, blocks: seq<string>, parse: string -> Parsed)
    ensures var r := RunBlocks(t, blocks, parse);
      && t.seen <= r.seen
      && |t.messages| <= |r.messages| <= |t.messages| + |blocks|
      && t.drawn <= r.drawn <= t.drawn + |blocks|
    decreases |blocks|
  {
    if blocks != [] {
      match Classify(blocks[0])
      case Stop =>
      case Skip => RunBlocksBounds(t, blocks[1..], parse);
      case Data(j) =>
        DeliverEffect(t, parse(j));
        RunBlocksBounds(Deliver(t, parse(j)), blocks[1..], parse);
    }
  }

  /** `RunBlocks` on a suffix, unfolded once at its first block. */
  lemma RunBlocksAt(t: Transcript, blocks: seq<string>, i: nat, parse: string -> Parsed)
    requires i < |blocks|
    ensures RunBlocks(t, blocks[i..], parse) ==
      match Classify(blocks[i])
      case Stop => t
      case Skip => RunBlocks(t, blocks[i + 1..], parse)
      case Data(j) => RunBlocks(Deliver(t, parse(j)), blocks[i + 1..], parse)
  {
    assert blocks[i..][0] == blocks[i] && blocks[i..][1..] == blocks[i + 1..];
  }

  /** Without an end marker, running two lists of blocks is running their concatenation. */
  lemma {:induction false} RunBlocksAppend(t: Transcript, a: seq<string>, b: seq<string>, parse: string -> Parsed)
    requires NoStop(a)
    ensures RunBlocks(t, a + b, parse) == RunBlocks(RunBlocks(t, a, parse), b, parse)
    decreases |a|
  {
    if a == [] {
      assert a + b == b;
    } else {
      assert (a + b)[0] == a[0];
      assert (a + b)[1..] == a[1..] + b;
      assert NoStop(a[1..]) by {
        forall i | 0 <= i < |a[1..]|
          ensures !Classify(a[1..][i]).Stop?
        {
          assert a[1..][i] == a[i + 1];
        }
      }
      assert !Classify(a[0]).Stop?;
      match Classify(a[0])
      case Skip => RunBlocksAppend(t, a[1..], b, parse);
      case Data(j) => RunBlocksAppend(Deliver(t, parse(j)), a[1..], b, parse);
    }
  }

  /**
   * An end marker discards the rest of its batch: whatever follows it in
   * the same batch has no effect.
   */
  lemma {:induction false} StopEndsBatch(t: Transcript, pre: seq<string>, d: string, post: seq<string>, parse: string -> Parsed)
    requires Classify(d) == Stop
    ensures RunBlocks(t, pre + [d] + post, parse) == RunBlocks(t, pre, parse)
    decreases |pre|
  {
    var s := pre + [d] + post;
    if pre == [] {
      assert s[0] == d;
    } else {
      assert s[0] == pre[0];
      assert s[1..] == pre[1..] + [d] + post;
      match Classify(pre[0])
      case Stop =>
      case Skip => StopEndsBatch(t, pre[1..], d, post, parse);
      case Data(j) => StopEndsBatch(Deliver(t, parse(j)), pre[1..], d, post, parse);
    }
  }

  // ---------------------------------------------------------------------
  // Reads and batches
  // ---------------------------------------------------------------------

  /** All pieces but the last (`lines` after `lines.pop()`). */
  function Init(pieces: seq<string>): seq<string>
    requires |pieces| > 0
  {
    pieces[..|pieces| - 1]
  }

  /** The last piece (`lines.pop()`). */
  function Last(pieces: seq<string>): string
    requires |pieces| > 0
  {
    pieces[|pieces| - 1]
  }

  /** The complete blocks each read hands to the `for` loop, one batch per read. */
  function Batches(buffer: string, texts: seq<string>): (r: seq<seq<string>>)
    ensures |r| == |texts|
    decreases |texts|
  {
    if texts == [] then []
    else
      var pieces := SplitOn(buffer + texts[0], Sep);
      [Init(pieces)] + Batches(Last(pieces), texts[1..])
  }

  /**
   * The buffer once every read has been taken in: after at least one read
   * it holds no blank line.
   */
  function FinalBuffer(buffer: string, texts: seq<string>): (r: string)
    ensures texts != [] ==> Free(r, Sep)
    decreases |texts|
  {
    if texts == [] then buffer
    else
      var pieces := SplitOn(buffer + texts[0], Sep);
      assert Free(Last(pieces), Sep) by {
        SplitJoin(buffer + texts[0], Sep);
      }
      FinalBuffer(Last(pieces), texts[1..])
  }

  /** The batches one after the other. */
  function Flatten(batches: seq<seq<string>>): seq<string>
  {
    if batches == [] then [] else batches[0] + Flatten(batches[1..])
  }

  /** The `while` loop of lines 118-215 over the batches: each batch runs on its own. */
  function RunBatches(t: Transcript, batches: seq<seq<string>>, parse: string -> Parsed): (r: Transcript)
    decreases |batches|
  {
    if batches == [] then t else RunBatches(RunBlocks(t, batches[0], parse), batches[1..], parse)
  }

  /**
   * Buffering loses nothing and handles nothing twice: the batches, one after
   * the other, followed by the final buffer, are exactly the pieces of all
   * the text read so far cut at every blank line.  The buffer therefore holds
   * the text after the last blank line, and it contains none.
   */
  lemma {:induction false} BatchesCover(buffer: string, texts: seq<string>)
    requires Free(buffer, Sep)
    ensures Flatten(Batches(buffer, texts)) + [FinalBuffer(buffer, texts)] == SplitOn(buffer + Concat(texts), Sep)
    ensures Free(FinalBuffer(buffer, texts), Sep)
    decreases |texts|
  {
    if texts == [] {
      SplitFree(buffer, Sep);
      assert buffer + Concat(texts) == buffer;
    } else {
      var head := buffer + texts[0];
      var pieces := SplitOn(head, Sep);
      var left := Last(pieces);
      var more := Concat(texts[1..]);
      assert Free(left, Sep) by {
        SplitJoin(head, Sep);
      }
      BatchesCover(left, texts[1..]);
      assert SplitOn(buffer + Concat(texts), Sep) == Init(pieces) + SplitOn(left + more, Sep) by {
        AppendAssoc(buffer, texts[0], more);
        AppendToBuffer(head, more);
      }
      BatchesUnfold(buffer, texts);
      AppendAssoc(Init(pieces), Flatten(Batches(left, texts[1..])), [FinalBuffer(left, texts[1..])]);
    }
  }

  /** More text only extends the piece still in the buffer. */
  lemma AppendToBuffer(t: string, r: string)
    ensures SplitOn(t + r, Sep) == Init(SplitOn(t, Sep)) + SplitOn(Last(SplitOn(t, Sep)) + r, Sep)
  {
    SplitAppend(t, r, Sep);
  }

  /** The first read's batch comes first, and the rest continue from the buffer it leaves. */
  lemma BatchesUnfold(buffer: string, texts: seq<string>)
    requires texts != []
    ensures var pieces := SplitOn(buffer + texts[0], Sep);
      && Flatten(Batches(buffer, texts)) == Init(pieces) + Flatten(Batches(Last(pieces), texts[1..]))
      && FinalBuffer(buffer, texts) == FinalBuffer(Last(pieces), texts[1..])
  {
    var pieces := SplitOn(buffer + texts[0], Sep);
    var bs := Batches(buffer, texts);
    assert bs == [Init(pieces)] + Batches(Last(pieces), texts[1..]);
    assert bs[0] == Init(pieces) && bs[1..] == Batches(Last(pieces), texts[1..]);
  }

  /** Pieces glue back together: the blocks and the buffer recover every character read. */
  lemma TextRecovered(buffer: string, texts: seq<string>)
    requires Free(buffer, Sep)
    ensures Join(Flatten(Batches(buffer, texts)) + [FinalBuffer(buffer, texts)], Sep) == buffer + Concat(texts)
  {
    BatchesCover(buffer, texts);
    SplitJoin(buffer + Concat(texts), Sep);
  }

  /** Every block but the last is a non-marker. */
  predicate StopsOnlyAtEnd(blocks: seq<string>)
  {
    forall i :: 0 <= i < |blocks| - 1 ==> !Classify(blocks[i]).Stop?
  }

  /** The whole read loop only adds, as each batch does. */
  lemma {:induction false} RunBatchesBounds(t: Transcript, batches: seq<seq<string>>, parse: string -> Parsed)
    ensures var r := RunBatches(t, batches, parse);
      t.seen <= r.seen && |t.messages| <= |r.messages| && t.drawn <= r.drawn
    decreases |batches|
  {
    if batches != [] {
      RunBlocksBounds(t, batches[0], parse);
      RunBatchesBounds(RunBlocks(t, batches[0], parse), batches[1..], parse);
    }
  }

  /**
   * When only the last complete block may be the end marker, how the text
   * was cut into reads does not matter: the result is that of running all
   * complete blocks as a single batch.
   */
  lemma {:induction false} RunBatchesFlat(t: Transcript, batches: seq<seq<string>>, parse: string -> Parsed)
    requires StopsOnlyAtEnd(Flatten(batches))
    ensures RunBatches(t, batches, parse) == RunBlocks(t, Flatten(batches), parse)
    decreases |batches|
  {
    if batches != [] {
      var b0 := batches[0];
      var rest := Flatten(batches[1..]);
      assert Flatten(batches) == b0 + rest;
      if rest == [] {
        EmptyBatches(RunBlocks(t, b0, parse), batches[1..], parse);
        assert b0 + rest == b0;
      } else {
        assert NoStop(b0) by {
          forall i | 0 <= i < |b0|
            ensures !Classify(b0[i]).Stop?
          {
            assert (b0 + rest)[i] == b0[i];
          }
        }
        assert StopsOnlyAtEnd(rest) by {
          forall i | 0 <= i < |rest| - 1
            ensures !Classify(rest[i]).Stop?
          {
            assert (b0 + rest)[|b0| + i] == rest[i];
          }
        }
        RunBatchesFlat(RunBlocks(t, b0, parse), batches[1..], parse);
        RunBlocksAppend(t, b0, rest, parse);
      }
    }
  }

  /** Batches without blocks change nothing. */
  lemma {:induction false} EmptyBatches(t: Transcript, batches: seq<seq<string>>, parse: string -> Parsed)
    requires Flatten(batches) == []
    ensures RunBatches(t, batches, parse) == t
    decreases |batches|
  {
    if batches != [] {
      assert Flatten(batches) == batches[0] + Flatten(batches[1..]);
      EmptyBatches(t, batches[1..], parse);
    }
  }

  /**
   * The end marker stops only its own batch: blocks after it in the same
   * read are dropped, and the next read's blocks are handled again.
   */
  lemma StopThenNextBatch(t: Transcript, pre: seq<string>, d: string, post: seq<string>,
                          later: seq<seq<string>>, parse: string -> Parsed)
    requires Classify(d) == Stop
    ensures RunBatches(t, [pre + [d] + post] + later, parse) == RunBatches(RunBlocks(t, pre, parse), later, parse)
  {
    StopEndsBatch(t, pre, d, post, parse);
    assert ([pre + [d] + post] + later)[1..] == later;
  }
}
