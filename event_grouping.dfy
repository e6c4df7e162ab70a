/**
 * The grouping pass of StreamEventRenderer.tsx (lines 31-75): consecutive
 * `token` events are merged into one `token_group` entry, every other event
 * is passed on as an entry of its own; and `toggleExpand` (lines 77-87).
 */
module EventGrouping {
  import opened Wrappers
  import opened Text
  import opened Messages

  /**
   * An entry's `id`: `token-group-${start}` for a group, `${type}-${index}`
   * for any other event.  The two templates never produce the same string
   * for different entries, so keys stand for them.
   */
  datatype Key = GroupKey(start: nat) | EventKey(kind: EventType, index: nat)

  /** A `ProcessedEvent`; its `type` is `token_group` exactly for a group key. */
  datatype Processed = Processed(
    key: Key,
    timestamp: string,
    content: string,
    chunkId: Option<int>,
    toolCalls: Option<seq<ToolCall>>)

  predicate IsToken(e: StreamEvent)
  {
    e.kind == TokenEvent
  }

  /** The entry for the non-token event at `k` (lines 57-64). */
  function Single(ev: seq<StreamEvent>, k: nat): Processed
    requires k < |ev|
  {
    Processed(EventKey(ev[k].kind, k), ev[k].timestamp, ev[k].content, ev[k].chunkId, ev[k].toolCalls)
  }

  /** A group entry (lines 46-51 and 69-74). */
  function Group(start: nat, content: string, timestamp: string): Processed
  {
    Processed(GroupKey(start), timestamp, content, None, None)
  }

  /** The first index at or after `i` that is not a token (or the end). */
  function RunEnd(ev: seq<StreamEvent>, i: nat): (j: nat)
    requires i <= |ev|
    ensures i <= j <= |ev|
    ensures forall k :: i <= k < j ==> IsToken(ev[k])
    ensures j < |ev| ==> !IsToken(ev[j])
    decreases |ev| - i
  {
    if i == |ev| || !IsToken(ev[i]) then i else RunEnd(ev, i + 1)
  }

  /** The contents of the events in `[a, b)`. */
  function Contents(ev: seq<StreamEvent>, a: nat, b: nat): (r: seq<string>)
    requires a <= b <= |ev|
    ensures |r| == b - a
    ensures forall k :: 0 <= k < |r| ==> r[k] == ev[a + k].content
  {
    seq(b - a, k requires 0 <= k < b - a => ev[a + k].content)
  }

  /** The timestamp a run ending at `j` gets: that of the event that ends it, or `now`. */
  function GroupTime(ev: seq<StreamEvent>, j: nat, now: string): string
    requires j <= |ev|
  {
    if j < |ev| then ev[j].timestamp else now
  }

  /**
   * The entries for the events from `i` on, run by run: a token run
   * becomes one group, keyed by its first index, with its contents joined.
   */
  function GroupFrom(ev: seq<StreamEvent>, i: nat, now: string): (r: seq<Processed>)
    requires i <= |ev|
    ensures |r| <= |ev| - i
    ensures i < |ev| ==> r != [] && r[0].key == if IsToken(ev[i]) then GroupKey(i) else EventKey(ev[i].kind, i)
    decreases |ev| - i
  {
    if i == |ev| then []
    else if !IsToken(ev[i]) then [Single(ev, i)] + GroupFrom(ev, i + 1, now)
    else
      var j := RunEnd(ev, i);
      [Group(i, Concat(Contents(ev, i, j)), GroupTime(ev, j, now))] + GroupFrom(ev, j, now)
  }

  /** No group entry is directly followed by another. */
  predicate NoAdjacent(ps: seq<Processed>)
  {
    forall k :: 0 <= k < |ps| - 1 ==> !(ps[k].key.GroupKey? && ps[k + 1].key.GroupKey?)
  }

  /** Runs are maximal: the grouping never puts two groups side by side. */
  lemma {:induction false} NoAdjacentGroups(ev: seq<StreamEvent>, i: nat, now: string)
    requires i <= |ev|
    ensures NoAdjacent(GroupFrom(ev, i, now))
    decreases |ev| - i
  {
    if i < |ev| {
      var r := GroupFrom(ev, i, now);
      var j := if IsToken(ev[i]) then RunEnd(ev, i) else i + 1;
      var rest := GroupFrom(ev, j, now);
      assert r == [r[0]] + rest;
      NoAdjacentGroups(ev, j, now);
      forall k | 0 <= k < |r| - 1
        ensures !(r[k].key.GroupKey? && r[k + 1].key.GroupKey?)
      {
        assert r[k + 1] == rest[k];
        if k > 0 {
          assert r[k] == rest[k - 1];
        } else if r[0].key.GroupKey? {
          assert j < |ev| && !IsToken(ev[j]);
        }
      }
    }
  }

  /** `GroupFrom` at a non-token event: its entry, then the rest. */
  lemma GroupFromSingle(ev: seq<StreamEvent>, i: nat, now: string)
    requires i < |ev| && !IsToken(ev[i])
    ensures GroupFrom(ev, i, now) == [Single(ev, i)] + GroupFrom(ev, i + 1, now)
  {
  }

  /** `GroupFrom` at the start of a token run: the run's group, then what follows the run. */
  lemma GroupFromRun(ev: seq<StreamEvent>, i: nat, now: string)
    requires i < |ev| && IsToken(ev[i])
    ensures var j := RunEnd(ev, i);
      GroupFrom(ev, i, now) == [Group(i, Concat(Contents(ev, i, j)), GroupTime(ev, j, now))] + GroupFrom(ev, j, now)
  {
  }

  /**
   * The state of the loop after the events before `index`: either no run
   * is open and `processed` followed by the entries from `index` on is the
   * whole result, or a run opened at `start` is being collected in `group`.
   */
  predicate Inv(ev: seq<StreamEvent>, now: string, index: nat, processed: seq<Processed>, group: seq<string>, start: Option<nat>)
  {
    && index <= |ev|
    && (start.None? ==> group == [] && processed + GroupFrom(ev, index, now) == GroupFrom(ev, 0, now))
    && (start.Some? ==>
        && start.value < index
        && IsToken(ev[start.value])
        && RunEnd(ev, start.value) == RunEnd(ev, index)
        && group == Contents(ev, start.value, index)
        && processed + GroupFrom(ev, start.value, now) == GroupFrom(ev, 0, now))
  }

  /** A token opens a run when none is open and is added to the run's contents. */
  lemma TokenStep(ev: seq<StreamEvent>, now: string, index: nat, processed: seq<Processed>, group: seq<string>, start: Option<nat>)
    requires Inv(ev, now, index, processed, group, start) && index < |ev| && IsToken(ev[index])
    ensures Inv(ev, now, index + 1, processed,
                (if start.None? then [] else group) + [ev[index].content],
                if start.None? then Some(index) else start)
  {
    var st := if start.None? then Some(index) else start;
    var gr := (if start.None? then [] else group) + [ev[index].content];
    assert gr == Contents(ev, st.value, index + 1);
  }

  /** Any other event closes the open run with its own timestamp and adds its own entry. */
  lemma OtherStep(ev: seq<StreamEvent>, now: string, index: nat, processed: seq<Processed>, group: seq<string>, start: Option<nat>)
    requires Inv(ev, now, index, processed, group, start) && index < |ev| && !IsToken(ev[index])
    ensures Inv(ev, now, index + 1,
                (if |group| > 0 && start.Some? then processed + [Group(start.value, Concat(group), ev[index].timestamp)] else processed)
                  + [Single(ev, index)],
                [], None)
  {
    var flushed := if |group| > 0 && start.Some? then processed + [Group(start.value, Concat(group), ev[index].timestamp)] else processed;
    assert flushed + GroupFrom(ev, index, now) == GroupFrom(ev, 0, now) by {
      if start.Some? {
        var g := Group(start.value, Concat(group), ev[index].timestamp);
        assert RunEnd(ev, index) == index;
        GroupFromRun(ev, start.value, now);
        AppendAssoc(processed, [g], GroupFrom(ev, index, now));
      }
    }
    GroupFromSingle(ev, index, now);
    AppendAssoc(flushed, [Single(ev, index)], GroupFrom(ev, index + 1, now));
  }

  /** After the last event, flushing the open run gives the whole result. */
  lemma FinalStep(ev: seq<StreamEvent>, now: string, processed: seq<Processed>, group: seq<string>, start: Option<nat>)
    requires Inv(ev, now, |ev|, processed, group, start)
    ensures (if |group| > 0 && start.Some? then processed + [Group(start.value, Concat(group), now)] else processed)
      == GroupFrom(ev, 0, now)
  {
    if start.Some? {
      GroupFromRun(ev, start.value, now);
    }
    assert processed + [] == processed;
  }

  /** The callback of lines 35-66, for the event at `index`. */
  method Visit(events: seq<StreamEvent>, now: string, index: nat,
               processed: seq<Processed>, group: seq<string>, start: Option<nat>)
    returns (processed': seq<Processed>, group': seq<string>, start': Option<nat>)
    requires Inv(events, now, index, processed, group, start) && index < |events|
    ensures Inv(events, now, index + 1, processed', group', start')
  {
    processed', group', start' := processed, group, start;
    var event := events[index];
    if event.kind == TokenEvent {
      TokenStep(events, now, index, processed, group, start);
      if start'.None? {
        start' := Some(index);
        group' := [];
      }
      group' := group' + [event.content];
    } else {
      OtherStep(events, now, index, processed, group, start);
      if |group'| > 0 && start'.Some? {
        processed' := processed' + [Group(start'.value, Concat(group'), event.timestamp)];
        group' := [];
        start' := None;
      }
      processed' := processed' + [Single(events, index)];
    }
  }

  /** The `forEach` of lines 35-66 and the final flush of lines 68-75; `now` is `new Date().toISOString()`. */
  method GroupEvents(events: seq<StreamEvent>, now: string) returns (processed: seq<Processed>)
    ensures processed == GroupFrom(events, 0, now)
  {
    processed := [];
    var group: seq<string> := [];
    var start: Option<nat> := None;
    var index := 0;
    assert [] + GroupFrom(events, 0, now) == GroupFrom(events, 0, now);
    while index < |events|
      invariant Inv(events, now, index, processed, group, start)
    {
      processed, group, start := Visit(events, now, index, processed, group, start);
      index := index + 1;
    }
    FinalStep(events, now, processed, group, start);
    if |group| > 0 && start.Some? {
      processed := processed + [Group(start.value, Concat(group), now)];
    }
  }

  // ---------------------------------------------------------------------
  // What the grouping promises
  // ---------------------------------------------------------------------

  /** The number of events that are not tokens. */
  function NonTokens(ev: seq<StreamEvent>): nat
  {
    if ev == [] then 0 else (if IsToken(ev[0]) then 0 else 1) + NonTokens(ev[1..])
  }

  /** The number of maximal token runs, counted at their last token. */
  function Runs(ev: seq<StreamEvent>): nat
  {
    if ev == [] then 0
    else (if IsToken(ev[0]) && (|ev| == 1 || !IsToken(ev[1])) then 1 else 0) + Runs(ev[1..])
  }

  /** Inside a run, the remaining events hold one run more than those after it, and the same non-tokens. */
  lemma {:induction false} RunCounts(ev: seq<StreamEvent>, i: nat)
    requires i < |ev| && IsToken(ev[i])
    ensures Runs(ev[i..]) == 1 + Runs(ev[RunEnd(ev, i)..])
    ensures NonTokens(ev[i..]) == NonTokens(ev[RunEnd(ev, i)..])
    decreases |ev| - i
  {
    assert ev[i..][0] == ev[i] && ev[i..][1..] == ev[i + 1..];
    var j := RunEnd(ev, i);
    if i + 1 < |ev| && IsToken(ev[i + 1]) {
      assert ev[i..][1] == ev[i + 1];
      RunCounts(ev, i + 1);
    } else {
      assert j == i + 1;
      assert |ev[i..]| > 1 ==> ev[i..][1] == ev[i + 1];
    }
  }

  /** Output length: one entry per non-token event plus one per token run. */
  lemma {:induction false} GroupCount(ev: seq<StreamEvent>, i: nat, now: string)
    requires i <= |ev|
    ensures |GroupFrom(ev, i, now)| == NonTokens(ev[i..]) + Runs(ev[i..])
    decreases |ev| - i
  {
    if i < |ev| {
      assert ev[i..][0] == ev[i] && ev[i..][1..] == ev[i + 1..];
      if !IsToken(ev[i]) {
        GroupCount(ev, i + 1, now);
        assert |ev[i..]| > 1 ==> ev[i..][1] == ev[i + 1];
      } else {
        RunCounts(ev, i);
        GroupCount(ev, RunEnd(ev, i), now);
      }
    }
  }

  /** The entries for the non-token events from `i` on, in order. */
  function SinglesFrom(ev: seq<StreamEvent>, i: nat): seq<Processed>
    requires i <= |ev|
    decreases |ev| - i
  {
    if i == |ev| then []
    else (if IsToken(ev[i]) then [] else [Single(ev, i)]) + SinglesFrom(ev, i + 1)
  }

  /** The entries that are not groups. */
  function NotGroups(ps: seq<Processed>): seq<Processed>
  {
    if ps == [] then [] else (if ps[0].key.GroupKey? then [] else [ps[0]]) + NotGroups(ps[1..])
  }

  /** A token run contributes no single entry. */
  lemma {:induction false} SinglesSkipRun(ev: seq<StreamEvent>, i: nat)
    requires i <= |ev|
    ensures SinglesFrom(ev, i) == SinglesFrom(ev, RunEnd(ev, i))
    decreases |ev| - i
  {
    if i < |ev| && IsToken(ev[i]) {
      SinglesSkipRun(ev, i + 1);
    }
  }

  /**
   * Every non-token event appears exactly once, in its original order, as
   * its own entry keyed by its type and index; nothing else is a non-group
   * entry.
   */
  lemma {:induction false} SinglesInOrder(ev: seq<StreamEvent>, i: nat, now: string)
    requires i <= |ev|
    ensures NotGroups(GroupFrom(ev, i, now)) == SinglesFrom(ev, i)
    decreases |ev| - i
  {
    if i < |ev| {
      var out := GroupFrom(ev, i, now);
      if !IsToken(ev[i]) {
        SinglesInOrder(ev, i + 1, now);
        assert out[1..] == GroupFrom(ev, i + 1, now);
      } else {
        var j := RunEnd(ev, i);
        SinglesInOrder(ev, j, now);
        SinglesSkipRun(ev, i + 1);
        assert RunEnd(ev, i + 1) == j;
        assert out[1..] == GroupFrom(ev, j, now);
      }
    }
  }

  /**
   * The entry at `q` of `out` is the group of the maximal run starting at its
   * key's index: it holds the run's contents joined in order, is stamped with
   * the time of the event that ends the run (or `now` for a trailing run),
   * and is followed by exactly that event's entry.
   */
  predicate RunEntry(ev: seq<StreamEvent>, out: seq<Processed>, q: nat, now: string)
    requires q < |out| && out[q].key.GroupKey?
  {
    var s := out[q].key.start;
    && s < |ev|
    && var j := RunEnd(ev, s);
    && s < j
    && (s == 0 || !IsToken(ev[s - 1]))
    && out[q] == Group(s, Concat(Contents(ev, s, j)), GroupTime(ev, j, now))
    && (j < |ev| <==> q + 1 < |out|)
    && (q + 1 < |out| ==> out[q + 1] == Single(ev, j))
  }

  /** Every group entry of `out` satisfies `RunEntry` and starts at or after `i`. */
  predicate AllRunEntries(ev: seq<StreamEvent>, out: seq<Processed>, i: nat, now: string)
  {
    forall q :: 0 <= q < |out| && out[q].key.GroupKey? ==>
      i <= out[q].key.start && RunEntry(ev, out, q, now)
  }

  /** Putting an entry in front shifts every later entry's facts by one place. */
  lemma RunEntryShift(ev: seq<StreamEvent>, x: Processed, rest: seq<Processed>, q: nat, now: string)
    requires 0 < q <= |rest| && rest[q - 1].key.GroupKey?
    requires RunEntry(ev, rest, q - 1, now)
    ensures RunEntry(ev, [x] + rest, q, now)
  {
    var out := [x] + rest;
    assert out[q] == rest[q - 1];
    assert q + 1 < |out| ==> out[q + 1] == rest[q];
  }

  /** An entry in front of entries that satisfy `RunEntry` keeps them satisfied. */
  lemma PrependEntry(ev: seq<StreamEvent>, x: Processed, rest: seq<Processed>, i: nat, k: nat, now: string)
    requires i <= k && AllRunEntries(ev, rest, k, now)
    requires x.key.GroupKey? ==> i <= x.key.start && RunEntry(ev, [x] + rest, 0, now)
    ensures AllRunEntries(ev, [x] + rest, i, now)
  {
    var out := [x] + rest;
    forall q | 0 <= q < |out| && out[q].key.GroupKey?
      ensures i <= out[q].key.start && RunEntry(ev, out, q, now)
    {
      if q > 0 {
        assert out[q] == rest[q - 1];
        RunEntryShift(ev, x, rest, q, now);
      }
    }
  }

  /**
   * Every group entry comes from a maximal token run, keyed by the run's
   * first index; since the entry after a group is a non-token event's, no
   * two groups are adjacent.
   */
  lemma {:induction false} GroupsAreRuns(ev: seq<StreamEvent>, i: nat, now: string)
    requires i <= |ev|
    requires 0 < i < |ev| && IsToken(ev[i]) ==> !IsToken(ev[i - 1])
    ensures AllRunEntries(ev, GroupFrom(ev, i, now), i, now)
    decreases |ev| - i
  {
    if i < |ev| {
      var out := GroupFrom(ev, i, now);
      if !IsToken(ev[i]) {
        GroupsAreRuns(ev, i + 1, now);
        PrependEntry(ev, Single(ev, i), GroupFrom(ev, i + 1, now), i, i + 1, now);
      } else {
        var j := RunEnd(ev, i);
        var rest := GroupFrom(ev, j, now);
        var x := Group(i, Concat(Contents(ev, i, j)), GroupTime(ev, j, now));
        assert out == [x] + rest;
        if j < |ev| {
          GroupsAreRuns(ev, j, now);
          assert rest == [Single(ev, j)] + GroupFrom(ev, j + 1, now);
          assert out[1] == Single(ev, j);
        }
        assert RunEntry(ev, out, 0, now);
        PrependEntry(ev, x, rest, i, j, now);
      }
    }
  }

  // ---------------------------------------------------------------------
  // Expanding and collapsing entries
  // ---------------------------------------------------------------------

  /** `toggleExpand`: the set with the one id switched, every other id as it was. */
  function Toggle(expanded: set<Key>, id: Key): (r: set<Key>)
    ensures id in r <==> id !in expanded
    ensures forall k :: k != id ==> (k in r <==> k in expanded)
  {
    if id in expanded then expanded - {id} else expanded + {id}
  }

  /** Toggling the same id twice restores the set. */
  lemma ToggleTwice(expanded: set<Key>, id: Key)
    ensures Toggle(Toggle(expanded, id), id) == expanded
  {
  }
}
