/**
 * String primitives the JavaScript code relies on: `String.prototype.split`
 * with a string separator, `Array.prototype.join`, `trim`, `startsWith` and
 * `substring`.  Strings are sequences of `char`; JavaScript measures strings
 * in UTF-16 code units, which agree with `char` for text in the Basic
 * Multilingual Plane.
 */
module Text {
  import opened Wrappers

  /** `sep` occurs in `s` starting at index `i`. */
  predicate OccursAt(s: string, sep: string, i: nat)
  {
    i + |sep| <= |s| && s[i..i + |sep|] == sep
  }

  /** `sep` occurs nowhere in `s`. */
  predicate Free(s: string, sep: string)
  {
    forall j: nat :: j <= |s| ==> !OccursAt(s, sep, j)
  }

  /** The first index at or after `from` where `sep` occurs (JavaScript `indexOf`). */
  function Find(s: string, sep: string, from: nat): (r: Option<nat>)
    requires |sep| > 0
    ensures r.Some? ==> from <= r.value && OccursAt(s, sep, r.value)
    ensures r.Some? ==> forall j: nat :: from <= j < r.value ==> !OccursAt(s, sep, j)
    ensures r.None? ==> forall j: nat :: from <= j ==> !OccursAt(s, sep, j)
    decreases |s| - from
  {
    if from + |sep| > |s| then None
    else if OccursAt(s, sep, from) then Some(from)
    else Find(s, sep, from + 1)
  }

  /** `Find` is determined by the first occurrence. */
  lemma {:induction false} FindFirst(s: string, sep: string, from: nat, i: nat)
    requires |sep| > 0
    requires from <= i && OccursAt(s, sep, i)
    requires forall j: nat :: from <= j < i ==> !OccursAt(s, sep, j)
    ensures Find(s, sep, from) == Some(i)
    decreases i - from
  {
    if from < i {
      assert !OccursAt(s, sep, from);
      FindFirst(s, sep, from + 1, i);
    }
  }

  /**
   * `s.split(sep)` for a non-empty string separator: the pieces between
   * successive leftmost non-overlapping occurrences of `sep`.
   */
  function SplitOn(s: string, sep: string): (r: seq<string>)
    requires |sep| > 0
    ensures |r| >= 1
    decreases |s|
  {
    match Find(s, sep, 0)
    case None => [s]
    case Some(i) => [s[..i]] + SplitOn(s[i + |sep|..], sep)
  }

  /** `pieces.join(sep)`. */
  function Join(pieces: seq<string>, sep: string): string
  {
    if |pieces| == 0 then ""
    else if |pieces| == 1 then pieces[0]
    else pieces[0] + sep + Join(pieces[1..], sep)
  }

  /** Concatenation of a list of strings, in order (`pieces.join('')`). */
  function Concat(pieces: seq<string>): string
  {
    if |pieces| == 0 then "" else pieces[0] + Concat(pieces[1..])
  }

  lemma {:induction false} ConcatAppend(a: seq<string>, b: seq<string>)
    ensures Concat(a + b) == Concat(a) + Concat(b)
  {
    if |a| > 0 {
      assert (a + b)[1..] == a[1..] + b;
      ConcatAppend(a[1..], b);
    } else {
      assert a + b == b;
    }
  }

  /** A prefix of `s` that ends before the first occurrence of `sep` contains no `sep`. */
  lemma PrefixBeforeFirstIsFree(s: string, sep: string, i: nat)
    requires |sep| > 0 && i <= |s|
    requires forall j: nat :: j < i ==> !OccursAt(s, sep, j)
    ensures Free(s[..i], sep)
  {
    forall j: nat | OccursAt(s[..i], sep, j)
      ensures false
    {
      assert s[..i][j..j + |sep|] == s[j..j + |sep|];
      assert OccursAt(s, sep, j);
    }
  }

  /**
   * Splitting is lossless and exact: joining the pieces with the separator
   * gives back the input, and no piece contains the separator.
   */
  lemma SplitJoin(s: string, sep: string)
    requires |sep| > 0
    ensures Join(SplitOn(s, sep), sep) == s
    ensures forall k :: 0 <= k < |SplitOn(s, sep)| ==> Free(SplitOn(s, sep)[k], sep)
  {
    JoinSplit(s, sep);
    SplitPiecesFree(s, sep);
  }

  /** Joining the pieces with the separator gives back the input. */
  lemma {:induction false} JoinSplit(s: string, sep: string)
    requires |sep| > 0
    ensures Join(SplitOn(s, sep), sep) == s
    decreases |s|, 1
  {
    var f := Find(s, sep, 0);
    if f.Some? {
      JoinSplitAt(s, sep, f.value);
    } else {
      assert SplitOn(s, sep) == [s];
    }
  }

  /** `JoinSplit` when `sep` first occurs in `s` at `i`. */
  lemma {:induction false} JoinSplitAt(s: string, sep: string, i: nat)
    requires |sep| > 0 && Find(s, sep, 0) == Some(i)
    ensures Join(SplitOn(s, sep), sep) == s
    decreases |s|, 0
  {
    var rest := s[i + |sep|..];
    JoinSplit(rest, sep);
    SplitAt(s, sep, i);
    JoinAround(s, sep, i, SplitOn(rest, sep));
  }

  /** The text before an occurrence of `sep`, joined to the pieces of what follows it. */
  lemma JoinAround(s: string, sep: string, i: nat, pr: seq<string>)
    requires i + |sep| <= |s| && s[i..i + |sep|] == sep
    requires |pr| >= 1 && Join(pr, sep) == s[i + |sep|..]
    ensures Join([s[..i]] + pr, sep) == s
  {
    assert ([s[..i]] + pr)[1..] == pr;
    Around(s, i, |sep|);
  }

  /** A sequence is its part before `i`, the `n` elements from `i`, and the rest. */
  lemma Around<T>(s: seq<T>, i: nat, n: nat)
    requires i + n <= |s|
    ensures s == s[..i] + s[i..i + n] + s[i + n..]
  {
  }

  /** No piece contains the separator. */
  lemma {:induction false} SplitPiecesFree(s: string, sep: string)
    requires |sep| > 0
    ensures forall k :: 0 <= k < |SplitOn(s, sep)| ==> Free(SplitOn(s, sep)[k], sep)
    decreases |s|
  {
    match Find(s, sep, 0)
    case None =>
      assert SplitOn(s, sep) == [s];
      assert Free(s, sep);
    case Some(i) =>
      var rest := s[i + |sep|..];
      SplitPiecesFree(rest, sep);
      PrefixBeforeFirstIsFree(s, sep, i);
      var pr := SplitOn(rest, sep);
      SplitAt(s, sep, i);
      forall k | 0 <= k < |SplitOn(s, sep)|
        ensures Free(SplitOn(s, sep)[k], sep)
      {
        if k > 0 {
          assert SplitOn(s, sep)[k] == pr[k - 1];
        }
      }
  }

  /**
   * Appending text to the input only affects the last piece: every piece
   * before it is already complete.  This is what makes it sound to keep
   * the last piece as a buffer and split again once more text arrives.
   */
  lemma {:induction false} SplitAppend(t: string, r: string, sep: string)
    requires |sep| > 0
    ensures SplitOn(t + r, sep)
         == SplitOn(t, sep)[..|SplitOn(t, sep)| - 1]
          + SplitOn(SplitOn(t, sep)[|SplitOn(t, sep)| - 1] + r, sep)
    decreases |t|, 1
  {
    match Find(t, sep, 0)
    case None =>
      var whole := SplitOn(t, sep);
      assert whole == [t];
      assert [] + SplitOn(t + r, sep) == SplitOn(t + r, sep);
    case Some(i) =>
      SplitAppendAt(t, r, sep, i);
  }

  /** `SplitAppend` when `sep` first occurs in `t` at `i`. */
  lemma {:induction false} SplitAppendAt(t: string, r: string, sep: string, i: nat)
    requires |sep| > 0 && Find(t, sep, 0) == Some(i)
    ensures SplitOn(t + r, sep)
         == SplitOn(t, sep)[..|SplitOn(t, sep)| - 1]
          + SplitOn(SplitOn(t, sep)[|SplitOn(t, sep)| - 1] + r, sep)
    decreases |t|, 0
  {
    var pr := SplitOn(t[i + |sep|..], sep);
    var whole := SplitOn(t, sep);
    var init, last := pr[..|pr| - 1], pr[|pr| - 1];
    assert whole[..|whole| - 1] == [t[..i]] + init && whole[|whole| - 1] == last by {
      SplitAt(t, sep, i);
    }
    assert SplitOn(t + r, sep) == [t[..i]] + (init + SplitOn(last + r, sep)) by {
      SplitAppend(t[i + |sep|..], r, sep);
      SplitAppendFirst(t, r, sep, i);
    }
    AppendAssoc([t[..i]], init, SplitOn(last + r, sep));
  }

  lemma AppendAssoc<T>(a: seq<T>, b: seq<T>, c: seq<T>)
    ensures a + (b + c) == a + b + c
  {
  }

  lemma AppendNil<T>(a: seq<T>)
    ensures a + [] == a
  {
  }

  /** A five-element display is its first two elements followed by the other three. */
  lemma SplitFive<T>(a: T, b: T, c: T, d: T, e: T)
    ensures [a, b, c, d, e] == [a, b] + [c, d, e]
  {
  }

  /** Two sequences that agree once an element is added to each agree, and so do the elements. */
  lemma SnocInjective<T>(a: seq<T>, x: T, b: seq<T>, y: T)
    requires a + [x] == b + [y]
    ensures a == b && x == y
  {
    assert a == (a + [x])[..|a|];
    assert b == (b + [y])[..|b|];
  }

  lemma SplitLast<T>(r: seq<T>)
    requires |r| > 0
    ensures r == r[..|r| - 1] + [r[|r| - 1]]
  {
  }

  /** After appending, the first piece is split off as before. */
  lemma SplitAppendFirst(t: string, r: string, sep: string, i: nat)
    requires |sep| > 0 && Find(t, sep, 0) == Some(i)
    ensures SplitOn(t + r, sep) == [t[..i]] + SplitOn(t[i + |sep|..] + r, sep)
  {
    var tr := t + r;
    FindAppend(t, r, sep, i);
    SplitAt(tr, sep, i);
    assert tr[..i] == t[..i];
    assert tr[i + |sep|..] == t[i + |sep|..] + r;
  }

  /** One step of `SplitOn`: the piece before the first occurrence, then the rest split. */
  lemma SplitAt(s: string, sep: string, i: nat)
    requires |sep| > 0 && Find(s, sep, 0) == Some(i)
    ensures SplitOn(s, sep) == [s[..i]] + SplitOn(s[i + |sep|..], sep)
  {
  }

  /** The first occurrence in `t` stays the first occurrence after appending. */
  lemma FindAppend(t: string, r: string, sep: string, i: nat)
    requires |sep| > 0 && Find(t, sep, 0) == Some(i)
    ensures Find(t + r, sep, 0) == Some(i)
  {
    var tr := t + r;
    assert tr[i..i + |sep|] == t[i..i + |sep|];
    forall j: nat | j < i
      ensures !OccursAt(tr, sep, j)
    {
      NotOccursAppend(t, r, sep, j);
    }
    FindFirst(tr, sep, 0, i);
  }

  /** A non-occurrence that ends inside `t` stays one in `t + r`. */
  lemma NotOccursAppend(t: string, r: string, sep: string, j: nat)
    requires j + |sep| <= |t| && !OccursAt(t, sep, j)
    ensures !OccursAt(t + r, sep, j)
  {
    assert (t + r)[j..j + |sep|] == t[j..j + |sep|];
  }

  /**
   * A piece that does not contain the separator's first character, followed
   * by the separator, is split off as exactly one piece.
   */
  lemma SplitAfterPiece(l: string, sep: string, rest: string)
    requires |sep| > 0 && sep[0] !in l
    ensures SplitOn(l + sep + rest, sep) == [l] + SplitOn(rest, sep)
  {
    var s := l + sep + rest;
    assert OccursAt(s, sep, |l|) by {
      assert s[|l|..|l| + |sep|] == sep;
    }
    forall j: nat | j < |l|
      ensures !OccursAt(s, sep, j)
    {
      assert s[j] == l[j] != sep[0];
      if j + |sep| <= |s| {
        assert s[j..j + |sep|][0] == s[j];
      }
    }
    FindFirst(s, sep, 0, |l|);
    assert s[..|l|] == l;
    assert s[|l| + |sep|..] == rest;
  }

  /** A string without the separator splits into itself alone. */
  lemma SplitFree(s: string, sep: string)
    requires |sep| > 0 && Free(s, sep)
    ensures SplitOn(s, sep) == [s]
  {
  }

  /** `s.startsWith(p)`. */
  predicate StartsWith(s: string, p: string)
  {
    |p| <= |s| && s[..|p|] == p
  }

  /**
   * The characters `String.prototype.trim` removes: the ECMAScript
   * WhiteSpace and LineTerminator code points.
   */
  predicate IsSpace(c: char)
  {
    || c == ' ' || c == '\t' || c == '\n' || c == '\r'
    || c == '\U{000B}' || c == '\U{000C}' || c == '\U{00A0}' || c == '\U{1680}'
    || ('\U{2000}' <= c <= '\U{200A}')
    || c == '\U{2028}' || c == '\U{2029}' || c == '\U{202F}' || c == '\U{205F}'
    || c == '\U{3000}' || c == '\U{FEFF}'
  }

  /** `s.trimStart()`: drops the leading white space, nothing else. */
  function TrimStart(s: string): (r: string)
    ensures |r| <= |s| && r == s[|s| - |r|..]
    ensures forall i :: 0 <= i < |s| - |r| ==> IsSpace(s[i])
    ensures r != [] ==> !IsSpace(r[0])
  {
    if s != [] && IsSpace(s[0]) then TrimStart(s[1..]) else s
  }

  /** `s.trimEnd()`: drops the trailing white space, nothing else. */
  function TrimEnd(s: string): (r: string)
    ensures |r| <= |s| && r == s[..|r|]
    ensures forall i :: |r| <= i < |s| ==> IsSpace(s[i])
    ensures r != [] ==> !IsSpace(r[|r| - 1])
  {
    if s != [] && IsSpace(s[|s| - 1]) then TrimEnd(s[..|s| - 1]) else s
  }

  /** The number of white-space characters `trimStart` drops. */
  function Leading(s: string): nat
  {
    |s| - |TrimStart(s)|
  }

  /** `s.trim()`. */
  function Trim(s: string): string
  {
    TrimEnd(TrimStart(s))
  }

  /**
   * `trim` keeps a contiguous middle part of its input and removes exactly
   * the white space around it: the result neither starts nor ends with
   * white space, and it is empty exactly when the input is all white space.
   */
  lemma TrimSpec(s: string)
    ensures Leading(s) + |Trim(s)| <= |s| && Trim(s) == s[Leading(s)..Leading(s) + |Trim(s)|]
    ensures Trim(s) != [] ==> !IsSpace(Trim(s)[0]) && !IsSpace(Trim(s)[|Trim(s)| - 1])
    ensures Trim(s) == [] <==> forall i :: 0 <= i < |s| ==> IsSpace(s[i])
  {
    var ts := TrimStart(s);
    var t := Trim(s);
    var a := Leading(s);
    assert t == ts[..|t|];
    assert t == s[a..a + |t|];
  }

  /** Trimming twice is the same as trimming once. */
  lemma TrimIdempotent(s: string)
    ensures Trim(Trim(s)) == Trim(s)
  {
    var t := Trim(s);
    TrimSpec(s);
    assert TrimStart(t) == t;
    assert TrimEnd(t) == t;
  }

  /** A string that neither starts nor ends with white space is its own trim. */
  lemma TrimUnpadded(s: string)
    requires s != [] ==> !IsSpace(s[0]) && !IsSpace(s[|s| - 1])
    ensures Trim(s) == s
  {
    assert TrimStart(s) == s;
  }

  /** `s.substring(0, n)` on a string and `s.slice(0, n)` on an array, for `n >= 0`. */
  function Prefix<T>(s: seq<T>, n: nat): (r: seq<T>)
    ensures |r| == if n <= |s| then n else |s|
    ensures r == s[..|r|]
  {
    if n <= |s| then s[..n] else s
  }
}
