/**
 * The part of JavaScript's `String.prototype.split` that the registration page
 * relies on: splitting on a non-empty separator string.  The string is scanned
 * from the left; every non-overlapping occurrence of the separator ends one
 * piece, and what follows the last occurrence is the final piece.  With a
 * non-empty separator the result always has at least one piece.
 */
module Strings {
  import opened Wrappers

  /** `sep` occurs in `s` starting at position `i`. */
  predicate OccursAt(s: string, sep: string, i: nat) {
    i + |sep| <= |s| && s[i..i + |sep|] == sep
  }

  /** `s` contains no occurrence of `sep` at all. */
  ghost predicate Free(s: string, sep: string) {
    forall i: nat :: !OccursAt(s, sep, i)
  }

  /** The first position at or after `k` where `sep` occurs in `s` (JavaScript's `indexOf`). */
  function IndexOf(s: string, sep: string, k: nat): (r: Option<nat>)
    requires |sep| > 0
    decreases |s| - k
  {
    if k + |sep| > |s| then None
    else if s[k..k + |sep|] == sep then Some(k)
    else IndexOf(s, sep, k + 1)
  }

  /** What `IndexOf` finds is an occurrence of `sep`, at or after `k`. */
  lemma {:induction false} IndexOfSound(s: string, sep: string, k: nat)
    requires |sep| > 0
    decreases |s| - k
    ensures var r := IndexOf(s, sep, k);
      r.Some? ==> k <= r.value && OccursAt(s, sep, r.value)
  {
    if k + |sep| <= |s| && s[k..k + |sep|] != sep {
      IndexOfSound(s, sep, k + 1);
    }
  }

  /** `IndexOf` finds the first occurrence at or after `k`, and finds none only when there is none. */
  lemma {:induction false} IndexOfFirst(s: string, sep: string, k: nat)
    requires |sep| > 0
    decreases |s| - k
    ensures var r := IndexOf(s, sep, k);
      && (r.Some? ==> k <= r.value && OccursAt(s, sep, r.value))
      && (r.Some? ==> forall j: nat :: k <= j < r.value ==> !OccursAt(s, sep, j))
      && (r.None? ==> forall j: nat :: k <= j ==> !OccursAt(s, sep, j))
  {
    if k + |sep| <= |s| && s[k..k + |sep|] != sep {
      IndexOfFirst(s, sep, k + 1);
    }
  }

  /** An occurrence at `j` with none between `k` and `j` is the one `IndexOf` finds. */
  lemma {:induction false} IndexOfAt(s: string, sep: string, k: nat, j: nat)
    requires |sep| > 0 && k <= j && OccursAt(s, sep, j)
    requires forall i: nat :: k <= i < j ==> !OccursAt(s, sep, i)
    decreases j - k
    ensures IndexOf(s, sep, k) == Some(j)
  {
    if k < j {
      assert !OccursAt(s, sep, k);
      IndexOfAt(s, sep, k + 1, j);
    }
  }

  /** `s.split(sep)` for a non-empty separator. */
  function Split(s: string, sep: string): (r: seq<string>)
    requires |sep| > 0
    decreases |s|
    ensures |r| >= 1
  {
    IndexOfSound(s, sep, 0);
    match IndexOf(s, sep, 0)
    case None => [s]
    case Some(k) => [s[..k]] + Split(s[k + |sep|..], sep)
  }

  /** `pieces.join(sep)`: the inverse of `Split`. */
  function Join(pieces: seq<string>, sep: string): string
    requires |pieces| >= 1
  {
    if |pieces| == 1 then pieces[0] else pieces[0] + sep + Join(pieces[1..], sep)
  }

  /** A prefix of `s` that ends before the first occurrence of `sep` contains no `sep`. */
  lemma PrefixBeforeFirstIsFree(s: string, sep: string, k: nat)
    requires |sep| > 0 && k <= |s|
    requires forall j: nat :: j < k ==> !OccursAt(s, sep, j)
    ensures Free(s[..k], sep)
  {
    forall i: nat ensures !OccursAt(s[..k], sep, i) {
      if i + |sep| <= k {
        assert s[..k][i..i + |sep|] == s[i..i + |sep|];
        assert !OccursAt(s, sep, i);
      }
    }
  }

  /** Joining a leading piece onto further pieces puts one separator between them. */
  lemma JoinCons(head: string, tail: seq<string>, sep: string)
    requires |tail| >= 1
    ensures Join([head] + tail, sep) == head + sep + Join(tail, sep)
  {
    assert ([head] + tail)[1..] == tail;
  }

  /** A string cut at an occurrence of `sep` is the part before, the separator, and the part after. */
  lemma CutAt(s: string, sep: string, k: nat)
    requires OccursAt(s, sep, k)
    ensures s == s[..k] + sep + s[k + |sep|..]
  {
    assert s == s[..k] + s[k..k + |sep|] + s[k + |sep|..];
  }

  /** Splitting and joining again gives back the original string. */
  lemma {:induction false} JoinSplit(s: string, sep: string)
    requires |sep| > 0
    ensures Join(Split(s, sep), sep) == s
    decreases |s|
  {
    IndexOfSound(s, sep, 0);
    match IndexOf(s, sep, 0)
    case None =>
    case Some(k) =>
      var rest := s[k + |sep|..];
      JoinSplit(rest, sep);
      JoinCons(s[..k], Split(rest, sep), sep);
      CutAt(s, sep, k);
  }

  /**
   * The first piece is exactly the text before the first separator: it is a
   * prefix of `s`, no separator starts anywhere before its end (so it holds
   * none, even when occurrences overlap), and either it is all of `s` or the
   * separator follows it directly.
   */
  lemma FirstPiece(s: string, sep: string)
    requires |sep| > 0
    ensures var head := Split(s, sep)[0];
      && |head| <= |s| && s[..|head|] == head
      && Free(head, sep)
      && (forall j: nat :: j < |head| ==> !OccursAt(s, sep, j))
      && (head == s || OccursAt(s, sep, |head|))
  {
    IndexOfFirst(s, sep, 0);
    match IndexOf(s, sep, 0)
    case None =>
      assert s[..|s|] == s;
      PrefixBeforeFirstIsFree(s, sep, |s|);
    case Some(k) =>
      PrefixBeforeFirstIsFree(s, sep, k);
  }

  /** No occurrence of `sep` starts inside `a` when one of its characters never appears in `a` nor earlier in `sep`. */
  lemma NoOccurrenceBefore(a: string, b: string, sep: string, m: nat)
    requires m < |sep| && sep[m] !in a && sep[m] !in sep[..m]
    ensures forall i: nat :: i < |a| ==> !OccursAt(a + sep + b, sep, i)
  {
    var s := a + sep + b;
    forall i: nat | i < |a| ensures !OccursAt(s, sep, i) {
      if i + |sep| <= |s| {
        assert s[i..i + |sep|][m] == s[i + m];
        if i + m < |a| {
          assert s[i + m] == a[i + m];
        } else {
          assert s[i + m] == sep[..m][i + m - |a|];
        }
      }
    }
  }

  /** Splitting `a + sep + b` where `a` has no separator yields `a`, then the pieces of `b`. */
  lemma SplitCons(a: string, b: string, sep: string, m: nat)
    requires m < |sep| && sep[m] !in a && sep[m] !in sep[..m]
    ensures Split(a + sep + b, sep) == [a] + Split(b, sep)
  {
    var s := a + sep + b;
    NoOccurrenceBefore(a, b, sep, m);
    assert OccursAt(s, sep, |a|) by { assert s[|a|..|a| + |sep|] == sep; }
    IndexOfAt(s, sep, 0, |a|);
    assert s[..|a|] == a;
    assert s[|a| + |sep|..] == b;
  }

  /** A string in which some character of `sep` never appears splits into itself alone. */
  lemma SplitSingle(a: string, sep: string, m: nat)
    requires m < |sep| && sep[m] !in a
    ensures Split(a, sep) == [a]
  {
    forall i: nat ensures !OccursAt(a, sep, i) {
      if i + |sep| <= |a| {
        assert a[i..i + |sep|][m] == a[i + m];
      }
    }
    IndexOfFirst(a, sep, 0);
  }
}
