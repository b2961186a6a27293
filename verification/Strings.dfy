/**
 * The two string operations the permission parser of lib/rbac.js relies on,
 * with the semantics of ECMAScript's String.prototype.split (string
 * separator, no limit) and String.prototype.trim.
 */
module Strings {
  import opened Wrappers

  /** The WhiteSpace and LineTerminator code points that `trim` removes. */
  predicate IsSpace(c: char)
  {
    var n := c as int;
    n == 0x09 || n == 0x0A || n == 0x0B || n == 0x0C || n == 0x0D || n == 0x20 || n == 0xA0
    || n == 0x1680 || (0x2000 <= n <= 0x200A) || n == 0x2028 || n == 0x2029 || n == 0x202F
    || n == 0x205F || n == 0x3000 || n == 0xFEFF
  }

  /** The number of white-space characters `s` starts with. */
  function LeadingSpaces(s: string): (n: nat)
    ensures n <= |s|
    ensures forall k :: 0 <= k < n ==> IsSpace(s[k])
    ensures n < |s| ==> !IsSpace(s[n])
  {
    if |s| > 0 && IsSpace(s[0]) then 1 + LeadingSpaces(s[1..]) else 0
  }

  /** The number of white-space characters `s` ends with. */
  function TrailingSpaces(s: string): (n: nat)
    ensures n <= |s|
    ensures forall k :: |s| - n <= k < |s| ==> IsSpace(s[k])
    ensures n < |s| ==> !IsSpace(s[|s| - n - 1])
  {
    if |s| > 0 && IsSpace(s[|s| - 1]) then 1 + TrailingSpaces(s[..|s| - 1]) else 0
  }

  /** `trim`: `s` without its leading and trailing white space. */
  function Trim(s: string): (r: string)
    ensures LeadingSpaces(s) + |r| <= |s|
    ensures r == s[LeadingSpaces(s)..LeadingSpaces(s) + |r|]
    ensures forall k :: 0 <= k < LeadingSpaces(s) ==> IsSpace(s[k])
    ensures forall k :: LeadingSpaces(s) + |r| <= k < |s| ==> IsSpace(s[k])
    ensures r == [] || (!IsSpace(r[0]) && !IsSpace(r[|r| - 1]))
  {
    var rest := s[LeadingSpaces(s)..];
    rest[..|rest| - TrailingSpaces(rest)]
  }

  /** A string that neither starts nor ends with white space is its own trim. */
  lemma TrimUnspaced(s: string)
    requires s == [] || (!IsSpace(s[0]) && !IsSpace(s[|s| - 1]))
    ensures Trim(s) == s
  {
    assert LeadingSpaces(s) == 0;
    if s != [] {
      assert TrailingSpaces(s) == 0;
    }
  }

  /** Trimming twice is trimming once. */
  lemma TrimIdempotent(s: string)
    ensures Trim(Trim(s)) == Trim(s)
  {
    TrimUnspaced(Trim(s));
  }

  /** `sep` occurs in `s` at index `j`. */
  predicate IsAt(s: string, sep: string, j: nat)
  {
    j + |sep| <= |s| && s[j..j + |sep|] == sep
  }

  /** `sep` occurs somewhere in `s`. */
  ghost predicate Contains(s: string, sep: string)
  {
    exists j: nat :: j <= |s| && IsAt(s, sep, j)
  }

  /** The first index at or after `from` where `sep` occurs in `s`, if any. */
  function FindFrom(s: string, sep: string, from: nat): (r: Option<nat>)
    requires |sep| > 0
    ensures r.Some? ==> from <= r.value && IsAt(s, sep, r.value)
    ensures forall k: nat :: from <= k && (r.None? || k < r.value) ==> !IsAt(s, sep, k)
    decreases |s| - from
  {
    if from + |sep| > |s| then None
    else if IsAt(s, sep, from) then Some(from)
    else FindFrom(s, sep, from + 1)
  }

  /** The pieces of `pieces` glued together with `sep` between neighbours. */
  function Join(pieces: seq<string>, sep: string): string
  {
    if |pieces| == 0 then []
    else if |pieces| == 1 then pieces[0]
    else pieces[0] + sep + Join(pieces[1..], sep)
  }

  /** A prefix that ends before the first occurrence of `sep` does not contain `sep`. */
  lemma PrefixBeforeFirst(s: string, sep: string, i: nat)
    requires |sep| > 0 && i <= |s|
    requires forall k: nat :: k < i ==> !IsAt(s, sep, k)
    ensures !Contains(s[..i], sep)
  {
    if Contains(s[..i], sep) {
      var j: nat :| j <= |s[..i]| && IsAt(s[..i], sep, j);
      assert s[..i][j..j + |sep|] == s[j..j + |sep|];
      assert IsAt(s, sep, j);
      assert false;
    }
  }

  /** When `sep` first occurs in `s` at `i`, it first occurs in `s[..i] + sep` at `i` too. */
  lemma FirstInPrefix(s: string, sep: string, i: nat)
    requires IsAt(s, sep, i)
    requires forall k: nat :: k < i ==> !IsAt(s, sep, k)
    ensures forall j :: 0 <= j < i ==> !IsAt(s[..i] + sep, sep, j)
  {
    assert s[..i] + sep == s[..i + |sep|];
    forall j | 0 <= j < i ensures !IsAt(s[..i] + sep, sep, j) {
      if IsAt(s[..i] + sep, sep, j) {
        assert s[..i + |sep|][j..j + |sep|] == s[j..j + |sep|];
        assert IsAt(s, sep, j);
      }
    }
  }

  /**
   * `split(sep)` for a non-empty separator: the pieces between the
   * occurrences of `sep` found scanning from the left. Every piece but the
   * last is followed by the leftmost occurrence of `sep` after it.
   */
  function Split(s: string, sep: string): (r: seq<string>)
    requires |sep| > 0
    ensures |r| >= 1
    ensures Join(r, sep) == s
    ensures forall k :: 0 <= k < |r| ==> !Contains(r[k], sep)
    ensures forall k, j :: 0 <= k < |r| - 1 && 0 <= j < |r[k]| ==> !IsAt(r[k] + sep, sep, j)
    decreases |s|
  {
    match FindFrom(s, sep, 0)
    case None =>
      PrefixBeforeFirst(s, sep, |s|);
      assert s[..|s|] == s;
      [s]
    case Some(i) =>
      PrefixBeforeFirst(s, sep, i);
      FirstInPrefix(s, sep, i);
      var rest := Split(s[i + |sep|..], sep);
      assert s == s[..i] + sep + s[i + |sep|..];
      assert forall k :: 0 < k < |rest| + 1 ==> ([s[..i]] + rest)[k] == rest[k - 1];
      [s[..i]] + rest
  }

  /** Splitting undoes joining pieces in which the separator's first character never occurs. */
  lemma {:induction false} SplitJoin(pieces: seq<string>, sep: string)
    requires |pieces| >= 1 && |sep| > 0
    requires forall k :: 0 <= k < |pieces| ==> sep[0] !in pieces[k]
    ensures Split(Join(pieces, sep), sep) == pieces
    decreases |pieces|
  {
    var s := Join(pieces, sep);
    var p := pieces[0];
    forall k: nat | k < |p| ensures !IsAt(s, sep, k) {
      assert s[k] == p[k] != sep[0];
      assert k + |sep| <= |s| ==> s[k..k + |sep|][0] == s[k];
    }
    if |pieces| == 1 {
      assert !IsAt(s, sep, |p|);
      assert FindFrom(s, sep, 0).None?;
    } else {
      assert s[|p|..|p| + |sep|] == sep;
      assert IsAt(s, sep, |p|);
      assert FindFrom(s, sep, 0) == Some(|p|);
      assert s[..|p|] == p;
      assert s[|p| + |sep|..] == Join(pieces[1..], sep);
      SplitJoin(pieces[1..], sep);
    }
  }

  /** A character that occurs neither in the pieces nor in the separator does not occur in their join. */
  lemma {:induction false} JoinAvoids(pieces: seq<string>, sep: string, c: char)
    requires c !in sep
    requires forall k :: 0 <= k < |pieces| ==> c !in pieces[k]
    ensures c !in Join(pieces, sep)
    decreases |pieces|
  {
    if |pieces| > 1 {
      JoinAvoids(pieces[1..], sep, c);
    }
  }

  /** The number of times `c` occurs in `s`. */
  function Occurrences(s: string, c: char): nat
  {
    if |s| == 0 then 0 else (if s[0] == c then 1 else 0) + Occurrences(s[1..], c)
  }

  /** Occurrences add up over concatenation. */
  lemma {:induction false} OccurrencesAppend(a: string, b: string, c: char)
    ensures Occurrences(a + b, c) == Occurrences(a, c) + Occurrences(b, c)
    decreases |a|
  {
    if |a| > 0 {
      assert (a + b)[0] == a[0];
      assert (a + b)[1..] == a[1..] + b;
      OccurrencesAppend(a[1..], b, c);
    } else {
      assert a + b == b;
    }
  }

  /** Splitting on one character gives one more piece than there are occurrences of it. */
  lemma {:induction false} SplitCount(s: string, c: char)
    ensures |Split(s, [c])| == Occurrences(s, c) + 1
    decreases |s|
  {
    var r := Split(s, [c]);
    match FindFrom(s, [c], 0)
    case None =>
      if Occurrences(s, c) > 0 {
        var k := FirstOccurrence(s, c);
        assert s[k..k + 1] == [c];
        assert IsAt(s, [c], k);
      }
    case Some(i) =>
      assert s == s[..i] + [c] + s[i + 1..];
      OccurrencesAppend(s[..i] + [c], s[i + 1..], c);
      OccurrencesAppend(s[..i], [c], c);
      assert Occurrences([c], c) == 1;
      if Occurrences(s[..i], c) > 0 {
        var k := FirstOccurrence(s[..i], c);
        assert s[k..k + 1] == [c];
        assert IsAt(s, [c], k);
      }
      SplitCount(s[i + 1..], c);
  }

  /** The index of a first occurrence of `c`, when there is one. */
  function FirstOccurrence(s: string, c: char): (k: nat)
    requires Occurrences(s, c) > 0
    ensures k < |s| && s[k] == c
  {
    if s[0] == c then 0 else 1 + FirstOccurrence(s[1..], c)
  }
}
