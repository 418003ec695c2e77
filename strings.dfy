/** The string and sequence operations the dataset code borrows from Python and
    TensorFlow: splitting on a separator (`tf.strings.split(s, sep)`), the
    lexicographic order on `str`, and the built-in `sorted` on a list of names. */
module Strings {

  // ---------------------------------------------------------------------------
  // Splitting on a one-character separator
  // ---------------------------------------------------------------------------

  /** Splits `s` at every occurrence of `sep`. Empty segments are kept, so
      "a//b" gives ["a", "", "b"] and "" gives [""]: the behaviour of Python's
      `str.split(sep)` and of `tf.strings.split(s, sep)` with an explicit separator. */
  function Split(s: string, sep: char): (parts: seq<string>)
    ensures |parts| >= 1
    ensures forall i :: 0 <= i < |parts| ==> sep !in parts[i]
    ensures sep !in s ==> parts == [s]
    ensures sep in s ==> |parts| >= 2
    decreases |s|
  {
    if s == [] then [[]]
    else
      var rest := Split(s[1..], sep);
      assert sep in s <==> s[0] == sep || sep in s[1..] by { assert s == [s[0]] + s[1..]; }
      assert sep !in s ==> rest == [s[1..]] && [s[0]] + s[1..] == s;
      if s[0] == sep then [[]] + rest
      else [[s[0]] + rest[0]] + rest[1..]
  }

  /** Glues `parts` together with `sep` between neighbours (Python's `sep.join`). */
  function Join(parts: seq<string>, sep: char): string
  {
    if |parts| == 0 then []
    else if |parts| == 1 then parts[0]
    else parts[0] + [sep] + Join(parts[1..], sep)
  }

  /** Splitting loses nothing: joining the segments back gives the original string. */
  lemma {:induction false} JoinSplit(s: string, sep: char)
    ensures Join(Split(s, sep), sep) == s
    decreases |s|
  {
    if s != [] {
      var rest := Split(s[1..], sep);
      JoinSplit(s[1..], sep);
      if s[0] == sep {
        assert Split(s, sep) == [[]] + rest;
        assert ([[]] + rest)[1..] == rest;
      } else {
        var parts := Split(s, sep);
        assert parts == [[s[0]] + rest[0]] + rest[1..];
        if |rest| == 1 {
          assert parts == [[s[0]] + rest[0]];
        } else {
          assert parts[1..] == rest[1..];
          assert Join(rest, sep) == rest[0] + [sep] + Join(rest[1..], sep);
        }
      }
    }
  }

  /** Appending a separator and a separator-free tail to `a` appends exactly one
      segment to the split of `a`. */
  lemma {:induction false} SplitAppend(a: string, sep: char, b: string)
    requires sep !in b
    ensures Split(a + [sep] + b, sep) == Split(a, sep) + [b]
    decreases |a|
  {
    var s := a + [sep] + b;
    if a == [] {
      assert s == [sep] + b;
      assert s[1..] == b;
    } else {
      assert s[0] == a[0];
      assert s[1..] == a[1..] + [sep] + b;
      SplitAppend(a[1..], sep, b);
      var rest := Split(a[1..], sep);
      assert Split(s[1..], sep) == rest + [b];
      if a[0] == sep {
        assert Split(s, sep) == [[]] + (rest + [b]);
      } else {
        assert (rest + [b])[0] == rest[0];
        assert (rest + [b])[1..] == rest[1..] + [b];
      }
    }
  }

  /** The position of the last `sep` in `s`. */
  function LastIndex(s: string, sep: char): (j: nat)
    requires sep in s
    ensures j < |s| && s[j] == sep && sep !in s[j + 1..]
  {
    var n := |s| - 1;
    if s[n] == sep then n
    else
      assert s == s[..n] + [s[n]];
      var j := LastIndex(s[..n], sep);
      assert s[j + 1..] == s[..n][j + 1..] + [s[n]];
      j
  }

  /** After the last separator, at `j`, everything up to the end is the last segment. */
  lemma LastSegmentAfter(s: string, sep: char, j: nat)
    requires j < |s| && s[j] == sep && sep !in s[j + 1..]
    ensures var parts := Split(s, sep); parts[|parts| - 1] == s[j + 1..]
  {
    var front, back := s[..j], s[j + 1..];
    assert s == front + [sep] + back by {
      assert s[j..] == [sep] + back;
      assert s == front + s[j..];
    }
    SplitAppend(front, sep, back);
  }

  /** The last segment is the longest separator-free suffix: it ends the string,
      and when the string holds a separator, a separator stands just before it. */
  lemma LastSegment(s: string, sep: char)
    ensures var parts := Split(s, sep);
            var last := parts[|parts| - 1];
            && |last| <= |s|
            && s[|s| - |last|..] == last
            && (sep in s ==> |last| < |s| && s[|s| - |last| - 1] == sep)
  {
    if sep in s {
      var j := LastIndex(s, sep);
      LastSegmentAfter(s, sep, j);
      assert |s| - |s[j + 1..]| - 1 == j;
    } else {
      assert s[0..] == s;
    }
  }

  // ---------------------------------------------------------------------------
  // Python's order on `str` and the built-in `sorted`
  // ---------------------------------------------------------------------------

  /** `a <= b` on Python strings: lexicographic by code point, a prefix first. */
  predicate LessEq(a: string, b: string)
  {
    a == [] || (b != [] && (a[0] < b[0] || (a[0] == b[0] && LessEq(a[1..], b[1..]))))
  }

  lemma {:induction false} LessEqTotal(a: string, b: string)
    ensures LessEq(a, b) || LessEq(b, a)
  {
    if a != [] && b != [] && a[0] == b[0] {
      LessEqTotal(a[1..], b[1..]);
    }
  }

  lemma {:induction false} LessEqTransitive(a: string, b: string, c: string)
    requires LessEq(a, b) && LessEq(b, c)
    ensures LessEq(a, c)
  {
    if a != [] && a[0] == b[0] && b[0] == c[0] {
      LessEqTransitive(a[1..], b[1..], c[1..]);
    }
  }

  ghost predicate Sorted(s: seq<string>)
  {
    forall i, j :: 0 <= i < j < |s| ==> LessEq(s[i], s[j])
  }

  /** No name occurs twice (the entries of one directory listing). */
  ghost predicate Distinct<T>(s: seq<T>)
  {
    forall i, j :: 0 <= i < j < |s| ==> s[i] != s[j]
  }

  /** Puts `x` into the sorted list `s` in front of the first entry it does not exceed. */
  function Insert(x: string, s: seq<string>): (r: seq<string>)
    requires Sorted(s)
    ensures Sorted(r)
    ensures multiset(r) == multiset(s) + multiset{x}
  {
    if s == [] then [x]
    else if LessEq(x, s[0]) then
      assert forall j :: 0 < j < |s| ==> LessEq(x, s[j]) by {
        forall j | 0 < j < |s| ensures LessEq(x, s[j]) { LessEqTransitive(x, s[0], s[j]); }
      }
      [x] + s
    else
      var tail := Insert(x, s[1..]);
      assert s == [s[0]] + s[1..];
      assert LessEq(s[0], x) by { LessEqTotal(x, s[0]); }
      assert forall j :: 0 <= j < |tail| ==> LessEq(s[0], tail[j]) by {
        forall j | 0 <= j < |tail| ensures LessEq(s[0], tail[j]) {
          assert tail[j] in multiset(tail);
          if tail[j] != x {
            assert tail[j] in multiset(s[1..]);
            var k :| 0 <= k < |s[1..]| && s[1..][k] == tail[j];
            assert s[k + 1] == tail[j];
          }
        }
      }
      [s[0]] + tail
  }

  /** Python's `sorted` on a list of strings (an insertion sort: the result is the
      unique ascending arrangement of the same entries). */
  function Sort(s: seq<string>): (r: seq<string>)
    ensures Sorted(r)
    ensures multiset(r) == multiset(s)
  {
    if s == [] then []
    else
      assert s == [s[0]] + s[1..];
      Insert(s[0], Sort(s[1..]))
  }

  // ---------------------------------------------------------------------------
  // Distinct entries, told apart by their multiplicities
  // ---------------------------------------------------------------------------

  lemma {:induction false} DistinctCounts<T>(s: seq<T>, x: T)
    requires Distinct(s)
    ensures multiset(s)[x] <= 1
  {
    if s != [] {
      assert s == [s[0]] + s[1..];
      assert Distinct(s[1..]);
      DistinctCounts(s[1..], x);
      if x == s[0] {
        assert x !in s[1..];
      }
    }
  }

  lemma CountsDistinct<T>(s: seq<T>)
    requires forall x :: multiset(s)[x] <= 1
    ensures Distinct(s)
  {
    forall i, j | 0 <= i < j < |s| ensures s[i] != s[j] {
      assert s == s[..j] + s[j..];
      assert s[i] in multiset(s[..j]);
      assert s[j] in multiset(s[j..]);
      assert multiset(s)[s[j]] == multiset(s[..j])[s[j]] + multiset(s[j..])[s[j]];
    }
  }

  /** Rearranging a list of distinct names keeps them distinct. */
  lemma DistinctPermutation<T>(s: seq<T>, t: seq<T>)
    requires Distinct(s)
    requires multiset(s) == multiset(t)
    ensures Distinct(t)
  {
    forall x ensures multiset(t)[x] <= 1 { DistinctCounts(s, x); }
    CountsDistinct(t);
  }
}
