/** Order-preserving sequence operations used throughout the model: `Array.prototype.filter`. */
module Seqs {
  import opened Wrappers

  /** `r` is obtained from `s` by deleting zero or more elements, keeping the order of the rest. */
  predicate IsSubsequence<T(==)>(r: seq<T>, s: seq<T>)
    decreases |s|
  {
    if r == [] then true
    else if s == [] then false
    else (r[0] == s[0] && IsSubsequence(r[1..], s[1..])) || IsSubsequence(r, s[1..])
  }

  /** `s.filter(f)`: the elements of `s` that satisfy `f`, in their original order. */
  function Filter<T(==)>(f: T -> bool, s: seq<T>): (r: seq<T>)
    ensures |r| <= |s|
    ensures (forall i :: 0 <= i < |s| ==> f(s[i])) ==> r == s
    ensures (forall i :: 0 <= i < |s| ==> !f(s[i])) ==> r == []
  {
    if s == [] then []
    else if f(s[0]) then [s[0]] + Filter(f, s[1..])
    else Filter(f, s[1..])
  }

  /** What `Filter` keeps: elements of `s` that satisfy `f`, and every such element. */
  lemma {:induction false} FilterMembers<T>(f: T -> bool, s: seq<T>)
    ensures forall i :: 0 <= i < |Filter(f, s)| ==> Filter(f, s)[i] in s && f(Filter(f, s)[i])
    ensures forall i :: 0 <= i < |s| && f(s[i]) ==> s[i] in Filter(f, s)
  {
    if s != [] {
      FilterMembers(f, s[1..]);
      var rest := Filter(f, s[1..]);
      forall i | 0 <= i < |rest| ensures rest[i] in s {
        assert rest[i] in s[1..];
      }
      forall i | 1 <= i < |s| && f(s[i]) ensures s[i] in Filter(f, s) {
        assert s[1..][i - 1] == s[i];
      }
    }
  }

  /** `Filter` only deletes: its result is a subsequence of its input. */
  lemma {:induction false} FilterIsSubsequence<T>(f: T -> bool, s: seq<T>)
    ensures IsSubsequence(Filter(f, s), s)
  {
    if s != [] {
      FilterIsSubsequence(f, s[1..]);
    }
  }

  /** How many elements of `s` satisfy `f` (`s.filter(f).length`). */
  function Count<T(==)>(f: T -> bool, s: seq<T>): (n: nat)
    ensures n <= |s|
    ensures n == |Filter(f, s)|
  {
    |Filter(f, s)|
  }

  /** Filtering distributes over concatenation. */
  lemma {:induction false} FilterConcat<T>(f: T -> bool, a: seq<T>, b: seq<T>)
    ensures Filter(f, a + b) == Filter(f, a) + Filter(f, b)
  {
    if a == [] {
      assert a + b == b;
    } else {
      assert (a + b)[1..] == a[1..] + b;
      FilterConcat(f, a[1..], b);
    }
  }

  /** Filtering twice with the same predicate is filtering once. */
  lemma {:induction false} FilterIdempotent<T>(f: T -> bool, s: seq<T>)
    ensures Filter(f, Filter(f, s)) == Filter(f, s)
  {
    FilterMembers(f, s);
  }

  /** Two successive filters keep exactly what their conjunction `h` keeps. */
  lemma {:induction false} FilterFilter<T>(f: T -> bool, g: T -> bool, h: T -> bool, s: seq<T>)
    requires forall x :: h(x) == (f(x) && g(x))
    ensures Filter(g, Filter(f, s)) == Filter(h, s)
  {
    if s != [] {
      FilterFilter(f, g, h, s[1..]);
    }
  }

  /** Every sequence is a subsequence of itself. */
  lemma {:induction false} SubsequenceReflexive<T>(s: seq<T>)
    ensures IsSubsequence(s, s)
  {
    if s != [] {
      SubsequenceReflexive(s[1..]);
    }
  }

  /** Subsequences compose. */
  lemma {:induction false} SubsequenceTransitive<T>(a: seq<T>, b: seq<T>, c: seq<T>)
    requires IsSubsequence(a, b) && IsSubsequence(b, c)
    ensures IsSubsequence(a, c)
    decreases |c|
  {
    if a != [] && b != [] && c != [] {
      if IsSubsequence(b, c[1..]) {
        SubsequenceTransitive(a, b, c[1..]);
      } else if IsSubsequence(a, b[1..]) {
        SubsequenceTransitive(a, b[1..], c[1..]);
      } else {
        SubsequenceTransitive(a[1..], b[1..], c[1..]);
      }
    }
  }

  /** `s.findIndex(f)`: the first position whose element satisfies `f`, or -1 when there is none. */
  function FindIndex<T>(f: T -> bool, s: seq<T>): (k: int)
    ensures -1 <= k < |s|
    ensures k >= 0 ==> f(s[k]) && forall j :: 0 <= j < k ==> !f(s[j])
    ensures k == -1 <==> forall j :: 0 <= j < |s| ==> !f(s[j])
  {
    if s == [] then -1
    else if f(s[0]) then 0
    else
      var k := FindIndex(f, s[1..]);
      if k == -1 then -1 else k + 1
  }

  /** `s.find(f)`: the first element that satisfies `f`. */
  function Find<T>(f: T -> bool, s: seq<T>): (r: Option<T>)
    ensures r.None? <==> forall j :: 0 <= j < |s| ==> !f(s[j])
    ensures r.Some? ==> exists k :: 0 <= k < |s| && s[k] == r.value && f(s[k]) && forall j :: 0 <= j < k ==> !f(s[j])
  {
    var k := FindIndex(f, s);
    if k == -1 then None else Some(s[k])
  }

  /**
   * Index replacement at `s.findIndex(f)`: the first element satisfying `f` becomes `g` of it;
   * when there is none, `s` is returned as it is.
   */
  function ReplaceFirst<T>(f: T -> bool, g: T -> T, s: seq<T>): (r: seq<T>)
    ensures |r| == |s|
    ensures (forall j :: 0 <= j < |s| ==> !f(s[j])) ==> r == s
  {
    var k := FindIndex(f, s);
    if k == -1 then s else s[k := g(s[k])]
  }

  /** No two elements of `s` have the same key. */
  predicate DistinctBy<T, K(==)>(key: T -> K, s: seq<T>) {
    forall i, j :: 0 <= i < j < |s| ==> key(s[i]) != key(s[j])
  }

  /** The first two elements of a sequence with distinct keys have different keys. */
  lemma FirstTwoDiffer<T, K>(key: T -> K, s: seq<T>)
    requires DistinctBy(key, s) && |s| >= 2
    ensures key(s[0]) != key(s[1])
  {
  }

  /** Filtering keeps keys distinct. */
  lemma {:induction false} FilterDistinct<T, K>(key: T -> K, f: T -> bool, s: seq<T>)
    requires DistinctBy(key, s)
    ensures DistinctBy(key, Filter(f, s))
  {
    if s != [] {
      FilterDistinct(key, f, s[1..]);
      FilterMembers(f, s[1..]);
      var rest := Filter(f, s[1..]);
      if f(s[0]) {
        forall j | 0 <= j < |rest| ensures key(s[0]) != key(rest[j]) {
          var k :| 0 <= k < |s[1..]| && s[1..][k] == rest[j];
          assert s[k + 1] == rest[j];
        }
        assert Filter(f, s) == [s[0]] + rest;
      }
    }
  }

  /** Filters that agree on every element give the same result. */
  lemma {:induction false} FilterExtensional<T>(f: T -> bool, g: T -> bool, s: seq<T>)
    requires forall x :: f(x) == g(x)
    ensures Filter(f, s) == Filter(g, s)
  {
    if s != [] {
      FilterExtensional(f, g, s[1..]);
    }
  }

  /** No element occurs twice in `s`. */
  predicate Distinct<T(==)>(s: seq<T>) {
    forall i, j :: 0 <= i < j < |s| ==> s[i] != s[j]
  }

  function Other<T(==)>(y: T): T -> bool {
    (x: T) => x != y
  }

  /** `[...new Set(s)]`: the elements of `s` without repeats, each where it first occurs. */
  function Dedupe<T(==)>(s: seq<T>): (r: seq<T>)
    ensures |r| <= |s|
    decreases |s|
  {
    if s == [] then [] else [s[0]] + Dedupe(Filter(Other(s[0]), s[1..]))
  }

  /** Removing repeats keeps exactly the elements there were. */
  lemma {:induction false} DedupeMembers<T>(s: seq<T>)
    ensures forall x :: x in Dedupe(s) <==> x in s
    decreases |s|
  {
    if s != [] {
      var rest := Filter(Other(s[0]), s[1..]);
      DedupeMembers(rest);
      FilterMembers(Other(s[0]), s[1..]);
      forall x | x in s && x != s[0] ensures x in rest {
        var k :| 0 <= k < |s| && s[k] == x;
        assert s[1..][k - 1] == x;
      }
    }
  }

  /** The result has no repeats. */
  lemma {:induction false} DedupeDistinct<T>(s: seq<T>)
    ensures Distinct(Dedupe(s))
    decreases |s|
  {
    if s != [] {
      var rest := Filter(Other(s[0]), s[1..]);
      DedupeDistinct(rest);
      DedupeMembers(rest);
      FilterMembers(Other(s[0]), s[1..]);
      var r := Dedupe(s);
      assert r == [s[0]] + Dedupe(rest);
      forall i, j | 0 <= i < j < |r| ensures r[i] != r[j] {
        if i == 0 {
          assert r[j] in Dedupe(rest);
        } else {
          assert r[i] == Dedupe(rest)[i - 1] && r[j] == Dedupe(rest)[j - 1];
        }
      }
    }
  }

  /** A sequence without repeats is left as it is. */
  lemma {:induction false} DedupeOfDistinct<T>(s: seq<T>)
    requires Distinct(s)
    ensures Dedupe(s) == s
    decreases |s|
  {
    if s != [] {
      assert forall i :: 0 <= i < |s[1..]| ==> Other(s[0])(s[1..][i]) by {
        forall i | 0 <= i < |s[1..]| ensures s[1..][i] != s[0] {
          assert s[1..][i] == s[i + 1];
        }
      }
      assert Distinct(s[1..]) by {
        forall i, j | 0 <= i < j < |s[1..]| ensures s[1..][i] != s[1..][j] {
          assert s[1..][i] == s[i + 1] && s[1..][j] == s[j + 1];
        }
      }
      DedupeOfDistinct(s[1..]);
    }
  }
}
