/**
 * Sequence operations shared by several components: JavaScript's
 * `Array.prototype.filter`, `some`, and the "remember the keys already seen
 * in a `Set` and skip repeats" idiom.
 */
module Seqs {

  /** `s.filter(p)`. */
  function Filter<T(==)>(p: T -> bool, s: seq<T>): (r: seq<T>)
    ensures |r| <= |s|
    ensures forall i :: 0 <= i < |r| ==> r[i] in s && p(r[i])
    ensures forall i :: 0 <= i < |s| && p(s[i]) ==> s[i] in r
  {
    if s == [] then []
    else (if p(s[0]) then [s[0]] else []) + Filter(p, s[1..])
  }

  /** `r` is obtained from `s` by deleting elements, keeping the order. */
  predicate IsSubsequence<T(==)>(r: seq<T>, s: seq<T>)
    decreases |s|
  {
    if r == [] then true
    else if s == [] then false
    else (r[0] == s[0] && IsSubsequence(r[1..], s[1..])) || IsSubsequence(r, s[1..])
  }

  lemma {:induction false} FilterIsSubsequence<T>(p: T -> bool, s: seq<T>)
    ensures IsSubsequence(Filter(p, s), s)
  {
    if s != [] {
      FilterIsSubsequence(p, s[1..]);
      var r := Filter(p, s);
      if p(s[0]) {
        assert r[0] == s[0] && r[1..] == Filter(p, s[1..]);
      } else {
        assert r == Filter(p, s[1..]);
      }
    }
  }

  /** Filtering a concatenation filters each part. */
  lemma {:induction false} FilterConcat<T>(p: T -> bool, a: seq<T>, b: seq<T>)
    ensures Filter(p, a + b) == Filter(p, a) + Filter(p, b)
  {
    if a == [] {
      assert a + b == b;
    } else {
      assert (a + b)[1..] == a[1..] + b;
      FilterConcat(p, a[1..], b);
    }
  }

  lemma FilterCons<T>(p: T -> bool, x: T, s: seq<T>)
    ensures Filter(p, [x] + s) == (if p(x) then [x] else []) + Filter(p, s)
  {
    assert ([x] + s)[0] == x && ([x] + s)[1..] == s;
  }

  /** Two neighbours that do not both pass may be swapped without changing the filter. */
  lemma FilterSwap<T>(p: T -> bool, x: T, y: T, s: seq<T>)
    requires !(p(x) && p(y))
    ensures Filter(p, [x] + ([y] + s)) == Filter(p, [y] + ([x] + s))
  {
    var rest := Filter(p, s);
    FilterCons(p, y, s);
    FilterCons(p, x, s);
    if p(x) {
      assert Filter(p, [y] + s) == rest;
      FilterCons(p, x, [y] + s);
      FilterCons(p, y, [x] + s);
      assert Filter(p, [x] + ([y] + s)) == [x] + rest;
      assert Filter(p, [y] + ([x] + s)) == [x] + rest;
    } else {
      assert Filter(p, [x] + s) == rest;
      FilterCons(p, x, [y] + s);
      FilterCons(p, y, [x] + s);
      assert Filter(p, [x] + ([y] + s)) == Filter(p, [y] + s);
      assert Filter(p, [y] + ([x] + s)) == (if p(y) then [y] else []) + rest;
    }
  }

  /** Filtering keeps everything when every element passes. */
  lemma {:induction false} FilterAll<T>(p: T -> bool, s: seq<T>)
    requires forall i :: 0 <= i < |s| ==> p(s[i])
    ensures Filter(p, s) == s
  {
    if s != [] {
      FilterAll(p, s[1..]);
    }
  }

  /** Filtering by `q` after filtering by `p` is filtering by their conjunction `pq`. */
  lemma {:induction false} FilterFilter<T>(p: T -> bool, q: T -> bool, pq: T -> bool, s: seq<T>)
    requires forall i :: 0 <= i < |s| ==> pq(s[i]) == (p(s[i]) && q(s[i]))
    ensures Filter(q, Filter(p, s)) == Filter(pq, s)
  {
    if s != [] {
      FilterFilter(p, q, pq, s[1..]);
      var fp := Filter(p, s);
      if p(s[0]) {
        assert fp == [s[0]] + Filter(p, s[1..]);
        assert fp[1..] == Filter(p, s[1..]);
      } else {
        assert fp == Filter(p, s[1..]);
      }
    }
  }

  /** A subsequence of a subsequence is a subsequence. */
  lemma {:induction false} SubsequenceTransitive<T>(r: seq<T>, s: seq<T>, t: seq<T>)
    requires IsSubsequence(r, s) && IsSubsequence(s, t)
    ensures IsSubsequence(r, t)
    decreases |t|
  {
    if r != [] && t != [] {
      if s[0] == t[0] && IsSubsequence(s[1..], t[1..]) {
        if r[0] == s[0] && IsSubsequence(r[1..], s[1..]) {
          SubsequenceTransitive(r[1..], s[1..], t[1..]);
        } else {
          SubsequenceTransitive(r, s[1..], t[1..]);
        }
      } else {
        SubsequenceTransitive(r, s, t[1..]);
      }
    }
  }

  /** `a.some(x => x in b)`: the two sequences share an element. */
  predicate SharesElement<T(==)>(a: seq<T>, b: seq<T>) {
    exists i :: 0 <= i < |a| && a[i] in b
  }

  /** The keys of the elements of `s`, in order. */
  function KeysOf<T, K>(s: seq<T>, key: T -> K): (ks: seq<K>)
    ensures |ks| == |s|
    ensures forall i :: 0 <= i < |s| ==> ks[i] == key(s[i])
  {
    seq(|s|, i requires 0 <= i < |s| => key(s[i]))
  }

  /**
   * Keep each element whose key has not been seen before, scanning from the
   * left (what a loop guarded by `seen.has(key)` / `seen.add(key)` builds).
   */
  function DedupBy<T, K(==)>(s: seq<T>, key: T -> K): seq<T>
  {
    if s == [] then []
    else
      var d := DedupBy(s[..|s| - 1], key);
      if key(s[|s| - 1]) in KeysOf(d, key) then d else d + [s[|s| - 1]]
  }

  /** Some element of `s` has key `k`. */
  ghost predicate HasKey<T, K>(s: seq<T>, key: T -> K, k: K) {
    k in KeysOf(s, key)
  }

  /** No two elements of `s` have the same key. */
  ghost predicate DistinctKeys<T, K>(s: seq<T>, key: T -> K) {
    forall i, j :: 0 <= i < j < |s| ==> key(s[i]) != key(s[j])
  }

  /** `s[i]` is the first element of `s` carrying its key. */
  ghost predicate FirstWithKey<T, K>(s: seq<T>, key: T -> K, i: int)
    requires 0 <= i < |s|
  {
    forall j :: 0 <= j < i ==> key(s[j]) != key(s[i])
  }

  /**
   * What de-duplication promises: the kept keys are pairwise distinct, they
   * are exactly the keys of the input, every kept element is the first of
   * its key in the input, and the kept elements appear in input order.
   */
  lemma {:induction false} DedupByProperties<T, K>(s: seq<T>, key: T -> K)
    ensures DistinctKeys(DedupBy(s, key), key)
    ensures forall k :: HasKey(DedupBy(s, key), key, k) <==> HasKey(s, key, k)
    ensures forall x :: x in DedupBy(s, key) ==>
              exists i :: 0 <= i < |s| && s[i] == x && FirstWithKey(s, key, i)
    ensures IsSubsequence(DedupBy(s, key), s)
  {
    if s != [] {
      var p := s[..|s| - 1];
      var last := s[|s| - 1];
      var d := DedupBy(p, key);
      DedupByProperties(p, key);
      assert forall k :: HasKey(p, key, k) ==> HasKey(s, key, k) by {
        forall k | HasKey(p, key, k) ensures HasKey(s, key, k) {
          var i :| 0 <= i < |p| && KeysOf(p, key)[i] == k;
          assert KeysOf(s, key)[i] == k;
        }
      }
      assert forall k :: HasKey(s, key, k) ==> HasKey(p, key, k) || k == key(last) by {
        forall k | HasKey(s, key, k) ensures HasKey(p, key, k) || k == key(last) {
          var i :| 0 <= i < |s| && KeysOf(s, key)[i] == k;
          if i < |p| { assert KeysOf(p, key)[i] == k; }
        }
      }
      assert forall i :: 0 <= i < |p| && FirstWithKey(p, key, i) ==> FirstWithKey(s, key, i);
      if key(last) !in KeysOf(d, key) {
        assert !HasKey(p, key, key(last)) by {
          assert !HasKey(d, key, key(last));
        }
        assert FirstWithKey(s, key, |s| - 1) by {
          forall j | 0 <= j < |s| - 1 ensures key(s[j]) != key(last) {
            assert KeysOf(p, key)[j] == key(s[j]);
          }
        }
        var d' := d + [last];
        assert KeysOf(d', key) == KeysOf(d, key) + [key(last)];
      }
      SubsequenceSnoc(d, p, last);
      assert p + [last] == s;
    }
  }

  /** De-duplication keeps the key of every input element. */
  lemma DedupByKeepsKey<T, K>(s: seq<T>, key: T -> K, k: int)
    requires 0 <= k < |s|
    ensures HasKey(DedupBy(s, key), key, key(s[k]))
  {
    assert KeysOf(s, key)[k] == key(s[k]);
    assert HasKey(s, key, key(s[k]));
    DedupByProperties(s, key);
  }

  /** Appending the same element to both sides, or to the longer side only, keeps a subsequence. */
  lemma {:induction false} SubsequenceSnoc<T>(r: seq<T>, s: seq<T>, x: T)
    requires IsSubsequence(r, s)
    ensures IsSubsequence(r, s + [x]) && IsSubsequence(r + [x], s + [x])
    decreases |s|
  {
    if r == [] {
      assert r + [x] == [x];
      assert IsSubsequence([x], [x]);
      SubsequenceOfLonger([x], [x], s);
    } else {
      assert s != [];
      assert (s + [x])[1..] == s[1..] + [x];
      assert (r + [x])[1..] == r[1..] + [x];
      if r[0] == s[0] && IsSubsequence(r[1..], s[1..]) {
        SubsequenceSnoc(r[1..], s[1..], x);
      } else {
        SubsequenceSnoc(r, s[1..], x);
      }
    }
  }

  /** A subsequence of `t` is a subsequence of `u + t`. */
  lemma {:induction false} SubsequenceOfLonger<T>(r: seq<T>, t: seq<T>, u: seq<T>)
    requires IsSubsequence(r, t)
    ensures IsSubsequence(r, u + t)
    decreases |u|
  {
    if u != [] {
      SubsequenceOfLonger(r, t, u[1..]);
      assert (u + t)[1..] == u[1..] + t;
    } else {
      assert u + t == t;
    }
  }
}
