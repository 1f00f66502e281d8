/** Sequence operations the view models use to replace their lists wholesale:
    Kotlin's `filterNot { key(it) == k }`, and the order and uniqueness facts
    that hold of its result. */
module Lists {

  /** The elements of `s` whose key differs from `k`, in their original order
      (Kotlin's `s.filterNot { key(it) == k }`). */
  function WithoutKey<T, K(==)>(s: seq<T>, key: T -> K, k: K): (r: seq<T>)
    ensures |r| <= |s|
    ensures forall x :: x in r ==> x in s && key(x) != k
    ensures forall x :: x in s && key(x) != k ==> x in r
  {
    if s == [] then []
    else if key(s[0]) == k then WithoutKey(s[1..], key, k)
    else [s[0]] + WithoutKey(s[1..], key, k)
  }

  /** `r` can be obtained from `s` by deleting elements: what is left keeps
      its relative order. */
  predicate IsSubsequence<T(==)>(r: seq<T>, s: seq<T>)
    decreases |s|
  {
    r == [] ||
    (s != [] && ((r[0] == s[0] && IsSubsequence(r[1..], s[1..])) || IsSubsequence(r, s[1..])))
  }

  /** No two elements of `s` share a key. */
  predicate DistinctKeys<T, K(==)>(s: seq<T>, key: T -> K) {
    forall i, j :: 0 <= i < j < |s| ==> key(s[i]) != key(s[j])
  }

  /** Some element of `s` has key `k`. */
  predicate HasKey<T, K(==)>(s: seq<T>, key: T -> K, k: K) {
    exists i :: 0 <= i < |s| && key(s[i]) == k
  }

  /** A subsequence takes no element more often than the sequence holds it. */
  lemma {:induction false} SubsequenceMultiset<T>(r: seq<T>, s: seq<T>)
    requires IsSubsequence(r, s)
    ensures multiset(r) <= multiset(s)
    decreases |s|
  {
    if r == [] {
    } else if r[0] == s[0] && IsSubsequence(r[1..], s[1..]) {
      SubsequenceMultiset(r[1..], s[1..]);
      assert r == [r[0]] + r[1..];
      assert s == [s[0]] + s[1..];
    } else {
      SubsequenceMultiset(r, s[1..]);
      assert s == [s[0]] + s[1..];
    }
  }

  /** Deleting elements cannot make two keys collide. */
  lemma {:induction false} SubsequenceKeepsDistinct<T, K>(r: seq<T>, s: seq<T>, key: T -> K)
    requires IsSubsequence(r, s)
    requires DistinctKeys(s, key)
    ensures DistinctKeys(r, key)
    decreases |s|
  {
    if r == [] {
    } else if r[0] == s[0] && IsSubsequence(r[1..], s[1..]) {
      SubsequenceKeepsDistinct(r[1..], s[1..], key);
      SubsequenceMultiset(r[1..], s[1..]);
      forall j | 1 <= j < |r| ensures key(r[0]) != key(r[j]) {
        assert r[j] == r[1..][j - 1];
        assert r[j] in multiset(r[1..]);
        assert r[j] in s[1..];
        var m :| 0 <= m < |s[1..]| && s[1..][m] == r[j];
        assert s[1 + m] == r[j];
      }
      forall i, j | 0 <= i < j < |r| ensures key(r[i]) != key(r[j]) {
        if i > 0 {
          assert r[i] == r[1..][i - 1] && r[j] == r[1..][j - 1];
        }
      }
    } else {
      SubsequenceKeepsDistinct(r, s[1..], key);
    }
  }

  /** Filtering by key yields a subsequence: the kept elements stay in their
      original relative order. */
  lemma {:induction false} WithoutKeyIsSubsequence<T, K>(s: seq<T>, key: T -> K, k: K)
    ensures IsSubsequence(WithoutKey(s, key, k), s)
  {
    if s != [] {
      WithoutKeyIsSubsequence(s[1..], key, k);
      var r := WithoutKey(s, key, k);
      if key(s[0]) != k {
        assert r[0] == s[0] && r[1..] == WithoutKey(s[1..], key, k);
      }
    }
  }

  /** Filtering keeps every other element exactly as often as `s` holds it,
      and no element with key `k`. */
  lemma {:induction false} WithoutKeyMultiset<T, K>(s: seq<T>, key: T -> K, k: K, x: T)
    ensures multiset(WithoutKey(s, key, k))[x] == if key(x) == k then 0 else multiset(s)[x]
  {
    if s != [] {
      WithoutKeyMultiset(s[1..], key, k, x);
      assert s == [s[0]] + s[1..];
    }
  }

  /** The filter is the only subsequence of `s` without key `k` that keeps
      every other element as often as `s` holds it: "exactly the matching
      entries are removed, the rest keep their order". */
  lemma {:induction false} WithoutKeyUnique<T, K>(s: seq<T>, key: T -> K, k: K, r: seq<T>)
    requires IsSubsequence(r, s)
    requires forall x :: x in r ==> key(x) != k
    requires forall x :: key(x) != k ==> multiset(r)[x] == multiset(s)[x]
    ensures r == WithoutKey(s, key, k)
    decreases |s|
  {
    if s == [] {
    } else {
      var x, t := s[0], s[1..];
      assert s == [x] + t;
      if key(x) == k {
        assert r == [] || r[0] != x by {
          if r != [] { assert r[0] in r; }
        }
        assert IsSubsequence(r, t);
        WithoutKeyUnique(t, key, k, r);
      } else if r != [] && r[0] == x && IsSubsequence(r[1..], t) {
        assert r == [x] + r[1..];
        forall y | y in r[1..] ensures key(y) != k {
          assert y in r;
        }
        WithoutKeyUnique(t, key, k, r[1..]);
      } else {
        assert multiset(r)[x] == multiset(s)[x];
        assert IsSubsequence(r, t);
        SubsequenceMultiset(r, t);
        assert false;
      }
    }
  }

  /** With no element keyed `k`, filtering changes nothing. */
  lemma {:induction false} WithoutKeyAbsent<T, K>(s: seq<T>, key: T -> K, k: K)
    requires !HasKey(s, key, k)
    ensures WithoutKey(s, key, k) == s
  {
    if s != [] {
      assert key(s[0]) != k;
      forall i | 0 <= i < |s[1..]| ensures key(s[1..][i]) != k {
        assert s[1..][i] == s[1 + i];
      }
      WithoutKeyAbsent(s[1..], key, k);
      assert s == [s[0]] + s[1..];
    }
  }

  /** Filtering twice by the same key is filtering once. */
  lemma {:induction false} WithoutKeyIdempotent<T, K>(s: seq<T>, key: T -> K, k: K)
    ensures WithoutKey(WithoutKey(s, key, k), key, k) == WithoutKey(s, key, k)
  {
    var r := WithoutKey(s, key, k);
    forall i | 0 <= i < |r| ensures key(r[i]) != k {
      assert r[i] in r;
    }
    WithoutKeyAbsent(r, key, k);
  }

  /** Filtering keeps distinct keys distinct. */
  lemma {:induction false} WithoutKeyDistinct<T, K>(s: seq<T>, key: T -> K, k: K)
    requires DistinctKeys(s, key)
    ensures DistinctKeys(WithoutKey(s, key, k), key)
  {
    WithoutKeyIsSubsequence(s, key, k);
    SubsequenceKeepsDistinct(WithoutKey(s, key, k), s, key);
  }

  /** With distinct keys, filtering removes one element when `k` occurs and
      none otherwise. */
  lemma {:induction false} WithoutKeyLength<T, K>(s: seq<T>, key: T -> K, k: K)
    requires DistinctKeys(s, key)
    ensures |WithoutKey(s, key, k)| == if HasKey(s, key, k) then |s| - 1 else |s|
  {
    if s == [] {
    } else {
      var t := s[1..];
      assert DistinctKeys(t, key) by {
        forall i, j | 0 <= i < j < |t| ensures key(t[i]) != key(t[j]) {
          assert t[i] == s[i + 1] && t[j] == s[j + 1];
        }
      }
      if key(s[0]) == k {
        forall i | 0 <= i < |t| ensures key(t[i]) != k {
          assert t[i] == s[i + 1];
        }
        WithoutKeyAbsent(t, key, k);
        assert HasKey(s, key, k) by { assert key(s[0]) == k; }
      } else {
        WithoutKeyLength(t, key, k);
        assert HasKey(s, key, k) == HasKey(t, key, k) by {
          if HasKey(s, key, k) {
            var i :| 0 <= i < |s| && key(s[i]) == k;
            assert i > 0 && t[i - 1] == s[i];
          }
          if HasKey(t, key, k) {
            var i :| 0 <= i < |t| && key(t[i]) == k;
            assert s[i + 1] == t[i];
          }
        }
      }
    }
  }
}
