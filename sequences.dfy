/** Sequence operations the source performs with slices and comprehensions: reversal
    (`xs[::-1]`) and "keep the first element of each key" deduplication, which the ledger
    applies with the (experiment, version) key and the listing with the run tag. */
module Sequences {
  import opened Outcomes

  function Reverse<T>(s: seq<T>): (r: seq<T>)
    ensures |r| == |s|
    ensures forall k :: 0 <= k < |s| ==> r[k] == s[|s| - 1 - k]
  {
    if s == [] then [] else Reverse(s[1..]) + [s[0]]
  }

  /** The keys that occur in `s`. */
  function KeysOf<T(==), K>(s: seq<T>, key: T -> K): set<K> {
    set x | x in s :: key(x)
  }

  /** No two elements of `s` share a key. */
  predicate DistinctBy<T, K(==)>(s: seq<T>, key: T -> K) {
    forall i, j :: 0 <= i < j < |s| ==> key(s[i]) != key(s[j])
  }

  /** `a` is `b` with some elements left out, the rest in their original order. */
  predicate IsSubsequence<T(==)>(a: seq<T>, b: seq<T>)
    decreases |b|
  {
    if a == [] then true
    else if b == [] then false
    else (a[|a| - 1] == b[|b| - 1] && IsSubsequence(a[..|a| - 1], b[..|b| - 1]))
         || IsSubsequence(a, b[..|b| - 1])
  }

  /** The first element of `s` whose key is `k`. */
  function FirstWith<T(==), K(==)>(s: seq<T>, key: T -> K, k: K): (r: Option<T>)
    ensures r.None? <==> k !in KeysOf(s, key)
    ensures r.Some? ==> exists i :: 0 <= i < |s| && s[i] == r.value && key(s[i]) == k
                                   && forall j :: 0 <= j < i ==> key(s[j]) != k
  {
    if s == [] then None
    else if key(s[0]) == k then
      Some(s[0])
    else
      var r := FirstWith(s[1..], key, k);
      assert KeysOf(s, key) == {key(s[0])} + KeysOf(s[1..], key) by {
        assert s == [s[0]] + s[1..];
      }
      if r.Some? then
        var i :| 0 <= i < |s[1..]| && s[1..][i] == r.value && key(s[1..][i]) == k
                 && forall j :: 0 <= j < i ==> key(s[1..][j]) != k;
        assert s[i + 1] == r.value && forall j :: 0 <= j < i + 1 ==> key(s[j]) != k;
        r
      else r
  }

  /** Keeps, for every key, the first element that carries it (a filter over a `seen` set). */
  function DedupBy<T(==), K(==)>(s: seq<T>, key: T -> K): (r: seq<T>)
    ensures |r| <= |s|
    ensures forall x :: x in r ==> x in s
  {
    if s == [] then []
    else
      var init := s[..|s| - 1];
      if key(s[|s| - 1]) in KeysOf(init, key) then DedupBy(init, key)
      else DedupBy(init, key) + [s[|s| - 1]]
  }

  lemma KeysOfAppend<T, K>(s: seq<T>, x: T, key: T -> K)
    ensures KeysOf(s + [x], key) == KeysOf(s, key) + {key(x)}
  {
    var l, r := KeysOf(s + [x], key), KeysOf(s, key) + {key(x)};
    forall k | k in l ensures k in r {
      var y :| y in s + [x] && key(y) == k;
      if y != x { assert y in s; }
    }
    forall k | k in r ensures k in l {
      if k != key(x) {
        var y :| y in s && key(y) == k;
        assert y in s + [x];
      } else {
        assert x in s + [x];
      }
    }
  }

  lemma KeysOfPrepend<T, K>(x: T, s: seq<T>, key: T -> K)
    ensures KeysOf([x] + s, key) == {key(x)} + KeysOf(s, key)
  {
    var l, r := KeysOf([x] + s, key), {key(x)} + KeysOf(s, key);
    forall k | k in l ensures k in r {
      var y :| y in [x] + s && key(y) == k;
      if y != x { assert y in s; }
    }
    forall k | k in r ensures k in l {
      if k != key(x) {
        var y :| y in s && key(y) == k;
        assert y in [x] + s;
      } else {
        assert x in [x] + s;
      }
    }
  }

  /** One more element of a prefix: deduplication keeps it exactly when its key is new. */
  lemma DedupPrefixStep<T, K>(s: seq<T>, i: nat, key: T -> K)
    requires i < |s|
    ensures DedupBy(s[..i + 1], key) ==
            if key(s[i]) in KeysOf(s[..i], key) then DedupBy(s[..i], key) else DedupBy(s[..i], key) + [s[i]]
    ensures KeysOf(s[..i + 1], key) == KeysOf(s[..i], key) + {key(s[i])}
  {
    assert s[..i + 1][..i] == s[..i];
    KeysOfAppend(s[..i], s[i], key);
    assert s[..i + 1] == s[..i] + [s[i]];
  }

  /** Deduplication loses no key. */
  lemma {:induction false} DedupKeys<T, K>(s: seq<T>, key: T -> K)
    ensures KeysOf(DedupBy(s, key), key) == KeysOf(s, key)
  {
    if s != [] {
      var init, x := s[..|s| - 1], s[|s| - 1];
      assert s == init + [x];
      DedupKeys(init, key);
      KeysOfAppend(init, x, key);
      if key(x) !in KeysOf(init, key) {
        KeysOfAppend(DedupBy(init, key), x, key);
      }
    }
  }

  /** After deduplication no two elements share a key. */
  lemma {:induction false} DedupDistinct<T, K>(s: seq<T>, key: T -> K)
    ensures DistinctBy(DedupBy(s, key), key)
  {
    if s != [] {
      var init, x := s[..|s| - 1], s[|s| - 1];
      DedupDistinct(init, key);
      if key(x) !in KeysOf(init, key) {
        var d := DedupBy(init, key);
        DedupKeys(init, key);
        forall i | 0 <= i < |d| ensures key(d[i]) != key(x) {
          assert d[i] in d;
        }
      }
    }
  }

  /** Deduplication keeps the surviving elements in their original order. */
  lemma {:induction false} DedupSubsequence<T, K>(s: seq<T>, key: T -> K)
    ensures IsSubsequence(DedupBy(s, key), s)
  {
    if s != [] {
      var init, x := s[..|s| - 1], s[|s| - 1];
      DedupSubsequence(init, key);
      var d := DedupBy(s, key);
      if key(x) in KeysOf(init, key) {
        if d != [] {
          assert IsSubsequence(d, s[..|s| - 1]);
        }
      } else {
        assert d[..|d| - 1] == DedupBy(init, key);
      }
    }
  }

  /** A subsequence of a subsequence of `c` is a subsequence of `c`. */
  lemma {:induction false} SubsequenceTransitive<T>(a: seq<T>, b: seq<T>, c: seq<T>)
    requires IsSubsequence(a, b) && IsSubsequence(b, c)
    ensures IsSubsequence(a, c)
    decreases |c|
  {
    if a != [] {
      var b', c' := b[..|b| - 1], c[..|c| - 1];
      if IsSubsequence(b, c') {
        SubsequenceTransitive(a, b, c');
      } else if a[|a| - 1] == b[|b| - 1] && IsSubsequence(a[..|a| - 1], b') {
        SubsequenceTransitive(a[..|a| - 1], b', c');
      } else {
        SubsequenceTransitive(a, b', c');
      }
    }
  }

  /** Every element of a subsequence is an element of the whole. */
  lemma {:induction false} SubsequenceMembers<T>(a: seq<T>, b: seq<T>)
    requires IsSubsequence(a, b)
    ensures forall x :: x in a ==> x in b
    decreases |b|
  {
    if a != [] {
      var b' := b[..|b| - 1];
      if a[|a| - 1] == b[|b| - 1] && IsSubsequence(a[..|a| - 1], b') {
        SubsequenceMembers(a[..|a| - 1], b');
        forall x | x in a ensures x in b {
          if x != a[|a| - 1] {
            assert x in a[..|a| - 1] by { assert a == a[..|a| - 1] + [a[|a| - 1]]; }
            assert x in b';
          }
        }
      } else {
        SubsequenceMembers(a, b');
        forall x | x in a ensures x in b { assert x in b'; }
      }
    }
  }

  lemma {:induction false} FirstWithAppend<T, K>(s: seq<T>, x: T, key: T -> K, k: K)
    ensures FirstWith(s + [x], key, k) ==
            if FirstWith(s, key, k).Some? then FirstWith(s, key, k)
            else if key(x) == k then Some(x) else None
  {
    if s != [] {
      assert (s + [x])[1..] == s[1..] + [x];
      FirstWithAppend(s[1..], x, key, k);
    }
  }

  /** Looking a key up in the deduplicated sequence finds what it finds in the original:
      the first element carrying that key is the one that was kept. */
  lemma {:induction false} DedupKeepsFirst<T, K>(s: seq<T>, key: T -> K, k: K)
    ensures FirstWith(DedupBy(s, key), key, k) == FirstWith(s, key, k)
  {
    if s != [] {
      var init, x := s[..|s| - 1], s[|s| - 1];
      assert s == init + [x];
      DedupKeepsFirst(init, key, k);
      FirstWithAppend(init, x, key, k);
      if key(x) !in KeysOf(init, key) {
        FirstWithAppend(DedupBy(init, key), x, key, k);
      } else if key(x) == k {
        assert FirstWith(init, key, k).Some?;
      }
    }
  }

  /** A sequence whose keys are already distinct is left as it is. */
  lemma {:induction false} DedupOfDistinct<T, K>(s: seq<T>, key: T -> K)
    requires DistinctBy(s, key)
    ensures DedupBy(s, key) == s
  {
    if s != [] {
      var init, x := s[..|s| - 1], s[|s| - 1];
      assert DistinctBy(init, key);
      DedupOfDistinct(init, key);
      assert key(x) !in KeysOf(init, key);
      assert s == init + [x];
    }
  }

  /** The first element always survives deduplication, at the front. */
  lemma {:induction false} DedupHead<T, K>(s: seq<T>, key: T -> K)
    requires s != []
    ensures DedupBy(s, key) != [] && DedupBy(s, key)[0] == s[0]
  {
    var init := s[..|s| - 1];
    if init != [] {
      DedupHead(init, key);
    }
  }

  /** Deduplicating twice is deduplicating once. */
  lemma DedupIdempotent<T, K>(s: seq<T>, key: T -> K)
    ensures DedupBy(DedupBy(s, key), key) == DedupBy(s, key)
  {
    DedupDistinct(s, key);
    DedupOfDistinct(DedupBy(s, key), key);
  }
}
