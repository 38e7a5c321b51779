/** A stable sort by a real-valued key, as Python's `sorted(xs, key=...)` and
    `list.sort(key=...)` perform it. The sort is described on positions: the stable order of
    `keys` lists the positions 0..|keys|-1 by ascending key, equal keys in position order. */
module Sorting {

  /** Position `j` is placed before position `i`: smaller key, or equal key and earlier. */
  predicate Before(keys: seq<real>, j: nat, i: nat)
    requires j < |keys| && i < |keys|
  {
    keys[j] < keys[i] || (keys[j] == keys[i] && j < i)
  }

  /** `order` lists positions of `keys` strictly in `Before` order. */
  predicate Sorted(keys: seq<real>, order: seq<nat>) {
    (forall p :: 0 <= p < |order| ==> order[p] < |keys|)
    && (forall p, q :: 0 <= p < q < |order| ==> Before(keys, order[p], order[q]))
  }

  /** `order` is a permutation of 0..|keys|-1 listed in stable ascending order. */
  predicate IsStableOrder(keys: seq<real>, order: seq<nat>) {
    |order| == |keys|
    && Sorted(keys, order)
    && (forall i :: 0 <= i < |keys| ==> i in order)
  }

  function Insert(keys: seq<real>, sorted: seq<nat>, i: nat): (r: seq<nat>)
    requires i < |keys| && i !in sorted && Sorted(keys, sorted)
    ensures |r| == |sorted| + 1
    ensures forall x :: x in r <==> x in sorted || x == i
    ensures Sorted(keys, r)
  {
    if sorted == [] then [i]
    else if Before(keys, i, sorted[0]) then
      InsertFront(keys, sorted, i);
      [i] + sorted
    else
      InsertBehind(keys, sorted, i, Insert(keys, sorted[1..], i));
      [sorted[0]] + Insert(keys, sorted[1..], i)
  }

  lemma InsertFront(keys: seq<real>, sorted: seq<nat>, i: nat)
    requires i < |keys| && sorted != [] && Sorted(keys, sorted) && Before(keys, i, sorted[0])
    ensures Sorted(keys, [i] + sorted)
  {
    var r := [i] + sorted;
    forall p, q | 0 <= p < q < |r| ensures Before(keys, r[p], r[q]) {
      assert r[q] == sorted[q - 1];
      if p > 0 { assert r[p] == sorted[p - 1]; }
      else if q > 1 { assert Before(keys, sorted[0], sorted[q - 1]); }
    }
  }

  lemma InsertBehind(keys: seq<real>, sorted: seq<nat>, i: nat, rest: seq<nat>)
    requires i < |keys| && i !in sorted && sorted != [] && Sorted(keys, sorted) && !Before(keys, i, sorted[0])
    requires Sorted(keys, rest) && forall x :: x in rest <==> x in sorted[1..] || x == i
    ensures Sorted(keys, [sorted[0]] + rest)
    ensures forall x :: x in [sorted[0]] + rest <==> x in sorted || x == i
  {
    var r := [sorted[0]] + rest;
    assert sorted == [sorted[0]] + sorted[1..];
    assert i != sorted[0];
    forall p, q | 0 <= p < q < |r| ensures Before(keys, r[p], r[q]) {
      assert r[q] == rest[q - 1] && r[q] in rest;
      if p > 0 {
        assert r[p] == rest[p - 1];
      } else if r[q] != i {
        var k :| 0 <= k < |sorted[1..]| && sorted[1..][k] == r[q];
        assert sorted[k + 1] == r[q];
      }
    }
  }

  /** The stable order of the first `n` positions. */
  function StableOrderOf(keys: seq<real>, n: nat): (order: seq<nat>)
    requires n <= |keys|
    ensures |order| == n && Sorted(keys, order)
    ensures forall x: nat :: x in order <==> x < n
  {
    if n == 0 then [] else Insert(keys, StableOrderOf(keys, n - 1), n - 1)
  }

  /** The positions of `keys` as a stable sort by key lists them. */
  function StableOrder(keys: seq<real>): (order: seq<nat>)
    ensures IsStableOrder(keys, order)
  {
    StableOrderOf(keys, |keys|)
  }

  /** The position at which `x` occurs in `s`. */
  function IndexOf(s: seq<nat>, x: nat): (p: nat)
    requires x in s
    ensures p < |s| && s[p] == x
    ensures forall q :: 0 <= q < p ==> s[q] != x
  {
    if s[0] == x then 0 else 1 + IndexOf(s[1..], x)
  }

  /** A stable order never lists a position twice. */
  lemma StableOrderInjective(keys: seq<real>, order: seq<nat>, p: nat, q: nat)
    requires IsStableOrder(keys, order) && p < |order| && q < |order| && p != q
    ensures order[p] != order[q]
  {
    if p < q { assert Before(keys, order[p], order[q]); }
    else { assert Before(keys, order[q], order[p]); }
  }

  /** Along a stable order keys never decrease, and equal keys keep their original order. */
  lemma {:induction false} StableOrderAscending(keys: seq<real>, p: nat, q: nat)
    requires p < q < |keys|
    ensures var order := StableOrder(keys);
            keys[order[p]] <= keys[order[q]]
            && (keys[order[p]] == keys[order[q]] ==> order[p] < order[q])
  {
    var order := StableOrder(keys);
    assert Before(keys, order[p], order[q]);
  }

  /** An earlier place in the stable order holds a position that sorts before. */
  lemma StableOrderBefore(keys: seq<real>, p: nat, q: nat)
    requires p < |keys| && q < |keys|
    ensures var order := StableOrder(keys);
            p < q ==> Before(keys, order[p], order[q])
  {
  }

  /** The elements of `s` rearranged into the order of `order`. */
  function Permuted<T>(s: seq<T>, order: seq<nat>): (r: seq<T>)
    requires forall p :: 0 <= p < |order| ==> order[p] < |s|
    ensures |r| == |order| && forall p :: 0 <= p < |order| ==> r[p] == s[order[p]]
  {
    seq(|order|, p requires 0 <= p < |order| => s[order[p]])
  }

  /** `order` names every position below `n` exactly once. */
  predicate IsPositionList(order: seq<nat>, n: nat) {
    |order| == n
    && (forall p :: 0 <= p < |order| ==> order[p] < n)
    && (forall p, q :: 0 <= p < q < |order| ==> order[p] != order[q])
    && (forall i :: 0 <= i < n ==> i in order)
  }

  /** Dropping the entry that names the last position leaves a list of the others. */
  lemma DropLastPosition(order: seq<nat>, n: nat, p: nat)
    requires IsPositionList(order, n + 1) && p < |order| && order[p] == n
    ensures IsPositionList(order[..p] + order[p + 1..], n)
  {
    DropBounds(order, n, p);
    DropDistinct(order, n, p);
    DropCovers(order, n, p);
  }

  lemma DropBounds(order: seq<nat>, n: nat, p: nat)
    requires IsPositionList(order, n + 1) && p < |order| && order[p] == n
    ensures var rest := order[..p] + order[p + 1..];
            |rest| == n && forall q :: 0 <= q < |rest| ==> rest[q] < n
  {
    var rest := order[..p] + order[p + 1..];
    forall q | 0 <= q < |rest| ensures rest[q] < n {
      if q < p {
        assert rest[q] == order[q] && order[q] != order[p];
      } else {
        assert rest[q] == order[q + 1] && order[q + 1] != order[p];
      }
    }
  }

  lemma DropDistinct(order: seq<nat>, n: nat, p: nat)
    requires IsPositionList(order, n + 1) && p < |order| && order[p] == n
    ensures var rest := order[..p] + order[p + 1..];
            forall q, q' :: 0 <= q < q' < |rest| ==> rest[q] != rest[q']
  {
    var rest := order[..p] + order[p + 1..];
    forall q, q' | 0 <= q < q' < |rest| ensures rest[q] != rest[q'] {
      var a := if q < p then q else q + 1;
      var b := if q' < p then q' else q' + 1;
      assert a < b && rest[q] == order[a] && rest[q'] == order[b];
    }
  }

  lemma DropCovers(order: seq<nat>, n: nat, p: nat)
    requires IsPositionList(order, n + 1) && p < |order| && order[p] == n
    ensures var rest := order[..p] + order[p + 1..];
            forall i :: 0 <= i < n ==> i in rest
  {
    var rest := order[..p] + order[p + 1..];
    forall i | 0 <= i < n ensures i in rest {
      assert i in order;
      var q := IndexOf(order, i);
      if q < p { assert rest[q] == i; } else { assert q != p && rest[q - 1] == i; }
    }
  }

  lemma PermutedSplice<T>(s: seq<T>, order: seq<nat>, p: nat)
    requires s != [] && IsPositionList(order, |s|) && p < |order| && order[p] == |s| - 1
    requires IsPositionList(order[..p] + order[p + 1..], |s| - 1)
    ensures var r' := Permuted(s[..|s| - 1], order[..p] + order[p + 1..]);
            Permuted(s, order) == r'[..p] + [s[|s| - 1]] + r'[p..]
  {
  }

  lemma MultisetSplice<T>(r: seq<T>, r': seq<T>, p: nat, x: T)
    requires p <= |r'| && r == r'[..p] + [x] + r'[p..]
    ensures multiset(r) == multiset(r') + multiset{x}
  {
    assert r' == r'[..p] + r'[p..];
  }

  /** Rearranging by a list of positions that names every position once loses and adds
      nothing. */
  lemma {:induction false} PermutedMultiset<T>(s: seq<T>, order: seq<nat>)
    requires IsPositionList(order, |s|)
    ensures multiset(Permuted(s, order)) == multiset(s)
    decreases |s|
  {
    if s != [] {
      var n := |s| - 1;
      var rest := DropLast(s, order);
      PermutedMultiset(s[..n], rest);
      assert s == s[..n] + [s[n]];
    }
  }

  /** Removes the entry naming the last position; rearranging by what is left differs by
      that one element. */
  lemma DropLast<T>(s: seq<T>, order: seq<nat>) returns (rest: seq<nat>)
    requires s != [] && IsPositionList(order, |s|)
    ensures IsPositionList(rest, |s| - 1)
    ensures multiset(Permuted(s, order)) == multiset(Permuted(s[..|s| - 1], rest)) + multiset{s[|s| - 1]}
  {
    var n := |s| - 1;
    assert n in order;
    var p := IndexOf(order, n);
    rest := order[..p] + order[p + 1..];
    DropLastPosition(order, n, p);
    PermutedSplice(s, order, p);
    MultisetSplice(Permuted(s, order), Permuted(s[..n], rest), p, s[n]);
  }

  /** Rearranging by the stable order of keys is a permutation. */
  lemma StableOrderPermutes<T>(s: seq<T>, keys: seq<real>)
    requires |keys| == |s|
    ensures multiset(Permuted(s, StableOrder(keys))) == multiset(s)
  {
    var order := StableOrder(keys);
    forall p, q | 0 <= p < q < |order| ensures order[p] != order[q] {
      StableOrderInjective(keys, order, p, q);
    }
    assert IsPositionList(order, |s|);
    PermutedMultiset(s, order);
  }

  /** The keys with their signs flipped: ascending in them is descending in `keys`. */
  function Negated(keys: seq<real>): (r: seq<real>)
    ensures |r| == |keys| && forall i :: 0 <= i < |keys| ==> r[i] == -keys[i]
  {
    seq(|keys|, i requires 0 <= i < |keys| => -keys[i])
  }
}
