/**
 * The list representation of a node's children (`Children::Few`): a vector
 * of (key, child) pairs, scanned linearly for a key, to which a new child is
 * pushed and which is then re-sorted with the standard library's stable
 * `sort_by`. Static children are ordered by descending priority, parameter
 * children by parameter type; both comparators compare an integer key of the
 * child, so the sort is modelled once, as a stable sort by an integer key.
 */
module Children {
  import opened Wrappers

  /** No two pairs share a key. */
  ghost predicate KeysDistinct<K, V>(cs: seq<(K, V)>) {
    forall i, j :: 0 <= i < j < |cs| ==> cs[i].0 != cs[j].0
  }

  /** The linear scan of `find` and `find_mut`: where the first pair with key `k` is. */
  function FirstKeyIndex<K(==), V>(cs: seq<(K, V)>, k: K): (r: Option<nat>)
    ensures r.Some? ==> r.value < |cs| && cs[r.value].0 == k
    ensures r.Some? ==> forall j :: 0 <= j < r.value ==> cs[j].0 != k
    ensures r.None? <==> forall j :: 0 <= j < |cs| ==> cs[j].0 != k
  {
    if |cs| == 0 then None
    else if cs[0].0 == k then Some(0)
    else
      match FirstKeyIndex(cs[1..], k)
      case None => None
      case Some(i) => Some(i + 1)
  }

  /** `find_mut`: the loop over the pairs that stops at the first matching key. */
  method FindMut<K(==), V>(cs: seq<(K, V)>, k: K) returns (r: Option<nat>)
    ensures r == FirstKeyIndex(cs, k)
  {
    var i := 0;
    while i < |cs|
      invariant 0 <= i <= |cs|
      invariant forall j :: 0 <= j < i ==> cs[j].0 != k
    {
      if cs[i].0 == k {
        return Some(i);
      }
      i := i + 1;
    }
    return None;
  }

  /** With distinct keys, a pair present in the list is the one its key finds. */
  lemma FirstKeyIndexOfMember<K, V>(cs: seq<(K, V)>, x: (K, V))
    requires KeysDistinct(cs) && x in cs
    ensures FirstKeyIndex(cs, x.0).Some? && cs[FirstKeyIndex(cs, x.0).value] == x
  {
    var i :| 0 <= i < |cs| && cs[i] == x;
    var r := FirstKeyIndex(cs, x.0);
    assert r.Some?;
  }

  /** Replacing a child in place keeps every key where it was. */
  lemma FirstKeyIndexReplace<K, V>(cs: seq<(K, V)>, i: nat, v: V, k: K)
    requires i < |cs|
    ensures FirstKeyIndex(cs[i := (cs[i].0, v)], k) == FirstKeyIndex(cs, k)
  {
    var cs' := cs[i := (cs[i].0, v)];
    assert forall m :: 0 <= m < |cs| ==> cs'[m].0 == cs[m].0;
  }

  /** Every key is at most the next one's (the order `sort_by` establishes). */
  ghost predicate SortedByKey<K, V>(s: seq<(K, V)>, key: V -> int) {
    forall i, j :: 0 <= i < j < |s| ==> key(s[i].1) <= key(s[j].1)
  }

  /** Where `x` goes in a sorted list: after every pair whose key is not larger. */
  function InsertPos<K, V>(sorted: seq<(K, V)>, x: (K, V), key: V -> int): (p: nat)
    ensures p <= |sorted|
  {
    if sorted == [] || key(x.1) < key(sorted[0].1) then 0
    else 1 + InsertPos(sorted[1..], x, key)
  }

  /** One step of the stable insertion sort. */
  function InsertByKey<K, V>(sorted: seq<(K, V)>, x: (K, V), key: V -> int): seq<(K, V)> {
    if sorted == [] || key(x.1) < key(sorted[0].1) then [x] + sorted
    else [sorted[0]] + InsertByKey(sorted[1..], x, key)
  }

  /**
   * A stable sort by `key`: elements with equal keys keep their order. This is
   * what `<[T]>::sort_by` guarantees; the model fixes insertion sort as the
   * algorithm, which is observably the same for a stable sort.
   */
  function SortByKey<K, V>(s: seq<(K, V)>, key: V -> int): seq<(K, V)> {
    if s == [] then [] else InsertByKey(SortByKey(s[..|s| - 1], key), s[|s| - 1], key)
  }

  /** `v.push(x); v.sort_by(..)`. */
  function PushSorted<K, V>(cs: seq<(K, V)>, x: (K, V), key: V -> int): seq<(K, V)> {
    SortByKey(cs + [x], key)
  }

  /** The pairs of `s` whose key is `c`, in their order in `s`. */
  function KeyClass<K, V>(s: seq<(K, V)>, key: V -> int, c: int): seq<(K, V)> {
    if s == [] then []
    else (if key(s[0].1) == c then [s[0]] else []) + KeyClass(s[1..], key, c)
  }

  /** Insertion puts `x` at `InsertPos`, after every pair whose key is not larger. */
  lemma {:induction false} InsertShape<K, V>(sorted: seq<(K, V)>, x: (K, V), key: V -> int)
    ensures var p := InsertPos(sorted, x, key);
      InsertByKey(sorted, x, key) == sorted[..p] + [x] + sorted[p..]
      && (forall j :: 0 <= j < p ==> key(sorted[j].1) <= key(x.1))
  {
    if sorted != [] && key(x.1) >= key(sorted[0].1) {
      InsertShape(sorted[1..], x, key);
      var p := InsertPos(sorted[1..], x, key);
      assert sorted[..p + 1] == [sorted[0]] + sorted[1..][..p];
      assert sorted[p + 1..] == sorted[1..][p..];
    }
  }

  /** In a sorted list, every pair from `InsertPos` on has a larger key than `x`. */
  lemma {:induction false} InsertPosBefore<K, V>(sorted: seq<(K, V)>, x: (K, V), key: V -> int)
    requires SortedByKey(sorted, key)
    ensures forall j :: InsertPos(sorted, x, key) <= j < |sorted| ==> key(x.1) < key(sorted[j].1)
  {
    if sorted != [] && key(x.1) >= key(sorted[0].1) {
      InsertPosBefore(sorted[1..], x, key);
      forall j | InsertPos(sorted, x, key) <= j < |sorted| ensures key(x.1) < key(sorted[j].1) {
        assert sorted[j] == sorted[1..][j - 1];
      }
    }
  }

  lemma InsertSorted<K, V>(sorted: seq<(K, V)>, x: (K, V), key: V -> int)
    requires SortedByKey(sorted, key)
    ensures SortedByKey(InsertByKey(sorted, x, key), key)
  {
    InsertShape(sorted, x, key);
    InsertPosBefore(sorted, x, key);
    var p := InsertPos(sorted, x, key);
    var r := InsertByKey(sorted, x, key);
    assert |r| == |sorted| + 1;
    forall i, j | 0 <= i < j < |r| ensures key(r[i].1) <= key(r[j].1) {
      InsertedPair(sorted, x, key, p, i, j);
    }
  }

  /** One pair of positions of the list `InsertShape` describes. */
  lemma InsertedPair<K, V>(sorted: seq<(K, V)>, x: (K, V), key: V -> int, p: nat, i: nat, j: nat)
    requires SortedByKey(sorted, key) && p <= |sorted| && i < j <= |sorted|
    requires forall k :: 0 <= k < p ==> key(sorted[k].1) <= key(x.1)
    requires forall k :: p <= k < |sorted| ==> key(x.1) < key(sorted[k].1)
    ensures var r := sorted[..p] + [x] + sorted[p..]; key(r[i].1) <= key(r[j].1)
  {
    var r := sorted[..p] + [x] + sorted[p..];
    if j < p {
      assert r[i] == sorted[i] && r[j] == sorted[j];
    } else if j == p {
      assert r[i] == sorted[i] && r[j] == x;
    } else if i < p {
      assert r[i] == sorted[i] && r[j] == sorted[j - 1];
    } else if i == p {
      assert r[i] == x && r[j] == sorted[j - 1];
    } else {
      assert r[i] == sorted[i - 1] && r[j] == sorted[j - 1];
    }
  }

  /** The sort's result is ordered by key. */
  lemma {:induction false} SortSorted<K, V>(s: seq<(K, V)>, key: V -> int)
    ensures SortedByKey(SortByKey(s, key), key)
  {
    if s != [] {
      SortSorted(s[..|s| - 1], key);
      InsertSorted(SortByKey(s[..|s| - 1], key), s[|s| - 1], key);
    }
  }

  /** One insertion step adds exactly `x`. */
  lemma {:induction false} InsertPermutes<K, V>(sorted: seq<(K, V)>, x: (K, V), key: V -> int)
    ensures multiset(InsertByKey(sorted, x, key)) == multiset(sorted) + multiset{x}
    ensures |InsertByKey(sorted, x, key)| == |sorted| + 1
  {
    if sorted != [] && key(x.1) >= key(sorted[0].1) {
      InsertPermutes(sorted[1..], x, key);
      assert sorted == [sorted[0]] + sorted[1..];
    }
  }

  /** The sort's result is a permutation of its input. */
  lemma {:induction false} SortPermutes<K, V>(s: seq<(K, V)>, key: V -> int)
    ensures multiset(SortByKey(s, key)) == multiset(s)
    ensures |SortByKey(s, key)| == |s|
  {
    if s != [] {
      var pre := s[..|s| - 1];
      SortPermutes(pre, key);
      InsertPermutes(SortByKey(pre, key), s[|s| - 1], key);
      assert s == pre + [s[|s| - 1]];
    }
  }

  lemma {:induction false} KeyClassAppend<K, V>(a: seq<(K, V)>, b: seq<(K, V)>, key: V -> int, c: int)
    ensures KeyClass(a + b, key, c) == KeyClass(a, key, c) + KeyClass(b, key, c)
  {
    if a == [] {
      assert a + b == b;
    } else {
      assert (a + b)[0] == a[0];
      assert (a + b)[1..] == a[1..] + b;
      KeyClassAppend(a[1..], b, key, c);
      var h := if key(a[0].1) == c then [a[0]] else [];
      assert KeyClass(a + b, key, c) == h + KeyClass(a[1..] + b, key, c);
    }
  }

  lemma {:induction false} KeyClassNone<K, V>(s: seq<(K, V)>, key: V -> int, c: int)
    requires forall j :: 0 <= j < |s| ==> key(s[j].1) != c
    ensures KeyClass(s, key, c) == []
  {
    if s != [] {
      KeyClassNone(s[1..], key, c);
    }
  }

  lemma InsertStable<K, V>(sorted: seq<(K, V)>, x: (K, V), key: V -> int, c: int)
    requires SortedByKey(sorted, key)
    ensures KeyClass(InsertByKey(sorted, x, key), key, c)
         == KeyClass(sorted, key, c) + KeyClass([x], key, c)
  {
    InsertShape(sorted, x, key);
    InsertPosBefore(sorted, x, key);
    var p := InsertPos(sorted, x, key);
    var a, b := sorted[..p], sorted[p..];
    assert sorted == a + b;
    if key(x.1) == c {
      assert forall j :: 0 <= j < |b| ==> b[j] == sorted[p + j];
      KeyClassNone(b, key, c);
    }
    ClassAroundInsert(a, b, x, key, c);
  }

  /** `x` placed before no pair of its own key is the last of its key class. */
  lemma ClassAroundInsert<K, V>(a: seq<(K, V)>, b: seq<(K, V)>, x: (K, V), key: V -> int, c: int)
    requires key(x.1) == c ==> KeyClass(b, key, c) == []
    ensures KeyClass(a + [x] + b, key, c) == KeyClass(a + b, key, c) + KeyClass([x], key, c)
  {
    var ka, kx, kb := KeyClass(a, key, c), KeyClass([x], key, c), KeyClass(b, key, c);
    KeyClassAppend(a + [x], b, key, c);
    KeyClassAppend(a, [x], key, c);
    KeyClassAppend(a, b, key, c);
    assert KeyClass(a + [x] + b, key, c) == ka + kx + kb;
    assert KeyClass(a + b, key, c) == ka + kb;
    if key(x.1) != c {
      assert kx == [] + KeyClass([x][1..], key, c);
    }
  }

  /** Stability: for every key value, the pairs with that key keep their relative order. */
  lemma {:induction false} SortStable<K, V>(s: seq<(K, V)>, key: V -> int, c: int)
    ensures KeyClass(SortByKey(s, key), key, c) == KeyClass(s, key, c)
  {
    if s != [] {
      var pre, last := s[..|s| - 1], s[|s| - 1];
      SortStable(pre, key, c);
      SortSorted(pre, key);
      InsertStable(SortByKey(pre, key), last, key, c);
      assert s == pre + [last];
      KeyClassAppend(pre, [last], key, c);
    }
  }

  lemma InsertKeepsDistinct<K, V>(t: seq<(K, V)>, p: nat, x: (K, V))
    requires p <= |t| && KeysDistinct(t)
    requires forall j :: 0 <= j < |t| ==> t[j].0 != x.0
    ensures KeysDistinct(t[..p] + [x] + t[p..])
  {
    var r := t[..p] + [x] + t[p..];
    forall i, j | 0 <= i < j < |r| ensures r[i].0 != r[j].0 {
      if i < p && j > p {
        assert r[i] == t[i] && r[j] == t[j - 1];
      } else if i > p {
        assert r[i] == t[i - 1] && r[j] == t[j - 1];
      }
    }
  }

  /** Sorting never makes two pairs share a key. */
  lemma {:induction false} SortKeepsDistinct<K, V>(s: seq<(K, V)>, key: V -> int)
    requires KeysDistinct(s)
    ensures KeysDistinct(SortByKey(s, key))
  {
    if s != [] {
      var pre, last := s[..|s| - 1], s[|s| - 1];
      var t := SortByKey(pre, key);
      SortKeepsDistinct(pre, key);
      SortPermutes(pre, key);
      forall j | 0 <= j < |t| ensures t[j].0 != last.0 {
        assert t[j] in multiset(pre);
        var i :| 0 <= i < |pre| && pre[i] == t[j];
      }
      InsertShape(t, last, key);
      InsertKeepsDistinct(t, InsertPos(t, last, key), last);
    }
  }

  /** Sorting a list already in key order leaves it as it is. */
  lemma {:induction false} SortOfSorted<K, V>(s: seq<(K, V)>, key: V -> int)
    requires SortedByKey(s, key)
    ensures SortByKey(s, key) == s
    decreases |s|
  {
    if s != [] {
      var init, last := s[..|s| - 1], s[|s| - 1];
      SortOfSorted(init, key);
      InsertShape(init, last, key);
      InsertPosBefore(init, last, key);
      var p := InsertPos(init, last, key);
      assert init[..p] + [last] + init[p..] == s;
    }
  }

  /**
   * `push` then `sort_by` of a pair whose key is not below any key of a
   * sorted list puts it last: ties keep their insertion order.
   */
  lemma PushSortedLast<K, V>(cs: seq<(K, V)>, x: (K, V), key: V -> int)
    requires SortedByKey(cs, key)
    requires forall j :: 0 <= j < |cs| ==> key(cs[j].1) <= key(x.1)
    ensures PushSorted(cs, x, key) == cs + [x]
  {
    SortOfSorted(cs + [x], key);
  }

  /**
   * After `push` of a pair with a new key and `sort_by`: the result is sorted,
   * is the old pairs plus the new one, keeps the keys distinct, and the new
   * key finds the new pair.
   */
  lemma PushSortedFacts<K, V>(cs: seq<(K, V)>, x: (K, V), key: V -> int)
    requires KeysDistinct(cs)
    requires forall j :: 0 <= j < |cs| ==> cs[j].0 != x.0
    ensures var r := PushSorted(cs, x, key);
      && SortedByKey(r, key)
      && multiset(r) == multiset(cs) + multiset{x}
      && |r| == |cs| + 1
      && KeysDistinct(r)
      && FirstKeyIndex(r, x.0).Some? && r[FirstKeyIndex(r, x.0).value] == x
  {
    var r := PushSorted(cs, x, key);
    SortSorted(cs + [x], key);
    SortPermutes(cs + [x], key);
    InsertKeepsDistinct(cs, |cs|, x);
    assert cs[..|cs|] + [x] + cs[|cs|..] == cs + [x];
    SortKeepsDistinct(cs + [x], key);
    assert x in multiset(r);
    FirstKeyIndexOfMember(r, x);
  }

  /** Every pair after `push` and `sort_by` is the pushed one or was there before. */
  lemma PushSortedMembers<K, V>(cs: seq<(K, V)>, x: (K, V), key: V -> int)
    ensures var r := PushSorted(cs, x, key);
      |r| == |cs| + 1 && forall k :: 0 <= k < |r| ==> r[k] == x || r[k] in cs
  {
    var r := PushSorted(cs, x, key);
    SortPermutes(cs + [x], key);
    forall k | 0 <= k < |r| ensures r[k] == x || r[k] in cs {
      assert r[k] in multiset(cs + [x]);
      assert r[k] in cs + [x];
    }
  }

  /**
   * After `push` of a pair with a new key and `sort_by`, every other key
   * finds the same pair as before, or nothing if it found nothing.
   */
  lemma PushSortedOtherKey<K, V>(cs: seq<(K, V)>, x: (K, V), key: V -> int, k: K)
    requires KeysDistinct(cs)
    requires forall j :: 0 <= j < |cs| ==> cs[j].0 != x.0
    requires k != x.0
    ensures var r := PushSorted(cs, x, key);
      && (FirstKeyIndex(r, k).None? <==> FirstKeyIndex(cs, k).None?)
      && (FirstKeyIndex(r, k).Some? ==> r[FirstKeyIndex(r, k).value] == cs[FirstKeyIndex(cs, k).value])
  {
    var r := PushSorted(cs, x, key);
    PushSortedFacts(cs, x, key);
    PushSortedMembers(cs, x, key);
    match FirstKeyIndex(cs, k)
    case Some(j) =>
      assert cs[j] in multiset(r);
      FirstKeyIndexOfMember(r, cs[j]);
    case None =>
      forall m | 0 <= m < |r| ensures r[m].0 != k {
        if r[m] != x {
          var j :| 0 <= j < |cs| && cs[j] == r[m];
        }
      }
  }
}
