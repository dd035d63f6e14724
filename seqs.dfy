/**
 * The list operations the views use on fetched collections: Array.prototype.filter,
 * Array.prototype.find and counting by key, with the facts the views rely on.
 */
module Seqs {
  import opened Wrappers

  /** The elements of `s` that satisfy `p`, in their original order. */
  function Filter<T(!new)>(s: seq<T>, p: T -> bool): (r: seq<T>)
    ensures |r| <= |s|
    ensures forall x :: x in r <==> x in s && p(x)
  {
    if s == [] then []
    else
      assert s == [s[0]] + s[1..];
      (if p(s[0]) then [s[0]] else []) + Filter(s[1..], p)
  }

  /** Filtering keeps every copy of a kept element and no copy of the others. */
  lemma {:induction false} FilterMultiset<T(!new)>(s: seq<T>, p: T -> bool)
    ensures forall x :: multiset(Filter(s, p))[x] == if p(x) then multiset(s)[x] else 0
  {
    if s != [] {
      FilterMultiset(s[1..], p);
      assert s == [s[0]] + s[1..];
    }
  }

  /** `idx` lists, in increasing order, the positions of `s` that make up `r`. */
  ghost predicate IsEmbedding<T>(r: seq<T>, s: seq<T>, idx: seq<nat>)
  {
    && |idx| == |r|
    && (forall k :: 0 <= k < |idx| ==> idx[k] < |s| && r[k] == s[idx[k]])
    && (forall k, l :: 0 <= k < l < |idx| ==> idx[k] < idx[l])
  }

  /** `r` is obtained from `s` by deleting elements, without reordering the rest. */
  ghost predicate IsSubsequence<T>(r: seq<T>, s: seq<T>)
  {
    exists idx :: IsEmbedding(r, s, idx)
  }

  lemma {:induction false} FilterIsSubsequence<T(!new)>(s: seq<T>, p: T -> bool)
    ensures IsSubsequence(Filter(s, p), s)
  {
    if s == [] {
      assert IsEmbedding([], s, []);
    } else {
      FilterIsSubsequence(s[1..], p);
      var tail := Filter(s[1..], p);
      var idx :| IsEmbedding(tail, s[1..], idx);
      var shifted := ShiftEmbedding(tail, s, idx);
      if p(s[0]) {
        ConsEmbedding(s[0], tail, s, shifted);
      } else {
        assert Filter(s, p) == tail;
      }
    }
  }

  /** An embedding into s[1..] moves one place to the right in s. */
  lemma ShiftEmbedding<T>(r: seq<T>, s: seq<T>, idx: seq<nat>) returns (shifted: seq<nat>)
    requires s != [] && IsEmbedding(r, s[1..], idx)
    ensures IsEmbedding(r, s, shifted)
    ensures forall k :: 0 <= k < |shifted| ==> shifted[k] >= 1
  {
    shifted := seq(|idx|, k requires 0 <= k < |idx| => idx[k] + 1);
    forall k | 0 <= k < |shifted| ensures shifted[k] < |s| && r[k] == s[shifted[k]] {
      assert s[1..][idx[k]] == s[idx[k] + 1];
    }
  }

  /** Keeping s[0] in front of an embedding that avoids position 0. */
  lemma ConsEmbedding<T>(x: T, r: seq<T>, s: seq<T>, idx: seq<nat>)
    requires s != [] && s[0] == x && IsEmbedding(r, s, idx)
    requires forall k :: 0 <= k < |idx| ==> idx[k] >= 1
    ensures IsEmbedding([x] + r, s, [0] + idx)
  {
  }

  /** Filtering with a predicate that every element satisfies changes nothing. */
  lemma {:induction false} FilterKeepsAll<T(!new)>(s: seq<T>, p: T -> bool)
    requires forall x :: x in s ==> p(x)
    ensures Filter(s, p) == s
  {
    if s != [] {
      FilterKeepsAll(s[1..], p);
    }
  }

  lemma {:induction false} FilterConcat<T(!new)>(a: seq<T>, b: seq<T>, p: T -> bool)
    ensures Filter(a + b, p) == Filter(a, p) + Filter(b, p)
  {
    if a == [] {
      assert a + b == b;
    } else {
      assert (a + b)[1..] == a[1..] + b;
      FilterConcat(a[1..], b, p);
    }
  }

  /** Two predicates that no element satisfies together select at most |s| elements between them. */
  lemma {:induction false} DisjointFiltersFit<T(!new)>(s: seq<T>, p: T -> bool, q: T -> bool)
    requires forall x :: x in s ==> !(p(x) && q(x))
    ensures |Filter(s, p)| + |Filter(s, q)| <= |s|
  {
    if s != [] {
      DisjointFiltersFit(s[1..], p, q);
    }
  }

  lemma FilterSingleton<T(!new)>(x: T, p: T -> bool)
    ensures Filter([x], p) == if p(x) then [x] else []
  {
    assert [x][1..] == [];
  }

  /** Two trailing elements that `p` never both keeps can trade places without changing the filter. */
  lemma FilterSwapLast<T(!new)>(u: seq<T>, v: seq<T>, a: T, b: T, p: T -> bool)
    requires Filter(u, p) == Filter(v + [a], p)
    requires !(p(a) && p(b))
    ensures Filter(u + [b], p) == Filter(v + [b] + [a], p)
  {
    var fa, fb := Filter([a], p), Filter([b], p);
    FilterSingleton(a, p);
    FilterSingleton(b, p);
    assert fa + fb == fb + fa by {
      if p(a) { assert fb == []; } else { assert fa == []; }
    }
    FilterConcat(u, [b], p);
    FilterConcat(v, [a], p);
    FilterConcat(v + [b], [a], p);
    FilterConcat(v, [b], p);
    calc {
      Filter(u + [b], p);
      Filter(v + [a], p) + fb;
      Filter(v, p) + fa + fb;
      Filter(v, p) + (fb + fa);
      Filter(v, p) + fb + fa;
      Filter(v + [b] + [a], p);
    }
  }

  /** Filtering out the one element that fails `p` shortens the sequence by exactly one. */
  lemma {:induction false} FilterDropsOne<T(!new)>(s: seq<T>, p: T -> bool, i: nat)
    requires i < |s| && !p(s[i])
    requires forall j :: 0 <= j < |s| && j != i ==> p(s[j])
    ensures |Filter(s, p)| == |s| - 1
  {
    if i == 0 {
      assert forall x :: x in s[1..] ==> p(x) by {
        forall x | x in s[1..] ensures p(x) {
          var j :| 0 <= j < |s[1..]| && s[1..][j] == x;
          assert s[j + 1] == x;
        }
      }
      FilterKeepsAll(s[1..], p);
    } else {
      FilterDropsOne(s[1..], p, i - 1);
    }
  }

  /** The predicate "the key of x is k". */
  function KeyIs<T, K(==)>(key: T -> K, k: K): T -> bool
  {
    x => key(x) == k
  }

  /** KeyIs applied to one element. */
  lemma KeyIsAt<T, K>(key: T -> K, k: K, x: T)
    ensures KeyIs(key, k)(x) <==> key(x) == k
  {
  }

  /** The number of elements whose key is each of `keys` in turn, added up. */
  function CountByKeys<T(!new), K(==)>(s: seq<T>, key: T -> K, keys: seq<K>): nat
  {
    if keys == [] then 0
    else |Filter(s, KeyIs(key, keys[0]))| + CountByKeys(s, key, keys[1..])
  }

  ghost predicate Distinct<K>(keys: seq<K>)
  {
    forall i, j :: 0 <= i < j < |keys| ==> keys[i] != keys[j]
  }

  lemma {:induction false} CountByKeysStep<T(!new), K>(s: seq<T>, key: T -> K, keys: seq<K>)
    requires s != [] && Distinct(keys)
    ensures CountByKeys(s, key, keys)
         == (if key(s[0]) in keys then 1 else 0) + CountByKeys(s[1..], key, keys)
  {
    if keys != [] {
      assert Distinct(keys[1..]) by {
        forall i, j | 0 <= i < j < |keys[1..]| ensures keys[1..][i] != keys[1..][j] {
          assert keys[1..][i] == keys[i + 1] && keys[1..][j] == keys[j + 1];
        }
      }
      CountByKeysStep(s, key, keys[1..]);
      assert key(s[0]) in keys <==> key(s[0]) == keys[0] || key(s[0]) in keys[1..] by {
        assert keys == [keys[0]] + keys[1..];
      }
    }
  }

  /**
   * Counting per key over a list of distinct keys that covers every element's key
   * accounts for every element exactly once.
   */
  lemma {:induction false} CountByKeysCoversAll<T(!new), K>(s: seq<T>, key: T -> K, keys: seq<K>)
    requires Distinct(keys)
    requires forall x :: x in s ==> key(x) in keys
    ensures CountByKeys(s, key, keys) == |s|
  {
    if s == [] {
      CountByKeysEmpty(key, keys);
    } else {
      CountByKeysStep(s, key, keys);
      CountByKeysCoversAll(s[1..], key, keys);
    }
  }

  lemma {:induction false} CountByKeysEmpty<T(!new), K>(key: T -> K, keys: seq<K>)
    ensures CountByKeys([], key, keys) == 0
  {
    if keys != [] {
      CountByKeysEmpty(key, keys[1..]);
    }
  }

  /** The predicate "the key of x is one of keys". */
  function KeyIn<T, K(==)>(key: T -> K, keys: seq<K>): T -> bool
  {
    x => key(x) in keys
  }

  /** Filtering by membership in a list of distinct keys counts what counting key by key counts. */
  lemma {:induction false} FilterKeyInCounts<T(!new), K>(s: seq<T>, key: T -> K, keys: seq<K>)
    requires Distinct(keys)
    ensures |Filter(s, KeyIn(key, keys))| == CountByKeys(s, key, keys)
  {
    if s == [] {
      CountByKeysEmpty(key, keys);
    } else {
      CountByKeysStep(s, key, keys);
      FilterKeyInCounts(s[1..], key, keys);
    }
  }

  /** The position of the first element that satisfies `p`, as Array.prototype.findIndex. */
  function FindIndex<T>(s: seq<T>, p: T -> bool): (r: Option<nat>)
    ensures r.Some? ==> r.value < |s| && p(s[r.value])
    ensures r.Some? ==> forall j :: 0 <= j < r.value ==> !p(s[j])
    ensures r.None? ==> forall j :: 0 <= j < |s| ==> !p(s[j])
  {
    if s == [] then None
    else if p(s[0]) then Some(0)
    else match FindIndex(s[1..], p)
      case None => None
      case Some(i) => Some(i + 1)
  }

  /** The first element that satisfies `p`, or None: Array.prototype.find. */
  function Find<T(!new)>(s: seq<T>, p: T -> bool): (r: Option<T>)
    ensures r.None? <==> forall x :: x in s ==> !p(x)
    ensures r.Some? ==> exists i :: 0 <= i < |s| && s[i] == r.value && p(s[i])
                                    && forall j :: 0 <= j < i ==> !p(s[j])
  {
    match FindIndex(s, p)
    case None => None
    case Some(i) => Some(s[i])
  }

  /** The first `n` elements, or all of them when there are fewer: Array.prototype.slice(0, n). */
  function Take<T>(s: seq<T>, n: nat): (r: seq<T>)
    ensures |r| == if n < |s| then n else |s|
    ensures forall i :: 0 <= i < |r| ==> r[i] == s[i]
  {
    if n < |s| then s[..n] else s
  }
}
