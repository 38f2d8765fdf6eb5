/** Bounded, deduplicated, recency-ordered lists: the merge behind a conversation's active references
    and verified effects. */
module BoundedMerge {

  function Tail<T>(s: seq<T>, n: nat): seq<T> {
    if |s| <= n then s else s[|s| - n..]
  }

  function Keys<T, K>(s: seq<T>, key: T -> K): set<K> {
    set i | 0 <= i < |s| :: key(s[i])
  }

  ghost predicate DistinctKeys<T, K>(s: seq<T>, key: T -> K) {
    forall i, j | 0 <= i < j < |s| :: key(s[i]) != key(s[j])
  }

  /** Drop the items whose key is listed. */
  function Without<T, K(==)>(s: seq<T>, key: T -> K, keys: set<K>): seq<T> {
    if s == [] then []
    else if key(s[0]) in keys then Without(s[1..], key, keys)
    else [s[0]] + Without(s[1..], key, keys)
  }

  /** Every key once, at the place and with the value of its last occurrence. */
  function LastOccurrences<T, K(==)>(s: seq<T>, key: T -> K): seq<T> {
    if s == [] then []
    else if key(s[0]) in Keys(s[1..], key) then LastOccurrences(s[1..], key)
    else [s[0]] + LastOccurrences(s[1..], key)
  }

  /** The merge: the last n keys of the concatenation. */
  function Merge<T, K(==)>(existing: seq<T>, more: seq<T>, key: T -> K, n: nat): seq<T> {
    Tail(LastOccurrences(existing + more, key), n)
  }

  // ----- Facts about the parts -----

  lemma KeysOfConcat<T, K>(a: seq<T>, b: seq<T>, key: T -> K)
    ensures Keys(a + b, key) == Keys(a, key) + Keys(b, key)
  {
    var s := a + b;
    forall k | k in Keys(a, key)
      ensures k in Keys(s, key)
    {
      var i :| 0 <= i < |a| && key(a[i]) == k;
      assert s[i] == a[i];
    }
    forall k | k in Keys(b, key)
      ensures k in Keys(s, key)
    {
      var i :| 0 <= i < |b| && key(b[i]) == k;
      assert s[|a| + i] == b[i];
    }
  }

  lemma KeysOfOne<T, K>(x: T, key: T -> K)
    ensures Keys([x], key) == {key(x)}
  {
    assert [x][0] == x;
  }

  lemma KeysOfFirst<T, K>(s: seq<T>, key: T -> K)
    requires s != []
    ensures Keys(s, key) == {key(s[0])} + Keys(s[1..], key)
  {
    assert s == [s[0]] + s[1..];
    KeysOfConcat([s[0]], s[1..], key);
    KeysOfOne(s[0], key);
  }

  lemma {:induction false} WithoutConcat<T, K>(a: seq<T>, b: seq<T>, key: T -> K, keys: set<K>)
    ensures Without(a + b, key, keys) == Without(a, key, keys) + Without(b, key, keys)
  {
    if a == [] {
      assert a + b == b;
    } else {
      assert (a + b)[1..] == a[1..] + b;
      WithoutConcat(a[1..], b, key, keys);
    }
  }

  lemma {:induction false} WithoutTwice<T, K>(s: seq<T>, key: T -> K, keys: set<K>)
    ensures Without(Without(s, key, keys), key, keys) == Without(s, key, keys)
  {
    if s != [] {
      WithoutTwice(s[1..], key, keys);
      if key(s[0]) !in keys {
        assert ([s[0]] + Without(s[1..], key, keys))[1..] == Without(s[1..], key, keys);
      }
    }
  }

  lemma {:induction false} WithoutAll<T, K>(s: seq<T>, key: T -> K, keys: set<K>)
    requires Keys(s, key) <= keys
    ensures Without(s, key, keys) == []
  {
    if s != [] {
      KeysOfFirst(s, key);
      WithoutAll(s[1..], key, keys);
    }
  }

  lemma {:induction false} WithoutNone<T, K>(s: seq<T>, key: T -> K, keys: set<K>)
    requires Keys(s, key) !! keys
    ensures Without(s, key, keys) == s
  {
    if s != [] {
      KeysOfFirst(s, key);
      WithoutNone(s[1..], key, keys);
    }
  }

  lemma {:induction false} LastOccurrencesKeys<T, K>(s: seq<T>, key: T -> K)
    ensures Keys(LastOccurrences(s, key), key) == Keys(s, key)
    ensures DistinctKeys(LastOccurrences(s, key), key)
  {
    if s != [] {
      LastOccurrencesKeys(s[1..], key);
      KeysOfFirst(s, key);
      var rest := LastOccurrences(s[1..], key);
      KeysOfConcat([s[0]], rest, key);
      KeysOfOne(s[0], key);
      if key(s[0]) !in Keys(s[1..], key) {
        forall j | 0 <= j < |rest|
          ensures key(rest[j]) != key(s[0])
        {
          assert key(rest[j]) in Keys(rest, key);
        }
      }
    }
  }

  /** A later part overrides the earlier part key by key. */
  lemma {:induction false} LastOccurrencesOfConcat<T, K>(a: seq<T>, b: seq<T>, key: T -> K)
    ensures LastOccurrences(a + b, key) == Without(LastOccurrences(a, key), key, Keys(b, key)) + LastOccurrences(b, key)
  {
    if a == [] {
      assert a + b == b;
    } else {
      var s := a + b;
      assert s[1..] == a[1..] + b && s[0] == a[0];
      LastOccurrencesOfConcat(a[1..], b, key);
      KeysOfConcat(a[1..], b, key);
      if key(a[0]) !in Keys(a[1..], key) {
        var rest := LastOccurrences(a[1..], key);
        assert ([a[0]] + rest)[1..] == rest;
      }
    }
  }

  lemma {:induction false} DistinctIsFixed<T, K>(s: seq<T>, key: T -> K)
    requires DistinctKeys(s, key)
    ensures LastOccurrences(s, key) == s
  {
    if s != [] {
      DistinctIsFixed(s[1..], key);
    }
  }

  // ----- Truncating between merges loses nothing -----

  lemma TailIsSuffix<T>(s: seq<T>, n: nat)
    ensures s == s[..|s| - |Tail(s, n)|] + Tail(s, n)
  {
  }

  lemma TailOfSuffix<T>(p: seq<T>, s: seq<T>, n: nat)
    requires |s| >= n || p == []
    ensures Tail(p + s, n) == Tail(s, n)
  {
    if p == [] { assert p + s == s; }
  }

  /** Removing one key shortens a list with distinct keys by at most one. */
  lemma {:induction false} WithoutLength<T, K>(s: seq<T>, key: T -> K, keys: set<K>)
    requires DistinctKeys(s, key)
    ensures |Without(s, key, keys)| + |Keys(s, key) * keys| == |s|
  {
    if s != [] {
      WithoutLength(s[1..], key, keys);
      KeysOfFirst(s, key);
      var rest := Keys(s[1..], key);
      assert key(s[0]) !in rest;
      if key(s[0]) in keys {
        assert ({key(s[0])} + rest) * keys == {key(s[0])} + rest * keys;
      } else {
        assert ({key(s[0])} + rest) * keys == rest * keys;
      }
    } else {
      assert Keys(s, key) * keys == {};
    }
  }

  /** Counting: what the override removes from a full window it puts back at the end. */
  lemma OverrideKeepsLength<T, K>(s: seq<T>, more: seq<T>, key: T -> K)
    requires DistinctKeys(s, key)
    ensures |Without(s, key, Keys(more, key))| + |LastOccurrences(more, key)| >= |s|
  {
    WithoutLength(s, key, Keys(more, key));
    LastOccurrencesKeys(more, key);
    KeysSize(LastOccurrences(more, key), key);
    SubsetSize(Keys(s, key) * Keys(more, key), Keys(more, key));
  }

  lemma {:induction false} KeysSize<T, K>(s: seq<T>, key: T -> K)
    ensures |Keys(s, key)| <= |s|
  {
    if s != [] {
      KeysOfFirst(s, key);
      KeysSize(s[1..], key);
    }
  }

  lemma SubsetSize<K>(a: set<K>, b: set<K>)
    requires a <= b
    ensures |a| <= |b|
  {
    assert b == a + (b - a);
  }

  lemma TailDistinct<T, K>(s: seq<T>, key: T -> K, n: nat)
    requires DistinctKeys(s, key)
    ensures DistinctKeys(Tail(s, n), key)
  {
  }

  /** `Override(s, more)` is a list with distinct keys after `more` was merged into it. */
  function Override<T, K(==)>(s: seq<T>, more: seq<T>, key: T -> K): seq<T> {
    Without(s, key, Keys(more, key)) + LastOccurrences(more, key)
  }

  /** Dropping the front of a list whose kept part fills the window does not show in the window. */
  lemma OverrideOfTail<T, K>(full: seq<T>, more: seq<T>, key: T -> K, n: nat)
    requires DistinctKeys(full, key)
    ensures Tail(Override(Tail(full, n), more, key), n) == Tail(Override(full, more, key), n)
  {
    var kept := Tail(full, n);
    var dropped := full[..|full| - |kept|];
    TailIsSuffix(full, n);
    TailDistinct(full, key, n);
    OverrideKeepsLength(kept, more, key);
    WithoutConcat(dropped, kept, key, Keys(more, key));
    var front := Without(dropped, key, Keys(more, key));
    assert Override(full, more, key) == front + Override(kept, more, key);
    if dropped == [] { assert front == []; }
    TailOfSuffix(front, Override(kept, more, key), n);
  }

  /** The composition law: a merge into a truncated list equals one merge of the whole history. */
  lemma MergeComposes<T, K>(a: seq<T>, b: seq<T>, c: seq<T>, key: T -> K, n: nat)
    ensures Merge(Merge(a, b, key, n), c, key, n) == Merge(a, b + c, key, n)
  {
    var full := LastOccurrences(a + b, key);
    LastOccurrencesKeys(a + b, key);
    OverrideOfTail(full, c, key, n);
    assert LastOccurrences(Tail(full, n) + c, key) == Override(Tail(full, n), c, key) by {
      TailDistinct(full, key, n);
      DistinctIsFixed(Tail(full, n), key);
      LastOccurrencesOfConcat(Tail(full, n), c, key);
    }
    assert LastOccurrences(a + (b + c), key) == Override(full, c, key) by {
      LastOccurrencesOfConcat(a + b, c, key);
      assert a + (b + c) == (a + b) + c;
    }
  }

  lemma MergeExtends<T, K>(history: seq<T>, more: seq<T>, key: T -> K, n: nat)
    ensures Merge(Tail(LastOccurrences(history, key), n), more, key, n) == Tail(LastOccurrences(history + more, key), n)
  {
    MergeComposes([], history, more, key, n);
    assert [] + history == history && [] + (history + more) == history + more;
  }

  lemma OverrideTwice<T, K>(s: seq<T>, more: seq<T>, key: T -> K)
    ensures Override(Override(s, more, key), more, key) == Override(s, more, key)
  {
    var keys, last := Keys(more, key), LastOccurrences(more, key);
    var rest := Without(s, key, keys);
    LastOccurrencesKeys(more, key);
    WithoutConcat(rest, last, key, keys);
    WithoutTwice(s, key, keys);
    WithoutAll(last, key, keys);
    assert rest + [] == rest;
  }

  /** Merging the same items twice equals merging them once. */
  lemma MergeIsIdempotent<T, K>(a: seq<T>, b: seq<T>, key: T -> K, n: nat)
    ensures Merge(Merge(a, b, key, n), b, key, n) == Merge(a, b, key, n)
  {
    MergeComposes(a, b, b, key, n);
    assert a + (b + b) == (a + b) + b;
    LastOccurrencesOfConcat(a + b, b, key);
    LastOccurrencesOfConcat(a, b, key);
    OverrideTwice(LastOccurrences(a, key), b, key);
  }

  /** The same for a plain bounded list. */
  lemma TailComposes<T>(a: seq<T>, b: seq<T>, n: nat)
    ensures Tail(Tail(a, n) + b, n) == Tail(a + b, n)
  {
  }

  // ----- The two loops -----

  lemma AppendOne<T, K>(s: seq<T>, x: T, key: T -> K)
    ensures LastOccurrences(s + [x], key) == Without(LastOccurrences(s, key), key, {key(x)}) + [x]
  {
    LastOccurrencesOfConcat(s, [x], key);
    KeysOfOne(x, key);
    assert LastOccurrences([x], key) == [x];
  }

  lemma HeadIsApart<T, K>(s: seq<T>, key: T -> K)
    requires s != [] && DistinctKeys(s, key)
    ensures key(s[0]) !in Keys(s[1..], key)
  {
    assert forall j | 0 <= j < |s[1..]| :: s[1..][j] == s[j + 1];
  }

  lemma {:induction false} RemoveAt<T, K>(s: seq<T>, i: nat, key: T -> K)
    requires i < |s| && DistinctKeys(s, key)
    ensures Without(s, key, {key(s[i])}) == s[..i] + s[i + 1..]
  {
    if i == 0 {
      HeadIsApart(s, key);
      WithoutNone(s[1..], key, {key(s[0])});
    } else {
      RemoveAt(s[1..], i - 1, key);
      assert s[1..][i - 1] == s[i];
      assert [s[0]] + (s[1..][..i - 1] + s[1..][i..]) == s[..i] + s[i + 1..];
    }
  }

  ghost predicate Indexes<T, K>(positions: map<K, nat>, s: seq<T>, key: T -> K) {
    && (forall k | k in positions :: positions[k] < |s| && key(s[positions[k]]) == k)
    && (forall i | 0 <= i < |s| :: key(s[i]) in positions)
  }

  method IndexByKey<T, K(==)>(s: seq<T>, key: T -> K) returns (positions: map<K, nat>)
    ensures Indexes(positions, s, key)
  {
    positions := map[];
    for i := 0 to |s|
      invariant forall k | k in positions :: positions[k] < i && key(s[positions[k]]) == k
      invariant forall j | 0 <= j < i :: key(s[j]) in positions
    {
      positions := positions[key(s[i]) := i];
    }
  }

  /** Pop the earlier occurrence of the item's key, rebuild the positions, append. */
  method Place<T, K(==)>(list: seq<T>, index: map<K, nat>, item: T, key: T -> K)
    returns (merged: seq<T>, positions: map<K, nat>)
    requires DistinctKeys(list, key) && Indexes(index, list, key)
    ensures merged == Without(list, key, {key(item)}) + [item] && Indexes(positions, merged, key)
  {
    merged, positions := list, index;
    if key(item) in positions {
      RemoveAt(merged, positions[key(item)], key);
      merged := merged[..positions[key(item)]] + merged[positions[key(item)] + 1..];
      positions := IndexByKey(merged, key);
    } else {
      assert Keys(merged, key) !! {key(item)};
      WithoutNone(merged, key, {key(item)});
    }
    positions := IndexAppended(merged, positions, item, key);
    merged := merged + [item];
  }

  method IndexAppended<T, K(==)>(list: seq<T>, index: map<K, nat>, item: T, key: T -> K) returns (positions: map<K, nat>)
    requires Indexes(index, list, key)
    ensures Indexes(positions, list + [item], key)
  {
    var appended := list + [item];
    assert forall k | 0 <= k < |list| :: appended[k] == list[k];
    positions := index[key(item) := |list|];
  }

  /** The reference merge, item by item. */
  method MergeByPosition<T, K(==)>(existing: seq<T>, more: seq<T>, key: T -> K, n: nat) returns (result: seq<T>)
    ensures result == Merge(existing, more, key, n)
  {
    var items := existing + more;
    var merged: seq<T>, positions: map<K, nat> := [], map[];
    for i := 0 to |items|
      invariant merged == LastOccurrences(items[..i], key)
      invariant Indexes(positions, merged, key)
    {
      assert items[..i + 1] == items[..i] + [items[i]];
      AppendOne(items[..i], items[i], key);
      LastOccurrencesKeys(items[..i], key);
      merged, positions := Place(merged, positions, items[i], key);
    }
    assert items[..|items|] == items;
    result := Tail(merged, n);
  }

  /** The effect merge: keep a key set and filter the earlier occurrence out. */
  method MergeByFilter<T, K(==)>(existing: seq<T>, more: seq<T>, key: T -> K, n: nat) returns (result: seq<T>)
    ensures result == Merge(existing, more, key, n)
  {
    var items := existing + more;
    var merged: seq<T>, keys: set<K> := [], {};
    for i := 0 to |items|
      invariant merged == LastOccurrences(items[..i], key)
      invariant keys == Keys(merged, key)
    {
      var item := items[i];
      assert items[..i + 1] == items[..i] + [item];
      AppendOne(items[..i], item, key);
      if key(item) in keys {
        merged := Without(merged, key, {key(item)});
      } else {
        WithoutNone(merged, key, {key(item)});
      }
      merged := merged + [item];
      keys := Keys(merged, key);
    }
    assert items[..|items|] == items;
    result := Tail(merged, n);
  }
}
