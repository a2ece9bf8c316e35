/**
 The union of a document's pushed and pulled diagnostics: one entry per key, in first-occurrence order,
 taken from the snapshot written last.
 */
module MergeDedup {
  import opened Options

  /** The first element of s with key k. */
  function FirstWith<D, K(==)>(s: seq<D>, keyOf: D -> K, k: K): Option<D> {
    if s == [] then None
    else if keyOf(s[0]) == k then Some(s[0])
    else FirstWith(s[1..], keyOf, k)
  }

  /** The distinct keys of s, in the order they first occur. */
  function DistinctKeys<D, K(==)>(s: seq<D>, keyOf: D -> K): seq<K> {
    if s == [] then []
    else
      var keys := DistinctKeys(s[..|s| - 1], keyOf);
      var k := keyOf(s[|s| - 1]);
      if k in keys then keys else keys + [k]
  }

  /** The entry the union keeps for k: the newer snapshot's, and the pushed one when neither is newer. */
  function Keeps<D, K(==)>(push: seq<D>, pull: seq<D>, pushAt: int, pullAt: int, keyOf: D -> K, k: K): Option<D> {
    var pushed, pulled := FirstWith(push, keyOf, k), FirstWith(pull, keyOf, k);
    if pushed.None? then pulled
    else if pulled.Some? && pullAt > pushAt then pulled
    else pushed
  }

  /** result is the union, entry by entry. */
  ghost predicate IsUnion<D, K>(push: seq<D>, pull: seq<D>, pushAt: int, pullAt: int, keyOf: D -> K, result: seq<D>) {
    var keys := DistinctKeys(push + pull, keyOf);
    |result| == |keys| &&
    forall i :: 0 <= i < |keys| ==>
      keyOf(result[i]) == keys[i] && Keeps(push, pull, pushAt, pullAt, keyOf, keys[i]) == Some(result[i])
  }

  lemma {:induction false} FirstWithSnoc<D, K>(s: seq<D>, keyOf: D -> K, k: K, d: D)
    ensures FirstWith(s + [d], keyOf, k) ==
      if FirstWith(s, keyOf, k).Some? then FirstWith(s, keyOf, k) else if keyOf(d) == k then Some(d) else None
  {
    if s == [] {
      assert [d][1..] == [];
    } else {
      assert (s + [d])[1..] == s[1..] + [d];
      FirstWithSnoc(s[1..], keyOf, k, d);
    }
  }

  lemma {:induction false} KeysOccur<D, K>(s: seq<D>, keyOf: D -> K, k: K)
    ensures k in DistinctKeys(s, keyOf) <==> FirstWith(s, keyOf, k).Some?
  {
    if s == [] {
    } else {
      var init := s[..|s| - 1];
      KeysOccur(init, keyOf, k);
      FirstWithSnoc(init, keyOf, k, s[|s| - 1]);
      assert s == init + [s[|s| - 1]];
    }
  }

  ghost predicate NoRepeats<K>(keys: seq<K>) {
    forall i, j :: 0 <= i < j < |keys| ==> keys[i] != keys[j]
  }

  lemma NoRepeatsSnoc<K>(keys: seq<K>, k: K)
    requires NoRepeats(keys) && k !in keys
    ensures NoRepeats(keys + [k])
  {
  }

  lemma {:induction false} KeysDistinct<D, K>(s: seq<D>, keyOf: D -> K)
    ensures NoRepeats(DistinctKeys(s, keyOf))
  {
    if s == [] {
    } else {
      var before := DistinctKeys(s[..|s| - 1], keyOf);
      KeysDistinct(s[..|s| - 1], keyOf);
      if keyOf(s[|s| - 1]) !in before {
        NoRepeatsSnoc(before, keyOf(s[|s| - 1]));
      }
    }
  }

  lemma DistinctKeysSnoc<D, K>(s: seq<D>, keyOf: D -> K, d: D)
    ensures var keys := DistinctKeys(s, keyOf);
      DistinctKeys(s + [d], keyOf) == if keyOf(d) in keys then keys else keys + [keyOf(d)]
  {
  }

  lemma {:induction false} FirstWithKey<D, K>(s: seq<D>, keyOf: D -> K, k: K)
    ensures FirstWith(s, keyOf, k).Some? ==> FirstWith(s, keyOf, k).value in s && keyOf(FirstWith(s, keyOf, k).value) == k
  {
    if s != [] {
      FirstWithKey(s[1..], keyOf, k);
    }
  }

  // ---- the merge ------------------------------------------------------------------------------

  /** When the entry the union keeps for k was written. */
  function KeptAt<D, K(==)>(push: seq<D>, pull: seq<D>, pushAt: int, pullAt: int, keyOf: D -> K, k: K): int {
    if FirstWith(push, keyOf, k).None? || (FirstWith(pull, keyOf, k).Some? && pullAt > pushAt) then pullAt else pushAt
  }

  /** The merge's working state once it has taken in push and pull. */
  ghost predicate Built<D, K>(push: seq<D>, pull: seq<D>, pushAt: int, pullAt: int, keyOf: D -> K, result: seq<D>,
                              at: seq<int>, idx: map<K, nat>) {
    var keys := DistinctKeys(push + pull, keyOf);
    IsUnion(push, pull, pushAt, pullAt, keyOf, result) && |at| == |keys| &&
    (forall i :: 0 <= i < |keys| ==> at[i] == KeptAt(push, pull, pushAt, pullAt, keyOf, keys[i])) &&
    (forall i :: 0 <= i < |keys| ==> keys[i] in idx) && (forall k :: k in idx ==> idx[k] < |keys| && keys[idx[k]] == k)
  }

  /** The merge's one step. */
  method Add<D, K(==)>(d: D, t: int, keyOf: D -> K, result: seq<D>, at: seq<int>, idx: map<K, nat>)
      returns (result': seq<D>, at': seq<int>, idx': map<K, nat>)
    requires |at| == |result| && forall k :: k in idx ==> idx[k] < |result|
    ensures if keyOf(d) in idx then
        idx' == idx &&
        (if t > at[idx[keyOf(d)]] then result' == result[idx[keyOf(d)] := d] && at' == at[idx[keyOf(d)] := t]
         else result' == result && at' == at)
      else idx' == idx[keyOf(d) := |result|] && result' == result + [d] && at' == at + [t]
  {
    result', at', idx' := result, at, idx;
    var k := keyOf(d);
    if k in idx {
      var i := idx[k];
      if t > at[i] {
        result' := result[i := d];
        at' := at[i := t];
      }
      return;
    }
    idx' := idx[k := |result|];
    result' := result + [d];
    at' := at + [t];
  }

  /** Taking in one more diagnostic leaves the entries of every other key alone. */
  lemma OtherKeys<D, K>(push: seq<D>, pull: seq<D>, keyOf: D -> K, k: K, d: D)
    requires keyOf(d) != k
    ensures FirstWith(push + [d], keyOf, k) == FirstWith(push, keyOf, k)
    ensures FirstWith(pull + [d], keyOf, k) == FirstWith(pull, keyOf, k)
  {
    FirstWithSnoc(push, keyOf, k, d);
    FirstWithSnoc(pull, keyOf, k, d);
  }

  lemma KeyInUnion<D, K>(push: seq<D>, pull: seq<D>, keyOf: D -> K, k: K)
    ensures k in DistinctKeys(push + pull, keyOf) <==> FirstWith(push, keyOf, k).Some? || FirstWith(pull, keyOf, k).Some?
  {
    KeysOccur(push + pull, keyOf, k);
    FirstWithConcat(push, pull, keyOf, k);
  }

  lemma {:induction false} FirstWithConcat<D, K>(a: seq<D>, b: seq<D>, keyOf: D -> K, k: K)
    ensures FirstWith(a + b, keyOf, k) == if FirstWith(a, keyOf, k).Some? then FirstWith(a, keyOf, k) else FirstWith(b, keyOf, k)
  {
    if a == [] {
      assert a + b == b;
    } else {
      assert (a + b)[1..] == a[1..] + b;
      FirstWithConcat(a[1..], b, keyOf, k);
    }
  }

  lemma AddPushed<D, K>(push: seq<D>, pushAt: int, pullAt: int, keyOf: D -> K, result: seq<D>, at: seq<int>,
                        idx: map<K, nat>, d: D)
    requires Built(push, [], pushAt, pullAt, keyOf, result, at, idx)
    ensures keyOf(d) in idx ==> Built(push + [d], [], pushAt, pullAt, keyOf, result, at, idx)
    ensures keyOf(d) in idx ==> at[idx[keyOf(d)]] == pushAt
    ensures keyOf(d) !in idx ==>
      Built(push + [d], [], pushAt, pullAt, keyOf, result + [d], at + [pushAt], idx[keyOf(d) := |result|])
  {
    assert push + [] == push && push + [d] + [] == push + [d];
    DistinctKeysSnoc(push, keyOf, d);
    KeyInUnion(push, [], keyOf, keyOf(d));
    FirstWithSnoc(push, keyOf, keyOf(d), d);
    forall k | k != keyOf(d) ensures FirstWith(push + [d], keyOf, k) == FirstWith(push, keyOf, k) {
      OtherKeys(push, [], keyOf, k, d);
    }
    KeysDistinct(push, keyOf);
  }

  /** What one more pulled diagnostic does to the distinct keys and to the first pulled entry of each. */
  lemma PulledKeys<D, K>(push: seq<D>, pull: seq<D>, keyOf: D -> K, d: D, k: K)
    ensures var keys := DistinctKeys(push + pull, keyOf);
      DistinctKeys(push + (pull + [d]), keyOf) == if keyOf(d) in keys then keys else keys + [keyOf(d)]
    ensures keyOf(d) in DistinctKeys(push + pull, keyOf) <==>
      FirstWith(push, keyOf, keyOf(d)).Some? || FirstWith(pull, keyOf, keyOf(d)).Some?
    ensures FirstWith(pull + [d], keyOf, k) ==
      if FirstWith(pull, keyOf, k).Some? then FirstWith(pull, keyOf, k) else if keyOf(d) == k then Some(d) else None
  {
    assert push + (pull + [d]) == push + pull + [d];
    DistinctKeysSnoc(push + pull, keyOf, d);
    KeyInUnion(push, pull, keyOf, keyOf(d));
    FirstWithSnoc(pull, keyOf, k, d);
  }

  lemma AddNewPulled<D, K>(push: seq<D>, pull: seq<D>, pushAt: int, pullAt: int, keyOf: D -> K, result: seq<D>,
                           at: seq<int>, idx: map<K, nat>, d: D)
    requires Built(push, pull, pushAt, pullAt, keyOf, result, at, idx) && keyOf(d) !in idx
    ensures Built(push, pull + [d], pushAt, pullAt, keyOf, result + [d], at + [pullAt], idx[keyOf(d) := |result|])
  {
    var keys := DistinctKeys(push + pull, keyOf);
    assert keyOf(d) !in keys;
    PulledKeys(push, pull, keyOf, d, keyOf(d));
    forall i | 0 <= i < |keys| ensures FirstWith(pull + [d], keyOf, keys[i]) == FirstWith(pull, keyOf, keys[i]) {
      PulledKeys(push, pull, keyOf, d, keys[i]);
    }
  }

  lemma AddStalePulled<D, K>(push: seq<D>, pull: seq<D>, pushAt: int, pullAt: int, keyOf: D -> K, result: seq<D>,
                             at: seq<int>, idx: map<K, nat>, d: D)
    requires Built(push, pull, pushAt, pullAt, keyOf, result, at, idx) && keyOf(d) in idx
    requires pullAt <= at[idx[keyOf(d)]]
    ensures Built(push, pull + [d], pushAt, pullAt, keyOf, result, at, idx)
  {
    var keys := DistinctKeys(push + pull, keyOf);
    assert keyOf(d) in keys;
    PulledKeys(push, pull, keyOf, d, keyOf(d));
    forall i | 0 <= i < |keys|
      ensures Keeps(push, pull + [d], pushAt, pullAt, keyOf, keys[i]) == Keeps(push, pull, pushAt, pullAt, keyOf, keys[i])
      ensures KeptAt(push, pull + [d], pushAt, pullAt, keyOf, keys[i]) == KeptAt(push, pull, pushAt, pullAt, keyOf, keys[i])
    {
      PulledKeys(push, pull, keyOf, d, keys[i]);
      if keys[i] == keyOf(d) {
        SamePlace(push, pull, keyOf, idx[keyOf(d)], i);
      }
    }
  }

  lemma SamePlace<D, K>(push: seq<D>, pull: seq<D>, keyOf: D -> K, i: nat, j: nat)
    requires var keys := DistinctKeys(push + pull, keyOf); i < |keys| && j < |keys| && keys[i] == keys[j]
    ensures i == j
  {
    KeysDistinct(push + pull, keyOf);
  }

  /** The first pulled entry of a pushed key replaces the pushed one when the pull is newer. */
  lemma AddNewerPulled<D, K>(push: seq<D>, pull: seq<D>, pushAt: int, pullAt: int, keyOf: D -> K, result: seq<D>,
                             at: seq<int>, idx: map<K, nat>, d: D)
    requires Built(push, pull, pushAt, pullAt, keyOf, result, at, idx) && keyOf(d) in idx
    requires pullAt > at[idx[keyOf(d)]]
    ensures Built(push, pull + [d], pushAt, pullAt, keyOf, result[idx[keyOf(d)] := d], at[idx[keyOf(d)] := pullAt], idx)
  {
    var keys := DistinctKeys(push + pull, keyOf);
    var place := idx[keyOf(d)];
    PulledKeys(push, pull, keyOf, d, keyOf(d));
    forall i | 0 <= i < |keys| && i != place
      ensures Keeps(push, pull + [d], pushAt, pullAt, keyOf, keys[i]) == Keeps(push, pull, pushAt, pullAt, keyOf, keys[i])
      ensures KeptAt(push, pull + [d], pushAt, pullAt, keyOf, keys[i]) == KeptAt(push, pull, pushAt, pullAt, keyOf, keys[i])
    {
      PulledKeys(push, pull, keyOf, d, keys[i]);
      if keys[i] == keyOf(d) {
        SamePlace(push, pull, keyOf, place, i);
      }
    }
  }

  /** The union of the two snapshots of one document. */
  method MergeDedup<D, K(==)>(push: seq<D>, pull: seq<D>, pushAt: int, pullAt: int, keyOf: D -> K)
      returns (result: seq<D>)
    ensures IsUnion(push, pull, pushAt, pullAt, keyOf, result)
  {
    result := [];
    var at: seq<int> := [];
    var idx: map<K, nat> := map[];
    for i := 0 to |push|
      invariant Built(push[..i], [], pushAt, pullAt, keyOf, result, at, idx)
    {
      AddPushed(push[..i], pushAt, pullAt, keyOf, result, at, idx, push[i]);
      assert push[..i + 1] == push[..i] + [push[i]];
      result, at, idx := Add(push[i], pushAt, keyOf, result, at, idx);
    }
    assert push[..|push|] == push;
    for i := 0 to |pull|
      invariant Built(push, pull[..i], pushAt, pullAt, keyOf, result, at, idx)
    {
      if keyOf(pull[i]) !in idx {
        AddNewPulled(push, pull[..i], pushAt, pullAt, keyOf, result, at, idx, pull[i]);
      } else if pullAt > at[idx[keyOf(pull[i])]] {
        AddNewerPulled(push, pull[..i], pushAt, pullAt, keyOf, result, at, idx, pull[i]);
      } else {
        AddStalePulled(push, pull[..i], pushAt, pullAt, keyOf, result, at, idx, pull[i]);
      }
      assert pull[..i + 1] == pull[..i] + [pull[i]];
      result, at, idx := Add(pull[i], pullAt, keyOf, result, at, idx);
    }
    assert pull[..|pull|] == pull;
  }

  /** What the union means to a reader: every key reported by either channel, once, and nothing else. */
  lemma UnionExact<D, K>(push: seq<D>, pull: seq<D>, pushAt: int, pullAt: int, keyOf: D -> K, result: seq<D>, k: K)
    requires IsUnion(push, pull, pushAt, pullAt, keyOf, result)
    ensures (exists i :: 0 <= i < |result| && keyOf(result[i]) == k) <==>
      FirstWith(push, keyOf, k).Some? || FirstWith(pull, keyOf, k).Some?
    ensures forall i, j :: 0 <= i < j < |result| ==> keyOf(result[i]) != keyOf(result[j])
    ensures forall i :: 0 <= i < |result| ==> result[i] in push || result[i] in pull
  {
    var keys := DistinctKeys(push + pull, keyOf);
    KeyInUnion(push, pull, keyOf, k);
    KeysDistinct(push + pull, keyOf);
    if k in keys {
      var i :| 0 <= i < |keys| && keys[i] == k;
      assert keyOf(result[i]) == k;
    }
    forall i | 0 <= i < |result| ensures result[i] in push || result[i] in pull {
      FirstWithKey(push, keyOf, keys[i]);
      FirstWithKey(pull, keyOf, keys[i]);
    }
  }

  // ---- which entry is kept, and where ---------------------------------------------------------

  /** s[j] is the first of s with key k. */
  predicate FirstAt<D, K(==)>(s: seq<D>, keyOf: D -> K, k: K, j: nat) {
    j < |s| && keyOf(s[j]) == k && forall h :: 0 <= h < j ==> keyOf(s[h]) != k
  }

  predicate Lacks<D, K(==)>(s: seq<D>, keyOf: D -> K, k: K) {
    forall h :: 0 <= h < |s| ==> keyOf(s[h]) != k
  }

  lemma {:induction false} FirstWithAt<D, K>(s: seq<D>, keyOf: D -> K, k: K) returns (j: nat)
    ensures FirstWith(s, keyOf, k).None? ==> Lacks(s, keyOf, k)
    ensures FirstWith(s, keyOf, k).Some? ==> FirstAt(s, keyOf, k, j) && s[j] == FirstWith(s, keyOf, k).value
  {
    j := 0;
    if s != [] && keyOf(s[0]) != k {
      var i := FirstWithAt(s[1..], keyOf, k);
      j := i + 1;
      assert forall h :: 1 <= h < |s| ==> s[h] == s[1..][h - 1];
    }
  }

  /** The entry kept is the first of its key in the snapshot written last of those that have it, the pushed one on a tie. */
  lemma UnionNewest<D, K>(push: seq<D>, pull: seq<D>, pushAt: int, pullAt: int, keyOf: D -> K, result: seq<D>, i: nat)
      returns (pulled: bool, j: nat)
    requires IsUnion(push, pull, pushAt, pullAt, keyOf, result) && i < |result|
    ensures var k := keyOf(result[i]);
      if pulled then FirstAt(pull, keyOf, k, j) && pull[j] == result[i] && (pullAt > pushAt || Lacks(push, keyOf, k))
      else FirstAt(push, keyOf, k, j) && push[j] == result[i] && (pullAt <= pushAt || Lacks(pull, keyOf, k))
  {
    var k := keyOf(result[i]);
    var a := FirstWithAt(push, keyOf, k);
    var b := FirstWithAt(pull, keyOf, k);
    pulled := FirstWith(push, keyOf, k).None? || (FirstWith(pull, keyOf, k).Some? && pullAt > pushAt);
    j := if pulled then b else a;
  }

  lemma FirstAtPrefix<D, K>(s: seq<D>, keyOf: D -> K, k: K, n: nat)
    requires n <= |s|
    ensures forall j: nat :: j < n ==> (FirstAt(s, keyOf, k, j) <==> FirstAt(s[..n], keyOf, k, j))
  {
    assert forall h :: 0 <= h < n ==> s[..n][h] == s[h];
  }

  /** Keys are listed in the order they first occur. */
  lemma {:induction false} KeysInOrder<D, K>(s: seq<D>, keyOf: D -> K, i: nat, j: nat, a: nat, b: nat)
    requires var keys := DistinctKeys(s, keyOf);
      i < j < |keys| && FirstAt(s, keyOf, keys[i], a) && FirstAt(s, keyOf, keys[j], b)
    ensures a < b
    decreases |s|
  {
    var n := |s| - 1;
    var keys, before := DistinctKeys(s, keyOf), DistinctKeys(s[..n], keyOf);
    KeysOccur(s[..n], keyOf, keys[i]);
    assert keys[i] in before;
    var a' := FirstWithAt(s[..n], keyOf, keys[i]);
    FirstAtPrefix(s, keyOf, keys[i], n);
    assert a == a';
    if j < |before| {
      KeysOccur(s[..n], keyOf, keys[j]);
      assert keys[j] in before;
      var b' := FirstWithAt(s[..n], keyOf, keys[j]);
      FirstAtPrefix(s, keyOf, keys[j], n);
      assert b == b';
      KeysInOrder(s[..n], keyOf, i, j, a, b);
    } else {
      KeysOccur(s[..n], keyOf, keys[j]);
      FirstAtPrefix(s, keyOf, keys[j], n);
      var b' := FirstWithAt(s[..n], keyOf, keys[j]);
    }
  }

  /** Entries stand in the order their keys first occur, pushed before pulled. */
  lemma UnionOrder<D, K>(push: seq<D>, pull: seq<D>, pushAt: int, pullAt: int, keyOf: D -> K, result: seq<D>, i: nat,
                         j: nat, a: nat, b: nat)
    requires IsUnion(push, pull, pushAt, pullAt, keyOf, result) && i < j < |result|
    requires FirstAt(push + pull, keyOf, keyOf(result[i]), a) && FirstAt(push + pull, keyOf, keyOf(result[j]), b)
    ensures a < b
  {
    KeysInOrder(push + pull, keyOf, i, j, a, b);
  }
}
