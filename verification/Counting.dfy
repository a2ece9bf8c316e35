/** Sizes of sets, and counts of the elements of a sequence that point at a key, as reference counts are. */
module Counting {

  /** How many elements of s point at k. */
  function Tally<T, K(==)>(s: seq<T>, key: T -> K, k: K): nat {
    if s == [] then 0
    else Tally(s[..|s| - 1], key, k) + if key(s[|s| - 1]) == k then 1 else 0
  }

  lemma TallyAppend<T, K>(s: seq<T>, key: T -> K, k: K, x: T)
    ensures Tally(s + [x], key, k) == Tally(s, key, k) + if key(x) == k then 1 else 0
  {
  }

  lemma {:induction false} TallyUpdate<T, K>(s: seq<T>, key: T -> K, k: K, i: int, x: T)
    requires 0 <= i < |s|
    ensures Tally(s[i := x], key, k) + (if key(s[i]) == k then 1 else 0) ==
      Tally(s, key, k) + if key(x) == k then 1 else 0
  {
    var n := |s| - 1;
    if i == n {
      assert s[i := x][..n] == s[..n];
    } else {
      assert s[i := x][..n] == s[..n][i := x];
      TallyUpdate(s[..n], key, k, i, x);
    }
  }

  lemma {:induction false} TallyPositive<T, K>(s: seq<T>, key: T -> K, k: K, i: int)
    requires 0 <= i < |s| && key(s[i]) == k
    ensures Tally(s, key, k) >= 1
  {
    if i < |s| - 1 {
      TallyPositive(s[..|s| - 1], key, k, i);
    }
  }

  lemma {:induction false} TallyZero<T, K>(s: seq<T>, key: T -> K, k: K)
    requires forall i :: 0 <= i < |s| ==> key(s[i]) != k
    ensures Tally(s, key, k) == 0
  {
    if s == [] {
    } else {
      TallyZero(s[..|s| - 1], key, k);
    }
  }

  lemma {:induction false} SubsetSize<T>(small: set<T>, big: set<T>)
    requires small <= big
    ensures |small| <= |big|
  {
    if small == {} {
    } else {
      var x :| x in small;
      SubsetSize(small - {x}, big - {x});
    }
  }
}
