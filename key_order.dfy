/** Listing the keys of a map in the order the ledger iterates them
    (ascending), and the set of the first `n` keys listed. */
module KeyOrder {
  /** The members of `s` below `bound`, in ascending order: the order in
      which the ledger's maps iterate their keys. */
  function SortedKeys(s: set<nat>, bound: nat): (r: seq<nat>)
    ensures forall j :: 0 <= j < |r| ==> r[j] in s && r[j] < bound
    ensures Ascending(r)
    decreases bound
  {
    if bound == 0 then []
    else SortedKeys(s, bound - 1) + (if bound - 1 in s then [bound - 1] else [])
  }

  /** `SortedKeys` lists exactly the members of `s` below `bound`. */
  lemma {:induction false} SortedKeysCover(s: set<nat>, bound: nat)
    ensures var r := SortedKeys(s, bound);
      forall x :: x in KeySet(r, |r|) <==> x in s && x < bound
    decreases bound
  {
    if bound > 0 {
      SortedKeysCover(s, bound - 1);
      var prev := SortedKeys(s, bound - 1);
      var r := SortedKeys(s, bound);
      KeySetPrefix(prev, r, |prev|);
    }
  }

  /** Two listings that agree on their first `n` indices have the same set of
      them. */
  lemma {:induction false} KeySetPrefix(a: seq<nat>, b: seq<nat>, n: nat)
    requires n <= |a| && n <= |b|
    requires forall j :: 0 <= j < n ==> a[j] == b[j]
    ensures KeySet(a, n) == KeySet(b, n)
    decreases n
  {
    if n > 0 {
      KeySetPrefix(a, b, n - 1);
    }
  }

  /** The first `n` indices of `keys`, as a set. */
  function KeySet(keys: seq<nat>, n: nat): (r: set<nat>)
    requires n <= |keys|
    ensures forall j :: 0 <= j < n ==> keys[j] in r
    decreases n
  {
    if n == 0 then {} else KeySet(keys, n - 1) + {keys[n - 1]}
  }

  /** Each index of `keys` is larger than the one before it. */
  predicate Ascending(keys: seq<nat>) {
    forall j :: 0 < j < |keys| ==> keys[j - 1] < keys[j]
  }

  /** In an ascending sequence, the first `n` indices all lie below the next. */
  lemma {:induction false} KeySetBelow(keys: seq<nat>, n: nat)
    requires n < |keys| && Ascending(keys)
    ensures forall x :: x in KeySet(keys, n) ==> x < keys[n]
    decreases n
  {
    if n > 0 {
      KeySetBelow(keys, n - 1);
    }
  }

  /** The next index of an ascending sequence has not been listed yet. */
  lemma NextIsFresh(keys: seq<nat>, n: nat)
    requires n < |keys| && Ascending(keys)
    ensures keys[n] !in KeySet(keys, n)
  {
    KeySetBelow(keys, n);
  }

  /** The first `n` indices of an ascending sequence are `n` distinct ones. */
  lemma {:induction false} KeySetSize(keys: seq<nat>, n: nat)
    requires n <= |keys| && Ascending(keys)
    ensures |KeySet(keys, n)| == n
    decreases n
  {
    if n > 0 {
      KeySetSize(keys, n - 1);
      NextIsFresh(keys, n - 1);
    }
  }

  /** Every member of the set of the first `n` indices is one of them. */
  lemma {:induction false} KeySetListed(keys: seq<nat>, n: nat)
    requires n <= |keys|
    ensures forall x :: x in KeySet(keys, n) ==> exists j :: 0 <= j < n && keys[j] == x
    decreases n
  {
    if n > 0 {
      KeySetListed(keys, n - 1);
      forall x | x in KeySet(keys, n)
        ensures exists j :: 0 <= j < n && keys[j] == x
      {
        if x != keys[n - 1] {
          assert x in KeySet(keys, n - 1);
          var j :| 0 <= j < n - 1 && keys[j] == x;
        }
      }
    }
  }
}
