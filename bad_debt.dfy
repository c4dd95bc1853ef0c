/** Moving a defaulted user's debt onto the backstop.

    A user with liabilities and no collateral holds bad debt.  Every d-token
    they owe is moved, reserve by reserve, onto the backstop's positions.  The
    pool's reserves are committed once after the loop, then the two position
    records are stored. */
module BadDebt {
  import opened Outcomes
  import opened Addresses
  import opened Reserves
  import opened Positions
  import opened KeyOrder

  /** The `bad_debt` event: `amount` d-tokens of `asset` moved off `user`. */
  datatype BadDebtEvent = BadDebtEvent(user: Address, asset: Address, amount: int)

  /** What a successful transfer publishes and writes. */
  datatype BadDebtTransfer = BadDebtTransfer(events: seq<BadDebtEvent>, writes: seq<Write>)

  /** Removing every key of a map leaves it empty. */
  lemma RemoveAllKeys(m: map<nat, int>)
    ensures m - m.Keys == map[]
  {
    assert (m - m.Keys).Keys == {};
  }

  /** Every index of `keys` names a reserve of `reserveList`. */
  predicate Indexed(keys: seq<nat>, reserveList: seq<Address>) {
    forall j :: 0 <= j < |keys| ==> keys[j] < |reserveList|
  }

  /** The requirements on the listing `keys` of the user's liabilities. */
  predicate Listing(keys: seq<nat>, liabilities: map<nat, int>, reserveList: seq<Address>) {
    && Ascending(keys)
    && Indexed(keys, reserveList)
    && (forall j :: 0 <= j < |keys| ==> keys[j] in liabilities && liabilities[keys[j]] > 0)
  }

  /** The user's positions after the first `n` passes of the loop: the
      entries passed are gone. */
  function UserAfter(keys: seq<nat>, n: nat, userPositions: Positions): Positions
    requires n <= |keys|
  {
    userPositions.(liabilities := userPositions.liabilities - KeySet(keys, n))
  }

  /** The backstop's positions after the first `n` passes: each pass adds the
      user's debt at its index. */
  function BackstopAfter(keys: seq<nat>, n: nat, userPositions: Positions, backstopPositions: Positions): Positions
    requires n <= |keys|
    decreases n
  {
    if n == 0 then backstopPositions
    else
      var b := BackstopAfter(keys, n - 1, userPositions, backstopPositions);
      var index := keys[n - 1];
      b.(liabilities := b.liabilities[index := b.Liability(index) + userPositions.Liability(index)])
  }

  /** The pool's reserve cache after the first `n` passes: each pass caches
      the reserve of its index, loading it the first time. */
  function CacheAfter(keys: seq<nat>, n: nat, reserveList: seq<Address>, loadReserve: Address -> ReserveData): map<Address, ReserveData>
    requires n <= |keys| && Indexed(keys, reserveList)
    decreases n
  {
    if n == 0 then map[]
    else
      var c := CacheAfter(keys, n - 1, reserveList, loadReserve);
      var asset := reserveList[keys[n - 1]];
      c[asset := if asset in c then c[asset] else loadReserve(asset)]
  }

  /** The events published in the first `n` passes, one per pass. */
  function EventsAfter(user: Address, keys: seq<nat>, n: nat, userPositions: Positions, reserveList: seq<Address>): (r: seq<BadDebtEvent>)
    requires n <= |keys| && Indexed(keys, reserveList)
    ensures |r| == n
    decreases n
  {
    if n == 0 then []
    else
      var index := keys[n - 1];
      EventsAfter(user, keys, n - 1, userPositions, reserveList) + [BadDebtEvent(user, reserveList[index], userPositions.Liability(index))]
  }

  /** Pass `k` finds the user still owing all they owed at its index, and
      removing that debt leaves the user as after the pass. */
  lemma UserStep(keys: seq<nat>, k: nat, userPositions: Positions, reserveList: seq<Address>, data: ReserveData)
    requires k < |keys| && Listing(keys, userPositions.liabilities, reserveList)
    requires data.dSupply >= userPositions.liabilities[keys[k]]
    ensures RemoveLiabilities(UserAfter(keys, k, userPositions), data, keys[k], userPositions.liabilities[keys[k]])
         == Ok((UserAfter(keys, k + 1, userPositions), data.(dSupply := data.dSupply - userPositions.liabilities[keys[k]])))
  {
    NextIsFresh(keys, k);
    assert userPositions.liabilities - KeySet(keys, k) - {keys[k]} == userPositions.liabilities - KeySet(keys, k + 1);
  }

  /** Pass `k` adds to the backstop exactly what the user owed at its index. */
  lemma BackstopStep(keys: seq<nat>, k: nat, userPositions: Positions, backstopPositions: Positions, data: ReserveData, amount: nat)
    requires k < |keys| && amount == userPositions.Liability(keys[k])
    ensures AddLiabilities(BackstopAfter(keys, k, userPositions, backstopPositions), data, keys[k], amount).0 == BackstopAfter(keys, k + 1, userPositions, backstopPositions)
  {
  }

  /** One whole pass `k`: the backstop takes on what the user owed at the
      index, the user's entry goes, and the reserve's d-token supply, raised
      and lowered by the same amount, ends where it started. */
  lemma PassStep(keys: seq<nat>, k: nat, userPositions: Positions, backstopPositions: Positions, reserveList: seq<Address>, reserve: ReserveData)
    requires k < |keys| && Listing(keys, userPositions.liabilities, reserveList)
    ensures var amount := userPositions.liabilities[keys[k]];
      var added := AddLiabilities(BackstopAfter(keys, k, userPositions, backstopPositions), reserve, keys[k], amount);
      && added.0 == BackstopAfter(keys, k + 1, userPositions, backstopPositions)
      && added.1.dSupply >= amount
      && RemoveLiabilities(UserAfter(keys, k, userPositions), added.1, keys[k], amount)
         == Ok((UserAfter(keys, k + 1, userPositions), reserve))
  {
    var amount := userPositions.liabilities[keys[k]];
    var added := AddLiabilities(BackstopAfter(keys, k, userPositions, backstopPositions), reserve, keys[k], amount);
    BackstopStep(keys, k, userPositions, backstopPositions, reserve, amount);
    UserStep(keys, k, userPositions, reserveList, added.1);
    assert added.1.(dSupply := added.1.dSupply - amount) == reserve;
  }

  /** After `n` passes the backstop owes, at each index, its own debt plus
      the user's debt at that index when the index has been passed. */
  lemma {:induction false} MovedBackstop(keys: seq<nat>, n: nat, userPositions: Positions, backstopPositions: Positions)
    requires n <= |keys| && Ascending(keys)
    ensures var b := BackstopAfter(keys, n, userPositions, backstopPositions);
      && b.collateral == backstopPositions.collateral && b.supply == backstopPositions.supply
      && b.liabilities.Keys == backstopPositions.liabilities.Keys + KeySet(keys, n)
      && forall i :: b.Liability(i) == backstopPositions.Liability(i) + (if i in KeySet(keys, n) then userPositions.Liability(i) else 0)
    decreases n
  {
    if n > 0 {
      MovedBackstop(keys, n - 1, userPositions, backstopPositions);
      NextIsFresh(keys, n - 1);
      var x := keys[n - 1];
      var before := BackstopAfter(keys, n - 1, userPositions, backstopPositions);
      var after := BackstopAfter(keys, n, userPositions, backstopPositions);
      forall i
        ensures after.Liability(i) == backstopPositions.Liability(i) + (if i in KeySet(keys, n) then userPositions.Liability(i) else 0)
      {
        if i != x {
          assert after.Liability(i) == before.Liability(i);
        }
      }
    }
  }

  /** After `n` passes the cache holds an entry for the asset of every index
      passed, and each entry is the reserve as loaded: moving debt between
      two users raises and lowers a reserve's d-token supply by the same
      amount. */
  lemma {:induction false} MovedCache(keys: seq<nat>, n: nat, reserveList: seq<Address>, loadReserve: Address -> ReserveData)
    requires n <= |keys| && Indexed(keys, reserveList)
    ensures var c := CacheAfter(keys, n, reserveList, loadReserve);
      && (forall j :: 0 <= j < n ==> reserveList[keys[j]] in c)
      && (forall a :: a in c ==> c[a] == loadReserve(a))
    decreases n
  {
    if n > 0 {
      MovedCache(keys, n - 1, reserveList, loadReserve);
    }
  }

  /** After `n` passes the cache holds no asset but those of the indices
      passed. */
  lemma {:induction false} MovedCacheOnly(keys: seq<nat>, n: nat, reserveList: seq<Address>, loadReserve: Address -> ReserveData)
    requires n <= |keys| && Indexed(keys, reserveList)
    ensures forall a :: a in CacheAfter(keys, n, reserveList, loadReserve) ==>
      exists j :: 0 <= j < n && reserveList[keys[j]] == a
    decreases n
  {
    if n > 0 {
      MovedCacheOnly(keys, n - 1, reserveList, loadReserve);
      var before := CacheAfter(keys, n - 1, reserveList, loadReserve);
      var after := CacheAfter(keys, n, reserveList, loadReserve);
      var asset := reserveList[keys[n - 1]];
      assert after.Keys == before.Keys + {asset};
      forall a | a in after
        ensures exists j :: 0 <= j < n && reserveList[keys[j]] == a
      {
        if a != asset {
          var j :| 0 <= j < n - 1 && reserveList[keys[j]] == a;
        }
      }
    }
  }

  /** After `n` passes one event has been published per index passed, in
      order, naming the asset and the amount moved. */
  lemma {:induction false} MovedEvents(user: Address, keys: seq<nat>, n: nat, userPositions: Positions, reserveList: seq<Address>)
    requires n <= |keys| && Indexed(keys, reserveList)
    ensures var e := EventsAfter(user, keys, n, userPositions, reserveList);
      && |e| == n
      && forall j :: 0 <= j < n ==> e[j] == BadDebtEvent(user, reserveList[keys[j]], userPositions.Liability(keys[j]))
    decreases n
  {
    if n > 0 {
      MovedEvents(user, keys, n - 1, userPositions, reserveList);
    }
  }

  /** The ascending listing of a valid user's liability indices meets the
      loop's requirements and lists each index once. */
  lemma SortedListing(userPositions: Positions, reserveList: seq<Address>)
    requires userPositions.Valid()
    requires forall i :: i in userPositions.liabilities ==> i < |reserveList|
    ensures var keys := SortedKeys(userPositions.liabilities.Keys, |reserveList|);
      && Listing(keys, userPositions.liabilities, reserveList)
      && KeySet(keys, |keys|) == userPositions.liabilities.Keys
      && |keys| == |userPositions.liabilities|
  {
    var keys := SortedKeys(userPositions.liabilities.Keys, |reserveList|);
    SortedKeysCover(userPositions.liabilities.Keys, |reserveList|);
    KeySetSize(keys, |keys|);
  }

  /** The whole loop, run over the ascending listing of a valid user's
      liabilities, leaves the user owing nothing, with collateral and supply
      untouched. */
  lemma BadDebtClearsUser(userPositions: Positions, reserveList: seq<Address>)
    requires userPositions.Valid()
    requires forall i :: i in userPositions.liabilities ==> i < |reserveList|
    ensures var keys := SortedKeys(userPositions.liabilities.Keys, |reserveList|);
      UserAfter(keys, |keys|, userPositions) == userPositions.(liabilities := map[])
  {
    var keys := SortedKeys(userPositions.liabilities.Keys, |reserveList|);
    SortedListing(userPositions, reserveList);
    RemoveAllKeys(userPositions.liabilities);
  }

  /** The whole loop leaves the backstop owing, at every index, its own debt
      plus the user's, with its collateral and supply untouched. */
  lemma BadDebtBackstopOwesAll(userPositions: Positions, backstopPositions: Positions, reserveList: seq<Address>)
    requires userPositions.Valid()
    requires forall i :: i in userPositions.liabilities ==> i < |reserveList|
    ensures var keys := SortedKeys(userPositions.liabilities.Keys, |reserveList|);
      var b := BackstopAfter(keys, |keys|, userPositions, backstopPositions);
      && b.collateral == backstopPositions.collateral && b.supply == backstopPositions.supply
      && b.liabilities.Keys == backstopPositions.liabilities.Keys + userPositions.liabilities.Keys
      && forall i :: b.Liability(i) == backstopPositions.Liability(i) + userPositions.Liability(i)
  {
    var keys := SortedKeys(userPositions.liabilities.Keys, |reserveList|);
    SortedListing(userPositions, reserveList);
    MovedBackstop(keys, |keys|, userPositions, backstopPositions);
  }

  /** The whole loop leaves in the cache, for exactly the assets the user
      owed, each reserve as loaded. */
  lemma BadDebtCachesLoaded(userPositions: Positions, reserveList: seq<Address>, loadReserve: Address -> ReserveData)
    requires userPositions.Valid()
    requires forall i :: i in userPositions.liabilities ==> i < |reserveList|
    ensures var keys := SortedKeys(userPositions.liabilities.Keys, |reserveList|);
      Indexed(keys, reserveList) &&
      var c := CacheAfter(keys, |keys|, reserveList, loadReserve);
      && (forall i :: i in userPositions.liabilities ==> reserveList[i] in c)
      && (forall a :: a in c ==> c[a] == loadReserve(a))
      && (forall a :: a in c ==> exists i :: i in userPositions.liabilities && reserveList[i] == a)
  {
    var keys := SortedKeys(userPositions.liabilities.Keys, |reserveList|);
    var n := |keys|;
    SortedListing(userPositions, reserveList);
    var c := CacheAfter(keys, n, reserveList, loadReserve);
    MovedCache(keys, n, reserveList, loadReserve);
    forall i | i in userPositions.liabilities
      ensures reserveList[i] in c
    {
      KeySetListed(keys, n);
      var j :| 0 <= j < n && keys[j] == i;
    }
    forall a | a in c
      ensures exists i :: i in userPositions.liabilities && reserveList[i] == a
    {
      MovedCacheOnly(keys, n, reserveList, loadReserve);
      var j :| 0 <= j < n && reserveList[keys[j]] == a;
    }
  }

  /** The whole loop publishes one event per reserve the user owed, naming
      the asset and the amount, in ascending index order. */
  lemma BadDebtEventsInOrder(user: Address, userPositions: Positions, reserveList: seq<Address>)
    requires userPositions.Valid()
    requires forall i :: i in userPositions.liabilities ==> i < |reserveList|
    ensures var keys := SortedKeys(userPositions.liabilities.Keys, |reserveList|);
      Listing(keys, userPositions.liabilities, reserveList) &&
      var e := EventsAfter(user, keys, |keys|, userPositions, reserveList);
      && |e| == |keys| == |userPositions.liabilities|
      && forall j :: 0 <= j < |keys| ==> e[j] == BadDebtEvent(user, reserveList[keys[j]], userPositions.liabilities[keys[j]])
  {
    var keys := SortedKeys(userPositions.liabilities.Keys, |reserveList|);
    SortedListing(userPositions, reserveList);
    MovedEvents(user, keys, |keys|, userPositions, reserveList);
  }

  /** The loop of `transfer_bad_debt_to_backstop`, over the user's liability
      indices `keys` in ascending order: the new positions of both users, the
      reserve cache and the events. */
  method MoveLiabilities(
    user: Address, keys: seq<nat>,
    userPositions: Positions, backstopPositions: Positions,
    reserveList: seq<Address>, loadReserve: Address -> ReserveData)
    returns (newUser: Positions, newBackstop: Positions, cache: map<Address, ReserveData>, events: seq<BadDebtEvent>)
    requires Listing(keys, userPositions.liabilities, reserveList)
    ensures newUser == UserAfter(keys, |keys|, userPositions)
    ensures newBackstop == BackstopAfter(keys, |keys|, userPositions, backstopPositions)
    ensures cache == CacheAfter(keys, |keys|, reserveList, loadReserve)
    ensures events == EventsAfter(user, keys, |keys|, userPositions, reserveList)
  {
    newUser, newBackstop, cache, events := userPositions, backstopPositions, map[], [];
    for k := 0 to |keys|
      invariant newUser == UserAfter(keys, k, userPositions)
      invariant newBackstop == BackstopAfter(keys, k, userPositions, backstopPositions)
      invariant cache == CacheAfter(keys, k, reserveList, loadReserve)
      invariant events == EventsAfter(user, keys, k, userPositions, reserveList)
    {
      var reserveIndex := keys[k];
      var liabilityBalance := userPositions.liabilities[reserveIndex];
      var asset := reserveList[reserveIndex];
      var reserve := if asset in cache then cache[asset] else loadReserve(asset);
      var added := AddLiabilities(newBackstop, reserve, reserveIndex, liabilityBalance);
      PassStep(keys, k, userPositions, backstopPositions, reserveList, reserve);
      newBackstop, reserve := added.0, added.1;
      var removed := RemoveLiabilities(newUser, reserve, reserveIndex, liabilityBalance);
      newUser, reserve := removed.value.0, removed.value.1;
      cache := cache[asset := reserve];
      events := events + [BadDebtEvent(user, asset, liabilityBalance)];
    }
  }

  /** `transfer_bad_debt_to_backstop`.  `loadReserve` is the pool's reserve
      loader (with interest accrued up to now), and `reserveList` maps each
      reserve index to its asset.  A user holds bad debt when they owe
      something and have no collateral; the backstop cannot hold bad debt of
      its own.  On success the pool commits its reserve cache, then stores the
      backstop's positions, then the user's. */
  method TransferBadDebtToBackstop(
    user: Address, backstop: Address,
    userPositions: Positions, backstopPositions: Positions,
    reserveList: seq<Address>, loadReserve: Address -> ReserveData)
    returns (res: Result<BadDebtTransfer, PoolError>)
    requires userPositions.Valid()
    requires forall i :: i in userPositions.liabilities ==> i < |reserveList|
    ensures res.Err? <==> user == backstop || |userPositions.collateral| > 0 || !userPositions.HasLiabilities()
    ensures res.Err? ==> res.error == BadRequest
    ensures res.Ok? ==>
      var keys := SortedKeys(userPositions.liabilities.Keys, |reserveList|);
      Indexed(keys, reserveList) &&
      res.value == BadDebtTransfer(EventsAfter(user, keys, |keys|, userPositions, reserveList),
        [ReservesStored(CacheAfter(keys, |keys|, reserveList, loadReserve)),
         PositionsStored(backstop, BackstopAfter(keys, |keys|, userPositions, backstopPositions)),
         PositionsStored(user, UserAfter(keys, |keys|, userPositions))])
  {
    if user == backstop {
      return Err(BadRequest);
    }
    if |userPositions.collateral| > 0 || !userPositions.HasLiabilities() {
      return Err(BadRequest);
    }
    var keys := SortedKeys(userPositions.liabilities.Keys, |reserveList|);
    SortedListing(userPositions, reserveList);
    var newUser, newBackstop, cache, events := MoveLiabilities(user, keys, userPositions, backstopPositions, reserveList, loadReserve);
    return Ok(BadDebtTransfer(events, [ReservesStored(cache), PositionsStored(backstop, newBackstop), PositionsStored(user, newUser)]));
  }
}
