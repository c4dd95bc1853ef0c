/** A user's positions in the pool, keyed by reserve index.

    The `User` type that owns these maps (and adds or removes liabilities
    while adjusting the reserve's d-token supply) is not part of this model;
    its two liability operations appear here as functions on values, with the
    behaviour the bad-debt and flash-loan code rely on. */
module Positions {
  import opened Outcomes
  import opened Addresses
  import opened Reserves

  /** `Positions`: d-tokens owed, b-tokens held as collateral and b-tokens
      supplied without collateral, per reserve index. */
  datatype Positions = Positions(liabilities: map<nat, int>, collateral: map<nat, int>, supply: map<nat, int>)
  {
    predicate HasLiabilities() {
      |liabilities| > 0
    }

    /** Every recorded amount is positive: a position that reaches zero is
        removed rather than kept at zero. */
    predicate Valid() {
      && (forall i :: i in liabilities ==> liabilities[i] > 0)
      && (forall i :: i in collateral ==> collateral[i] > 0)
      && (forall i :: i in supply ==> supply[i] > 0)
    }

    /** The d-tokens owed to reserve `i`, zero when none. */
    function Liability(i: nat): (r: int)
      ensures i !in liabilities ==> r == 0
      ensures i in liabilities ==> r == liabilities[i]
    {
      if i in liabilities then liabilities[i] else 0
    }
  }

  /** Positions holding nothing. */
  const Empty := Positions(map[], map[], map[])

  /** `add_liabilities`: owe `amount` more d-tokens of `reserve` (its index
      `index`), and count them in the reserve's d-token supply. */
  function AddLiabilities(p: Positions, data: ReserveData, index: nat, amount: nat): (r: (Positions, ReserveData))
    ensures r.0.liabilities == p.liabilities[index := p.Liability(index) + amount]
    ensures r.0.collateral == p.collateral && r.0.supply == p.supply
    ensures r.1 == data.(dSupply := data.dSupply + amount)
  {
    (p.(liabilities := p.liabilities[index := p.Liability(index) + amount]),
     data.(dSupply := data.dSupply + amount))
  }

  /** `remove_liabilities`: owe `amount` fewer d-tokens, dropping the entry
      when it reaches zero; owing a negative amount is refused.  The reserve's
      supply counts every user's d-tokens, so it covers `amount`. */
  function RemoveLiabilities(p: Positions, data: ReserveData, index: nat, amount: nat): (r: Result<(Positions, ReserveData), PoolError>)
    requires data.dSupply >= amount
    ensures r.Err? <==> p.Liability(index) < amount
    ensures r.Err? ==> r.error == NegativeAmount
    ensures r.Ok? ==> r.value.0.collateral == p.collateral && r.value.0.supply == p.supply
    ensures r.Ok? ==> r.value.0.Liability(index) == p.Liability(index) - amount
    ensures r.Ok? ==> (index in r.value.0.liabilities <==> p.Liability(index) > amount)
    ensures r.Ok? ==> forall i :: i != index ==> r.value.0.Liability(i) == p.Liability(i)
    ensures r.Ok? ==> r.value.0.liabilities.Keys <= p.liabilities.Keys + {index}
    ensures r.Ok? && p.Liability(index) == amount ==> r.value.0.liabilities == p.liabilities - {index}
    ensures r.Ok? ==> r.value.1 == data.(dSupply := data.dSupply - amount)
  {
    var balance := p.Liability(index) - amount;
    if balance < 0 then Err(NegativeAmount)
    else
      var liabilities := if balance == 0 then p.liabilities - {index} else p.liabilities[index := balance];
      Ok((p.(liabilities := liabilities), data.(dSupply := data.dSupply - amount)))
  }

  /** A write to the pool's storage: the reserves it caches, or one
      user's positions. */
  datatype Write =
    | ReservesStored(reserves: map<Address, ReserveData>)
    | PositionsStored(owner: Address, positions: Positions)
}
