/** Backstop emissions: a reward-per-share accumulator.

    Each pool with an emission configuration has an index that grows by the
    emitted tokens per unqueued backstop share, 7 decimals.  Each depositor
    keeps a snapshot of the index and the tokens accrued up to it.  An update
    brings the pool index to the current time, then credits the depositor with
    `shares * (pool index - user index)`.  A claim also hands the accrued
    tokens out and zeroes them.

    The pure functions `AdvancedIndex`, `UserUpdate` and `Distribute` state
    what one call does to the stored data.  The class `EmissionStore` holds
    the three storage maps, and its methods perform the same steps in place. */
module Emissions {
  import opened Outcomes
  import opened Addresses
  import opened FixedPoint

  /** `BackstopEmissionConfig`: emissions per second (7 decimals) until `expiration`. */
  datatype EmissionConfig = EmissionConfig(expiration: nat, eps: nat)

  /** `BackstopEmissionsData`: the pool index and when it was last advanced. */
  datatype EmissionsData = EmissionsData(index: int, lastTime: nat)

  /** `UserEmissionData`: the index a depositor was last credited at, and the
      tokens accrued but not yet claimed. */
  datatype UserEmissionData = UserEmissionData(index: int, accrued: int)

  /** The pool's backstop balance: shares, tokens and shares queued for withdrawal. */
  datatype PoolBalance = PoolBalance(shares: int, tokens: int, q4w: int)

  /** A depositor's backstop shares (the withdrawal queue is not read here). */
  datatype UserBalance = UserBalance(shares: int)

  /** `NegativeAmount` is the backstop's error #8; `ArithmeticError` stands for
      the panics of an unsigned subtraction that underflows or a checked
      division by zero; `MissingData` for unwrapping absent pool data. */
  datatype BackstopError = NegativeAmount | ArithmeticError | MissingData

  /** The stored emission state of the backstop. */
  datatype EmissionsState = EmissionsState(
    configs: map<Address, EmissionConfig>,
    poolData: map<Address, EmissionsData>,
    userData: map<(Address, Address), UserEmissionData>)

  /** What one user update does to the user's record. */
  datatype UserStep = Unchanged | Stored(data: UserEmissionData, payout: int)

  /** The result of `update_emissions` or `claim_emissions`. */
  datatype Distribution = Distribution(state: EmissionsState, payout: int)

  /** The pool index is already current (or can no longer move) and is
      returned as stored. */
  predicate IndexIsCurrent(data: EmissionsData, config: EmissionConfig, balance: PoolBalance, now: nat) {
    data.lastTime >= config.expiration || now == data.lastTime || config.eps == 0 || balance.shares == 0
  }

  /** The end of the emission window seen from `now`. */
  function EmissionEnd(config: EmissionConfig, now: nat): (t: nat)
    ensures t <= now && t <= config.expiration
    ensures t == now || t == config.expiration
  {
    if now > config.expiration then config.expiration else now
  }

  /** `update_emission_data_with_config`, on values: advance the pool index to `now`. */
  function AdvancedIndex(data: EmissionsData, config: EmissionConfig, balance: PoolBalance, now: nat): Result<EmissionsData, BackstopError> {
    if IndexIsCurrent(data, config, balance, now) then Ok(data)
    else
      var maxTimestamp := EmissionEnd(config, now);
      var unqueuedShares := balance.shares - balance.q4w;
      if unqueuedShares < 0 then Err(NegativeAmount)
      else if maxTimestamp < data.lastTime then Err(ArithmeticError)
      else match DivFloor((maxTimestamp - data.lastTime) * config.eps, unqueuedShares, SCALAR_7)
        case None => Err(ArithmeticError)
        case Some(additional) => Ok(EmissionsData(additional + data.index, now))
  }

  /** `set_user_emissions`: store the snapshot at `index`; a claim pays out
      everything accrued and stores zero, an update pays nothing and stores
      the accrual. */
  function SetUserEmissions(index: int, accrued: int, toClaim: bool): (s: UserStep)
    ensures s.Stored? && s.data.index == index
    ensures s.payout + s.data.accrued == accrued
    ensures toClaim ==> s.data.accrued == 0
    ensures !toClaim ==> s.payout == 0
  {
    if toClaim then Stored(UserEmissionData(index, 0), accrued)
    else Stored(UserEmissionData(index, accrued), 0)
  }

  /** `update_user_emissions`, on values: `record` is the stored snapshot, if any. */
  function UserUpdate(record: Option<UserEmissionData>, index: int, shares: int, toClaim: bool): Result<UserStep, BackstopError> {
    match record
    case Some(user) =>
      if user.index != index || toClaim then
        if shares != 0 then
          var deltaIndex := index - user.index;
          if deltaIndex < 0 then Err(NegativeAmount)
          else Ok(SetUserEmissions(index, user.accrued + MulFloor(shares, deltaIndex, SCALAR_7), toClaim))
        else
          Ok(SetUserEmissions(index, user.accrued, toClaim))
      else
        Ok(Unchanged)
    case None =>
      if shares == 0 then Ok(SetUserEmissions(index, 0, toClaim))
      else Ok(SetUserEmissions(index, MulFloor(shares, index, SCALAR_7), toClaim))
  }

  /** The stored snapshot of `key`, if any. */
  function Record(userData: map<(Address, Address), UserEmissionData>, key: (Address, Address)): (r: Option<UserEmissionData>)
    ensures r.Some? <==> key in userData
    ensures r.Some? ==> r.value == userData[key]
  {
    if key in userData then Some(userData[key]) else None
  }

  /** The tokens a user step hands out. */
  function Payout(step: UserStep): (p: int)
    ensures step.Unchanged? ==> p == 0
  {
    if step.Stored? then step.payout else 0
  }

  /** The user map after a user step. */
  function ApplyStep(userData: map<(Address, Address), UserEmissionData>, key: (Address, Address), step: UserStep): (m: map<(Address, Address), UserEmissionData>)
    ensures step.Unchanged? ==> m == userData
    ensures step.Stored? ==> m == userData[key := step.data]
  {
    if step.Stored? then userData[key := step.data] else userData
  }

  /** `update_emissions` (`toClaim` false) and `claim_emissions` (`toClaim` true):
      advance the pool index if the pool emits, then update the user. */
  function Distribute(st: EmissionsState, pool: Address, poolBalance: PoolBalance, user: Address, userBalance: UserBalance, now: nat, toClaim: bool): Result<Distribution, BackstopError> {
    if pool !in st.configs then Ok(Distribution(st, 0))
    else if pool !in st.poolData then Err(MissingData)
    else match AdvancedIndex(st.poolData[pool], st.configs[pool], poolBalance, now)
      case Err(e) => Err(e)
      case Ok(data) =>
        match UserUpdate(Record(st.userData, (pool, user)), data.index, userBalance.shares, toClaim)
        case Err(e) => Err(e)
        case Ok(step) =>
          Ok(Distribution(
            st.(poolData := st.poolData[pool := data], userData := ApplyStep(st.userData, (pool, user), step)),
            Payout(step)))
  }

  /** The backstop's emission storage. */
  class EmissionStore {
    var configs: map<Address, EmissionConfig>
    var poolData: map<Address, EmissionsData>
    var userData: map<(Address, Address), UserEmissionData>

    constructor (st: EmissionsState)
      ensures State() == st
    {
      configs, poolData, userData := st.configs, st.poolData, st.userData;
    }

    function State(): EmissionsState
      reads this
    {
      EmissionsState(configs, poolData, userData)
    }

    /** `update_emission_data_with_config`: advance the index of `pool` and
        store it.  Nothing is written on an early return or a failure. */
    method UpdateEmissionDataWithConfig(pool: Address, balance: PoolBalance, config: EmissionConfig, now: nat)
      returns (res: Result<EmissionsData, BackstopError>)
      modifies this
      ensures pool !in old(poolData) ==> res == Err(MissingData)
      ensures pool in old(poolData) ==> res == AdvancedIndex(old(poolData)[pool], config, balance, now)
      ensures res.Ok? ==> poolData == old(poolData)[pool := res.value]
      ensures res.Err? ==> poolData == old(poolData)
      ensures configs == old(configs) && userData == old(userData)
    {
      if pool !in poolData {
        return Err(MissingData);
      }
      var emisData := poolData[pool];
      if emisData.lastTime >= config.expiration || now == emisData.lastTime || config.eps == 0 || balance.shares == 0 {
        return Ok(emisData);
      }
      var maxTimestamp := if now > config.expiration then config.expiration else now;
      var unqueuedShares := balance.shares - balance.q4w;
      if unqueuedShares < 0 {
        return Err(NegativeAmount);
      }
      if maxTimestamp < emisData.lastTime {
        return Err(ArithmeticError);
      }
      var additionalIdx := DivFloor((maxTimestamp - emisData.lastTime) * config.eps, unqueuedShares, SCALAR_7);
      if additionalIdx.None? {
        return Err(ArithmeticError);
      }
      var newData := EmissionsData(additionalIdx.value + emisData.index, now);
      poolData := poolData[pool := newData];
      return Ok(newData);
    }

    /** `update_emission_data`: `None` when the pool has no emission configuration. */
    method UpdateEmissionData(pool: Address, balance: PoolBalance, now: nat)
      returns (res: Result<Option<EmissionsData>, BackstopError>)
      modifies this
      ensures pool !in old(configs) ==> res == Ok(None) && poolData == old(poolData)
      ensures pool in old(configs) && pool !in old(poolData) ==> res == Err(MissingData)
      ensures pool in old(configs) && pool in old(poolData) ==>
        var adv := AdvancedIndex(old(poolData)[pool], old(configs)[pool], balance, now);
        && (adv.Err? ==> res == Err(adv.error))
        && (adv.Ok? ==> res == Ok(Some(adv.value)) && poolData == old(poolData)[pool := adv.value])
      ensures configs == old(configs) && userData == old(userData)
    {
      if pool !in configs {
        return Ok(None);
      }
      var data := UpdateEmissionDataWithConfig(pool, balance, configs[pool], now);
      if data.Err? {
        return Err(data.error);
      }
      return Ok(Some(data.value));
    }

    /** `set_user_emissions` */
    method SetUser(pool: Address, user: Address, index: int, accrued: int, toClaim: bool) returns (payout: int)
      modifies this
      ensures var step := SetUserEmissions(index, accrued, toClaim);
        payout == step.payout && userData == old(userData)[(pool, user) := step.data]
      ensures configs == old(configs) && poolData == old(poolData)
    {
      if toClaim {
        userData := userData[(pool, user) := UserEmissionData(index, 0)];
        payout := accrued;
      } else {
        userData := userData[(pool, user) := UserEmissionData(index, accrued)];
        payout := 0;
      }
    }

    /** `update_user_emissions`: credit `user` up to the pool index in `emisData`. */
    method UpdateUserEmissions(pool: Address, user: Address, emisData: EmissionsData, balance: UserBalance, toClaim: bool)
      returns (res: Result<int, BackstopError>)
      modifies this
      ensures var step := UserUpdate(Record(old(userData), (pool, user)), emisData.index, balance.shares, toClaim);
        && (res.Ok? <==> step.Ok?)
        && (res.Ok? ==> res.value == Payout(step.value) && userData == ApplyStep(old(userData), (pool, user), step.value))
        && (res.Err? ==> res.error == step.error && userData == old(userData))
      ensures configs == old(configs) && poolData == old(poolData)
    {
      if (pool, user) in userData {
        var userRecord := userData[(pool, user)];
        if userRecord.index != emisData.index || toClaim {
          var accrual := userRecord.accrued;
          if balance.shares != 0 {
            var deltaIndex := emisData.index - userRecord.index;
            if deltaIndex < 0 {
              return Err(NegativeAmount);
            }
            var toAccrue := MulFloor(balance.shares, deltaIndex, SCALAR_7);
            accrual := accrual + toAccrue;
          }
          var payout := SetUser(pool, user, emisData.index, accrual, toClaim);
          return Ok(payout);
        }
        return Ok(0);
      } else if balance.shares == 0 {
        var payout := SetUser(pool, user, emisData.index, 0, toClaim);
        return Ok(payout);
      } else {
        var toAccrue := MulFloor(balance.shares, emisData.index, SCALAR_7);
        var payout := SetUser(pool, user, emisData.index, toAccrue, toClaim);
        return Ok(payout);
      }
    }

    /** `update_emissions`.  A failure aborts the transaction, so the state
        it leaves is not specified. */
    method UpdateEmissions(pool: Address, poolBalance: PoolBalance, user: Address, userBalance: UserBalance, now: nat)
      returns (res: Outcome<BackstopError>)
      modifies this
      ensures var d := Distribute(old(State()), pool, poolBalance, user, userBalance, now, false);
        && (res.Pass? <==> d.Ok?)
        && (res.Pass? ==> State() == d.value.state)
        && (res.Fail? ==> res.error == d.error)
    {
      var emisData := UpdateEmissionData(pool, poolBalance, now);
      if emisData.Err? {
        return Fail(emisData.error);
      }
      if emisData.value.Some? {
        var paid := UpdateUserEmissions(pool, user, emisData.value.value, userBalance, false);
        if paid.Err? {
          return Fail(paid.error);
        }
      }
      return Pass;
    }

    /** `claim_emissions`: the tokens owed to `user`, which the caller sends. */
    method ClaimEmissions(pool: Address, poolBalance: PoolBalance, user: Address, userBalance: UserBalance, now: nat)
      returns (res: Result<int, BackstopError>)
      modifies this
      ensures var d := Distribute(old(State()), pool, poolBalance, user, userBalance, now, true);
        && (res.Ok? <==> d.Ok?)
        && (res.Ok? ==> res.value == d.value.payout && State() == d.value.state)
        && (res.Err? ==> res.error == d.error)
    {
      var emisData := UpdateEmissionData(pool, poolBalance, now);
      if emisData.Err? {
        return Err(emisData.error);
      }
      if emisData.value.None? {
        return Ok(0);
      }
      res := UpdateUserEmissions(pool, user, emisData.value.value, userBalance, true);
    }
  }
}
