/** The per-asset ledger of a lending pool.

    A reserve records two exchange rates: `dRate` turns liability tokens
    (d-tokens) into underlying, and `bRate` turns supply tokens (b-tokens) into
    underlying.  Both are 9-decimal fixed point.  Every conversion rounds in the
    protocol's favour: debts round up, claims round down.

    `ReserveData` is the part of a reserve that the ledger stores and `load`
    updates.  It carries the conversions and the two state transitions as
    functions (`Gulped` and `Loaded`).  The class `Reserve` is the in-memory
    struct that `gulp` and `load` change in place.  Its methods are proved
    against those functions. */
module Reserves {
  import opened Outcomes
  import opened Addresses
  import opened FixedPoint

  /** The pool's error codes that the modelled code raises.  `ArithmeticError`
      stands for the panic of an unwrapped checked division by zero. */
  datatype PoolError =
    | BadRequest        // #1200
    | InvalidHf         // #1205
    | InvalidUtilRate   // #1207
    | ReserveDisabled   // #1223
    | NegativeAmount    // #8: a result that must not be negative is negative
    | ArithmeticError

  /** The kinds of request a user can submit.  `Other` stands for the
      auction requests only (the request codes other than the six named
      here), which the reserve gate never blocks. */
  datatype RequestType =
    | Supply | Withdraw | SupplyCollateral | WithdrawCollateral | Borrow | Repay
    | Other(code: nat)

  /** The stored configuration of a reserve (the fields the core reads). */
  datatype ReserveConfig = ReserveConfig(
    index: nat,
    decimals: nat,
    cFactor: nat,     // collateral factor, 7 decimals
    lFactor: nat,     // liability factor, 7 decimals
    maxUtil: nat,     // maximum utilization, 7 decimals
    collateralCap: int,
    enabled: bool)

  /** The output of the interest-rate curve for one accrual step: the factor
      by which `dRate` grows (9 decimals) and the new rate modifier. */
  datatype Accrual = Accrual(loanAccrual: nat, irMod: int)

  /** `10^n`, the base of an asset with `n` decimals. */
  function Pow10(n: nat): (r: nat)
    ensures r >= 1
  {
    if n == 0 then 1 else 10 * Pow10(n - 1)
  }

  /** The part of the backstop take `bstopRate` on `accrued` interest, rounded
      down.  A take of at most 100% never exceeds the interest itself. */
  function BackstopShare(accrued: int, bstopRate: nat): (c: nat)
    requires accrued > 0 && bstopRate <= SCALAR_7
    ensures c <= accrued
    ensures bstopRate < SCALAR_7 ==> c < accrued
    ensures bstopRate == 0 ==> c == 0
    ensures bstopRate > 0 ==> c * SCALAR_7 <= accrued * bstopRate < c * SCALAR_7 + SCALAR_7
  {
    if bstopRate > 0 then
      assert accrued * bstopRate <= accrued * SCALAR_7;
      FloorDivAtMost(accrued * bstopRate, SCALAR_7, accrued);
      if bstopRate < SCALAR_7 then
        assert accrued * bstopRate < accrued * SCALAR_7;
        FloorDivAtMost(accrued * bstopRate, SCALAR_7, accrued - 1);
        MulFloor(accrued, bstopRate, SCALAR_7)
      else
        MulFloor(accrued, bstopRate, SCALAR_7)
    else
      0
  }

  /** The stored data of a reserve. */
  datatype ReserveData = ReserveData(
    dRate: nat,          // d-token to underlying, 9 decimals
    bRate: nat,          // b-token to underlying, 9 decimals
    irMod: int,          // interest rate curve modifier, 9 decimals
    bSupply: nat,        // total b-tokens
    dSupply: nat,        // total d-tokens
    backstopCredit: nat, // underlying owed to the backstop
    lastTime: nat)       // timestamp of the last accrual
  {
    /** Underlying owed for `dTokens` (rounded up). */
    function ToAssetFromDToken(dTokens: int): (r: int)
      ensures r * SCALAR_9 - SCALAR_9 < dTokens * dRate <= r * SCALAR_9
      ensures dTokens >= 0 ==> r >= 0
    {
      MulCeil(dTokens, dRate, SCALAR_9)
    }

    /** Underlying claimable for `bTokens` (rounded down). */
    function ToAssetFromBToken(bTokens: int): (r: int)
      ensures r * SCALAR_9 <= bTokens * bRate < r * SCALAR_9 + SCALAR_9
      ensures bTokens >= 0 ==> r >= 0
    {
      MulFloor(bTokens, bRate, SCALAR_9)
    }

    /** d-tokens for `amount` underlying, rounded up (what a borrower owes). */
    function ToDTokenUp(amount: int): (r: Option<int>)
      ensures r.None? <==> dRate == 0
      ensures r.Some? ==> r.value * dRate - dRate < amount * SCALAR_9 <= r.value * dRate
    {
      DivCeil(amount, dRate, SCALAR_9)
    }

    /** d-tokens for `amount` underlying, rounded down (what a repayment burns). */
    function ToDTokenDown(amount: int): (r: Option<int>)
      ensures r.None? <==> dRate == 0
      ensures r.Some? ==> r.value * dRate <= amount * SCALAR_9 < r.value * dRate + dRate
    {
      DivFloor(amount, dRate, SCALAR_9)
    }

    /** b-tokens for `amount` underlying, rounded up (what a withdrawal burns). */
    function ToBTokenUp(amount: int): (r: Option<int>)
      ensures r.None? <==> bRate == 0
      ensures r.Some? ==> r.value * bRate - bRate < amount * SCALAR_9 <= r.value * bRate
    {
      DivCeil(amount, bRate, SCALAR_9)
    }

    /** b-tokens for `amount` underlying, rounded down (what a deposit mints). */
    function ToBTokenDown(amount: int): (r: Option<int>)
      ensures r.None? <==> bRate == 0
      ensures r.Some? ==> r.value * bRate <= amount * SCALAR_9 < r.value * bRate + bRate
    {
      DivFloor(amount, bRate, SCALAR_9)
    }

    /** All the underlying owed to the reserve. */
    function TotalLiabilities(): (r: int)
      ensures r >= 0
    {
      ToAssetFromDToken(dSupply)
    }

    /** All the underlying supplied to the reserve. */
    function TotalSupply(): (r: int)
      ensures r >= 0
    {
      ToAssetFromBToken(bSupply)
    }

    /** Liabilities over supply, 7 decimals, rounded up; `None` when the supply
        is worth nothing. */
    function Utilization(): (r: Option<int>)
      ensures r.None? <==> TotalSupply() == 0
      ensures r.Some? ==> r.value >= 0
      ensures r.Some? ==> r.value * TotalSupply() - TotalSupply() < TotalLiabilities() * SCALAR_7 <= r.value * TotalSupply()
    {
      DivCeil(TotalLiabilities(), TotalSupply() as nat, SCALAR_7)
    }

    /** The utilization cap check on this data, with cap `maxUtil` (7
        decimals). */
    function CheckUtilization(maxUtil: nat): (r: Outcome<PoolError>)
      ensures r == Fail(ArithmeticError) <==> TotalSupply() == 0
      ensures r == Fail(InvalidUtilRate) <==>
        TotalSupply() > 0 && TotalLiabilities() * SCALAR_7 > maxUtil * TotalSupply()
      ensures r.Fail? ==> r.error == ArithmeticError || r.error == InvalidUtilRate
    {
      match Utilization()
      case None => Fail(ArithmeticError)
      case Some(util) =>
        CeilDivExceeds(TotalLiabilities() * SCALAR_7, TotalSupply(), maxUtil);
        if util > maxUtil then Fail(InvalidUtilRate) else Pass
    }

    /** `gulp`: distribute `accrued` underlying to the suppliers, less the
        backstop's take.  Interest that is not positive changes nothing. */
    function Gulped(bstopRate: nat, accrued: int): Result<ReserveData, PoolError>
      requires bstopRate <= SCALAR_7
    {
      if accrued <= 0 then Ok(this)
      else
        var credit := BackstopShare(accrued, bstopRate);
        match DivFloor(TotalSupply() + accrued - credit, bSupply, SCALAR_9)
        case None => Err(ArithmeticError)
        case Some(rate) => Ok(this.(backstopCredit := backstopCredit + credit, bRate := rate))
    }
  }

  /** `load`: bring stored reserve data up to the timestamp `now`, with
      `accrual` the interest curve's output for the current utilization. */
  function Loaded(data: ReserveData, bstopRate: nat, now: nat, accrual: Accrual): Result<ReserveData, PoolError>
    requires bstopRate <= SCALAR_7
  {
    if now == data.lastTime then Ok(data)
    else if data.bSupply == 0 then Ok(data.(lastTime := now))
    else match data.Utilization()
      case None => Err(ArithmeticError)
      case Some(util) =>
        if util == 0 then Ok(data.(lastTime := now))
        else
          var accrued := data.(irMod := accrual.irMod, dRate := MulCeil(accrual.loanAccrual, data.dRate, SCALAR_9));
          match accrued.Gulped(bstopRate, accrued.TotalLiabilities() - data.TotalLiabilities())
          case Err(e) => Err(e)
          case Ok(gulped) => Ok(gulped.(lastTime := now))
  }

  /** The in-memory reserve.  The configuration part is fixed once loaded;
      the data part is what `gulp` and `load` update. */
  class Reserve {
    const asset: Address
    const index: nat
    const lFactor: nat
    const cFactor: nat
    const maxUtil: nat
    const scalar: nat
    const collateralCap: int
    const enabled: bool
    var lastTime: nat
    var dRate: nat
    var bRate: nat
    var irMod: int
    var bSupply: nat
    var dSupply: nat
    var backstopCredit: nat

    /** Assemble a reserve from its stored configuration and data. */
    constructor (asset: Address, config: ReserveConfig, data: ReserveData)
      ensures this.asset == asset && Data() == data
      ensures index == config.index && lFactor == config.lFactor && cFactor == config.cFactor
      ensures maxUtil == config.maxUtil && scalar == Pow10(config.decimals)
      ensures collateralCap == config.collateralCap && enabled == config.enabled
    {
      this.asset := asset;
      index := config.index;
      lFactor := config.lFactor;
      cFactor := config.cFactor;
      maxUtil := config.maxUtil;
      lastTime := data.lastTime;
      scalar := Pow10(config.decimals);
      dRate := data.dRate;
      bRate := data.bRate;
      irMod := data.irMod;
      bSupply := data.bSupply;
      dSupply := data.dSupply;
      backstopCredit := data.backstopCredit;
      collateralCap := config.collateralCap;
      enabled := config.enabled;
    }

    /** The data that `store` writes back to the ledger. */
    function Data(): ReserveData
      reads this
    {
      ReserveData(dRate, bRate, irMod, bSupply, dSupply, backstopCredit, lastTime)
    }

    /** Liability value weighted by the liability factor (divided, rounded up). */
    function ToEffectiveAssetFromDToken(dTokens: int): (r: Option<int>)
      reads this
      ensures r.None? <==> lFactor == 0
      ensures r.Some? ==> r.value * lFactor - lFactor < Data().ToAssetFromDToken(dTokens) * SCALAR_7 <= r.value * lFactor
    {
      DivCeil(Data().ToAssetFromDToken(dTokens), lFactor, SCALAR_7)
    }

    /** Collateral value weighted by the collateral factor (multiplied, rounded down). */
    function ToEffectiveAssetFromBToken(bTokens: int): (r: int)
      reads this
      ensures r * SCALAR_7 <= Data().ToAssetFromBToken(bTokens) * cFactor < r * SCALAR_7 + SCALAR_7
    {
      MulFloor(Data().ToAssetFromBToken(bTokens), cFactor, SCALAR_7)
    }

    /** `require_utilization_below_max`: refuses exactly when liabilities
        exceed `maxUtil` of the supply, in exact arithmetic (the rounded-up
        utilization makes the comparison strict). */
    function RequireUtilizationBelowMax(): (r: Outcome<PoolError>)
      reads this
      ensures r == Fail(ArithmeticError) <==> Data().TotalSupply() == 0
      ensures r == Fail(InvalidUtilRate) <==>
        Data().TotalSupply() > 0 && Data().TotalLiabilities() * SCALAR_7 > maxUtil * Data().TotalSupply()
      ensures r.Fail? ==> r.error == ArithmeticError || r.error == InvalidUtilRate
    {
      Data().CheckUtilization(maxUtil)
    }

    /** `require_action_allowed`: a disabled reserve refuses deposits and borrows. */
    function RequireActionAllowed(action: RequestType): (r: Outcome<PoolError>)
      reads this
      ensures r.Fail? ==> !enabled && r.error == ReserveDisabled
      ensures enabled ==> r.Pass?
      ensures action.Withdraw? || action.WithdrawCollateral? || action.Repay? || action.Other? ==> r.Pass?
      ensures !enabled && (action.Supply? || action.SupplyCollateral? || action.Borrow?) ==> r.Fail?
    {
      if !enabled && (action == Supply || action == SupplyCollateral || action == Borrow) then
        Fail(ReserveDisabled)
      else
        Pass
    }

    /** `gulp`, in place.  On failure the transaction aborts, so the state left
        behind is not specified. */
    method Gulp(bstopRate: nat, accrued: int) returns (res: Outcome<PoolError>)
      requires bstopRate <= SCALAR_7
      modifies this
      ensures res.Pass? <==> old(Data()).Gulped(bstopRate, accrued).Ok?
      ensures res.Pass? ==> Data() == old(Data()).Gulped(bstopRate, accrued).value
      ensures res.Fail? ==> res.error == ArithmeticError
    {
      var preUpdateSupply := Data().TotalSupply();
      if accrued > 0 {
        var newBackstopCredit: nat := 0;
        if bstopRate > 0 {
          newBackstopCredit := MulFloor(accrued, bstopRate, SCALAR_7);
          backstopCredit := backstopCredit + newBackstopCredit;
        }
        assert newBackstopCredit == BackstopShare(accrued, bstopRate);
        var rate := DivFloor(preUpdateSupply + accrued - newBackstopCredit, bSupply, SCALAR_9);
        if rate.None? {
          return Fail(ArithmeticError);
        }
        bRate := rate.value;
      }
      return Pass;
    }

    /** `load`: build the reserve from storage and accrue interest up to `now`
        step by step, with the same early returns. */
    static method Load(asset: Address, config: ReserveConfig, data: ReserveData, bstopRate: nat, now: nat, accrual: Accrual)
      returns (res: Result<Reserve, PoolError>)
      requires bstopRate <= SCALAR_7
      ensures res.Ok? <==> Loaded(data, bstopRate, now, accrual).Ok?
      ensures res.Ok? ==> fresh(res.value) && res.value.Data() == Loaded(data, bstopRate, now, accrual).value
      ensures res.Ok? ==> res.value.asset == asset && res.value.index == config.index && res.value.enabled == config.enabled
      ensures res.Ok? ==> res.value.maxUtil == config.maxUtil && res.value.lFactor == config.lFactor && res.value.cFactor == config.cFactor
      ensures res.Ok? ==> res.value.scalar == Pow10(config.decimals) && res.value.collateralCap == config.collateralCap
      ensures res.Err? ==> res.error == Loaded(data, bstopRate, now, accrual).error
    {
      var reserve := new Reserve(asset, config, data);
      if now == reserve.lastTime {
        return Ok(reserve);
      }
      if reserve.bSupply == 0 {
        reserve.lastTime := now;
        return Ok(reserve);
      }
      var curUtil := reserve.Data().Utilization();
      if curUtil.None? {
        return Err(ArithmeticError);
      }
      if curUtil.value == 0 {
        reserve.lastTime := now;
        return Ok(reserve);
      }
      reserve.irMod := accrual.irMod;
      var preUpdateLiabilities := reserve.Data().TotalLiabilities();
      reserve.dRate := MulCeil(accrual.loanAccrual, reserve.dRate, SCALAR_9);
      var accruedInterest := reserve.Data().TotalLiabilities() - preUpdateLiabilities;
      // The supply is not zero here, so the division inside gulp cannot fail.
      var gulped := reserve.Gulp(bstopRate, accruedInterest);
      assert gulped.Pass?;
      reserve.lastTime := now;
      return Ok(reserve);
    }
  }
}
