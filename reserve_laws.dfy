/** What the reserve's conversions, `gulp` and `load` guarantee. */
module ReserveLaws {
  import opened Outcomes
  import opened FixedPoint
  import opened Reserves

  // ---------------------------------------------------------------------
  // Conversions round in the pool's favour
  // ---------------------------------------------------------------------

  /** A borrower who receives `amount` owes at least `amount`. */
  lemma BorrowOwesAtLeastAmount(data: ReserveData, amount: int)
    requires data.dRate > 0 && amount >= 0
    ensures data.ToDTokenUp(amount).Some?
    ensures data.ToAssetFromDToken(data.ToDTokenUp(amount).value) >= amount
  {
    var t := data.ToDTokenUp(amount).value;
    CeilDivAtLeast(t * data.dRate, SCALAR_9, amount);
  }

  /** A repayment of `amount` burns debt worth at most `amount`. */
  lemma RepayBurnsAtMostAmount(data: ReserveData, amount: int)
    requires data.dRate > 0 && amount >= 0
    ensures data.ToDTokenDown(amount).Some?
    ensures data.ToAssetFromDToken(data.ToDTokenDown(amount).value) <= amount
  {
    var t := data.ToDTokenDown(amount).value;
    var q := data.ToAssetFromDToken(t);
    assert (q - 1) * SCALAR_9 == q * SCALAR_9 - SCALAR_9;
    ScaledLess(q - 1, amount, SCALAR_9);
  }

  /** A deposit of `amount` mints b-tokens worth at most `amount`. */
  lemma DepositMintsAtMostAmount(data: ReserveData, amount: int)
    requires data.bRate > 0 && amount >= 0
    ensures data.ToBTokenDown(amount).Some?
    ensures data.ToAssetFromBToken(data.ToBTokenDown(amount).value) <= amount
  {
    var t := data.ToBTokenDown(amount).value;
    FloorDivAtMost(t * data.bRate, SCALAR_9, amount);
  }

  /** A withdrawal of `amount` burns b-tokens worth at least `amount`. */
  lemma WithdrawBurnsAtLeastAmount(data: ReserveData, amount: int)
    requires data.bRate > 0 && amount >= 0
    ensures data.ToBTokenUp(amount).Some?
    ensures data.ToAssetFromBToken(data.ToBTokenUp(amount).value) >= amount
  {
    var t := data.ToBTokenUp(amount).value;
    FloorDivAtLeast(t * data.bRate, SCALAR_9, amount);
  }

  /** Rounding up and down give token counts at most one apart, equal exactly
      when the conversion is exact; with a zero rate both fail. */
  lemma TokenRoundingGap(data: ReserveData, amount: int)
    ensures data.ToDTokenUp(amount).None? <==> data.dRate == 0
    ensures data.ToDTokenDown(amount).None? <==> data.dRate == 0
    ensures data.ToBTokenUp(amount).None? <==> data.bRate == 0
    ensures data.ToBTokenDown(amount).None? <==> data.bRate == 0
    ensures data.dRate > 0 ==> 0 <= data.ToDTokenUp(amount).value - data.ToDTokenDown(amount).value <= 1
    ensures data.dRate > 0 ==>
      (data.ToDTokenUp(amount) == data.ToDTokenDown(amount) <==> (amount * SCALAR_9) % data.dRate == 0)
    ensures data.bRate > 0 ==> 0 <= data.ToBTokenUp(amount).value - data.ToBTokenDown(amount).value <= 1
    ensures data.bRate > 0 ==>
      (data.ToBTokenUp(amount) == data.ToBTokenDown(amount) <==> (amount * SCALAR_9) % data.bRate == 0)
  {
    if data.dRate > 0 {
      CeilFloorGap(amount * SCALAR_9, data.dRate);
    }
    if data.bRate > 0 {
      CeilFloorGap(amount * SCALAR_9, data.bRate);
    }
  }

  /** At the same rate, a token counted as debt is worth the same or one unit
      more than the same token counted as a claim. */
  lemma DebtRoundsAboveClaim(data: ReserveData, tokens: int)
    requires data.dRate == data.bRate
    ensures 0 <= data.ToAssetFromDToken(tokens) - data.ToAssetFromBToken(tokens) <= 1
  {
    CeilFloorGap(tokens * data.dRate, SCALAR_9);
  }

  /** Converting debt to underlying and back up never forgives a d-token;
      while a d-token is worth at least one unit, converting back down
      recovers the exact token count. */
  lemma DTokenRoundTrip(data: ReserveData, dTokens: int)
    requires data.dRate > 0 && dTokens >= 0
    ensures data.ToDTokenUp(data.ToAssetFromDToken(dTokens)).value >= dTokens
    ensures data.dRate >= SCALAR_9 ==> data.ToDTokenDown(data.ToAssetFromDToken(dTokens)) == Some(dTokens)
  {
    var a := data.ToAssetFromDToken(dTokens);
    if data.dRate >= SCALAR_9 {
      assert a * SCALAR_9 < (dTokens + 1) * data.dRate;
      FloorDivAtMost(a * SCALAR_9, data.dRate, dTokens);
    }
    FloorDivAtLeast(a * SCALAR_9, data.dRate, dTokens);
    CeilDivAtLeast(a * SCALAR_9, data.dRate, dTokens);
  }

  /** Converting a claim to underlying and back down never yields an extra
      b-token; while a b-token is worth at least one unit, converting back up
      recovers the exact token count. */
  lemma BTokenRoundTrip(data: ReserveData, bTokens: int)
    requires data.bRate > 0 && bTokens >= 0
    ensures data.ToBTokenDown(data.ToAssetFromBToken(bTokens)).value <= bTokens
    ensures data.bRate >= SCALAR_9 ==> data.ToBTokenUp(data.ToAssetFromBToken(bTokens)) == Some(bTokens)
  {
    var a := data.ToAssetFromBToken(bTokens);
    FloorDivAtMost(a * SCALAR_9, data.bRate, bTokens);
    if data.bRate >= SCALAR_9 {
      var q := data.ToBTokenUp(a).value;
      assert a * SCALAR_9 > (bTokens - 1) * data.bRate;
      CeilDivAtLeast(a * SCALAR_9, data.bRate, bTokens);
      assert (q - 1) * data.bRate == q * data.bRate - data.bRate;
      ScaledLess(q - 1, bTokens, data.bRate);
    }
  }

  /** A liability factor of at most 100% never shrinks a debt, and a
      collateral factor of at most 100% never inflates a claim. */
  lemma EffectiveValuesAreConservative(r: Reserve, tokens: int)
    requires tokens >= 0
    requires 0 < r.lFactor <= SCALAR_7 && r.cFactor <= SCALAR_7
    ensures r.ToEffectiveAssetFromDToken(tokens).Some?
    ensures r.ToEffectiveAssetFromDToken(tokens).value >= r.Data().ToAssetFromDToken(tokens)
    ensures r.ToEffectiveAssetFromBToken(tokens) <= r.Data().ToAssetFromBToken(tokens)
  {
    var d := r.Data().ToAssetFromDToken(tokens);
    assert d * r.lFactor <= d * SCALAR_7;
    CeilDivAtLeast(d * SCALAR_7, r.lFactor, d);
    var b := r.Data().ToAssetFromBToken(tokens);
    assert b * r.cFactor <= b * SCALAR_7;
    FloorDivAtMost(b * r.cFactor, SCALAR_7, b);
  }

  // ---------------------------------------------------------------------
  // gulp
  // ---------------------------------------------------------------------

  /** Interest that is not positive changes nothing. */
  lemma GulpIgnoresNoInterest(data: ReserveData, bstopRate: nat, accrued: int)
    requires bstopRate <= SCALAR_7 && accrued <= 0
    ensures data.Gulped(bstopRate, accrued) == Ok(data)
  {
  }

  /** Positive interest fails only on an empty b-token supply.  Otherwise it
      credits the backstop with its share and hands the rest to suppliers by
      raising `bRate`: they receive no more than the rest, losing less than
      one unit plus one unit per `SCALAR_9` b-tokens to rounding.  Nothing
      else changes. */
  lemma GulpSplitsInterest(data: ReserveData, bstopRate: nat, accrued: int)
    requires bstopRate <= SCALAR_7 && accrued > 0
    ensures data.Gulped(bstopRate, accrued).Ok? <==> data.bSupply > 0
    ensures data.Gulped(bstopRate, accrued).Err? ==> data.Gulped(bstopRate, accrued).error == ArithmeticError
    ensures data.Gulped(bstopRate, accrued).Ok? ==>
      var r := data.Gulped(bstopRate, accrued).value;
      var toSuppliers := data.TotalSupply() + accrued - BackstopShare(accrued, bstopRate);
      && r.(bRate := data.bRate, backstopCredit := data.backstopCredit) == data
      && r.backstopCredit == data.backstopCredit + BackstopShare(accrued, bstopRate)
      && r.TotalSupply() <= toSuppliers
      && toSuppliers * SCALAR_9 < (r.TotalSupply() + 1) * SCALAR_9 + data.bSupply
      && r.bRate * data.bSupply <= toSuppliers * SCALAR_9 < r.bRate * data.bSupply + data.bSupply
  {
    if data.bSupply > 0 {
      var r := data.Gulped(bstopRate, accrued).value;
      var n := data.TotalSupply() + accrued - BackstopShare(accrued, bstopRate);
      var ts := r.TotalSupply();
      assert ts * SCALAR_9 <= data.bSupply * r.bRate <= n * SCALAR_9;
      ScaledLess(ts, n + 1, SCALAR_9);
      assert (ts + 1) * SCALAR_9 == ts * SCALAR_9 + SCALAR_9;
    }
  }

  /** While the backstop takes less than 100%, positive interest never lowers
      the b-token rate. */
  lemma GulpNeverLowersRate(data: ReserveData, bstopRate: nat, accrued: int)
    requires bstopRate < SCALAR_7 && data.bSupply > 0
    ensures data.Gulped(bstopRate, accrued).Ok?
    ensures data.Gulped(bstopRate, accrued).value.bRate >= data.bRate
  {
    if accrued > 0 {
      var n := data.TotalSupply() + accrued - BackstopShare(accrued, bstopRate);
      var ts := data.TotalSupply();
      assert data.bSupply * data.bRate < (ts + 1) * SCALAR_9;
      assert (ts + 1) * SCALAR_9 <= n * SCALAR_9;
      FloorDivAtLeast(n * SCALAR_9, data.bSupply, data.bRate);
    }
  }

  /** With a 100% backstop take the rate is recomputed from the rounded-down
      supply alone, so it can fall: three b-tokens at rate 1.5 are worth 4
      units, and one unit of interest leaves the rate at 4/3. */
  lemma GulpFullTakeCanLowerRate()
    ensures
      var data := ReserveData(SCALAR_9, 1_500_000_000, SCALAR_9, 3, 0, 0, 0);
      data.Gulped(SCALAR_7, 1) == Ok(data.(backstopCredit := 1, bRate := 1_333_333_333))
  {
  }

  /** The gulp test vector: 100 units of interest at a 20% take. */
  lemma GulpExample()
    ensures
      var data := ReserveData(SCALAR_9, SCALAR_9, SCALAR_9, 100_0000000, 0, 0_1234567, 0);
      data.Gulped(0_2000000, 100_0000000) == Ok(data.(backstopCredit := 20_0000000 + 0_1234567, bRate := 1_800000000))
  {
  }

  // ---------------------------------------------------------------------
  // load
  // ---------------------------------------------------------------------

  /** Loading fails only when there is a b-token supply worth nothing (the
      utilization then divides by zero); every successful load stamps `now`
      and leaves the token supplies as they were. */
  lemma LoadOutcome(data: ReserveData, bstopRate: nat, now: nat, accrual: Accrual)
    requires bstopRate <= SCALAR_7
    ensures Loaded(data, bstopRate, now, accrual).Err? <==>
      now != data.lastTime && data.bSupply > 0 && data.TotalSupply() == 0
    ensures Loaded(data, bstopRate, now, accrual).Err? ==> Loaded(data, bstopRate, now, accrual).error == ArithmeticError
    ensures Loaded(data, bstopRate, now, accrual).Ok? ==>
      var r := Loaded(data, bstopRate, now, accrual).value;
      r.lastTime == now && r.bSupply == data.bSupply && r.dSupply == data.dSupply
  {
    if now != data.lastTime && data.bSupply > 0 && data.TotalSupply() > 0 {
      var util := data.Utilization().value;
      if util != 0 {
        var accrued := data.(irMod := accrual.irMod, dRate := MulCeil(accrual.loanAccrual, data.dRate, SCALAR_9));
        var interest := accrued.TotalLiabilities() - data.TotalLiabilities();
        if interest > 0 {
          GulpSplitsInterest(accrued, bstopRate, interest);
        }
      }
    }
  }

  /** A reserve loaded at `now` is unchanged by loading again at `now`,
      whatever the rate curve would say. */
  lemma LoadIdempotent(data: ReserveData, bstopRate: nat, now: nat, accrual: Accrual, again: Accrual)
    requires bstopRate <= SCALAR_7
    requires Loaded(data, bstopRate, now, accrual).Ok?
    ensures Loaded(Loaded(data, bstopRate, now, accrual).value, bstopRate, now, again) == Loaded(data, bstopRate, now, accrual)
  {
    LoadOutcome(data, bstopRate, now, accrual);
  }

  /** Without outstanding debt, or without suppliers, time passes but no
      interest accrues. */
  lemma LoadIdleReserve(data: ReserveData, bstopRate: nat, now: nat, accrual: Accrual)
    requires bstopRate <= SCALAR_7
    requires data.bSupply == 0 || (data.TotalSupply() > 0 && data.TotalLiabilities() == 0)
    ensures Loaded(data, bstopRate, now, accrual) == Ok(data.(lastTime := now))
  {
    if data.bSupply > 0 {
      CeilDivExceeds(data.TotalLiabilities() * SCALAR_7, data.TotalSupply(), 0);
    }
  }

  /** Accruing at a factor of at least one never lowers the d-token rate,
      so it never lowers what borrowers owe. */
  lemma AccrualRaisesDebt(data: ReserveData, accrual: Accrual)
    requires accrual.loanAccrual >= SCALAR_9
    ensures var accrued := data.(irMod := accrual.irMod, dRate := MulCeil(accrual.loanAccrual, data.dRate, SCALAR_9));
      accrued.dRate >= data.dRate && accrued.TotalLiabilities() >= data.TotalLiabilities()
  {
    var newRate := MulCeil(accrual.loanAccrual, data.dRate, SCALAR_9);
    MulCeilAtLeast(accrual.loanAccrual, data.dRate, SCALAR_9);
    MulCeilMonotone(data.dSupply, data.dRate, newRate, SCALAR_9);
  }

  /** With an accrual factor of at least one, `load` never lowers either rate
      nor the backstop's credit while the backstop takes less than 100%. */
  lemma LoadNeverLowersRates(data: ReserveData, bstopRate: nat, now: nat, accrual: Accrual)
    requires bstopRate < SCALAR_7 && accrual.loanAccrual >= SCALAR_9
    requires Loaded(data, bstopRate, now, accrual).Ok?
    ensures
      var r := Loaded(data, bstopRate, now, accrual).value;
      r.dRate >= data.dRate && r.bRate >= data.bRate && r.backstopCredit >= data.backstopCredit
  {
    if now != data.lastTime && data.bSupply > 0 && data.Utilization().value != 0 {
      AccrualRaisesDebt(data, accrual);
      var accrued := data.(irMod := accrual.irMod, dRate := MulCeil(accrual.loanAccrual, data.dRate, SCALAR_9));
      var interest := accrued.TotalLiabilities() - data.TotalLiabilities();
      GulpNeverLowersRate(accrued, bstopRate, interest);
      if interest > 0 {
        GulpSplitsInterest(accrued, bstopRate, interest);
      }
    }
  }

  /** What suppliers and the backstop gain in one `load` is covered by the
      interest borrowers are charged: the rounding of the b-token rate only
      ever favours the pool. */
  lemma LoadInterestCoversGains(data: ReserveData, bstopRate: nat, now: nat, accrual: Accrual)
    requires bstopRate < SCALAR_7 && accrual.loanAccrual >= SCALAR_9
    requires Loaded(data, bstopRate, now, accrual).Ok?
    ensures
      var r := Loaded(data, bstopRate, now, accrual).value;
      r.TotalSupply() + (r.backstopCredit - data.backstopCredit)
        <= data.TotalSupply() + (r.TotalLiabilities() - data.TotalLiabilities())
  {
    if now != data.lastTime && data.bSupply > 0 && data.Utilization().value != 0 {
      AccrualRaisesDebt(data, accrual);
      var accrued := data.(irMod := accrual.irMod, dRate := MulCeil(accrual.loanAccrual, data.dRate, SCALAR_9));
      var interest := accrued.TotalLiabilities() - data.TotalLiabilities();
      GulpNeverLowersRate(accrued, bstopRate, interest);
      if interest > 0 {
        GulpSplitsInterest(accrued, bstopRate, interest);
      }
    }
  }

  /** The load test vector: 65 d-tokens at rate 1.345678123 against 99
      b-tokens at rate 1.123456789, an accrual factor of 1.002957376 and a
      20% backstop take. */
  lemma LoadExample()
    ensures
      var data := ReserveData(1_345_678_123, 1_123_456_789, SCALAR_9, 99_0000000, 65_0000000, 0, 0);
      && data.Utilization() == Some(0_7864353)
      && Loaded(data, 0_2000000, 617280, Accrual(1_002_957_376, 1_044_981_563))
         == Ok(ReserveData(1_349_657_800, 1_125_547_124, 1_044_981_563, 99_0000000, 65_0000000, 0_0517358, 617280))
      && Loaded(data, 0, 617280, Accrual(1_002_957_376, 1_044_981_563))
         == Ok(ReserveData(1_349_657_800, 1_126_069_708, 1_044_981_563, 99_0000000, 65_0000000, 0, 617280))
  {
    var data := ReserveData(1_345_678_123, 1_123_456_789, SCALAR_9, 99_0000000, 65_0000000, 0, 0);
    assert data.TotalLiabilities() == 87_4690780;
    assert data.TotalSupply() == 111_2222221;
    assert data.Utilization() == Some(0_7864353);
    assert MulCeil(1_002_957_376, data.dRate, SCALAR_9) == 1_349_657_800;
    var accrued := data.(irMod := 1_044_981_563, dRate := 1_349_657_800);
    assert accrued.TotalLiabilities() == 87_7277570;
    assert accrued.TotalSupply() == 111_2222221;
    assert BackstopShare(0_2586790, 0_2000000) == 0_0517358;
    assert accrued.Gulped(0_2000000, 0_2586790) == Ok(accrued.(backstopCredit := 0_0517358, bRate := 1_125_547_124));
    assert accrued.Gulped(0, 0_2586790) == Ok(accrued.(bRate := 1_126_069_708));
  }

  /** The conversion test vectors at rate 1.321834961. */
  lemma ConversionExamples()
    ensures
      var data := ReserveData(1_321_834_961, 1_321_834_961, SCALAR_9, 99_0000000, 65_0000000, 0, 0);
      && data.ToAssetFromDToken(1_1234567) == 1_4850244
      && data.ToAssetFromBToken(1_1234567) == 1_4850243
      && data.ToDTokenUp(1_4850243) == Some(1_1234567)
      && data.ToDTokenDown(1_4850243) == Some(1_1234566)
      && data.ToBTokenUp(1_4850243) == Some(1_1234567)
      && data.ToBTokenDown(1_4850243) == Some(1_1234566)
    ensures
      var data := ReserveData(1_823_912_692, 1_823_912_692, SCALAR_9, 99_0000000, 65_0000000, 0, 0);
      data.TotalLiabilities() == 118_5543250 && data.TotalSupply() == 180_5673565
  {
  }
}
