/** What the emissions distributor guarantees. */
module EmissionLaws {
  import opened Outcomes
  import opened Addresses
  import opened FixedPoint
  import opened Emissions

  // ---------------------------------------------------------------------
  // The pool index
  // ---------------------------------------------------------------------

  /** A current, expired, silent or empty pool keeps its stored data. */
  lemma CurrentIndexIsKept(data: EmissionsData, config: EmissionConfig, balance: PoolBalance, now: nat)
    requires IndexIsCurrent(data, config, balance, now)
    ensures AdvancedIndex(data, config, balance, now) == Ok(data)
  {
  }

  /** Otherwise the advance fails exactly on a corrupted state: more queued
      than total shares (error #8), a last update in the future, or no
      unqueued share to divide by.  When it succeeds the index never falls,
      the new timestamp is `now`, and the gain times the unqueued shares
      accounts for everything emitted since the last update, short of less
      than one gain unit. */
  lemma AdvanceOutcome(data: EmissionsData, config: EmissionConfig, balance: PoolBalance, now: nat)
    requires !IndexIsCurrent(data, config, balance, now)
    ensures var r := AdvancedIndex(data, config, balance, now);
      && (r.Err? <==> balance.q4w > balance.shares || now < data.lastTime || balance.q4w == balance.shares)
      && (r.Err? ==> (r.error == NegativeAmount <==> balance.q4w > balance.shares))
      && (r.Err? ==> r.error != MissingData)
    ensures var r := AdvancedIndex(data, config, balance, now);
      r.Ok? ==>
        var gain := r.value.index - data.index;
        var emitted := (EmissionEnd(config, now) - data.lastTime) * config.eps * SCALAR_7;
        var unqueued := balance.shares - balance.q4w;
        && r.value.lastTime == now
        && gain >= 0
        && gain * unqueued <= emitted < (gain + 1) * unqueued
  {
    var r := AdvancedIndex(data, config, balance, now);
    if r.Ok? {
      var gain := r.value.index - data.index;
      var unqueued := balance.shares - balance.q4w;
      assert (gain + 1) * unqueued == gain * unqueued + unqueued;
    }
  }

  /** Shares queued for withdrawal earn nothing: with the same total,
      queueing more shares spreads the same emission over fewer shares. */
  lemma QueuedSharesAreExcluded(data: EmissionsData, config: EmissionConfig, fewer: PoolBalance, more: PoolBalance, now: nat)
    requires fewer.shares == more.shares && 0 <= fewer.q4w <= more.q4w < more.shares
    requires data.lastTime <= now
    ensures AdvancedIndex(data, config, fewer, now).Ok? && AdvancedIndex(data, config, more, now).Ok?
    ensures AdvancedIndex(data, config, fewer, now).value.index <= AdvancedIndex(data, config, more, now).value.index
  {
    if !IndexIsCurrent(data, config, fewer, now) {
      var n := (EmissionEnd(config, now) - data.lastTime) * config.eps * SCALAR_7;
      var small, large := more.shares - more.q4w, fewer.shares - fewer.q4w;
      var q := FloorDiv(n, large);
      assert q * small <= q * large by {
        assert q * large - q * small == q * (large - small);
      }
      FloorDivAtLeast(n, small, q);
    }
  }

  /** `floor(a / m) + floor(b / m) <= floor((a + b) / m)` */
  lemma FloorDivSuperAdditive(a: int, b: int, m: int)
    requires m > 0
    ensures FloorDiv(a, m) + FloorDiv(b, m) <= FloorDiv(a + b, m)
  {
    var qa, qb := FloorDiv(a, m), FloorDiv(b, m);
    assert (qa + qb) * m == qa * m + qb * m;
    FloorDivAtLeast(a + b, m, qa + qb);
  }

  /** Advancing the index in two steps never credits more than advancing
      it once over the same period: each step rounds down on its own. */
  lemma SplitAdvanceNeverPaysMore(data: EmissionsData, config: EmissionConfig, balance: PoolBalance, t1: nat, t2: nat)
    requires 0 <= balance.q4w < balance.shares
    requires data.lastTime <= t1 <= t2
    ensures AdvancedIndex(data, config, balance, t1).Ok?
    ensures AdvancedIndex(data, config, balance, t2).Ok?
    ensures AdvancedIndex(AdvancedIndex(data, config, balance, t1).value, config, balance, t2).Ok?
    ensures AdvancedIndex(AdvancedIndex(data, config, balance, t1).value, config, balance, t2).value.index
      <= AdvancedIndex(data, config, balance, t2).value.index
  {
    var mid := AdvancedIndex(data, config, balance, t1).value;
    if !IndexIsCurrent(data, config, balance, t1) && !IndexIsCurrent(mid, config, balance, t2) {
      var u := balance.shares - balance.q4w;
      var e1 := EmissionEnd(config, t1) - data.lastTime;
      var e2 := EmissionEnd(config, t2) - t1;
      assert EmissionEnd(config, t1) == t1;
      assert EmissionEnd(config, t2) - data.lastTime == e1 + e2;
      assert (e1 + e2) * config.eps * SCALAR_7 == e1 * config.eps * SCALAR_7 + e2 * config.eps * SCALAR_7;
      FloorDivSuperAdditive(e1 * config.eps * SCALAR_7, e2 * config.eps * SCALAR_7, u);
    }
  }

  // ---------------------------------------------------------------------
  // The user snapshot
  // ---------------------------------------------------------------------

  /** A user update fails only when a stored snapshot is ahead of the pool
      index while it would credit shares (error #8).  Whenever it writes, the
      snapshot takes the pool index, and the user loses nothing: what is paid
      now plus what stays accrued is at least what was accrued before. */
  lemma UserUpdateOutcome(record: Option<UserEmissionData>, index: int, shares: int, toClaim: bool)
    requires shares >= 0
    ensures var r := UserUpdate(record, index, shares, toClaim);
      && (r.Err? <==> record.Some? && (record.value.index != index || toClaim) && shares != 0 && index < record.value.index)
      && (r.Err? ==> r.error == NegativeAmount)
    ensures var r := UserUpdate(record, index, shares, toClaim);
      r.Ok? && r.value.Stored? ==>
        && r.value.data.index == index
        && (record.Some? ==> r.value.payout + r.value.data.accrued >= record.value.accrued)
    ensures var r := UserUpdate(record, index, shares, toClaim);
      r.Ok? && r.value.Unchanged? <==> record.Some? && record.value.index == index && !toClaim
  {
  }

  /** A depositor with no snapshot who already holds shares is credited as if
      they had held them since the index was zero.  The lemma compares with
      a snapshot `(0, 0)`; the comparison holds whenever that snapshot would
      be updated. */
  lemma NewDepositorCreditedFromZero(index: int, shares: int, toClaim: bool)
    requires shares > 0 && index >= 0
    requires index != 0 || toClaim
    ensures UserUpdate(None, index, shares, toClaim) == UserUpdate(Some(UserEmissionData(0, 0)), index, shares, toClaim)
  {
  }

  /** A depositor seen for the first time with no shares starts at the
      current index with nothing accrued. */
  lemma FirstActionStartsAtIndex(index: int, toClaim: bool)
    ensures UserUpdate(None, index, 0, toClaim) == Ok(Stored(UserEmissionData(index, 0), 0))
  {
  }

  /** Right after a claim at a given index, claiming again at the same index
      pays nothing, and updating without a claim writes nothing. */
  lemma NoDoubleClaim(record: Option<UserEmissionData>, index: int, shares: int)
    requires shares >= 0
    requires UserUpdate(record, index, shares, true).Ok?
    ensures UserUpdate(record, index, shares, true).value.Stored?
    ensures var after := UserUpdate(record, index, shares, true).value.data;
      && UserUpdate(Some(after), index, shares, true) == Ok(Stored(after, 0))
      && UserUpdate(Some(after), index, shares, false) == Ok(Unchanged)
  {
    var after := UserUpdate(record, index, shares, true).value.data;
    assert MulFloor(shares, index - after.index, SCALAR_7) == 0;
  }

  // ---------------------------------------------------------------------
  // update_emissions and claim_emissions
  // ---------------------------------------------------------------------

  /** Without an emission configuration nothing is written and nothing is paid. */
  lemma NoConfigNoEffect(st: EmissionsState, pool: Address, poolBalance: PoolBalance, user: Address, userBalance: UserBalance, now: nat, toClaim: bool)
    requires pool !in st.configs
    ensures Distribute(st, pool, poolBalance, user, userBalance, now, toClaim) == Ok(Distribution(st, 0))
  {
  }

  /** A call writes only the pool's data and this user's snapshot, and a
      call without a claim pays nothing. */
  lemma DistributeFrame(st: EmissionsState, pool: Address, poolBalance: PoolBalance, user: Address, userBalance: UserBalance, now: nat, toClaim: bool)
    requires Distribute(st, pool, poolBalance, user, userBalance, now, toClaim).Ok?
    ensures var r := Distribute(st, pool, poolBalance, user, userBalance, now, toClaim).value;
      && r.state.configs == st.configs
      && (!toClaim ==> r.payout == 0)
      && (pool in st.configs ==>
            && pool in r.state.poolData && (pool, user) in r.state.userData
            && r.state.poolData == st.poolData[pool := r.state.poolData[pool]]
            && r.state.userData == st.userData[(pool, user) := r.state.userData[(pool, user)]])
  {
  }

  /** After a claim the user's snapshot sits at the new pool index with
      nothing accrued. */
  lemma ClaimLeavesNothingAccrued(st: EmissionsState, pool: Address, poolBalance: PoolBalance, user: Address, userBalance: UserBalance, now: nat)
    requires pool in st.configs
    requires Distribute(st, pool, poolBalance, user, userBalance, now, true).Ok?
    ensures var r := Distribute(st, pool, poolBalance, user, userBalance, now, true).value.state;
      r.userData[(pool, user)] == UserEmissionData(r.poolData[pool].index, 0)
  {
  }

  /** A claim pays exactly what an update at the same moment would have left
      accrued, and advances the pool identically. */
  lemma ClaimPaysWhatUpdateAccrues(st: EmissionsState, pool: Address, poolBalance: PoolBalance, user: Address, userBalance: UserBalance, now: nat)
    requires pool in st.configs && userBalance.shares >= 0
    requires Distribute(st, pool, poolBalance, user, userBalance, now, false).Ok?
    ensures Distribute(st, pool, poolBalance, user, userBalance, now, true).Ok?
    ensures var u := Distribute(st, pool, poolBalance, user, userBalance, now, false).value.state;
      var c := Distribute(st, pool, poolBalance, user, userBalance, now, true).value;
      && c.payout == u.userData[(pool, user)].accrued
      && c.state.poolData == u.poolData
  {
    var data := AdvancedIndex(st.poolData[pool], st.configs[pool], poolBalance, now).value;
    var record := Record(st.userData, (pool, user));
    if record.Some? && record.value.index == data.index {
      assert MulFloor(userBalance.shares, data.index - record.value.index, SCALAR_7) == 0;
    }
  }

  /** The stored pool data after an advance is already current at the same
      moment, unless the advance was refused. */
  lemma AdvanceSettles(data: EmissionsData, config: EmissionConfig, balance: PoolBalance, now: nat)
    requires AdvancedIndex(data, config, balance, now).Ok?
    ensures AdvancedIndex(AdvancedIndex(data, config, balance, now).value, config, balance, now) == AdvancedIndex(data, config, balance, now)
  {
  }

  /** Claiming twice at the same moment pays the second time nothing and
      writes nothing new. */
  lemma SecondClaimPaysNothing(st: EmissionsState, pool: Address, poolBalance: PoolBalance, user: Address, userBalance: UserBalance, now: nat)
    requires userBalance.shares >= 0
    requires Distribute(st, pool, poolBalance, user, userBalance, now, true).Ok?
    ensures var first := Distribute(st, pool, poolBalance, user, userBalance, now, true).value.state;
      Distribute(first, pool, poolBalance, user, userBalance, now, true) == Ok(Distribution(first, 0))
  {
    if pool in st.configs {
      var first := Distribute(st, pool, poolBalance, user, userBalance, now, true).value.state;
      var data := AdvancedIndex(st.poolData[pool], st.configs[pool], poolBalance, now).value;
      AdvanceSettles(st.poolData[pool], st.configs[pool], poolBalance, now);
      assert first.poolData[pool] == data;
      var after := first.userData[(pool, user)];
      assert MulFloor(userBalance.shares, data.index - after.index, SCALAR_7) == 0;
      assert first.poolData[pool := data] == first.poolData;
      assert first.userData[(pool, user) := after] == first.userData;
    }
  }

  // ---------------------------------------------------------------------
  // The test vectors, for a backstop epoch `epoch`
  // ---------------------------------------------------------------------

  function WeekConfig(epoch: nat, eps: nat): EmissionConfig {
    EmissionConfig(epoch + 7 * 24 * 60 * 60, eps)
  }

  function OnePool(pool: Address, config: EmissionConfig, data: EmissionsData, users: map<(Address, Address), UserEmissionData>): EmissionsState {
    EmissionsState(map[pool := config], map[pool := data], users)
  }

  /** 1234 seconds at 0.1 per second over 150 shares, for a user with 9
      shares and a snapshot (11111, 3). */
  lemma UpdateAndClaimExample(epoch: nat, pool: Address, user: Address)
    ensures
      var st := OnePool(pool, WeekConfig(epoch, 0_1000000), EmissionsData(22222, epoch),
                        map[(pool, user) := UserEmissionData(11111, 3)]);
      var now := epoch + 1234;
      var balance := PoolBalance(150_0000000, 200_0000000, 0);
      && Distribute(st, pool, balance, user, UserBalance(9_0000000), now, false)
         == Ok(Distribution(st.(poolData := map[pool := EmissionsData(8248888, now)],
                                userData := map[(pool, user) := UserEmissionData(8248888, 7_4139996)]), 0))
      && Distribute(st, pool, balance, user, UserBalance(9_0000000), now, true)
         == Ok(Distribution(st.(poolData := map[pool := EmissionsData(8248888, now)],
                                userData := map[(pool, user) := UserEmissionData(8248888, 0)]), 7_4139996))
  {
    var st := OnePool(pool, WeekConfig(epoch, 0_1000000), EmissionsData(22222, epoch),
                      map[(pool, user) := UserEmissionData(11111, 3)]);
    var now := epoch + 1234;
    assert AdvancedIndex(st.poolData[pool], st.configs[pool], PoolBalance(150_0000000, 200_0000000, 0), now)
      == Ok(EmissionsData(8248888, now));
    assert UserUpdate(Some(UserEmissionData(11111, 3)), 8248888, 9_0000000, false)
      == Ok(Stored(UserEmissionData(8248888, 7_4139996), 0));
    assert UserUpdate(Some(UserEmissionData(11111, 3)), 8248888, 9_0000000, true)
      == Ok(Stored(UserEmissionData(8248888, 0), 7_4139996));
    assert st.poolData[pool := EmissionsData(8248888, now)] == map[pool := EmissionsData(8248888, now)];
    assert st.userData[(pool, user) := UserEmissionData(8248888, 0)] == map[(pool, user) := UserEmissionData(8248888, 0)];
    assert st.userData[(pool, user) := UserEmissionData(8248888, 7_4139996)] == map[(pool, user) := UserEmissionData(8248888, 7_4139996)];
  }

  /** A first action with no shares, and a depositor who held 9 shares
      before the emissions began (12345 seconds at 0.042 over 150 shares). */
  lemma FirstActionExamples(epoch: nat, pool: Address, user: Address)
    ensures
      var now := epoch + 12345;
      var balance := PoolBalance(150_0000000, 200_0000000, 0);
      && Distribute(OnePool(pool, WeekConfig(epoch, 0_0420000), EmissionsData(22222, epoch), map[]),
                    pool, balance, user, UserBalance(0), now, false).value.state.userData
         == map[(pool, user) := UserEmissionData(34588222, 0)]
      && Distribute(OnePool(pool, WeekConfig(epoch, 0_0420000), EmissionsData(0, epoch), map[]),
                    pool, balance, user, UserBalance(9_0000000), now, false).value.state.userData
         == map[(pool, user) := UserEmissionData(34566000, 31_1094000)]
  {
  }

  /** With 4.5 of the 150 shares queued, the index grows faster. */
  lemma QueuedExample(epoch: nat, pool: Address, user: Address)
    ensures
      var st := OnePool(pool, WeekConfig(epoch, 0_1000000), EmissionsData(22222, epoch),
                        map[(pool, user) := UserEmissionData(11111, 3)]);
      Distribute(st, pool, PoolBalance(150_0000000, 200_0000000, 4_5000000), user, UserBalance(4_5000000), epoch + 1234, false).value.state.userData
        == map[(pool, user) := UserEmissionData(8503321, 38214948)]
  {
  }

  /** More shares queued than held is refused (error #8). */
  lemma MoreQueuedThanSharesExample(epoch: nat, pool: Address, user: Address)
    ensures
      Distribute(OnePool(pool, WeekConfig(epoch, 0_1000000), EmissionsData(22222, epoch), map[(pool, user) := UserEmissionData(11111, 3)]),
                 pool, PoolBalance(150_0000000, 200_0000000, 150_0000001), user, UserBalance(4_5000000), epoch + 1234, false)
        == Err(NegativeAmount)
  {
  }

  /** A last update in the future makes the elapsed time underflow. */
  lemma FutureLastTimeExample(epoch: nat, pool: Address, user: Address)
    ensures
      Distribute(OnePool(pool, WeekConfig(epoch, 0_1000000), EmissionsData(22222, epoch + 1235), map[(pool, user) := UserEmissionData(11111, 3)]),
                 pool, PoolBalance(150_0000000, 200_0000000, 0), user, UserBalance(4_5000000), epoch + 1234, false)
        == Err(ArithmeticError)
  {
  }

  /** A snapshot ahead of the pool index is refused (error #8). */
  lemma UserAheadOfIndexExample(epoch: nat, pool: Address, user: Address)
    ensures
      Distribute(OnePool(pool, WeekConfig(epoch, 0_1000000), EmissionsData(22222, epoch), map[(pool, user) := UserEmissionData(34566000 + 1, 3)]),
                 pool, PoolBalance(150_0000000, 200_0000000, 0), user, UserBalance(4_5000000), epoch + 1234, false)
        == Err(NegativeAmount)
  {
    var config := WeekConfig(epoch, 0_1000000);
    assert AdvancedIndex(EmissionsData(22222, epoch), config, PoolBalance(150_0000000, 200_0000000, 0), epoch + 1234)
      == Ok(EmissionsData(8248888, epoch + 1234));
  }
}
