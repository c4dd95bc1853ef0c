/** Submitting a batch of requests against the pool.

    `build_actions_from_request` (not part of this model) turns the requests
    into the user's new positions, the token amounts to move and whether the
    user's health must be checked.  A submission then refuses the pool itself
    as a party, checks the health factor, settles the token transfers (netted
    per token when the spender has granted the pool an allowance, one by one
    otherwise) and only then commits the reserve cache and the positions.

    Token contracts are foreign code: what a submission asks of them is
    recorded as a log of calls, and `Moved` says what those calls do to a
    holder's balance. */
module Submit {
  import opened Outcomes
  import opened Addresses
  import opened FixedPoint
  import opened Reserves
  import opened Positions
  import opened KeyOrder

  /** The least health factor (7 decimals) a borrower may be left with; the
      margin over 1 absorbs rounding. */
  const MIN_HEALTH_FACTOR: int := 1_0000100

  /** An amount of one token. */
  datatype TokenAmount = TokenAmount(token: Address, amount: int)

  /** The transfers the requests call for: what the spender sends to the pool
      and what the pool sends out, each listed in the iteration order of the
      map that holds it. */
  datatype Actions = Actions(spenderTransfer: seq<TokenAmount>, poolTransfer: seq<TokenAmount>)

  /** A call into the token contract `token`: `transfer` moves `amount` from
      `from` to `to`; `transfer_from` does the same on the allowance `from`
      granted to `spender`. */
  datatype TokenCall =
    | Transfer(token: Address, from: Address, to: Address, amount: int)
    | TransferFrom(token: Address, spender: Address, from: Address, to: Address, amount: int)

  /** What a submission does, in order: token calls, the `flash_borrow`
      event, the flash-loan receiver's `exec_op`, and storage writes. */
  datatype Effect =
    | Call(call: TokenCall)
    | FlashBorrowed(asset: Address, contract: Address, amount: nat, dTokens: int)
    | Executed(contract: Address, asset: Address, amount: nat)
    | Store(write: Write)

  /** The sum of the amounts listed for `token`. */
  function Total(ts: seq<TokenAmount>, token: Address): int
    decreases |ts|
  {
    if ts == [] then 0
    else Total(ts[..|ts| - 1], token) + (if ts[|ts| - 1].token == token then ts[|ts| - 1].amount else 0)
  }

  /** The tokens listed. */
  function Tokens(ts: seq<TokenAmount>): set<Address>
    decreases |ts|
  {
    if ts == [] then {} else Tokens(ts[..|ts| - 1]) + {ts[|ts| - 1].token}
  }

  /** A token that is not listed totals nothing. */
  lemma {:induction false} TotalUnlisted(ts: seq<TokenAmount>, token: Address)
    requires token !in Tokens(ts)
    ensures Total(ts, token) == 0
    decreases |ts|
  {
    if ts != [] {
      TotalUnlisted(ts[..|ts| - 1], token);
    }
  }

  /** A bound above every listed token. */
  function TokenBound(ts: seq<TokenAmount>): (b: nat)
    ensures forall t :: t in Tokens(ts) ==> t < b
    decreases |ts|
  {
    if ts == [] then 0
    else
      var b := TokenBound(ts[..|ts| - 1]);
      var t := ts[|ts| - 1].token;
      if t < b then b else t + 1
  }

  /** What the pool owes the parties in `token` once both directions are
      set against each other: positive when the pool pays out, negative when
      the spender pays in. */
  function NetOf(actions: Actions, token: Address): int {
    Total(actions.poolTransfer, token) - Total(actions.spenderTransfer, token)
  }

  /** The net amounts, for every token the actions list. */
  function NetMap(actions: Actions): map<Address, int> {
    map t | t in Tokens(actions.spenderTransfer) + Tokens(actions.poolTransfer) :: NetOf(actions, t)
  }

  /** `net_balances` in `handle_transfer_with_allowance`: start from nothing,
      take off each spender transfer, add each pool transfer (a missing entry
      counting as zero). */
  method NetBalances(actions: Actions) returns (net: map<Address, int>)
    ensures net.Keys == Tokens(actions.spenderTransfer) + Tokens(actions.poolTransfer)
    ensures forall t :: t in net ==> net[t] == NetOf(actions, t)
  {
    net := map[];
    var s := actions.spenderTransfer;
    for k := 0 to |s|
      invariant net.Keys == Tokens(s[..k])
      invariant forall t :: t in net ==> net[t] == -Total(s[..k], t)
    {
      var token, amount := s[k].token, s[k].amount;
      assert s[..k + 1][..k] == s[..k];
      if token !in net {
        TotalUnlisted(s[..k], token);
      }
      net := net[token := (if token in net then net[token] else 0) - amount];
    }
    assert s[..|s|] == s;
    var p := actions.poolTransfer;
    for k := 0 to |p|
      invariant net.Keys == Tokens(s) + Tokens(p[..k])
      invariant forall t :: t in net ==> net[t] == Total(p[..k], t) - Total(s, t)
    {
      var token, amount := p[k].token, p[k].amount;
      assert p[..k + 1][..k] == p[..k];
      if token !in net {
        TotalUnlisted(s, token);
        TotalUnlisted(p[..k], token);
      }
      net := net[token := (if token in net then net[token] else 0) + amount];
    }
    assert p[..|p|] == p;
  }

  /** The call settling a net amount of `token`: a shortfall is pulled from
      the spender on the pool's allowance, a surplus is sent to `to`, and a
      zero moves nothing. */
  function NetCall(token: Address, amount: int, pool: Address, spender: Address, to: Address): seq<TokenCall> {
    if amount < 0 then [TransferFrom(token, pool, spender, pool, -amount)]
    else if amount > 0 then [Transfer(token, pool, to, amount)]
    else []
  }

  /** The calls settling the first `n` tokens of `keys`. */
  function NetCallsThrough(net: map<Address, int>, keys: seq<nat>, n: nat, pool: Address, spender: Address, to: Address): seq<TokenCall>
    requires n <= |keys| && forall j :: 0 <= j < |keys| ==> keys[j] in net
    decreases n
  {
    if n == 0 then []
    else NetCallsThrough(net, keys, n - 1, pool, spender, to) + NetCall(keys[n - 1], net[keys[n - 1]], pool, spender, to)
  }

  /** A bound above every token of the actions. */
  function NetBound(actions: Actions): nat {
    var a, b := TokenBound(actions.spenderTransfer), TokenBound(actions.poolTransfer);
    if a < b then b else a
  }

  /** The calls `handle_transfer_with_allowance` makes: one per token with a
      non-zero net amount, in ascending token order. */
  function NettedCalls(actions: Actions, pool: Address, spender: Address, to: Address): seq<TokenCall> {
    var net := NetMap(actions);
    var keys := SortedKeys(net.Keys, NetBound(actions));
    NetCallsThrough(net, keys, |keys|, pool, spender, to)
  }

  /** `handle_transfer_with_allowance`: net the amounts per token, then
      settle each net amount with at most one call. */
  method HandleTransferWithAllowance(actions: Actions, pool: Address, spender: Address, to: Address)
    returns (calls: seq<TokenCall>)
    ensures calls == NettedCalls(actions, pool, spender, to)
  {
    var net := NetBalances(actions);
    assert net == NetMap(actions);
    var keys := SortedKeys(net.Keys, NetBound(actions));
    calls := [];
    for k := 0 to |keys|
      invariant calls == NetCallsThrough(net, keys, k, pool, spender, to)
    {
      var token := keys[k];
      var amount := net[token];
      if amount < 0 {
        calls := calls + [TransferFrom(token, pool, spender, pool, -amount)];
      } else if amount > 0 {
        calls := calls + [Transfer(token, pool, to, amount)];
      }
    }
  }

  /** One `transfer` from `from` to `to` per listed amount, in order. */
  function Pays(ts: seq<TokenAmount>, from: Address, to: Address): (r: seq<TokenCall>)
    ensures |r| == |ts|
    ensures forall i :: 0 <= i < |ts| ==> r[i] == Transfer(ts[i].token, from, to, ts[i].amount)
    decreases |ts|
  {
    if ts == [] then []
    else Pays(ts[..|ts| - 1], from, to) + [Transfer(ts[|ts| - 1].token, from, to, ts[|ts| - 1].amount)]
  }

  /** The calls `handle_transfers` makes: every spender transfer into the
      pool, then every pool transfer out to `to`, none netted. */
  function GrossCalls(actions: Actions, pool: Address, spender: Address, to: Address): seq<TokenCall> {
    Pays(actions.spenderTransfer, spender, pool) + Pays(actions.poolTransfer, pool, to)
  }

  /** `handle_transfers`. */
  method HandleTransfers(actions: Actions, pool: Address, spender: Address, to: Address)
    returns (calls: seq<TokenCall>)
    ensures calls == GrossCalls(actions, pool, spender, to)
  {
    calls := [];
    var s := actions.spenderTransfer;
    for k := 0 to |s|
      invariant calls == Pays(s[..k], spender, pool)
    {
      assert s[..k + 1][..k] == s[..k];
      calls := calls + [Transfer(s[k].token, spender, pool, s[k].amount)];
    }
    assert s[..|s|] == s;
    var p := actions.poolTransfer;
    for k := 0 to |p|
      invariant calls == Pays(s, spender, pool) + Pays(p[..k], pool, to)
    {
      assert p[..k + 1][..k] == p[..k];
      calls := calls + [Transfer(p[k].token, pool, to, p[k].amount)];
    }
    assert p[..|p|] == p;
  }

  /** What one call does to `holder`'s balance of `token`. */
  function Shift(call: TokenCall, token: Address, holder: Address): int {
    if call.token != token then 0
    else (if call.to == holder then call.amount else 0) - (if call.from == holder then call.amount else 0)
  }

  /** What `calls` do, together, to `holder`'s balance of `token`. */
  function Moved(calls: seq<TokenCall>, token: Address, holder: Address): int
    decreases |calls|
  {
    if calls == [] then 0
    else Moved(calls[..|calls| - 1], token, holder) + Shift(calls[|calls| - 1], token, holder)
  }

  /** Balance changes add up over consecutive calls. */
  lemma {:induction false} MovedAppend(a: seq<TokenCall>, b: seq<TokenCall>, token: Address, holder: Address)
    ensures Moved(a + b, token, holder) == Moved(a, token, holder) + Moved(b, token, holder)
    decreases |b|
  {
    if b != [] {
      assert (a + b)[..|a + b| - 1] == a + b[..|b| - 1];
      assert (a + b)[|a + b| - 1] == b[|b| - 1];
      MovedAppend(a, b[..|b| - 1], token, holder);
    } else {
      assert a + b == a;
    }
  }

  /** What settling a net amount does to each party, when the pool is neither
      the spender nor the recipient. */
  function NetShare(amount: int, pool: Address, spender: Address, to: Address, holder: Address): int {
    if amount < 0 then (if holder == pool then -amount else 0) - (if holder == spender then -amount else 0)
    else (if holder == to then amount else 0) - (if holder == pool then amount else 0)
  }

  /** The call for one net amount moves the net share of its own token and
      nothing of any other. */
  lemma NetCallMoves(x: Address, amount: int, pool: Address, spender: Address, to: Address, token: Address, holder: Address)
    ensures Moved(NetCall(x, amount, pool, spender, to), token, holder)
         == if x == token then NetShare(amount, pool, spender, to, holder) else 0
  {
    var c := NetCall(x, amount, pool, spender, to);
    if c != [] {
      assert c[..|c| - 1] == [];
    }
  }

  /** Settling the first `n` distinct tokens of `keys` moves, of each token
      among them, its net share, and of no other token anything. */
  lemma {:induction false} NetCallsMoves(
    net: map<Address, int>, keys: seq<nat>, n: nat,
    pool: Address, spender: Address, to: Address, token: Address, holder: Address)
    requires n <= |keys| && Ascending(keys) && forall j :: 0 <= j < |keys| ==> keys[j] in net
    ensures KeySet(keys, n) <= net.Keys
    ensures Moved(NetCallsThrough(net, keys, n, pool, spender, to), token, holder)
         == if token in KeySet(keys, n) then NetShare(net[token], pool, spender, to, holder) else 0
    decreases n
  {
    if n > 0 {
      var x := keys[n - 1];
      NetCallsMoves(net, keys, n - 1, pool, spender, to, token, holder);
      MovedAppend(NetCallsThrough(net, keys, n - 1, pool, spender, to), NetCall(x, net[x], pool, spender, to), token, holder);
      NetCallMoves(x, net[x], pool, spender, to, token, holder);
      NextIsFresh(keys, n - 1);
    }
  }

  /** Netted settlement moves, of every token, exactly the net share of its
      net amount. */
  lemma NettedMoves(actions: Actions, pool: Address, spender: Address, to: Address, token: Address, holder: Address)
    ensures Moved(NettedCalls(actions, pool, spender, to), token, holder)
         == NetShare(NetOf(actions, token), pool, spender, to, holder)
  {
    var net := NetMap(actions);
    var bound := NetBound(actions);
    var keys := SortedKeys(net.Keys, bound);
    NetCallsMoves(net, keys, |keys|, pool, spender, to, token, holder);
    SortedKeysCover(net.Keys, bound);
    if token !in net {
      TotalUnlisted(actions.spenderTransfer, token);
      TotalUnlisted(actions.poolTransfer, token);
    }
  }

  /** Paying each listed amount from `from` to `to` moves the total of each
      token from one to the other. */
  lemma {:induction false} PaysMoves(ts: seq<TokenAmount>, from: Address, to: Address, token: Address, holder: Address)
    ensures Moved(Pays(ts, from, to), token, holder)
         == (if holder == to then Total(ts, token) else 0) - (if holder == from then Total(ts, token) else 0)
    decreases |ts|
  {
    if ts != [] {
      var last := ts[|ts| - 1];
      PaysMoves(ts[..|ts| - 1], from, to, token, holder);
      MovedAppend(Pays(ts[..|ts| - 1], from, to), [Transfer(last.token, from, to, last.amount)], token, holder);
      assert [Transfer(last.token, from, to, last.amount)][..0] == [];
    }
  }

  /** Gross settlement moves, of every token, what the spender sends in and
      what the pool pays out. */
  lemma GrossMoves(actions: Actions, pool: Address, spender: Address, to: Address, token: Address, holder: Address)
    ensures Moved(GrossCalls(actions, pool, spender, to), token, holder)
         == (if holder == pool then Total(actions.spenderTransfer, token) else 0)
          - (if holder == spender then Total(actions.spenderTransfer, token) else 0)
          + (if holder == to then Total(actions.poolTransfer, token) else 0)
          - (if holder == pool then Total(actions.poolTransfer, token) else 0)
  {
    MovedAppend(Pays(actions.spenderTransfer, spender, pool), Pays(actions.poolTransfer, pool, to), token, holder);
    PaysMoves(actions.spenderTransfer, spender, pool, token, holder);
    PaysMoves(actions.poolTransfer, pool, to, token, holder);
  }

  /** Netting leaves the pool's balance of every token changed exactly as the
      gross transfers would: by what spenders send in less what it pays out. */
  lemma NettingKeepsPoolChange(actions: Actions, pool: Address, spender: Address, to: Address, token: Address)
    requires pool != spender && pool != to
    ensures Moved(NettedCalls(actions, pool, spender, to), token, pool) == -NetOf(actions, token)
    ensures Moved(GrossCalls(actions, pool, spender, to), token, pool) == -NetOf(actions, token)
  {
    NettedMoves(actions, pool, spender, to, token, pool);
    GrossMoves(actions, pool, spender, to, token, pool);
  }

  /** With netting the spender pays only a shortfall and the recipient
      receives only a surplus, of each token. */
  lemma NettingPaysBalance(actions: Actions, pool: Address, spender: Address, to: Address, token: Address)
    requires pool != spender && pool != to && spender != to
    ensures var net := NetOf(actions, token);
      && Moved(NettedCalls(actions, pool, spender, to), token, spender) == (if net < 0 then net else 0)
      && Moved(NettedCalls(actions, pool, spender, to), token, to) == (if net > 0 then net else 0)
  {
    NettedMoves(actions, pool, spender, to, token, spender);
    NettedMoves(actions, pool, spender, to, token, to);
  }

  /** When one account both sends and receives, netting changes nobody's
      balance differently from the gross transfers. */
  lemma NettingForOneAccount(actions: Actions, pool: Address, account: Address, token: Address, holder: Address)
    requires pool != account
    ensures Moved(NettedCalls(actions, pool, account, account), token, holder)
         == Moved(GrossCalls(actions, pool, account, account), token, holder)
  {
    NettedMoves(actions, pool, account, account, token, holder);
    GrossMoves(actions, pool, account, account, token, holder);
  }

  /** A single listed amount. */
  lemma OneListed(t: TokenAmount)
    ensures Tokens([t]) == {t.token}
    ensures TokenBound([t]) == t.token + 1
    ensures Total([t], t.token) == t.amount
  {
    assert [t][..0] == [];
  }

  /** The allowance test: supplying 15 and borrowing 1 of one token, from a
      spender who is not the recipient, pulls a single 14 from the spender
      and sends the recipient nothing. */
  lemma NettingExample()
    ensures NettedCalls(Actions([TokenAmount(0, 15_0000000)], [TokenAmount(0, 1_0000000)]), 9, 1, 2)
         == [TransferFrom(0, 9, 1, 9, 14_0000000)]
  {
    var actions := Actions([TokenAmount(0, 15_0000000)], [TokenAmount(0, 1_0000000)]);
    OneListed(TokenAmount(0, 15_0000000));
    OneListed(TokenAmount(0, 1_0000000));
    assert NetOf(actions, 0) == -14_0000000;
    var net := NetMap(actions);
    assert net == map[0 := -14_0000000];
    assert NetBound(actions) == 1;
    var keys := SortedKeys(net.Keys, 1);
    assert keys == [0];
    assert NetCallsThrough(net, keys, 0, 9, 1, 2) == [];
  }

  /** Without netting the same requests make both transfers. */
  lemma GrossExample()
    ensures GrossCalls(Actions([TokenAmount(0, 15_0000000)], [TokenAmount(0, 1_0000000)]), 9, 1, 2)
         == [Transfer(0, 1, 9, 15_0000000), Transfer(0, 9, 2, 1_0000000)]
  {
  }

  /** The calls settling a submission. */
  function Settlement(actions: Actions, pool: Address, spender: Address, to: Address, useAllowance: bool): seq<TokenCall> {
    if useAllowance then NettedCalls(actions, pool, spender, to) else GrossCalls(actions, pool, spender, to)
  }

  /** The calls, as effects. */
  function AsEffects(calls: seq<TokenCall>): (r: seq<Effect>)
    ensures |r| == |calls|
    ensures forall i :: 0 <= i < |calls| ==> r[i] == Call(calls[i])
    decreases |calls|
  {
    if calls == [] then [] else AsEffects(calls[..|calls| - 1]) + [Call(calls[|calls| - 1])]
  }

  /** What `build_actions_from_request` hands back, and the pool as it leaves
      it: the transfers, the user's new positions, whether their health must
      be checked, and the pool's reserve cache. */
  datatype Built = Built(actions: Actions, positions: Positions, checkHealth: bool, cache: map<Address, ReserveData>)

  /** A successful submission: the user's new positions and what it did. */
  datatype Submission = Submission(positions: Positions, effects: seq<Effect>)

  /** The effects end with the two commits: the reserve cache, then the
      positions of `owner`; nothing before them is a storage write. */
  predicate CommitsLast(effects: seq<Effect>, cache: map<Address, ReserveData>, owner: Address, positions: Positions) {
    && |effects| >= 2
    && effects[|effects| - 2] == Store(ReservesStored(cache))
    && effects[|effects| - 1] == Store(PositionsStored(owner, positions))
    && forall i :: 0 <= i < |effects| - 2 ==> !effects[i].Store?
  }

  /** The outcome of `execute_submit`, with `healthFactor` the oracle-priced
      health factor (7 decimals) of a set of positions. */
  function Submitted(
    from: Address, spender: Address, to: Address, pool: Address,
    built: Built, useAllowance: bool, healthFactor: Positions -> int): Result<Submission, PoolError>
  {
    if from == pool || spender == pool || to == pool then Err(BadRequest)
    else if built.checkHealth && built.positions.HasLiabilities() && healthFactor(built.positions) < MIN_HEALTH_FACTOR then Err(InvalidHf)
    else
      Ok(Submission(built.positions,
        AsEffects(Settlement(built.actions, pool, spender, to, useAllowance))
        + [Store(ReservesStored(built.cache)), Store(PositionsStored(from, built.positions))]))
  }

  /** `execute_submit`.  The pool cannot be a party; the health factor is
      checked only when the requests ask for it and the user owes something;
      the transfers are settled before anything is stored. */
  method ExecuteSubmit(
    from: Address, spender: Address, to: Address, pool: Address,
    built: Built, useAllowance: bool, healthFactor: Positions -> int)
    returns (res: Result<Submission, PoolError>)
    ensures res == Submitted(from, spender, to, pool, built, useAllowance, healthFactor)
    ensures res.Err? <==>
      || from == pool || spender == pool || to == pool
      || (built.checkHealth && built.positions.HasLiabilities() && healthFactor(built.positions) < MIN_HEALTH_FACTOR)
    ensures res.Err? && (from == pool || spender == pool || to == pool) ==> res.error == BadRequest
    ensures res.Err? && !(from == pool || spender == pool || to == pool) ==> res.error == InvalidHf
    ensures res.Ok? ==> res.value.positions == built.positions
    ensures res.Ok? ==> CommitsLast(res.value.effects, built.cache, from, built.positions)
  {
    if from == pool || spender == pool || to == pool {
      return Err(BadRequest);
    }
    if built.checkHealth && built.positions.HasLiabilities() && healthFactor(built.positions) < MIN_HEALTH_FACTOR {
      return Err(InvalidHf);
    }
    var calls;
    if useAllowance {
      calls := HandleTransferWithAllowance(built.actions, pool, spender, to);
    } else {
      calls := HandleTransfers(built.actions, pool, spender, to);
    }
    var effects := AsEffects(calls) + [Store(ReservesStored(built.cache)), Store(PositionsStored(from, built.positions))];
    return Ok(Submission(built.positions, effects));
  }

  /** A submission that leaves the user owing nothing, or that does not ask
      for a health check, never consults the oracle: any two price sources
      give the same outcome. */
  lemma SubmitSkipsOracle(
    from: Address, spender: Address, to: Address, pool: Address,
    built: Built, useAllowance: bool, healthFactor: Positions -> int, otherFactor: Positions -> int)
    requires !built.positions.HasLiabilities() || !built.checkHealth
    ensures Submitted(from, spender, to, pool, built, useAllowance, healthFactor)
         == Submitted(from, spender, to, pool, built, useAllowance, otherFactor)
  {
  }

  /** Whether or not it nets, a successful submission changes the pool's
      balance of every token by what the spender sends in less what the pool
      pays out. */
  lemma SubmitPoolChange(
    from: Address, spender: Address, to: Address, pool: Address,
    built: Built, useAllowance: bool, healthFactor: Positions -> int, token: Address)
    requires Submitted(from, spender, to, pool, built, useAllowance, healthFactor).Ok?
    ensures Moved(Settlement(built.actions, pool, spender, to, useAllowance), token, pool) == -NetOf(built.actions, token)
  {
    NettingKeepsPoolChange(built.actions, pool, spender, to, token);
  }

  /** A flash loan: `amount` of `asset` lent to the receiver contract
      `contract` for the length of the submission. */
  datatype FlashLoan = FlashLoan(contract: Address, asset: Address, amount: nat)

  /** The pool's reserve cache as `execute_submit_with_flash_loan` commits
      it: the flash-loan reserve is never put back into the cache, so the
      d-tokens minted for the loan are not stored. */
  function FlashCommitAsWritten(cache: map<Address, ReserveData>, asset: Address, reserve: ReserveData): map<Address, ReserveData> {
    cache
  }

  /** The cache with the flash-loan reserve put back, as the bad-debt path
      does with every reserve it touches. */
  function FlashCommit(cache: map<Address, ReserveData>, asset: Address, reserve: ReserveData): (r: map<Address, ReserveData>)
    ensures asset in r && r[asset] == reserve
    ensures forall a :: a != asset ==> (a in r <==> a in cache) && (a in cache ==> r[a] == cache[a])
  {
    cache[asset := reserve]
  }

  /** `load_reserve`: the reserve of `asset` as the pool serves it, the
      cached copy when the requests already used the asset, otherwise the
      one `loadReserve` reads from the ledger. */
  function CachedReserve(cache: map<Address, ReserveData>, asset: Address, loadReserve: Address -> ReserveData): ReserveData {
    if asset in cache then cache[asset] else loadReserve(asset)
  }

  /** As written, a flash loan that mints d-tokens never commits them: the
      reserve stored for the asset, if any, is not the one that counts the
      loan. */
  lemma FlashDebtLostAsWritten(cache: map<Address, ReserveData>, asset: Address, loadReserve: Address -> ReserveData, minted: nat)
    requires minted > 0
    ensures var data := CachedReserve(cache, asset, loadReserve);
      var stored := FlashCommitAsWritten(cache, asset, data.(dSupply := data.dSupply + minted));
      !(asset in stored && stored[asset].dSupply == data.dSupply + minted)
  {
  }

  /** The reserve cache after a flash loan of `asset`, booked on the
      reserve `load_reserve` serves, and the d-tokens minted: put back, the
      stored d-token supply counts the loan on top of the cached one, and
      every other reserve is as cached. */
  lemma FlashCommitKeepsDebt(cache: map<Address, ReserveData>, asset: Address, loadReserve: Address -> ReserveData, minted: nat)
    ensures var data := CachedReserve(cache, asset, loadReserve);
      var stored := FlashCommit(cache, asset, data.(dSupply := data.dSupply + minted));
      && stored[asset].dSupply == data.dSupply + minted
      && (asset in cache ==> stored[asset] == cache[asset].(dSupply := cache[asset].dSupply + minted))
      && (asset !in cache ==> stored[asset] == loadReserve(asset).(dSupply := loadReserve(asset).dSupply + minted))
      && stored.Keys == cache.Keys + {asset}
      && forall a :: a in cache && a != asset ==> stored[a] == cache[a]
  {
  }

  /** The flash loan booked against the user: the user's new positions,
      the reserve with the loan's d-tokens counted, and those d-tokens. */
  datatype FlashMint = FlashMint(positions: Positions, reserve: ReserveData, dTokens: nat)

  /** Booking a flash loan of `amount` on the reserve `config`/`data`: mint
      the d-tokens worth `amount` (rounded up) to the user and enforce the
      reserve's utilization cap with them counted. */
  function FlashMinted(positions: Positions, config: ReserveConfig, data: ReserveData, amount: nat): (r: Result<FlashMint, PoolError>)
    ensures r.Err? ==> r.error == ArithmeticError || r.error == InvalidUtilRate
    ensures data.dRate == 0 ==> r == Err(ArithmeticError)
    ensures r.Ok? ==>
      var m := r.value;
      && m.dTokens * data.dRate - data.dRate < amount * SCALAR_9 <= m.dTokens * data.dRate
      && m.positions.Liability(config.index) == positions.Liability(config.index) + m.dTokens
      && (forall i :: i != config.index ==> m.positions.Liability(i) == positions.Liability(i))
      && m.positions.collateral == positions.collateral && m.positions.supply == positions.supply
      && m.reserve == data.(dSupply := data.dSupply + m.dTokens)
      && m.reserve.TotalSupply() > 0
      && m.reserve.TotalLiabilities() * SCALAR_7 <= config.maxUtil * m.reserve.TotalSupply()
    ensures data.dRate > 0 && r.Err? ==>
      var after := data.(dSupply := data.dSupply + data.ToDTokenUp(amount).value);
      after.TotalSupply() == 0 || after.TotalLiabilities() * SCALAR_7 > config.maxUtil * after.TotalSupply()
  {
    match data.ToDTokenUp(amount)
    case None => Err(ArithmeticError)
    case Some(minted) =>
      var added := AddLiabilities(positions, data, config.index, minted);
      match added.1.CheckUtilization(config.maxUtil)
      case Fail(e) => Err(e)
      case Pass => Ok(FlashMint(added.0, added.1, minted))
  }

  /** The flash-loan block of `execute_submit_with_flash_loan`: load the
      reserve (from the cache when the requests used it), mint the d-tokens
      into the user's liabilities, which raises the reserve's d-token supply
      in place, and check its utilization. */
  method MintFlashLoan(
    positions: Positions, asset: Address, config: ReserveConfig,
    cache: map<Address, ReserveData>, loadReserve: Address -> ReserveData, amount: nat)
    returns (res: Result<FlashMint, PoolError>)
    ensures res == FlashMinted(positions, config, CachedReserve(cache, asset, loadReserve), amount)
  {
    var data := if asset in cache then cache[asset] else loadReserve(asset);
    var reserve := new Reserve(asset, config, data);
    var minted := reserve.Data().ToDTokenUp(amount);
    if minted.None? {
      return Err(ArithmeticError);
    }
    var dTokens := minted.value;
    var added := AddLiabilities(positions, reserve.Data(), reserve.index, dTokens);
    reserve.dSupply := added.1.dSupply;
    assert reserve.Data() == added.1;
    var utilization := reserve.RequireUtilizationBelowMax();
    if utilization.Fail? {
      return Err(utilization.error);
    }
    return Ok(FlashMint(added.0, reserve.Data(), dTokens));
  }

  /** The loan booked by `execute_submit_with_flash_loan` on the positions
      the requests built, against the reserve `load_reserve` serves. */
  function FlashBooked(flash: FlashLoan, built: Built, config: ReserveConfig, loadReserve: Address -> ReserveData): Result<FlashMint, PoolError> {
    FlashMinted(built.positions, config, CachedReserve(built.cache, flash.asset, loadReserve), flash.amount)
  }

  /** The outcome of `execute_submit_with_flash_loan`.  `config` is the
      flash-loan reserve's configuration and `loadReserve` the pool's
      reserve loader; the requests are built first, then the loan is
      booked. */
  function FlashSubmitted(
    from: Address, pool: Address, flash: FlashLoan,
    built: Built, useAllowance: bool, healthFactor: Positions -> int,
    config: ReserveConfig, loadReserve: Address -> ReserveData): Result<Submission, PoolError>
  {
    if from == pool then Err(BadRequest)
    else match FlashBooked(flash, built, config, loadReserve)
      case Err(e) => Err(e)
      case Ok(m) =>
        if m.positions.HasLiabilities() && healthFactor(m.positions) < MIN_HEALTH_FACTOR then Err(InvalidHf)
        else
          Ok(Submission(m.positions,
            [FlashBorrowed(flash.asset, flash.contract, flash.amount, m.dTokens),
             Call(Transfer(flash.asset, pool, flash.contract, flash.amount)),
             Executed(flash.contract, flash.asset, flash.amount)]
            + AsEffects(Settlement(built.actions, pool, from, from, useAllowance))
            + [Store(ReservesStored(FlashCommit(built.cache, flash.asset, m.reserve))), Store(PositionsStored(from, m.positions))]))
  }

  /** `execute_submit_with_flash_loan`.  Only `from` is checked against the
      pool; the health factor is checked whenever the user owes something,
      whatever the requests ask; the loan is sent and the receiver called
      before the requests' transfers, which `from` both pays and receives. */
  method ExecuteSubmitWithFlashLoan(
    from: Address, pool: Address, flash: FlashLoan,
    built: Built, useAllowance: bool, healthFactor: Positions -> int,
    config: ReserveConfig, loadReserve: Address -> ReserveData)
    returns (res: Result<Submission, PoolError>)
    ensures res == FlashSubmitted(from, pool, flash, built, useAllowance, healthFactor, config, loadReserve)
    ensures from == pool ==> res == Err(BadRequest)
  {
    if from == pool {
      return Err(BadRequest);
    }
    var minted := MintFlashLoan(built.positions, flash.asset, config, built.cache, loadReserve, flash.amount);
    if minted.Err? {
      return Err(minted.error);
    }
    var m := minted.value;
    if m.positions.HasLiabilities() && healthFactor(m.positions) < MIN_HEALTH_FACTOR {
      return Err(InvalidHf);
    }
    var calls;
    if useAllowance {
      calls := HandleTransferWithAllowance(built.actions, pool, from, from);
    } else {
      calls := HandleTransfers(built.actions, pool, from, from);
    }
    var cache := FlashCommit(built.cache, flash.asset, m.reserve);
    var effects :=
      [FlashBorrowed(flash.asset, flash.contract, flash.amount, m.dTokens),
       Call(Transfer(flash.asset, pool, flash.contract, flash.amount)),
       Executed(flash.contract, flash.asset, flash.amount)]
      + AsEffects(calls)
      + [Store(ReservesStored(cache)), Store(PositionsStored(from, m.positions))];
    return Ok(Submission(m.positions, effects));
  }

  /** When a flash-loan submission fails, and with which error: `from` is
      the pool, or booking the loan fails (a zero `d_rate` or the
      utilization cap), or the user then owes something and is not
      healthy.  Otherwise it succeeds. */
  lemma FlashSubmitOutcome(
    from: Address, pool: Address, flash: FlashLoan,
    built: Built, useAllowance: bool, healthFactor: Positions -> int,
    config: ReserveConfig, loadReserve: Address -> ReserveData)
    ensures var r := FlashSubmitted(from, pool, flash, built, useAllowance, healthFactor, config, loadReserve);
      var b := FlashBooked(flash, built, config, loadReserve);
      && (r.Err? <==> from == pool || b.Err? || (b.value.positions.HasLiabilities() && healthFactor(b.value.positions) < MIN_HEALTH_FACTOR))
      && (from == pool ==> r == Err(BadRequest))
      && (from != pool && b.Err? ==> r == Err(b.error))
      && (from != pool && b.Ok? && b.value.positions.HasLiabilities() && healthFactor(b.value.positions) < MIN_HEALTH_FACTOR ==> r == Err(InvalidHf))
      && (r.Ok? ==> r.value.positions == b.value.positions)
  {
  }

  /** A successful flash-loan submission ends by committing the reserve
      cache, with the loan's reserve put back into it, and then the user's
      positions; nothing is stored before.  The reserve put back is the one
      `load_reserve` served, the cached one when the requests used the
      asset, with the minted d-tokens added to its supply. */
  lemma FlashCommitsLast(
    from: Address, pool: Address, flash: FlashLoan,
    built: Built, useAllowance: bool, healthFactor: Positions -> int,
    config: ReserveConfig, loadReserve: Address -> ReserveData)
    requires FlashSubmitted(from, pool, flash, built, useAllowance, healthFactor, config, loadReserve).Ok?
    ensures var m := FlashBooked(flash, built, config, loadReserve).value;
      var data := CachedReserve(built.cache, flash.asset, loadReserve);
      var c := FlashCommit(built.cache, flash.asset, m.reserve);
      && CommitsLast(FlashSubmitted(from, pool, flash, built, useAllowance, healthFactor, config, loadReserve).value.effects, c, from, m.positions)
      && c[flash.asset] == data.(dSupply := data.dSupply + m.dTokens)
      && (flash.asset in built.cache ==> c[flash.asset].dSupply == built.cache[flash.asset].dSupply + m.dTokens)
      && c.Keys == built.cache.Keys + {flash.asset}
      && forall a :: a in built.cache && a != flash.asset ==> c[a] == built.cache[a]
  {
    var m := FlashBooked(flash, built, config, loadReserve).value;
    var head := [FlashBorrowed(flash.asset, flash.contract, flash.amount, m.dTokens),
       Call(Transfer(flash.asset, pool, flash.contract, flash.amount)),
       Executed(flash.contract, flash.asset, flash.amount)];
    var calls := AsEffects(Settlement(built.actions, pool, from, from, useAllowance));
    var tail := [Store(ReservesStored(FlashCommit(built.cache, flash.asset, m.reserve))), Store(PositionsStored(from, m.positions))];
    var effects := head + calls + tail;
    assert effects == FlashSubmitted(from, pool, flash, built, useAllowance, healthFactor, config, loadReserve).value.effects;
    forall i | 0 <= i < |effects| - 2
      ensures !effects[i].Store?
    {
      if i >= 3 {
        assert effects[i] == calls[i - 3];
      }
    }
  }

  /** A successful flash loan leaves the user owing, at the reserve's index,
      the d-tokens worth the loan rounded up on top of what they owed;
      whenever the user then owes anything the oracle found them healthy,
      whatever the requests asked. */
  lemma FlashLoanOwed(
    from: Address, pool: Address, flash: FlashLoan,
    built: Built, useAllowance: bool, healthFactor: Positions -> int,
    config: ReserveConfig, loadReserve: Address -> ReserveData)
    requires FlashSubmitted(from, pool, flash, built, useAllowance, healthFactor, config, loadReserve).Ok?
    ensures var r := FlashSubmitted(from, pool, flash, built, useAllowance, healthFactor, config, loadReserve).value;
      var m := FlashBooked(flash, built, config, loadReserve).value;
      && r.positions.Liability(config.index) == built.positions.Liability(config.index) + m.dTokens
      && m.dTokens * CachedReserve(built.cache, flash.asset, loadReserve).dRate >= flash.amount * SCALAR_9
      && (r.positions.HasLiabilities() ==> healthFactor(r.positions) >= MIN_HEALTH_FACTOR)
      && (m.dTokens > 0 ==> r.positions.HasLiabilities())
      && FlashSubmitted(from, pool, flash, built.(checkHealth := !built.checkHealth), useAllowance, healthFactor, config, loadReserve).Ok?
  {
    var minted := FlashBooked(flash, built, config, loadReserve);
    assert minted.Ok?;
    var m := minted.value;
    var r := FlashSubmitted(from, pool, flash, built, useAllowance, healthFactor, config, loadReserve).value;
    assert r.positions == m.positions;
    if m.dTokens > 0 {
      assert config.index in m.positions.liabilities;
    }
    var flipped := built.(checkHealth := !built.checkHealth);
    assert flipped.positions == built.positions && flipped.actions == built.actions && flipped.cache == built.cache;
  }

  /** The requests' transfers in a flash-loan submission change every
      balance exactly as the gross transfers would, netted or not. */
  lemma FlashSettlementMoves(
    pool: Address, from: Address, actions: Actions, useAllowance: bool, token: Address, holder: Address)
    requires pool != from
    ensures Moved(Settlement(actions, pool, from, from, useAllowance), token, holder)
         == Moved(GrossCalls(actions, pool, from, from), token, holder)
  {
    NettingForOneAccount(actions, pool, from, token, holder);
  }
}
