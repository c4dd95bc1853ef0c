# Blend lending pool and backstop: a Dafny model of the accounting core

This project models four pieces of the Blend v2 contracts and proves
properties of them.

- **Reserve accounting** (`pool/src/pool/reserve.rs`). This is the per-asset
  ledger of a lending pool. It covers:
  - conversions between underlying and the d-token (debt) and b-token
    (supply) shares, each with a fixed rounding direction;
  - risk-weighted values;
  - utilization and its cap;
  - the gate on disabled reserves;
  - `gulp`, which splits accrued interest between the backstop and the
    suppliers;
  - `load`, the lazy accrual of interest up to the current time.

  `ReserveData` is the stored value, and the functions `Gulped` and `Loaded`
  say what one step does to it. The class `Reserve` is the in-memory struct,
  and its methods `Gulp` and `Load` change its fields in place. Both methods
  are proved against those functions.
- **Backstop emissions** (`backstop/src/emissions/distributor.rs`). This is a
  reward-per-share accumulator:
  - a pool index grows by the emitted tokens per unqueued share;
  - each depositor keeps a snapshot of an index and the tokens accrued up to
    it;
  - a claim hands out what is accrued.

  The class `EmissionStore` holds the three storage maps, and its methods
  write them as the source does. The value function `Distribute` states what
  one call does, and the lemmas in `EmissionLaws` are about it.
- **Bad-debt transfer** (`pool/src/pool/bad_debt.rs`). A user who owes
  something and holds no collateral hands every liability to the backstop.
  - The loop is a method whose invariants tie four results to fold functions
    over the ascending list of reserve indices: the user, the backstop, the
    reserve cache and the event log.
  - The lemmas evaluate those folds.
- **Submission** (`pool/src/pool/submit.rs`). This covers:
  - the guards against the pool being a party;
  - when the health check runs;
  - how a flash loan is booked;
  - the two ways of settling the token transfers: netted per token on an
    allowance, or one call per transfer;
  - the order in which state is committed.

  A submission produces a log of effects: token calls, the flash-loan event,
  the receiver callback, and the storage writes. The lemmas are stated on
  that log.

Fixed-point helpers (`fixed_mul_floor/ceil`, `fixed_div_floor/ceil`) are
modelled on unbounded integers in `fixed_point.dfy`. A zero divisor is a
`None`, where the source panics when it unwraps. Soroban maps are iterated
in ascending key order. `KeyOrder.SortedKeys` models this as an ascending
scan below a bound.

## Model

| member | source | states |
|---|---|---|
| FixedPoint.MulFloor | pool/src/pool/reserve.rs:199-203 | `x*y/d` rounded down: the result times `d` is at most `x*y` and within `d` of it; nonnegative inputs give a nonnegative result |
| FixedPoint.MulCeil | pool/src/pool/reserve.rs:189-193 | `x*y/d` rounded up: the result times `d` is at least `x*y` and less than `d` above it |
| FixedPoint.DivFloor | pool/src/pool/reserve.rs:239-247 | `x*d/y` rounded down; fails exactly when `y` is zero |
| FixedPoint.DivCeil | pool/src/pool/reserve.rs:229-237 | `x*d/y` rounded up; fails exactly when `y` is zero |
| Reserves.BackstopShare | pool/src/pool/reserve.rs:130-136 | the backstop's take is `accrued*bstop_rate/10^7` rounded down (zero at a zero rate); it is at most the interest, and strictly less below a 100% rate |
| Reserves.ReserveData.ToAssetFromDToken | pool/src/pool/reserve.rs:189-193 | the underlying owed for `d_tokens` is `d_tokens*d_rate/10^9` rounded up; nonnegative for nonnegative tokens |
| Reserves.ReserveData.ToAssetFromBToken | pool/src/pool/reserve.rs:199-203 | the underlying claimable for `b_tokens` is `b_tokens*b_rate/10^9` rounded down; nonnegative for nonnegative tokens |
| Reserves.ReserveData.ToDTokenUp | pool/src/pool/reserve.rs:233-237 | the d-tokens for an amount are `amount*10^9/d_rate` rounded up; fails exactly on a zero `d_rate` |
| Reserves.ReserveData.ToDTokenDown | pool/src/pool/reserve.rs:243-247 | the d-tokens for an amount are `amount*10^9/d_rate` rounded down; fails exactly on a zero `d_rate` |
| Reserves.ReserveData.ToBTokenUp | pool/src/pool/reserve.rs:253-257 | the b-tokens for an amount are `amount*10^9/b_rate` rounded up; fails exactly on a zero `b_rate` |
| Reserves.ReserveData.ToBTokenDown | pool/src/pool/reserve.rs:263-267 | the b-tokens for an amount are `amount*10^9/b_rate` rounded down; fails exactly on a zero `b_rate` |
| Reserves.ReserveData.TotalLiabilities | pool/src/pool/reserve.rs:174-176 | the underlying owed for the d-token supply, rounded up, is never negative |
| Reserves.ReserveData.TotalSupply | pool/src/pool/reserve.rs:179-181 | the underlying claimable for the b-token supply, rounded down, is never negative |
| Reserves.ReserveData.Utilization | pool/src/pool/reserve.rs:144-148 | utilization is total liabilities over total supply, 7 decimals, rounded up and never negative; fails exactly when the supply is worth nothing |
| Reserves.ReserveData.CheckUtilization | pool/src/pool/reserve.rs:144-155 | fails with a division error exactly when the supply is worth nothing; otherwise refuses exactly when liabilities exceed `maxUtil` of the supply in exact arithmetic |
| Reserves.ReserveData.Gulped | pool/src/pool/reserve.rs:124-141 | the value `gulp` leaves; `ReserveLaws.GulpIgnoresNoInterest`, `GulpSplitsInterest`, `GulpNeverLowersRate` and `GulpExample` state its outcome, its credit, its new `b_rate` and its frame |
| Reserves.Loaded | pool/src/pool/reserve.rs:46-103 | the value `load` leaves; `ReserveLaws.LoadOutcome`, `LoadIdempotent`, `LoadIdleReserve`, `LoadNeverLowersRates`, `LoadInterestCoversGains` and `LoadExample` state when it fails and what it changes |
| Reserves.Reserve.constructor | pool/src/pool/reserve.rs:46-65 | the reserve takes its configuration fields from the config and its data fields from the stored data; the scalar is `10^decimals` |
| Reserves.Reserve.RequireUtilizationBelowMax | pool/src/pool/reserve.rs:151-155 | refuses with `InvalidUtilRate` exactly when liabilities times 10^7 exceed `max_util` times the supply |
| Reserves.Reserve.ToEffectiveAssetFromDToken | pool/src/pool/reserve.rs:210-215 | effective debt is the debt divided by the liability factor, rounded up; fails exactly on a zero factor |
| Reserves.Reserve.ToEffectiveAssetFromBToken | pool/src/pool/reserve.rs:222-227 | effective collateral is the collateral times the collateral factor, rounded down |
| Reserves.Reserve.RequireActionAllowed | pool/src/pool/reserve.rs:161-171 | a disabled reserve refuses supply, collateral supply and borrow with `ReserveDisabled`; withdrawals, repayments and every request to an enabled reserve pass |
| Reserves.Reserve.Gulp | pool/src/pool/reserve.rs:124-141 | the in-place update leaves exactly the data `Gulped` computes, and fails only where `Gulped` does, on a division error |
| Reserves.Reserve.Load | pool/src/pool/reserve.rs:46-103 | the updated reserve is fresh, leaves exactly the data `Loaded` computes, carries every configuration field (index, factors, `max_util`, scalar `10^decimals`, collateral cap, enabled), and fails exactly when `Loaded` does |
| ReserveLaws.BorrowOwesAtLeastAmount | pool/src/pool/reserve.rs:229-237 | d-tokens minted for a borrow, rounded up, are worth at least the amount |
| ReserveLaws.RepayBurnsAtMostAmount | pool/src/pool/reserve.rs:239-247 | d-tokens burned for a repayment, rounded down, are worth at most the amount |
| ReserveLaws.DepositMintsAtMostAmount | pool/src/pool/reserve.rs:259-267 | b-tokens minted for a deposit are worth at most the deposit |
| ReserveLaws.WithdrawBurnsAtLeastAmount | pool/src/pool/reserve.rs:249-257 | b-tokens burned for a withdrawal are worth at least the amount |
| ReserveLaws.TokenRoundingGap | pool/src/pool/reserve.rs:233-267 | each conversion fails exactly on a zero rate; up and down differ by 0 or 1 and agree exactly when the division is exact |
| ReserveLaws.DebtRoundsAboveClaim | pool/src/pool/reserve.rs:189-203 | at equal rates a token as debt is worth the same as, or one unit more than, the same token as a claim |
| ReserveLaws.DTokenRoundTrip | pool/src/pool/reserve.rs:189-237 | debt converted to underlying and back up never loses a d-token, and is exact downwards when a d-token is worth at least one unit |
| ReserveLaws.BTokenRoundTrip | pool/src/pool/reserve.rs:199-267 | a claim converted to underlying and back down never gains a b-token, and is exact upwards when a b-token is worth at least one unit |
| ReserveLaws.EffectiveValuesAreConservative | pool/src/pool/reserve.rs:210-227 | with factors of at most 100%, effective debt is at least the debt and effective collateral at most the collateral |
| ReserveLaws.GulpIgnoresNoInterest | pool/src/pool/reserve.rs:124-141 | interest that is not positive leaves the data unchanged |
| ReserveLaws.GulpSplitsInterest | pool/src/pool/reserve.rs:124-141 | positive interest fails only on an empty b-token supply; otherwise it credits the backstop with its share, sets `b_rate` to the rest times 10^9 over `b_supply` rounded down, so suppliers get at most the rest with a bounded rounding loss, and changes no other field |
| ReserveLaws.GulpNeverLowersRate | pool/src/pool/reserve.rs:124-141 | below a 100% backstop rate, gulping succeeds on a non-empty supply and never lowers `b_rate` |
| ReserveLaws.GulpFullTakeCanLowerRate | pool/src/pool/reserve.rs:124-141 | at a 100% backstop rate a concrete reserve sees `b_rate` fall from 1.5 to 4/3 |
| ReserveLaws.GulpExample | pool/src/pool/reserve.rs:739-761 | the gulp test: 100 units at a 20% take give +20 credit and `b_rate` 1.8 |
| ReserveLaws.LoadOutcome | pool/src/pool/reserve.rs:46-103 | load fails only when time moved and a non-empty b-token supply is worth nothing; success stamps `now` and keeps both token supplies |
| ReserveLaws.LoadIdempotent | pool/src/pool/reserve.rs:67-70 | loading again at the same timestamp returns the same data, whatever the rate curve says |
| ReserveLaws.LoadIdleReserve | pool/src/pool/reserve.rs:72-82 | with no suppliers, or no debt, only the timestamp changes |
| ReserveLaws.AccrualRaisesDebt | pool/src/pool/reserve.rs:93-97 | an accrual factor of at least one never lowers `d_rate` or the total liabilities |
| ReserveLaws.LoadNeverLowersRates | pool/src/pool/reserve.rs:84-101 | below a 100% backstop rate and with a factor of at least one, loading never lowers `d_rate`, `b_rate` or the backstop credit |
| ReserveLaws.LoadInterestCoversGains | pool/src/pool/reserve.rs:84-101 | what suppliers and the backstop gain in one load is at most the interest charged to borrowers |
| ReserveLaws.LoadExample | pool/src/pool/reserve.rs:276-322 | the load test vectors: utilization 0_7864353, the new rates and credit with and without a backstop take |
| ReserveLaws.ConversionExamples | pool/src/pool/reserve.rs:562-702 | the conversion test vectors at rates 1.321834961 and 1.823912692 |
| Positions.AddLiabilities | pool/src/pool/bad_debt.rs:40 | owing more d-tokens at one index raises that entry by the amount and the reserve's d-token supply with it, touching nothing else |
| Positions.RemoveLiabilities | pool/src/pool/bad_debt.rs:41 | owing fewer d-tokens fails exactly when the entry is short; otherwise lowers the entry, drops it at zero, lowers the reserve's supply, and touches nothing else |
| KeyOrder.SortedKeys | pool/src/pool/bad_debt.rs:37 | the iteration order of a map's keys below a bound is strictly ascending and lists only keys of the map |
| KeyOrder.SortedKeysCover | pool/src/pool/submit.rs:162 | that order lists exactly the keys below the bound |
| BadDebt.UserAfter | pool/src/pool/bad_debt.rs:37-41 | the user after the first `n` passes of the loop; `BadDebt.MoveLiabilities` is proved against it and `BadDebtClearsUser` evaluates it |
| BadDebt.BackstopAfter | pool/src/pool/bad_debt.rs:37-40 | the backstop after the first `n` passes; `MovedBackstop` and `BadDebtBackstopOwesAll` state what it owes |
| BadDebt.CacheAfter | pool/src/pool/bad_debt.rs:37-42 | the reserve cache after the first `n` passes; `BadDebtCachesLoaded` states its keys and entries |
| BadDebt.EventsAfter | pool/src/pool/bad_debt.rs:44 | the event log after the first `n` passes holds exactly `n` events; `MovedEvents` states their contents |
| BadDebt.PassStep | pool/src/pool/bad_debt.rs:37-42 | one pass moves the user's entry at an index to the backstop and leaves the reserve's d-token supply where it started |
| BadDebt.MovedBackstop | pool/src/pool/bad_debt.rs:40 | after `n` passes the backstop owes its own debt plus the user's debt at every index passed, with collateral and supply untouched |
| BadDebt.MovedEvents | pool/src/pool/bad_debt.rs:44 | after `n` passes one event per index passed has been published, in order, with that entry's asset and amount |
| BadDebt.MoveLiabilities | pool/src/pool/bad_debt.rs:37-45 | the loop leaves the user, the backstop, the reserve cache and the event log exactly as the four folds compute |
| BadDebt.TransferBadDebtToBackstop | pool/src/pool/bad_debt.rs:19-50 | fails with `BadRequest` exactly when the user is the backstop, holds collateral or owes nothing; otherwise publishes the loop's events and writes the reserve cache, then the backstop, then the user |
| BadDebt.BadDebtClearsUser | pool/src/pool/bad_debt.rs:37-45 | the user ends owing nothing, with collateral and supply untouched |
| BadDebt.BadDebtBackstopOwesAll | pool/src/pool/bad_debt.rs:37-45 | the backstop ends owing, at every index, its own debt plus the user's, on exactly the union of both sets of indices |
| BadDebt.BadDebtCachesLoaded | pool/src/pool/bad_debt.rs:37-47 | the stored cache holds exactly the assets the user owed, each as loaded |
| BadDebt.BadDebtEventsInOrder | pool/src/pool/bad_debt.rs:44 | one event per liability, in ascending index order, naming its asset and amount |
| Emissions.EmissionEnd | backstop/src/emissions/distributor.rs:89-93 | the emission window ends at `now` or at the expiration, whichever is first |
| Emissions.AdvancedIndex | backstop/src/emissions/distributor.rs:72-106 | the pool data the index advance leaves; `EmissionLaws.CurrentIndexIsKept`, `AdvanceOutcome`, `QueuedSharesAreExcluded`, `SplitAdvanceNeverPaysMore` and `AdvanceSettles` state its outcome |
| Emissions.UserUpdate | backstop/src/emissions/distributor.rs:113-147 | the snapshot written and the payout of a user update; `EmissionLaws.UserUpdateOutcome` and the first-action lemmas state its outcome |
| Emissions.Distribute | backstop/src/emissions/distributor.rs:16-47 | what one `update_emissions` or `claim_emissions` call does to the storage and pays; `EmissionLaws.DistributeFrame`, `NoConfigNoEffect` and the claim lemmas state it |
| Emissions.SetUserEmissions | backstop/src/emissions/distributor.rs:149-164 | the snapshot takes the index; a claim pays everything accrued and keeps zero, an update pays nothing; payout plus kept equals accrued |
| Emissions.EmissionStore.UpdateEmissionDataWithConfig | backstop/src/emissions/distributor.rs:72-106 | the result is `AdvancedIndex` of the stored data; only a successful advance writes the pool's data; missing data fails |
| Emissions.EmissionStore.UpdateEmissionData | backstop/src/emissions/distributor.rs:50-64 | no configuration returns none and writes nothing; otherwise the advance is stored as above |
| Emissions.EmissionStore.SetUser | backstop/src/emissions/distributor.rs:149-164 | writes the snapshot of `SetUserEmissions` and returns its payout, touching nothing else |
| Emissions.EmissionStore.UpdateUserEmissions | backstop/src/emissions/distributor.rs:113-147 | pays and writes exactly what `UserUpdate` computes from the stored snapshot, and writes nothing on failure |
| Emissions.EmissionStore.UpdateEmissions | backstop/src/emissions/distributor.rs:16-26 | leaves the storage `Distribute` computes without a claim, and fails exactly when it does |
| Emissions.EmissionStore.ClaimEmissions | backstop/src/emissions/distributor.rs:35-47 | returns the payout and leaves the storage `Distribute` computes with a claim, and fails exactly when it does |
| EmissionLaws.CurrentIndexIsKept | backstop/src/emissions/distributor.rs:80-87 | an expired, current, silent or empty pool keeps its stored data |
| EmissionLaws.AdvanceOutcome | backstop/src/emissions/distributor.rs:89-105 | otherwise the advance fails exactly on more queued than total shares, a last update in the future, or no unqueued share; success stamps `now` and the gain times the unqueued shares accounts for what was emitted, short of one gain unit |
| EmissionLaws.QueuedSharesAreExcluded | backstop/src/emissions/distributor.rs:95-99 | with the same total shares, queueing more never lowers the new index |
| EmissionLaws.SplitAdvanceNeverPaysMore | backstop/src/emissions/distributor.rs:97-103 | advancing in two steps never credits more than advancing once over the same period |
| EmissionLaws.UserUpdateOutcome | backstop/src/emissions/distributor.rs:121-146 | fails exactly when a snapshot ahead of the index would be credited; every write takes the index; the user never loses accrued tokens; nothing is written exactly when the snapshot is at the index and no claim is made |
| EmissionLaws.NewDepositorCreditedFromZero | backstop/src/emissions/distributor.rs:139-146 | a depositor without a snapshot who holds shares is credited as from a snapshot at index zero |
| EmissionLaws.FirstActionStartsAtIndex | backstop/src/emissions/distributor.rs:136-138 | a first action with no shares stores the current index with nothing accrued and pays nothing |
| EmissionLaws.NoDoubleClaim | backstop/src/emissions/distributor.rs:121-135 | right after a claim, claiming again at the same index pays nothing and an update writes nothing |
| EmissionLaws.NoConfigNoEffect | backstop/src/emissions/distributor.rs:55-63 | without an emission configuration nothing is written and nothing is paid |
| EmissionLaws.DistributeFrame | backstop/src/emissions/distributor.rs:16-47 | a call writes only this pool's data and this user's snapshot, never a configuration, and pays nothing without a claim |
| EmissionLaws.ClaimLeavesNothingAccrued | backstop/src/emissions/distributor.rs:157-159 | after a claim the snapshot sits at the new index with zero accrued |
| EmissionLaws.ClaimPaysWhatUpdateAccrues | backstop/src/emissions/distributor.rs:149-164 | a claim pays exactly what an update at the same moment would keep accrued, and advances the pool identically |
| EmissionLaws.AdvanceSettles | backstop/src/emissions/distributor.rs:80-105 | the data after an advance is current at the same moment |
| EmissionLaws.SecondClaimPaysNothing | backstop/src/emissions/distributor.rs:35-47 | a second claim at the same moment pays nothing and changes nothing |
| EmissionLaws.UpdateAndClaimExample | backstop/src/emissions/distributor.rs:180-237 | the update and claim tests: index 8248888, accrued and then claimed 7_4139996 |
| EmissionLaws.FirstActionExamples | backstop/src/emissions/distributor.rs:280-386 | the first-action tests: a zero-share user starts at the index; a prior depositor is credited 31_1094000 |
| EmissionLaws.QueuedExample | backstop/src/emissions/distributor.rs:388-449 | the queued-shares test: index 8503321 and accrued 38214948 |
| EmissionLaws.MoreQueuedThanSharesExample | backstop/src/emissions/distributor.rs:556-611 | more queued than held shares fails with error #8 |
| EmissionLaws.FutureLastTimeExample | backstop/src/emissions/distributor.rs:613-662 | a last update in the future fails |
| EmissionLaws.UserAheadOfIndexExample | backstop/src/emissions/distributor.rs:664-714 | a snapshot ahead of the pool index fails with error #8 |
| Submit.NetBalances | pool/src/pool/submit.rs:147-160 | the net map has exactly the listed tokens as keys, each mapped to its pool total less its spender total |
| Submit.NettedCalls | pool/src/pool/submit.rs:142-177 | the calls of netted settlement; `HandleTransferWithAllowance` is proved against it, and `NettedMoves` and `NettingPaysBalance` state what they move |
| Submit.HandleTransferWithAllowance | pool/src/pool/submit.rs:142-177 | makes exactly the netted calls: per token in ascending order, a pull of a shortfall from the spender on the pool's allowance, a send of a surplus to `to`, nothing for zero |
| Submit.Pays | pool/src/pool/submit.rs:179-189 | one transfer per listed amount, in list order, with that amount's token |
| Submit.HandleTransfers | pool/src/pool/submit.rs:179-189 | makes every spender transfer into the pool, then every pool transfer to `to`, none netted |
| Submit.GrossCalls | pool/src/pool/submit.rs:179-189 | the calls of gross settlement; `HandleTransfers` is proved against it and `GrossMoves` states what they move |
| Submit.NetCallMoves | pool/src/pool/submit.rs:162-176 | the call for one net amount moves that amount of its own token between the right parties and nothing else |
| Submit.NetCallsMoves | pool/src/pool/submit.rs:162-176 | the calls for the first `n` keys move each passed token's net share and no other token |
| Submit.NettedMoves | pool/src/pool/submit.rs:142-177 | netted settlement changes every balance of every token by exactly that token's net share |
| Submit.PaysMoves | pool/src/pool/submit.rs:179-189 | paying every listed amount moves each token's total from payer to payee |
| Submit.GrossMoves | pool/src/pool/submit.rs:179-189 | gross settlement changes every balance by what the spender sends in and the pool pays out |
| Submit.NettingKeepsPoolChange | pool/src/pool/submit.rs:142-189 | netted and gross settlement change the pool's balance of every token identically, by the spender total less the pool total |
| Submit.NettingPaysBalance | pool/src/pool/submit.rs:162-176 | with netting the spender pays only a token's shortfall and the recipient receives only its surplus |
| Submit.NettingForOneAccount | pool/src/pool/submit.rs:128-132 | when one account sends and receives, netting changes every balance exactly as gross settlement does |
| Submit.NettingExample | pool/src/pool/submit.rs:400-438 | the allowance test: supplying 15 and borrowing 1 of one token makes a single pull of 14 from the spender |
| Submit.GrossExample | pool/src/pool/submit.rs:179-189 | the same requests settled without netting make both transfers |
| Submit.Submitted | pool/src/pool/submit.rs:22-62 | the outcome of `execute_submit`; `ExecuteSubmit` is proved against it, and `SubmitSkipsOracle` and `SubmitPoolChange` are about it |
| Submit.ExecuteSubmit | pool/src/pool/submit.rs:22-62 | fails with `BadRequest` exactly when the pool is `from`, `spender` or `to`; otherwise with `InvalidHf` exactly when a requested health check finds liabilities under 1.0000100; on success settles, then commits the cache, then the positions |
| Submit.SubmitSkipsOracle | pool/src/pool/submit.rs:43-49 | a submission leaving no liabilities, or not asking for a health check, has the same outcome under any oracle |
| Submit.SubmitPoolChange | pool/src/pool/submit.rs:51-55 | netted or not, a successful submission changes the pool's balance of every token by the spender total less the pool total |
| Submit.FlashDebtLostAsWritten | pool/src/pool/submit.rs:87-101 | as written, the committed cache never holds the reserve `load_reserve` served with the minted d-tokens counted |
| Submit.FlashCommitAsWritten | pool/src/pool/submit.rs:87-101 | the cache as the source commits it, without the loan's reserve; `FlashDebtLostAsWritten` shows what it drops |
| Submit.CachedReserve | pool/src/pool/submit.rs:88 | the reserve `load_reserve` serves: the cached copy when the requests used the asset, else the ledger's; `FlashCommitKeepsDebt` and `FlashCommitsLast` state both cases of the committed entry |
| Submit.FlashCommit | pool/src/pool/submit.rs:87-101 | the cache with the loan's reserve put back holds that reserve and every other entry unchanged |
| Submit.FlashCommitKeepsDebt | pool/src/pool/submit.rs:87-101 | put back, the stored d-token supply is the served reserve's plus the loan (the cached one's when the asset was cached), the keys are the cache's plus the asset, and every other reserve is as cached |
| Submit.FlashMinted | pool/src/pool/submit.rs:87-101 | mints the d-tokens worth the amount rounded up, adds them to the user at the reserve's index, touches nothing else, and refuses a drained or over-utilized reserve; a zero `d_rate` fails |
| Submit.MintFlashLoan | pool/src/pool/submit.rs:87-91 | loads the reserve from the cache or the ledger, and the in-place booking on that `Reserve` gives exactly `FlashMinted` |
| Submit.FlashBooked | pool/src/pool/submit.rs:87-91 | the loan booked on the built positions against the served reserve; `FlashSubmitOutcome` and `FlashLoanOwed` state its effect |
| Submit.FlashSubmitted | pool/src/pool/submit.rs:66-139 | the outcome of `execute_submit_with_flash_loan`; `ExecuteSubmitWithFlashLoan` is proved against it, and `FlashSubmitOutcome`, `FlashCommitsLast` and `FlashLoanOwed` are about it |
| Submit.ExecuteSubmitWithFlashLoan | pool/src/pool/submit.rs:66-139 | checks only `from` against the pool; books the loan, checks health whenever the user owes something, sends the loan, calls the receiver, settles with `from` as both parties, then commits |
| Submit.FlashSubmitOutcome | pool/src/pool/submit.rs:66-110 | the flash submission fails exactly when `from` is the pool (`BadRequest`), booking the loan fails (its error), or the user then owes something with a health factor under 1.0000100 (`InvalidHf`) |
| Submit.FlashCommitsLast | pool/src/pool/submit.rs:87-136 | a successful flash submission ends by committing the cache, then the positions, with nothing stored before; the loan's entry is the served reserve with the minted d-tokens added (to the cached one's supply when cached), the other entries are as cached |
| Submit.FlashLoanOwed | pool/src/pool/submit.rs:87-110 | the user owes the loan's d-tokens, worth at least the loan, on top of their debt; whenever the user then owes anything the health check passed; the outcome ignores the `check_health` flag |
| Submit.FlashSettlementMoves | pool/src/pool/submit.rs:128-132 | the requests' transfers in a flash submission change every balance as gross settlement would |

## Left out

- Integer widths: every quantity is an unbounded integer. The `i128` overflow panics of `unwrap_optimized`, and the `u32`/`u64` casts, are not modelled.
- The fixed-point library's rounding of negative operands is not modelled. The library is modelled on the integers with Dafny's division, which matches floor and ceiling for the nonnegative operands the core passes.
- The interest curve `calc_accrual` (interest.rs) is not part of this model. Its two outputs appear as the `Accrual` parameter of `Loaded` and `Reserve.Load`.
- Reserves.Loaded: requires a backstop rate of at most 100%. The pool's configuration code, not part of this model, ensures this; it keeps `b_rate` a natural number.
- Reserves.Reserve.Gulp: the same requirement on the backstop rate, for the same reason.
- Reserves.Reserve.Load: the same requirement on the backstop rate. Reading the stored config and data is replaced by parameters, and the ledger timestamp by `now`.
- Reserve `store` and all ledger storage: writes are values, namely the storage maps of `EmissionStore` and the `Write` log of the pool. TTL extension is not modelled.
- Events: the bad-debt events and the `flash_borrow` event are entries in a log. Publishing them is not modelled.
- Authorization and the tests' mocked auths are not modelled.
- `user.rs` is not part of this model. `add_liabilities` and `remove_liabilities` are functions on values (`Positions.AddLiabilities`, `Positions.RemoveLiabilities`) with the behaviour the core relies on.
- `actions.rs` is not part of this model. What `build_actions_from_request` returns (transfers, new positions, the `check_health` flag, the reserve cache) is the `Built` input of a submission.
- `pool.rs` is not part of this model. The pool's reserve cache is a map from asset to reserve data. Loading and caching reserves are map lookups and updates, and reading a reserve that is not cached is a function parameter (`loadReserve`), with interest accrued up to now.
- `health_factor.rs` and the oracle are not part of this model. The health factor is a function parameter from positions to a 7-decimal ratio.
- Token contracts and the flash-loan receiver are external calls. A submission records them as `Call` and `Executed` effects. Balances, allowances and failures of those calls are not modelled, so a failing transfer cannot abort the model. What calls do to balances is stated by `Moved` over the call log.
- BadDebt.TransferBadDebtToBackstop: requires valid positions (no zero entries) and every liability index inside the reserve list. The user code, not part of this model, keeps entries positive, and the source panics in `get_unchecked` on a bad index.
- Submit.ExecuteSubmitWithFlashLoan: the loan amount is a natural number; a negative `i128` amount is not modelled. The committed cache is the corrected one, with the loan's reserve put back (see Findings).
- `Reserve.load_reserve` with a `store` flag, and `store_cached_reserves` writing each reserve once, are modelled as one write of the whole cache.

## Findings

| source | as written | input that shows it | evidently intended | confidence | as-written member | corrected member |
|---|---|---|---|---|---|---|
| pool/src/pool/submit.rs:87-101 | the reserve that `add_liabilities` updates for the flash loan is never put back into the pool's cache (`bad_debt.rs:42` does this with `cache_reserve`), so the committed cache does not count the minted d-tokens | a flash loan of 1 on a reserve with `d_rate` 1.0 mints 1 d-token to the user, but the reserve stored for that asset keeps the `d_supply` `load_reserve` served, or is not stored at all | the reserve is cached back after minting, so the stored `d_supply` counts the loan | medium, not executed; depends on `pool.rs`, which is not part of this model | Submit.FlashDebtLostAsWritten | Submit.FlashCommitKeepsDebt |
