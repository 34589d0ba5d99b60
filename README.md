# RYFT ledger model

A Dafny model of the ledger state machine of RYFT, a Solana (Anchor) program
that pools liquidity, takes stakes and issues flash loans. The model covers
every instruction handler of `ryft/src/lib.rs` as a method on a `Program`
object that holds the accounts the handlers write:

- the `GlobalState` account (administrator, fee rate in basis points, total
  liquidity, total staked, accumulated fees, the `is_flash_loan_active`
  reentrancy guard, the treasury, the flash-loan whitelist);
- a `UserStake` account per staker;
- the live `FlashLoanState` record, if any;
- a `BorrowerReputation` account per borrower.

Amounts are `u64` (`Checked.U64`) and timestamps `i64` (`Checked.I64`).
Every `checked_*(..).unwrap()` of the source is a `Checked.CheckedAdd`,
`CheckedSub` or `CheckedMul` whose `None` makes the handler fail with
`ArithmeticPanic`.

A failed instruction, whether it returns a `CustomError` or panics, aborts the
Solana transaction, and the runtime discards every account write it made.
Each method writes the accounts step by step in the handler's order and, when
it fails after a write, restores what it found (`Program.Abort`). So every
method ensures that on `Err` the accounts are exactly as before. This covers
the guard raised at `lib.rs:129`, which never survives a failed `flash_loan`.
The explicit reset at `lib.rs:138` is kept as written.

Each token transfer is a foreign call into the token program. It appears as a
boolean parameter saying whether the transfer succeeded. The clock reading
(`Clock::get`) and the pool's token balance (`pool_account.amount`) are
parameters too. An account that a handler needs and that does not exist
fails with `AccountNotInitialized`. That happens for `unstake` or
`compound_rewards` without a stake account, and for `repay_flash_loan`
without a loan record. The account constraints at `lib.rs:321`, `lib.rs:396`
and `lib.rs:421` demand these accounts.

`Program.Valid()` (the predicate `RyftState.Consistent` on the accounts) is
the invariant every handler keeps:

- `total_staked` is the sum of all stakes;
- the guard is up exactly while a loan record is live;
- the whitelist is empty;
- each reputation account is stored under its own borrower.

The whitelist stays empty because no instruction ever adds to it after
`initialize`. So in every reachable state the `NotWhitelisted` branch of
`flash_loan` cannot fire, and `Program.FlashLoan` proves that.

Behaviour kept as the source has it:

- `repay_flash_loan` neither checks the guard nor moves any tokens back to
  the pool. It books the recorded fee even though nothing was paid.
- Any caller may repay, and the reputation goes to whichever borrower account
  the caller names.
- `flash_loan` and `repay_flash_loan` leave `total_liquidity` alone.
- `update_fee_rate` accepts any rate. From 20000 basis points on, the fee
  exceeds every positive principal (`RyftState.UnboundedRateFeeExceedsPrincipal`).
- `stake` never writes the stake account's `owner`. It stays the all-zero
  key of a zero-filled account.

## Model

| member | source | states |
|---|---|---|
| Checked.CheckedAdd | ryft/src/lib.rs:49 | `checked_add` succeeds exactly when the sum fits in `u64`, and then gives the sum |
| Checked.CheckedSub | ryft/src/lib.rs:69 | `checked_sub` succeeds exactly when the result is not negative, and then gives the difference |
| Checked.CheckedMul | ryft/src/lib.rs:151 | `checked_mul` succeeds exactly when the product fits in `u64`, and then gives the product |
| RyftState.FlashLoanFee | ryft/src/lib.rs:150-151 | the fee panics exactly when `amount * fee_rate` overflows `u64`; otherwise it is that product divided by 10000 and rounded down (`fee * 10000 <= amount * fee_rate < (fee + 1) * 10000`) |
| RyftState.FeeAtMostPrincipal | ryft/src/lib.rs:151 | at a fee rate of at most 10000 basis points the fee never exceeds the principal |
| RyftState.FeeExceedsPrincipalIff | ryft/src/lib.rs:151 | the fee exceeds the principal exactly when `amount * fee_rate >= (amount + 1) * 10000` |
| RyftState.UnboundedRateFeeExceedsPrincipal | ryft/src/lib.rs:30-37 | the rate `update_fee_rate` accepts without a bound makes the fee exceed every positive principal from 20000 basis points on |
| RyftState.FeeExamples | ryft/src/lib.rs:151 | at 100 basis points a loan of 10000 costs 100 and a loan of 999 costs 9 |
| RyftState.WhitelistAllows | ryft/src/lib.rs:130-132 | a borrower passes the whitelist exactly when the list is empty or holds the borrower |
| RyftState.WithinRepayWindow | ryft/src/lib.rs:173 | a loan may be repaid exactly when `now <= start_time + 30`: a difference of exactly 30 seconds is accepted and one of 31 is not |
| RyftState.StakeAccount | ryft/src/lib.rs:285-291 | an existing stake account is used as it is; a missing one is the zero-filled account `init_if_needed` creates (default owner, amount 0, reward debt 0, timestamp 0) |
| RyftState.ReputationAccount | ryft/src/lib.rs:402 | an existing reputation account is used as it is; a missing one is the zero-filled account `init_if_needed` creates (default borrower, reputation 0) |
| RyftState.SumStakesRemove | ryft/src/lib.rs:112-117 | the sum of all stakes is one account's amount plus the sum of the others |
| RyftState.SumStakesUpdate | ryft/src/lib.rs:83-92 | replacing one stake account changes the sum of all stakes by exactly the change in that account's amount, so adding the same `amount` to a stake and to `total_staked` keeps them in step |
| RyftState.StakeWithinSum | ryft/src/lib.rs:116-117 | no stake exceeds the sum of all stakes, so while `total_staked` is that sum its `checked_sub` in `unstake` cannot panic |
| Ryft.Program.Initialize | ryft/src/lib.rs:13-27 | the caller becomes administrator, the fee rate is as given, liquidity, stake and fees are 0, the guard is down, the whitelist is empty; the invariant holds |
| Ryft.Program.UpdateFeeRate | ryft/src/lib.rs:30-37 | fails with `Unauthorized`, changing nothing, exactly when the caller is not the administrator; otherwise only the fee rate changes, to exactly the new rate |
| Ryft.Program.DepositLiquidity | ryft/src/lib.rs:40-52 | fails, changing nothing, when the transfer fails or the sum would overflow `u64`; otherwise only `total_liquidity` changes, growing by exactly `amount` |
| Ryft.Program.WithdrawLiquidity | ryft/src/lib.rs:55-72 | fails with `InsufficientLiquidity`, changing nothing, exactly when `amount > total_liquidity`; a failed transfer changes nothing; otherwise only `total_liquidity` changes, shrinking by exactly `amount` |
| Ryft.Program.Stake | ryft/src/lib.rs:75-95 | fails, changing nothing, on a failed transfer or a `u64` overflow; otherwise the caller's stake (created zero-filled when missing) and `total_staked` both grow by exactly `amount`, the timestamp is set to now only when the prior stake was 0, and the invariant is kept |
| Ryft.Program.Unstake | ryft/src/lib.rs:98-120 | fails with `InsufficientStake`, changing nothing, exactly when `amount` exceeds the caller's stake; otherwise the same `amount` leaves the caller's stake and `total_staked`; under the invariant the subtraction never panics and the invariant is kept |
| Ryft.Program.FlashLoan | ryft/src/lib.rs:124-166 | while the guard is up fails with `FlashLoanInProgress` and leaves the loan record alone; a non-member of a non-empty whitelist gets `NotWhitelisted`, a pool balance below `amount` gets `InsufficientLiquidity`, each with the guard left down; on success the guard is up and the record holds the principal, the fee rounded down, the start time and the collateral |
| Ryft.Program.RepayFlashLoan | ryft/src/lib.rs:170-185 | fails with `FlashLoanExpired`, changing nothing, exactly when more than 30 seconds have passed (30 is accepted); on success the fees grow by exactly the recorded fee, the guard goes down, the record is closed and the borrower's reputation grows by exactly 1; no reputation ever decreases |
| Ryft.Program.DistributeRewards | ryft/src/lib.rs:189-192 | succeeds and changes nothing |
| Ryft.Program.CompoundRewards | ryft/src/lib.rs:195-198 | changes nothing, and succeeds exactly when the caller's stake account exists |
| Ryft.Program.MultiHopFlashLoan | ryft/src/lib.rs:202-205 | succeeds for any amounts and changes nothing |
| RyftScenarios.OverdrawScenario | ryft/src/lib.rs:40-72 | depositing 500 and then withdrawing 600 fails with `InsufficientLiquidity` and leaves 500 |
| RyftScenarios.StakeUnstakeScenario | ryft/src/lib.rs:75-120 | staking 300, unstaking 300 and then unstaking 1 fails on the third call, leaving the stake and the total at 0 |
| RyftScenarios.FlashLoanCycleScenario | ryft/src/lib.rs:124-185 | at 100 basis points a loan of 10000 carries a fee of 100; a second loan while it is live fails with `FlashLoanInProgress`; repaying after exactly 30 seconds books the fee and gives reputation 1; repaying after 31 seconds fails with `FlashLoanExpired` |

## Left out

- The Anchor account contexts (`ryft/src/lib.rs:212-433`) are left out. Signer checks, PDA seeds, rent, and `init`/`init_if_needed`/`close` allocation are enforced by the runtime. The model keeps only what they decide about the records: a zero-filled account when one is created, closing the loan record on a successful repayment, and `AccountNotInitialized` when a required account is missing.
- The model holds one global state, and the other accounts belong to it. The source binds neither stake, loan nor reputation accounts to a particular `GlobalState` account, and it does not bind the loan record to its borrower. Several global states, or records shared across them, are not modelled.
- Each `flash_loan` in the source creates a fresh loan account. The model keeps one optional record. It differs only in a state where the guard is down while a record is live, which the invariant rules out.
- The token program's transfers are reduced to a success-or-failure input, and the token balances they move are not tracked. `total_liquidity` is a counter separate from the pool's token balance, which `flash_loan` receives as a parameter.
- `Clock::get` is a timestamp parameter. A failure of the clock call itself is not modelled.
- Ryft.Program.RepayFlashLoan: `current_time - start_time` is taken exactly. Its `i64` overflow, possible only for timestamps more than 2^63 seconds apart, is not modelled.
- The treasury account is stored by `initialize` but never used, so no property of it is stated.
- `declare_id!`, the `LEN` size constants and the error message strings are left out. They size and describe accounts but do not change behaviour.
- The reward logic of `distribute_rewards`, `compound_rewards` and `multi_hop_flash_loan` is left out because these are empty placeholders. They are modelled as operations that change nothing.
- Concurrency is left out. The Solana runtime runs transactions one at a time, so the guard is an ordinary field here.
