/** The instruction handlers of the RYFT program, as methods on the accounts
    they write.

    Solana runs an instruction as a transaction: when the handler returns an
    error, or an `unwrap()` panics, the runtime discards every account write
    the handler made. Each method below therefore writes the accounts step by
    step as the handler does, and on a failure after a write restores what the
    transaction found (`Abort`). Token transfers are foreign calls: each
    appears as a boolean parameter saying whether the token program accepted
    it. The clock and the pool's token balance are parameters too. */
module Ryft {
  import opened Checked
  import opened RyftState

  class Program {
    /** The `GlobalState` account. */
    var global: GlobalState
    /** The `UserStake` account of each staker, keyed by the staker. */
    var stakes: map<Pubkey, UserStake>
    /** The live `FlashLoanState` account, if any. */
    var loan: Option<FlashLoanState>
    /** The `BorrowerReputation` account of each borrower, keyed by the borrower. */
    var reputations: map<Pubkey, BorrowerReputation>

    /** The accounts as a value. */
    function Snapshot(): Ledger
      reads this
    {
      Ledger(global, stakes, loan, reputations)
    }

    ghost predicate Valid()
      reads this
    {
      Consistent(Snapshot())
    }

    /** `initialize`: a fresh global state with the caller as administrator,
        all totals zero, the guard down and an empty whitelist. */
    constructor Initialize(admin: Pubkey, feeRate: U64, treasury: Pubkey)
      ensures global == GlobalState(admin, feeRate, 0, 0, 0, false, treasury, [])
      ensures stakes == map[] && loan == None && reputations == map[]
      ensures Valid()
    {
      global := GlobalState(admin, feeRate, 0, 0, 0, false, treasury, []);
      stakes := map[];
      loan := None;
      reputations := map[];
    }

    /** The runtime discarding the writes of a failed transaction. */
    method Abort(pre: Ledger)
      modifies this
      ensures Snapshot() == pre
    {
      global, stakes, loan, reputations := pre.global, pre.stakes, pre.loan, pre.reputations;
    }

    /** `update_fee_rate`: only the recorded administrator may change the rate,
        and may set it to any value. */
    method UpdateFeeRate(caller: Pubkey, newFeeRate: U64) returns (r: Status)
      modifies this
      ensures r == if caller == old(global.admin) then Ok else Err(Custom(Unauthorized))
      ensures r.Err? ==> Snapshot() == old(Snapshot())
      ensures r.Ok? ==> Snapshot() == old(Snapshot()).(global := old(global).(feeRate := newFeeRate))
      ensures old(Valid()) ==> Valid()
    {
      if global.admin != caller {
        return Err(Custom(Unauthorized));
      }
      global := global.(feeRate := newFeeRate);
      r := Ok;
    }

    /** `deposit_liquidity`: tokens move into the pool, then the recorded
        liquidity grows by exactly `amount`. */
    method DepositLiquidity(amount: U64, transferOk: bool) returns (r: Status)
      modifies this
      ensures r == if !transferOk then Err(TransferFailed)
                   else if old(global.totalLiquidity) + amount > U64_MAX then Err(ArithmeticPanic)
                   else Ok
      ensures r.Err? ==> Snapshot() == old(Snapshot())
      ensures r.Ok? ==> Snapshot() == old(Snapshot()).(global := old(global).(
                          totalLiquidity := old(global.totalLiquidity) + amount))
      ensures old(Valid()) ==> Valid()
    {
      if !transferOk {
        return Err(TransferFailed);
      }
      var liquidity := CheckedAdd(global.totalLiquidity, amount);
      if liquidity.None? {
        return Err(ArithmeticPanic);
      }
      global := global.(totalLiquidity := liquidity.value);
      r := Ok;
    }

    /** `withdraw_liquidity`: refused when the pool records less than `amount`;
        otherwise tokens move out and the recorded liquidity shrinks by exactly
        `amount`, never below zero. */
    method WithdrawLiquidity(amount: U64, transferOk: bool) returns (r: Status)
      modifies this
      ensures r == if amount > old(global.totalLiquidity) then Err(Custom(InsufficientLiquidity))
                   else if !transferOk then Err(TransferFailed)
                   else Ok
      ensures r.Err? ==> Snapshot() == old(Snapshot())
      ensures r.Ok? ==> Snapshot() == old(Snapshot()).(global := old(global).(
                          totalLiquidity := old(global.totalLiquidity) - amount))
      ensures old(Valid()) ==> Valid()
    {
      if global.totalLiquidity < amount {
        return Err(Custom(InsufficientLiquidity));
      }
      if !transferOk {
        return Err(TransferFailed);
      }
      // `checked_sub(..).unwrap()` cannot panic after the check above.
      var liquidity := CheckedSub(global.totalLiquidity, amount);
      global := global.(totalLiquidity := liquidity.value);
      r := Ok;
    }

    /** `stake`: tokens move into the stake vault, the caller's stake account
        (created zero-filled when missing) and `total_staked` both grow by
        `amount`, and the stake timestamp is set only when the prior stake was 0. */
    method Stake(user: Pubkey, amount: U64, now: I64, transferOk: bool) returns (r: Status)
      modifies this
      ensures r == if !transferOk then Err(TransferFailed)
                   else if StakeAccount(old(stakes), user).amount + amount > U64_MAX
                        || old(global.totalStaked) + amount > U64_MAX then Err(ArithmeticPanic)
                   else Ok
      ensures r.Err? ==> Snapshot() == old(Snapshot())
      ensures r.Ok? ==>
        var prior := StakeAccount(old(stakes), user);
        && stakes == old(stakes)[user := prior.(
             amount := prior.amount + amount,
             lastStakeTimestamp := if prior.amount == 0 then now else prior.lastStakeTimestamp)]
        && global == old(global).(totalStaked := old(global.totalStaked) + amount)
        && loan == old(loan) && reputations == old(reputations)
      ensures old(Valid()) ==> Valid()
    {
      if !transferOk {
        return Err(TransferFailed);
      }
      var pre := Snapshot();
      var account := StakeAccount(stakes, user);
      if account.amount == 0 {
        account := account.(lastStakeTimestamp := now);
      }
      var staked := CheckedAdd(account.amount, amount);
      if staked.None? {
        return Err(ArithmeticPanic);
      }
      account := account.(amount := staked.value);
      SumStakesUpdate(stakes, user, account);
      stakes := stakes[user := account];
      var total := CheckedAdd(global.totalStaked, amount);
      if total.None? {
        Abort(pre);
        return Err(ArithmeticPanic);
      }
      global := global.(totalStaked := total.value);
      r := Ok;
    }

    /** `unstake`: refused when the caller has no stake account or stakes less
        than `amount`; otherwise tokens move out of the vault and the same
        `amount` leaves both the caller's stake and `total_staked`. */
    method Unstake(user: Pubkey, amount: U64, transferOk: bool) returns (r: Status)
      modifies this
      ensures r == if user !in old(stakes) then Err(AccountNotInitialized)
                   else if amount > old(stakes)[user].amount then Err(Custom(InsufficientStake))
                   else if !transferOk then Err(TransferFailed)
                   else if amount > old(global.totalStaked) then Err(ArithmeticPanic)
                   else Ok
      ensures r.Err? ==> Snapshot() == old(Snapshot())
      ensures r.Ok? ==>
        && user in old(stakes)
        && stakes == old(stakes)[user := old(stakes)[user].(amount := old(stakes)[user].amount - amount)]
        && global == old(global).(totalStaked := old(global.totalStaked) - amount)
        && loan == old(loan) && reputations == old(reputations)
      ensures old(Valid()) ==> r != Err(ArithmeticPanic) && Valid()
    {
      if user !in stakes {
        return Err(AccountNotInitialized);
      }
      if stakes[user].amount < amount {
        return Err(Custom(InsufficientStake));
      }
      if !transferOk {
        return Err(TransferFailed);
      }
      var pre := Snapshot();
      StakeWithinSum(stakes, user);
      // `checked_sub(..).unwrap()` on the user's stake cannot panic after the check above.
      var staked := CheckedSub(stakes[user].amount, amount);
      var account := stakes[user].(amount := staked.value);
      SumStakesUpdate(stakes, user, account);
      stakes := stakes[user := account];
      var total := CheckedSub(global.totalStaked, amount);
      if total.None? {
        Abort(pre);
        return Err(ArithmeticPanic);
      }
      global := global.(totalStaked := total.value);
      r := Ok;
    }

    /** `flash_loan`: refused while a loan is live (the existing record is left
        alone), for a borrower outside a non-empty whitelist, and when the pool
        holds less than `amount`; otherwise the guard goes up and the loan record
        holds the principal, the fee rounded down, the start time and the
        collateral. */
    method FlashLoan(borrower: Pubkey, amount: U64, collateralAmount: U64, poolBalance: U64,
                     now: I64, collateralTransferOk: bool, loanTransferOk: bool)
      returns (r: Status)
      modifies this
      ensures r == if old(global.isFlashLoanActive) then Err(Custom(FlashLoanInProgress))
                   else if !WhitelistAllows(old(global.flashLoanWhitelist), borrower) then Err(Custom(NotWhitelisted))
                   else if poolBalance < amount then Err(Custom(InsufficientLiquidity))
                   else if collateralAmount > 0 && !collateralTransferOk then Err(TransferFailed)
                   else if amount * old(global.feeRate) > U64_MAX then Err(ArithmeticPanic)
                   else if !loanTransferOk then Err(TransferFailed)
                   else Ok
      ensures r.Err? ==> Snapshot() == old(Snapshot())
      ensures r.Ok? ==>
        && global == old(global).(isFlashLoanActive := true)
        && loan.Some?
        && loan.value.amount == amount
        && loan.value.fee * FEE_DENOMINATOR <= amount * old(global.feeRate)
             < (loan.value.fee + 1) * FEE_DENOMINATOR
        && loan.value.startTime == now
        && loan.value.collateral == collateralAmount
        && stakes == old(stakes) && reputations == old(reputations)
      ensures old(Valid()) ==> r != Err(Custom(NotWhitelisted)) && Valid()
    {
      if global.isFlashLoanActive {
        return Err(Custom(FlashLoanInProgress));
      }
      var pre := Snapshot();
      global := global.(isFlashLoanActive := true);
      if |global.flashLoanWhitelist| != 0 {
        if borrower !in global.flashLoanWhitelist {
          Abort(pre);
          return Err(Custom(NotWhitelisted));
        }
      }
      if poolBalance < amount {
        // The handler's own compensating reset of the guard.
        global := global.(isFlashLoanActive := false);
        return Err(Custom(InsufficientLiquidity));
      }
      if collateralAmount > 0 {
        if !collateralTransferOk {
          Abort(pre);
          return Err(TransferFailed);
        }
      }
      var fee := FlashLoanFee(amount, global.feeRate);
      if fee.None? {
        Abort(pre);
        return Err(ArithmeticPanic);
      }
      loan := Some(FlashLoanState(amount, fee.value, now, collateralAmount));
      if !loanTransferOk {
        Abort(pre);
        return Err(TransferFailed);
      }
      r := Ok;
    }

    /** `repay_flash_loan`: refused when more than 30 seconds have passed since
        the loan started; otherwise the recorded fee is added to the
        accumulated fees, the guard goes down, the loan record is closed and
        the named borrower's reputation grows by one. It neither checks the
        guard nor moves any tokens back to the pool. */
    method RepayFlashLoan(borrower: Pubkey, now: I64) returns (r: Status)
      modifies this
      ensures r == if old(loan).None? then Err(AccountNotInitialized)
                   else if !WithinRepayWindow(now, old(loan).value.startTime) then Err(Custom(FlashLoanExpired))
                   else if old(global.accumulatedFees) + old(loan).value.fee > U64_MAX then Err(ArithmeticPanic)
                   else if ReputationAccount(old(reputations), borrower).reputation == U64_MAX then Err(ArithmeticPanic)
                   else Ok
      ensures r.Err? ==> Snapshot() == old(Snapshot())
      ensures r.Ok? ==>
        && old(loan).Some?
        && global == old(global).(accumulatedFees := old(global.accumulatedFees) + old(loan).value.fee,
                                  isFlashLoanActive := false)
        && loan == None
        && reputations == old(reputations)[borrower := BorrowerReputation(
             borrower, ReputationAccount(old(reputations), borrower).reputation + 1)]
        && stakes == old(stakes)
      ensures forall b :: b in old(reputations) ==>
        b in reputations && reputations[b].reputation >= old(reputations[b].reputation)
      ensures old(Valid()) ==> Valid()
    {
      if loan.None? {
        return Err(AccountNotInitialized);
      }
      var record := loan.value;
      if !WithinRepayWindow(now, record.startTime) {
        return Err(Custom(FlashLoanExpired));
      }
      var pre := Snapshot();
      var fees := CheckedAdd(global.accumulatedFees, record.fee);
      if fees.None? {
        return Err(ArithmeticPanic);
      }
      global := global.(accumulatedFees := fees.value, isFlashLoanActive := false);
      var reputation := ReputationAccount(reputations, borrower).(borrower := borrower);
      var raised := CheckedAdd(reputation.reputation, 1);
      if raised.None? {
        Abort(pre);
        return Err(ArithmeticPanic);
      }
      reputations := reputations[borrower := reputation.(reputation := raised.value)];
      // `close = borrower`: the record is closed when the instruction succeeds.
      loan := None;
      r := Ok;
    }

    /** `distribute_rewards`: a placeholder that succeeds and writes nothing. */
    method DistributeRewards() returns (r: Status)
      ensures r == Ok
    {
      r := Ok;
    }

    /** `compound_rewards`: a placeholder that writes nothing; it succeeds
        whenever the caller's stake account exists. */
    method CompoundRewards(user: Pubkey) returns (r: Status)
      ensures r == if user in stakes then Ok else Err(AccountNotInitialized)
    {
      if user !in stakes {
        return Err(AccountNotInitialized);
      }
      r := Ok;
    }

    /** `multi_hop_flash_loan`: a placeholder that ignores its amounts,
        succeeds and writes nothing. */
    method MultiHopFlashLoan(amounts: seq<U64>) returns (r: Status)
      ensures r == Ok
    {
      r := Ok;
    }
  }
}
