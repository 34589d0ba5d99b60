/** The worked examples of the program's behaviour, stated as contracts of
    client methods and proved from the handlers' contracts alone. */
module RyftScenarios {
  import opened Checked
  import opened RyftState
  import opened Ryft

  /** Deposit 500, then try to withdraw 600: the withdrawal is refused and
      the recorded liquidity stays 500. */
  method OverdrawScenario(admin: Pubkey) returns (deposit: Status, withdraw: Status, liquidity: U64)
    ensures deposit == Ok
    ensures withdraw == Err(Custom(InsufficientLiquidity))
    ensures liquidity == 500
  {
    var p := new Program.Initialize(admin, 100, admin);
    deposit := p.DepositLiquidity(500, true);
    withdraw := p.WithdrawLiquidity(600, true);
    liquidity := p.global.totalLiquidity;
  }

  /** Stake 300, unstake 300, then unstake 1: the last call is refused, and
      the stake account survives with amount 0. */
  method StakeUnstakeScenario(admin: Pubkey, user: Pubkey, now: I64)
    returns (first: Status, second: Status, third: Status, staked: U64, total: U64)
    ensures first == Ok && second == Ok
    ensures third == Err(Custom(InsufficientStake))
    ensures staked == 0 && total == 0
  {
    var p := new Program.Initialize(admin, 100, admin);
    first := p.Stake(user, 300, now, true);
    second := p.Unstake(user, 300, true);
    third := p.Unstake(user, 1, true);
    staked := p.stakes[user].amount;
    total := p.global.totalStaked;
  }

  /** One flash-loan cycle at 100 basis points: a loan of 10000 carries a fee
      of 100; a second loan while it is live is refused and leaves the record
      alone; repaying exactly 30 seconds later books the fee, lowers the guard
      and gives the borrower reputation 1; a new loan repaid 31 seconds after
      it started is refused as expired. */
  method FlashLoanCycleScenario(admin: Pubkey, borrower: Pubkey)
    returns (issued: Status, again: Status, repaid: Status, reissued: Status, late: Status,
             fee: U64, fees: U64, reputation: U64)
    ensures issued == Ok && fee == 100
    ensures again == Err(Custom(FlashLoanInProgress))
    ensures repaid == Ok && fees == 100 && reputation == 1
    ensures reissued == Ok
    ensures late == Err(Custom(FlashLoanExpired))
  {
    var p := new Program.Initialize(admin, 100, admin);
    issued := p.FlashLoan(borrower, 10000, 0, 20000, 1000, true, true);
    fee := p.loan.value.fee;
    again := p.FlashLoan(borrower, 5, 0, 20000, 1001, true, true);
    assert p.loan.value.fee == fee;
    repaid := p.RepayFlashLoan(borrower, 1030);
    fees := p.global.accumulatedFees;
    reputation := p.reputations[borrower].reputation;
    reissued := p.FlashLoan(borrower, 999, 0, 20000, 2000, true, true);
    late := p.RepayFlashLoan(borrower, 2031);
  }
}
