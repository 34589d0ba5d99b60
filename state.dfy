/** The on-chain records of the RYFT program, its error codes, and the pure
    pieces of its instruction handlers: the flash-loan fee, the whitelist gate,
    the repayment window, and the sum of all stakes that `total_staked` tracks. */
module RyftState {
  import opened Checked

  /** A 32-byte public key, taken as its numeric value. */
  type Pubkey = nat

  /** `Pubkey::default()`, all zero bytes: what a zero-filled account holds. */
  const DEFAULT_PUBKEY: Pubkey := 0

  /** Fee rates are in basis points. */
  const FEE_DENOMINATOR: nat := 10000

  /** Seconds within which a flash loan may be repaid. */
  const REPAY_WINDOW: int := 30

  /** The program's own error codes (`CustomError`). */
  datatype CustomError =
    | InsufficientLiquidity
    | InsufficientStake
    | FlashLoanInProgress
    | FlashLoanExpired
    | NotWhitelisted
    | Unauthorized

  /** Every way an instruction can fail. Whatever the cause, the runtime then
      discards every account write the instruction made. */
  datatype Error =
    | Custom(code: CustomError)
    | TransferFailed          // the token program refused a `token::transfer`
    | ArithmeticPanic         // a `checked_*(..).unwrap()` met `None`
    | AccountNotInitialized   // a required account (stake, loan record) does not exist

  /** What an instruction returns: `Ok(())` or an error. */
  datatype Status = Ok | Err(error: Error)

  datatype GlobalState = GlobalState(
    admin: Pubkey,
    feeRate: U64,               // basis points
    totalLiquidity: U64,
    totalStaked: U64,
    accumulatedFees: U64,
    isFlashLoanActive: bool,    // reentrancy guard
    treasuryAccount: Pubkey,
    flashLoanWhitelist: seq<Pubkey>)

  datatype UserStake = UserStake(
    owner: Pubkey,
    amount: U64,
    rewardDebt: U64,
    lastStakeTimestamp: I64)

  datatype FlashLoanState = FlashLoanState(
    amount: U64,
    fee: U64,
    startTime: I64,
    collateral: U64)

  datatype BorrowerReputation = BorrowerReputation(
    borrower: Pubkey,
    reputation: U64)

  /** Every account the program works on: the one global state, the stake
      account of each staker, the live flash-loan record (if any), and the
      reputation account of each borrower that has repaid. */
  datatype Ledger = Ledger(
    global: GlobalState,
    stakes: map<Pubkey, UserStake>,
    loan: Option<FlashLoanState>,
    reputations: map<Pubkey, BorrowerReputation>)

  /** The stake account of `user`, or the zero-filled one that `init_if_needed`
      creates when there is none. */
  function StakeAccount(stakes: map<Pubkey, UserStake>, user: Pubkey): (account: UserStake)
    ensures user in stakes ==> account == stakes[user]
    ensures user !in stakes ==>
      account.owner == DEFAULT_PUBKEY && account.amount == 0
      && account.rewardDebt == 0 && account.lastStakeTimestamp == 0
  {
    if user in stakes then stakes[user] else UserStake(DEFAULT_PUBKEY, 0, 0, 0)
  }

  /** The reputation account of `borrower`, or the zero-filled one that
      `init_if_needed` creates when there is none. */
  function ReputationAccount(reputations: map<Pubkey, BorrowerReputation>, borrower: Pubkey): (account: BorrowerReputation)
    ensures borrower in reputations ==> account == reputations[borrower]
    ensures borrower !in reputations ==> account.borrower == DEFAULT_PUBKEY && account.reputation == 0
  {
    if borrower in reputations then reputations[borrower] else BorrowerReputation(DEFAULT_PUBKEY, 0)
  }

  /** `amount.checked_mul(fee_rate).unwrap() / 10000`: the fee rounded down, or
      `None` when the product overflows `u64` and the instruction panics. */
  function FlashLoanFee(amount: U64, feeRate: U64): (fee: Option<U64>)
    ensures fee.Some? <==> amount * feeRate <= U64_MAX
    ensures fee.Some? ==>
      fee.value * FEE_DENOMINATOR <= amount * feeRate < (fee.value + 1) * FEE_DENOMINATOR
  {
    match CheckedMul(amount, feeRate)
    case None => None
    case Some(product) => Some(product / FEE_DENOMINATOR)
  }

  /** Whether `borrower` may take a flash loan: an empty whitelist lets
      everyone through, a non-empty one only its members. */
  function WhitelistAllows(whitelist: seq<Pubkey>, borrower: Pubkey): (allowed: bool)
    ensures allowed <==> |whitelist| == 0 || exists i :: 0 <= i < |whitelist| && whitelist[i] == borrower
  {
    if |whitelist| != 0 then borrower in whitelist else true
  }

  /** Whether a loan started at `startTime` may still be repaid at `now`. */
  function WithinRepayWindow(now: I64, startTime: I64): (open: bool)
    ensures open <==> now <= startTime + REPAY_WINDOW
    ensures now == startTime + REPAY_WINDOW ==> open
    ensures now == startTime + REPAY_WINDOW + 1 ==> !open
  {
    now - startTime <= REPAY_WINDOW
  }

  /** Some key of a non-empty set of keys. */
  ghost function PickKey(keys: set<Pubkey>): (k: Pubkey)
    requires keys != {}
    ensures k in keys
  {
    var k :| k in keys; k
  }

  /** The sum of the amounts of all stake accounts. */
  ghost function SumStakes(stakes: map<Pubkey, UserStake>): nat
    decreases |stakes|
  {
    if stakes == map[] then 0
    else
      var user := PickKey(stakes.Keys);
      stakes[user].amount + SumStakes(stakes - {user})
  }

  /** The invariant every instruction keeps: `total_staked` is the sum of all
      stakes, the reentrancy flag is up exactly while a loan record is live,
      the whitelist stays empty (no instruction adds to it), and each
      reputation account is recorded under its own borrower. */
  ghost predicate Consistent(l: Ledger)
  {
    && l.global.totalStaked == SumStakes(l.stakes)
    && (l.global.isFlashLoanActive <==> l.loan.Some?)
    && l.global.flashLoanWhitelist == []
    && forall b :: b in l.reputations ==> l.reputations[b].borrower == b
  }

  /** Taking one account out of the sum takes out exactly its amount. */
  lemma {:induction false} SumStakesRemove(stakes: map<Pubkey, UserStake>, user: Pubkey)
    requires user in stakes
    ensures SumStakes(stakes) == stakes[user].amount + SumStakes(stakes - {user})
    decreases |stakes|
  {
    var first := PickKey(stakes.Keys);
    if first != user {
      var rest := stakes - {first};
      assert |rest| < |stakes| by { assert rest.Keys == stakes.Keys - {first}; }
      SumStakesRemove(rest, user);
      var others := stakes - {user};
      assert |others| < |stakes| by { assert others.Keys == stakes.Keys - {user}; }
      SumStakesRemove(others, first);
      assert rest - {user} == others - {first};
    }
  }

  /** Replacing the stake account of `user` changes the sum by exactly the
      change in that account's amount. */
  lemma SumStakesUpdate(stakes: map<Pubkey, UserStake>, user: Pubkey, account: UserStake)
    ensures SumStakes(stakes[user := account])
         == SumStakes(stakes) - StakeAccount(stakes, user).amount + account.amount
  {
    var updated := stakes[user := account];
    SumStakesRemove(updated, user);
    assert updated - {user} == stakes - {user};
    if user in stakes {
      SumStakesRemove(stakes, user);
    } else {
      assert stakes - {user} == stakes;
    }
  }

  /** No single stake exceeds the sum of all stakes. */
  lemma StakeWithinSum(stakes: map<Pubkey, UserStake>, user: Pubkey)
    ensures StakeAccount(stakes, user).amount <= SumStakes(stakes)
  {
    if user in stakes {
      SumStakesRemove(stakes, user);
    }
  }

  /** With a fee rate of at most 10000 basis points the fee never exceeds the
      principal. */
  lemma FeeAtMostPrincipal(amount: U64, feeRate: U64)
    requires feeRate <= FEE_DENOMINATOR
    requires FlashLoanFee(amount, feeRate).Some?
    ensures FlashLoanFee(amount, feeRate).value <= amount
  {
    MulMonotone(amount, feeRate, FEE_DENOMINATOR);
  }

  /** Multiplying by a larger factor never gives less. */
  lemma MulMonotone(a: nat, b: nat, c: nat)
    requires b <= c
    ensures a * b <= a * c
  {
  }

  /** The fee exceeds the principal exactly when `amount * fee_rate` reaches
      `(amount + 1) * 10000`. */
  lemma FeeExceedsPrincipalIff(amount: U64, feeRate: U64)
    requires FlashLoanFee(amount, feeRate).Some?
    ensures FlashLoanFee(amount, feeRate).value > amount
        <==> amount * feeRate >= (amount + 1) * FEE_DENOMINATOR
  {
  }

  /** As `update_fee_rate` puts no bound on the rate, any rate of 20000 basis
      points or more makes the fee exceed every positive principal. */
  lemma UnboundedRateFeeExceedsPrincipal(amount: U64, feeRate: U64)
    requires feeRate >= 2 * FEE_DENOMINATOR && amount > 0
    requires FlashLoanFee(amount, feeRate).Some?
    ensures FlashLoanFee(amount, feeRate).value > amount
  {
    MulMonotone(amount, 2 * FEE_DENOMINATOR, feeRate);
    FeeExceedsPrincipalIff(amount, feeRate);
  }

  /** The worked fee examples at 100 basis points: 1% of 10000 is 100, and
      1% of 999 rounds down to 9. */
  lemma FeeExamples()
    ensures FlashLoanFee(10000, 100) == Some(100)
    ensures FlashLoanFee(999, 100) == Some(9)
  {
  }
}
