/** Where every token is: the vault's token balance, its two asset counters, and
    its fees, over whole runs. */
module Conservation {
  import opened Checked
  import opened Sums
  import opened Token
  import opened ShareMath
  import opened VaultLedger
  import opened ShareAccounting
  import Batch
  import FeeMath
  import Governance

  // ---- What a call moves, told from its arguments and the state before it ----

  /** A transfer to the vault outside its entry points. */
  predicate Donates(l: Ledger, tx: Tx) {
    tx.call.TokenTransfer? && tx.call.to == VAULT && tx.call.amount > 0 && Accepted(l, tx)
  }

  /** A fee claim paid to the vault itself. */
  predicate ClaimsToItself(l: Ledger, tx: Tx) {
    tx.call.CallClaimFees? && l.config.treasury == Some(VAULT) && Accepted(l, tx)
  }

  /** Tokens that reach or stay in the vault without being booked. */
  function Surplus(l: Ledger, tx: Tx): int {
    if Donates(l, tx) then tx.call.amount
    else if ClaimsToItself(l, tx) then l.treasuryBalance
    else 0
  }

  /** Net amount sent to strategies, the divestment inside a payout included. */
  function Invested(l: Ledger, tx: Tx): int {
    if !Accepted(l, tx) then 0
    else if tx.call.CallInvest? then tx.call.amount
    else if tx.call.CallDivest? then -tx.call.amount
    else if PaidAtOnce(l, tx) || Executed(l, tx) then
      var assets := Perform(l, tx).value.1;
      if l.idleAssets < assets then l.idleAssets - assets else 0
    else 0
  }

  function Harvested(l: Ledger, tx: Tx): int {
    if tx.call.CallAccrueKoreanDebtYield? && Accepted(l, tx) then tx.call.harvested else 0
  }

  function FeeCharged(l: Ledger, tx: Tx): int {
    if (tx.call.CallAccrueYield? || tx.call.CallReportBenjiYield?) && Accepted(l, tx)
    then FeeMath.FeeOf(tx.call.amount, l.config.feeBps)
    else 0
  }

  function FeeClaimed(l: Ledger, tx: Tx): int {
    if tx.call.CallClaimFees? && Accepted(l, tx) then l.treasuryBalance else 0
  }

  datatype Flows = Flows(surplus: int, invested: int, harvested: int, charged: int, claimed: int)

  const STILL := Flows(0, 0, 0, 0, 0)

  function FlowsOf(l: Ledger, tx: Tx): Flows {
    Flows(Surplus(l, tx), Invested(l, tx), Harvested(l, tx), FeeCharged(l, tx), FeeClaimed(l, tx))
  }

  function Plus(f: Flows, g: Flows): Flows {
    Flows(f.surplus + g.surplus, f.invested + g.invested, f.harvested + g.harvested,
          f.charged + g.charged, f.claimed + g.claimed)
  }

  /** All that moved in the first `n` transactions. */
  function FlowsOver(l: Ledger, txs: seq<Tx>, n: nat): Flows
    requires n <= |txs|
  {
    if n == 0 then STILL else Plus(FlowsOver(l, txs, n - 1), FlowsOf(At(l, txs, n - 1), txs[n - 1]))
  }

  /** The books of two states differ by exactly these flows. */
  predicate Moved(l: Ledger, l': Ledger, f: Flows) {
    && VaultTokens(l') - VaultTokens(l)
       == (l'.idleAssets - l.idleAssets) + (l'.treasuryBalance - l.treasuryBalance) + f.surplus
    && l'.state.totalAssets - l.state.totalAssets == (l'.idleAssets - l.idleAssets) + f.invested + f.harvested
    && l'.treasuryBalance - l.treasuryBalance == f.charged - f.claimed
  }

  lemma DepositMoves(l: Ledger, tx: Tx)
    requires tx.call.CallDeposit? && VAULT !in tx.signers
    ensures Moved(l, After(l, tx), STILL)
  {
    hide AssetsToShares;
  }

  lemma {:induction false} DepositsMove(l: Ledger, signers: set<Address>, entries: seq<DepositEntry>, i: nat)
    requires VAULT !in signers && i <= |entries|
    ensures Moved(l, At(l, Batch.DepositTxs(signers, entries), i), STILL)
  {
    hide Perform;
    if i > 0 {
      DepositsMove(l, signers, entries, i - 1);
      DepositMoves(At(l, Batch.DepositTxs(signers, entries), i - 1), Batch.DepositTxs(signers, entries)[i - 1]);
    }
  }

  lemma CoveringMoves(l: Ledger, assets: int)
    requires CoverFromStrategy(l, assets).Done?
    ensures var c := CoverFromStrategy(l, assets).value.0;
            && VaultTokens(c) - VaultTokens(l) == c.idleAssets - l.idleAssets
            && c.idleAssets - l.idleAssets == (if l.idleAssets < assets then assets - l.idleAssets else 0)
  {
    hide LoweredWatermark;
  }

  lemma DoWithdrawMoves(l: Ledger, user: Address, shares: int, assets: int)
    requires DoWithdraw(l, user, shares, assets).Done? && user != VAULT
    ensures var l' := DoWithdraw(l, user, shares, assets).value.0;
            && Moved(l, l', Flows(0, if l.idleAssets < assets then l.idleAssets - assets else 0, 0, 0, 0))
            && DoWithdraw(l, user, shares, assets).value.1 == assets
  {
    hide CoverFromStrategy;
    CoveringLeavesShares(l, assets);
    CoveringMoves(l, assets);
  }

  lemma PayoutMoves(l: Ledger, tx: Tx)
    requires (PaidAtOnce(l, tx) || Executed(l, tx)) && VAULT !in tx.signers
    ensures Moved(l, After(l, tx), FlowsOf(l, tx))
  {
    hide Perform, SharesToAssets, DoWithdraw;
    SignedByUser(l, tx);
    PayoutIsDoWithdraw(l, tx);
    var (p, shares) := Payout(l, tx);
    DoWithdrawMoves(p, tx.call.user, shares, SharesToAssets(shares, p.state.totalShares, p.state.totalAssets).value);
  }

  lemma InvestmentMoves(l: Ledger, tx: Tx)
    requires tx.call.CallInvest? || tx.call.CallDivest?
    ensures Moved(l, After(l, tx), FlowsOf(l, tx))
  {
    hide Quotient, LoweredWatermark, RaisedWatermark;
  }

  /** A rebalance sends on exactly what it recalled. */
  lemma RebalanceMoves(l: Ledger, tx: Tx)
    requires tx.call.CallRebalance? && Typed(tx.call)
    ensures Moved(l, After(l, tx), FlowsOf(l, tx))
  {
    hide LoweredWatermark, RaisedWatermark;
  }

  /** Both fee computations charge `FeeOf` and leave the rest. */
  lemma FeesAgree(amount: int, feeBps: int)
    requires amount > 0 && 0 <= feeBps <= FeeMath.BPS_DENOMINATOR
    ensures var fee := FeeMath.FeeOf(amount, feeBps);
            && fee >= 0
            && (FeeMath.InlineFee(amount, feeBps).Done? ==>
                FeeMath.InlineFee(amount, feeBps).value == (fee, amount - fee))
            && (FeeMath.CalculateProtocolFee(amount, feeBps).Done? ==>
                  FeeMath.CalculateProtocolFee(amount, feeBps).value == (fee, amount - fee))
  {
    FeeMath.FeeWithinAmount(amount, feeBps);
    assert amount * 0 == 0;
  }

  lemma AccruedYieldMoves(l: Ledger, tx: Tx)
    requires tx.call.CallAccrueYield? && VAULT !in tx.signers && 0 <= l.config.feeBps <= FeeMath.BPS_DENOMINATOR
    ensures Moved(l, After(l, tx), FlowsOf(l, tx))
  {
    hide Quotient, FeeMath.InlineFee, FeeMath.FeeOf;
    if tx.call.amount > 0 {
      FeesAgree(tx.call.amount, l.config.feeBps);
    }
  }

  lemma ReportedYieldMoves(l: Ledger, tx: Tx)
    requires tx.call.CallReportBenjiYield? && VAULT !in tx.signers && 0 <= l.config.feeBps <= FeeMath.BPS_DENOMINATOR
    ensures Moved(l, After(l, tx), FlowsOf(l, tx))
  {
    hide RaisedWatermark, FeeMath.CalculateProtocolFee, FeeMath.FeeOf;
    if tx.call.amount > 0 {
      FeesAgree(tx.call.amount, l.config.feeBps);
    }
  }

  lemma HarvestMoves(l: Ledger, tx: Tx)
    requires tx.call.CallAccrueKoreanDebtYield?
    ensures Moved(l, After(l, tx), FlowsOf(l, tx))
  {
    hide Deposit, BatchDeposit, Withdraw, ExecuteWithdrawal, Invest, Divest, Rebalance, AccrueYield, ReportBenjiYield,
         ClaimFees, Configure, Govern, MoveTokens;
  }

  lemma ClaimMoves(l: Ledger, tx: Tx)
    requires tx.call.CallClaimFees?
    ensures Moved(l, After(l, tx), FlowsOf(l, tx))
  {
    assert Perform(l, tx) == ClaimFees(l, tx.signers);
    hide Perform, SharesToAssets;
  }

  lemma TransferMovesVault(l: Ledger, tx: Tx)
    requires tx.call.TokenTransfer? && VAULT !in tx.signers
    ensures Moved(l, After(l, tx), FlowsOf(l, tx))
  {
    assert Perform(l, tx) == MoveTokens(l, tx.signers, tx.call.from, tx.call.to, tx.call.amount);
    hide Perform, SharesToAssets;
  }

  lemma OthersMoveNothing(l: Ledger, tx: Tx)
    requires tx.call.CallConfigure? || tx.call.CallPause? || tx.call.CallGovernance? || tx.call.AdvanceTime?
    ensures Moved(l, After(l, tx), FlowsOf(l, tx))
  {
    match tx.call {
      case CallConfigure(config) => assert Perform(l, tx) == Configure(l, tx.signers, config);
      case CallPause(paused) => assert Perform(l, tx) == SetPaused(l, tx.signers, paused);
      case CallGovernance(action) => assert Perform(l, tx) == Govern(l, tx.signers, action);
      case AdvanceTime(timestamp) => assert Perform(l, tx) == PassTime(l, timestamp);
    }
    hide Perform, Governance.Perform, ValidConfig, SharesToAssets;
  }

  lemma StepMoves(l: Ledger, tx: Tx)
    requires VAULT !in tx.signers && Typed(tx.call) && CountersAgree(l) && ValidConfig(l.config)
    ensures Moved(l, After(l, tx), FlowsOf(l, tx))
  {
    hide Perform, Moved, SharesToAssets, DoWithdraw, Deposit;
    if MovesShares(tx.call) {
      if !Accepted(l, tx) {
        assert Moved(l, l, STILL) by { StillMoves(l); }
      } else {
        ShareCalls(l, tx);
        if tx.call.CallDeposit? {
          DepositMoves(l, tx);
        } else if tx.call.CallBatchDeposit? {
          DepositsMove(l, tx.signers, tx.call.entries, |tx.call.entries|);
        } else if Recorded(l, tx) {
          RecordingOnlyRecords(l, tx);
          assert Moved(l, After(l, tx), STILL) by { RecordingMovesNothing(l, tx); }
        } else {
          PayoutMoves(l, tx);
        }
      }
    } else {
      match tx.call
      case CallAccrueYield(_) => AccruedYieldMoves(l, tx);
      case CallReportBenjiYield(_, _) => ReportedYieldMoves(l, tx);
      case CallAccrueKoreanDebtYield(_) => HarvestMoves(l, tx);
      case CallInvest(_, _) => InvestmentMoves(l, tx);
      case CallDivest(_) => InvestmentMoves(l, tx);
      case CallRebalance(_, _, _, _, _, _, _) => RebalanceMoves(l, tx);
      case CallClaimFees => ClaimMoves(l, tx);
      case TokenTransfer(_, _, _) => TransferMovesVault(l, tx);
      case _ => OthersMoveNothing(l, tx);
    }
  }

  lemma StillMoves(l: Ledger)
    ensures Moved(l, l, STILL)
  {
  }

  lemma RecordingMovesNothing(l: Ledger, tx: Tx)
    requires Recorded(l, tx)
    ensures Moved(l, After(l, tx), STILL)
  {
    hide Perform;
    RecordingOnlyRecords(l, tx);
  }

  // ---- Runs ----

  /** Fees are never negative, and the configuration stays in range. */
  ghost predicate FeesInRange(l: Ledger) {
    ValidConfig(l.config) && l.treasuryBalance >= 0
  }

  lemma StepKeepsFeesInRange(l: Ledger, tx: Tx)
    requires FeesInRange(l) && CountersAgree(l) && VAULT !in tx.signers && Typed(tx.call)
    ensures FeesInRange(After(l, tx))
    ensures FeeCharged(l, tx) >= 0
  {
    hide Perform, ValidConfig;
    StepMoves(l, tx);
    ConfigStaysValid(l, tx);
    if FeeCharged(l, tx) != 0 {
      FeeIsNotNegative(l, tx);
    }
  }

  lemma ConfigStaysValid(l: Ledger, tx: Tx)
    requires ValidConfig(l.config) && CountersAgree(l)
    ensures ValidConfig(After(l, tx).config)
  {
    hide Perform, ValidConfig, DoWithdraw, Deposit, SharesToAssets;
    if !MovesShares(tx.call) {
      OtherCallsLeaveShares(l, tx);
    } else if Accepted(l, tx) {
      ShareCalls(l, tx);
      if tx.call.CallDeposit? {
        DepositKeepsConfig(l, tx.signers, tx.call.user, tx.call.amount);
      } else if tx.call.CallBatchDeposit? {
        DepositsKeepConfig(l, tx.signers, tx.call.entries, |tx.call.entries|);
      } else if Recorded(l, tx) {
        RecordingOnlyRecords(l, tx);
      } else {
        PayoutIsDoWithdraw(l, tx);
        var (p, shares) := Payout(l, tx);
        DoWithdrawKeepsConfig(p, tx.call.user, shares,
                              SharesToAssets(shares, p.state.totalShares, p.state.totalAssets).value);
      }
    }
  }

  lemma DepositKeepsConfig(l: Ledger, signers: set<Address>, user: Address, amount: int)
    requires Deposit(l, signers, user, amount).Done?
    ensures Deposit(l, signers, user, amount).value.0.config == l.config
  {
    hide Transfer, AssetsToShares;
  }

  lemma {:induction false} DepositsKeepConfig(l: Ledger, signers: set<Address>, entries: seq<DepositEntry>, i: nat)
    requires i <= |entries|
    ensures At(l, Batch.DepositTxs(signers, entries), i).config == l.config
  {
    hide Deposit;
    if i > 0 {
      DepositsKeepConfig(l, signers, entries, i - 1);
      var before, e := At(l, Batch.DepositTxs(signers, entries), i - 1), entries[i - 1];
      if Deposit(before, signers, e.user, e.amount).Done? {
        DepositKeepsConfig(before, signers, e.user, e.amount);
      }
    }
  }

  lemma DoWithdrawKeepsConfig(l: Ledger, user: Address, shares: int, assets: int)
    requires DoWithdraw(l, user, shares, assets).Done?
    ensures DoWithdraw(l, user, shares, assets).value.0.config == l.config
  {
    hide CoverFromStrategy, Transfer;
    CoveringLeavesShares(l, assets);
  }

  lemma FeeIsNotNegative(l: Ledger, tx: Tx)
    requires FeeCharged(l, tx) != 0 && ValidConfig(l.config)
    ensures FeeCharged(l, tx) > 0
  {
    assert tx.call.amount > 0;
    FeeMath.FeeWithinAmount(tx.call.amount, l.config.feeBps);
  }

  lemma {:induction false} RunMoves(l: Ledger, txs: seq<Tx>, n: nat)
    requires n <= |txs| && WellFormed(txs) && CountersAgree(l) && FeesInRange(l)
    ensures CountersAgree(At(l, txs, n)) && FeesInRange(At(l, txs, n))
    ensures Moved(l, At(l, txs, n), FlowsOver(l, txs, n))
  {
    hide Perform, CountersAgree, FeesInRange, FlowsOf;
    if n > 0 {
      RunMoves(l, txs, n - 1);
      StepKeepsCounters(At(l, txs, n - 1), txs[n - 1]);
      StepKeepsFeesInRange(At(l, txs, n - 1), txs[n - 1]);
      assert ValidConfig(At(l, txs, n - 1).config) by { InRangeIsValid(At(l, txs, n - 1)); }
      StepMoves(At(l, txs, n - 1), txs[n - 1]);
    }
  }

  lemma InRangeIsValid(l: Ledger)
    requires FeesInRange(l)
    ensures ValidConfig(l.config)
  {
  }

  /** In every reachable state the vault's tokens are its idle assets, its unpaid
      fees, and what was sent to it outside its books; its accounted assets are
      the idle ones, the net amount in strategies and the Korean harvests; and
      unpaid plus claimed fees are all fees ever charged. */
  lemma BooksBalance(admin: Address, tokens: Balances, now: nat, txs: seq<Tx>, n: nat)
    requires n <= |txs| && WellFormed(txs)
    ensures var l0 := Initial(admin, tokens, now);
            var l, f := At(l0, txs, n), FlowsOver(l0, txs, n);
            && VaultTokens(l) == l.idleAssets + l.treasuryBalance + Get(tokens, VAULT) + f.surplus
            && l.state.totalAssets == l.idleAssets + f.invested + f.harvested
            && l.treasuryBalance + f.claimed == f.charged
  {
    hide Perform, FlowsOf;
    RunMoves(Initial(admin, tokens, now), txs, n);
  }

  lemma {:induction false} SurplusOnlyGrows(l: Ledger, txs: seq<Tx>, n: nat)
    requires n <= |txs| && WellFormed(txs) && CountersAgree(l) && FeesInRange(l)
    ensures FlowsOver(l, txs, n).surplus >= 0
    ensures FlowsOver(l, txs, n).surplus == 0 <==>
              forall i :: 0 <= i < n ==> !Donates(At(l, txs, i), txs[i]) && !ClaimsToItself(At(l, txs, i), txs[i])
  {
    hide Perform, CountersAgree, FeesInRange, ValidConfig, FlowsOf, Donates, ClaimsToItself;
    if n > 0 {
      SurplusOnlyGrows(l, txs, n - 1);
      RunMoves(l, txs, n - 1);
      var before, tx := At(l, txs, n - 1), txs[n - 1];
      SurplusSign(before, tx);
    }
  }

  lemma SurplusSign(l: Ledger, tx: Tx)
    requires FeesInRange(l)
    ensures FlowsOf(l, tx).surplus >= 0
    ensures FlowsOf(l, tx).surplus == 0 <==> !Donates(l, tx) && !ClaimsToItself(l, tx)
  {
    if ClaimsToItself(l, tx) {
      ClaimedFeesArePositive(l, tx);
    }
    hide Perform, ValidConfig;
  }

  lemma ClaimedFeesArePositive(l: Ledger, tx: Tx)
    requires ClaimsToItself(l, tx) && l.treasuryBalance >= 0
    ensures l.treasuryBalance > 0
  {
  }

  /** Starting without tokens, the vault holds exactly its idle assets and unpaid
      fees if and only if nobody donated to it and no fees were claimed with the
      vault itself as the treasury. */
  lemma ExactlyBackedIff(admin: Address, tokens: Balances, now: nat, txs: seq<Tx>, n: nat)
    requires n <= |txs| && WellFormed(txs) && Get(tokens, VAULT) == 0
    ensures var l0 := Initial(admin, tokens, now);
            var l := At(l0, txs, n);
            VaultTokens(l) == l.idleAssets + l.treasuryBalance <==>
              forall i :: 0 <= i < n ==> !Donates(At(l0, txs, i), txs[i]) && !ClaimsToItself(At(l0, txs, i), txs[i])
  {
    hide Perform, FlowsOf, Donates, ClaimsToItself;
    BooksBalance(admin, tokens, now, txs, n);
    SurplusOnlyGrows(Initial(admin, tokens, now), txs, n);
  }
}
