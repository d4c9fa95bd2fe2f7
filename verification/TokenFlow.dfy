/** Whose tokens each call moves, and with whose consent
    (`contracts/vault/src/lib.rs`, lines 787-808 and 1090-2232). */
module TokenFlow {
  import opened Checked
  import opened Sums
  import opened Token
  import opened ShareMath
  import opened VaultLedger
  import opened ShareAccounting
  import Batch
  import FeeMath
  import Governance

  /** What a transfer adds to the account's balance. */
  function Moves(from: Address, to: Address, amount: int, a: Address): int {
    (if a == to then amount else 0) - (if a == from then amount else 0)
  }

  /** What the first `n` deposits of a sequence add to the account's balance. */
  function DepositsAdd(l: Ledger, txs: seq<Tx>, n: nat, a: Address): int
    requires n <= |txs| && forall i :: 0 <= i < n ==> txs[i].call.CallDeposit?
  {
    if n == 0 then 0
    else
      var c := txs[n - 1].call;
      DepositsAdd(l, txs, n - 1, a)
      + if Accepted(At(l, txs, n - 1), txs[n - 1]) then Moves(c.user, VAULT, c.amount, a) else 0
  }

  /** What a payout adds: the assets from the vault to the user, and before that any
      shortfall of idle assets from the configured strategy. */
  function PayoutAdds(l: Ledger, user: Address, assets: int, a: Address): int {
    Moves(VAULT, user, assets, a)
    + if l.idleAssets < assets && l.config.strategy.Some?
      then Moves(l.config.strategy.value, VAULT, assets - l.idleAssets, a)
      else 0
  }

  /** What the call adds to the account's token balance, told from its arguments and
      the state before it. */
  function Adds(l: Ledger, tx: Tx, a: Address): int {
    if !Accepted(l, tx) then 0
    else
      match tx.call
      case CallDeposit(user, amount) => Moves(user, VAULT, amount, a)
      case CallBatchDeposit(_, entries) => DepositsAdd(l, Batch.DepositTxs(tx.signers, entries), |entries|, a)
      case CallWithdraw(user, shares) =>
        if PaidAtOnce(l, tx)
        then PayoutAdds(l, user, SharesToAssets(shares, l.state.totalShares, l.state.totalAssets).value, a)
        else 0
      case CallExecuteWithdrawal(user) =>
        var shares := if user in l.pending then l.pending[user].shares else 0;
        var assets := SharesToAssets(shares, l.state.totalShares, l.state.totalAssets);
        PayoutAdds(l, user, if assets.Done? then assets.value else 0, a)
      case CallInvest(amount, _) =>
        if l.config.strategy.Some? then Moves(VAULT, l.config.strategy.value, amount, a) else 0
      case CallDivest(amount) =>
        if l.config.strategy.Some? then Moves(l.config.strategy.value, VAULT, amount, a) else 0
      case CallRebalance(from, to, amount, _, _, _, _) => Moves(from, to, amount, a)
      case CallAccrueYield(amount) => Moves(l.config.admin, VAULT, amount, a)
      case CallReportBenjiYield(strategy, amount) => Moves(strategy, VAULT, amount, a)
      case CallClaimFees =>
        if l.config.treasury.Some? then Moves(VAULT, l.config.treasury.value, l.treasuryBalance, a) else 0
      case TokenTransfer(from, to, amount) => Moves(from, to, amount, a)
      case _ => 0
  }

  predicate Flows(l: Ledger, l': Ledger, a: Address, added: int) {
    Get(l'.tokens, a) == Get(l.tokens, a) + added
  }

  lemma DepositFlows(l: Ledger, signers: set<Address>, user: Address, amount: int, a: Address)
    requires Deposit(l, signers, user, amount).Done?
    ensures Flows(l, Deposit(l, signers, user, amount).value.0, a, Moves(user, VAULT, amount, a))
    ensures amount > 0 && user in signers
  {
    hide AssetsToShares, Transfer;
    TransferMoves(l.tokens, user, VAULT, amount, a);
  }

  lemma {:induction false} DepositsFlow(l: Ledger, signers: set<Address>, entries: seq<DepositEntry>, n: nat,
                                        a: Address)
    requires n <= |entries|
    ensures var txs := Batch.DepositTxs(signers, entries);
            Flows(l, At(l, txs, n), a, DepositsAdd(l, txs, n, a))
  {
    hide Deposit, Moves;
    if n > 0 {
      DepositsFlow(l, signers, entries, n - 1, a);
      var before, e := At(l, Batch.DepositTxs(signers, entries), n - 1), entries[n - 1];
      if Deposit(before, signers, e.user, e.amount).Done? {
        DepositFlows(before, signers, e.user, e.amount, a);
      }
    }
  }

  lemma CoveringFlows(l: Ledger, assets: int, a: Address)
    requires CoverFromStrategy(l, assets).Done?
    ensures Flows(l, CoverFromStrategy(l, assets).value.0, a,
                  if l.idleAssets < assets && l.config.strategy.Some?
                  then Moves(l.config.strategy.value, VAULT, assets - l.idleAssets, a)
                  else 0)
  {
    hide LoweredWatermark, Transfer;
    if l.idleAssets < assets {
      TransferMoves(l.tokens, l.config.strategy.value, VAULT, assets - l.idleAssets, a);
    }
  }

  lemma DoWithdrawFlows(l: Ledger, user: Address, shares: int, assets: int, a: Address)
    requires DoWithdraw(l, user, shares, assets).Done?
    ensures Flows(l, DoWithdraw(l, user, shares, assets).value.0, a, PayoutAdds(l, user, assets, a))
  {
    CoveringFlows(l, assets, a);
    hide CoverFromStrategy, Transfer;
    TransferMoves(CoverFromStrategy(l, assets).value.0.tokens, VAULT, user, assets, a);
  }

  lemma PayoutFlows(l: Ledger, tx: Tx, a: Address)
    requires PaidAtOnce(l, tx) || Executed(l, tx)
    ensures Flows(l, After(l, tx), a, Adds(l, tx, a))
  {
    PayoutIsDoWithdraw(l, tx);
    hide Perform, After, DoWithdraw, SharesToAssets, Moves;
    var (p, shares) := Payout(l, tx);
    DoWithdrawFlows(p, tx.call.user, shares, SharesToAssets(shares, p.state.totalShares, p.state.totalAssets).value, a);
  }

  lemma StrategyFlows(l: Ledger, tx: Tx, a: Address)
    requires (tx.call.CallInvest? || tx.call.CallDivest?) && Accepted(l, tx)
    ensures Flows(l, After(l, tx), a, Adds(l, tx, a))
  {
    match tx.call {
      case CallInvest(amount, invested) => assert Perform(l, tx) == Invest(l, tx.signers, amount, invested);
      case CallDivest(amount) => assert Perform(l, tx) == Divest(l, amount);
    }
    hide Perform, Quotient, Transfer, LoweredWatermark, RaisedWatermark;
    if tx.call.CallInvest? {
      TransferMoves(l.tokens, VAULT, l.config.strategy.value, tx.call.amount, a);
    } else {
      TransferMoves(l.tokens, l.config.strategy.value, VAULT, tx.call.amount, a);
    }
  }

  /** A rebalance takes from one strategy what it gives to the other. */
  lemma RebalanceFlows(l: Ledger, tx: Tx, a: Address)
    requires tx.call.CallRebalance? && Typed(tx.call) && Accepted(l, tx)
    ensures Flows(l, After(l, tx), a, Adds(l, tx, a))
  {
    var c := tx.call;
    assert Perform(l, tx) == Rebalance(l, tx.signers, c.from, c.to, c.amount, c.minDivest, c.minInvest,
                                       c.valueBefore, c.valueAfter);
    hide Perform, Transfer, LoweredWatermark, RaisedWatermark;
    var divested := Transfer(l.tokens, c.from, VAULT, c.amount).value;
    TransferMoves(l.tokens, c.from, VAULT, c.amount, VAULT);
    TransferMoves(l.tokens, c.from, VAULT, c.amount, a);
    TransferMoves(divested, VAULT, c.to, c.amount, a);
  }

  lemma YieldFlows(l: Ledger, tx: Tx, a: Address)
    requires BooksYield(tx.call) && Accepted(l, tx)
    ensures Flows(l, After(l, tx), a, Adds(l, tx, a))
  {
    match tx.call {
      case CallAccrueYield(amount) => assert Perform(l, tx) == AccrueYield(l, tx.signers, amount);
      case CallReportBenjiYield(strategy, amount) =>
        assert Perform(l, tx) == ReportBenjiYield(l, tx.signers, strategy, amount);
      case CallAccrueKoreanDebtYield(harvested) =>
        assert Perform(l, tx) == AccrueKoreanDebtYield(l, tx.signers, harvested);
    }
    hide Perform, Quotient, FeeMath.InlineFee, FeeMath.CalculateProtocolFee, Transfer, RaisedWatermark;
    if tx.call.CallAccrueYield? {
      TransferMoves(l.tokens, l.config.admin, VAULT, tx.call.amount, a);
    } else if tx.call.CallReportBenjiYield? {
      TransferMoves(l.tokens, tx.call.strategy, VAULT, tx.call.amount, a);
    }
  }

  lemma HousekeepingFlows(l: Ledger, tx: Tx, a: Address)
    requires tx.call.CallClaimFees? || tx.call.CallConfigure? || tx.call.CallPause? || tx.call.CallGovernance?
             || tx.call.TokenTransfer? || tx.call.AdvanceTime?
    requires Accepted(l, tx)
    ensures Flows(l, After(l, tx), a, Adds(l, tx, a))
  {
    match tx.call {
      case CallClaimFees => assert Perform(l, tx) == ClaimFees(l, tx.signers);
      case CallConfigure(config) => assert Perform(l, tx) == Configure(l, tx.signers, config);
      case CallPause(paused) => assert Perform(l, tx) == SetPaused(l, tx.signers, paused);
      case CallGovernance(action) => assert Perform(l, tx) == Govern(l, tx.signers, action);
      case TokenTransfer(from, to, amount) => assert Perform(l, tx) == MoveTokens(l, tx.signers, from, to, amount);
      case AdvanceTime(timestamp) => assert Perform(l, tx) == PassTime(l, timestamp);
    }
    hide Perform, ValidConfig, Transfer, Governance.Perform;
    if tx.call.CallClaimFees? {
      TransferMoves(l.tokens, VAULT, l.config.treasury.value, l.treasuryBalance, a);
    } else if tx.call.TokenTransfer? {
      TransferMoves(l.tokens, tx.call.from, tx.call.to, tx.call.amount, a);
    }
  }

  lemma AddsNothing(l: Ledger, tx: Tx, a: Address)
    requires !Accepted(l, tx) || Recorded(l, tx)
    ensures Adds(l, tx, a) == 0
  {
    hide Perform;
  }

  /** Every call changes every account's token balance by exactly what its arguments
      say, so nobody outside it gains or loses. */
  lemma StepFlows(l: Ledger, tx: Tx, a: Address)
    requires CountersAgree(l) && Typed(tx.call)
    ensures Flows(l, After(l, tx), a, Adds(l, tx, a))
  {
    if !Accepted(l, tx) {
      AddsNothing(l, tx, a);
      hide Perform, Adds;
    } else if MovesShares(tx.call) {
      hide Perform, DoWithdraw, Deposit, SharesToAssets, Moves;
      ShareCalls(l, tx);
      if tx.call.CallDeposit? {
        DepositFlows(l, tx.signers, tx.call.user, tx.call.amount, a);
      } else if tx.call.CallBatchDeposit? {
        DepositsFlow(l, tx.signers, tx.call.entries, |tx.call.entries|, a);
      } else if Recorded(l, tx) {
        AddsNothing(l, tx, a);
        RecordingOnlyRecords(l, tx);
      } else {
        PayoutFlows(l, tx, a);
      }
    } else {
      hide Perform, Adds, Flows;
      if BooksYield(tx.call) {
        YieldFlows(l, tx, a);
      } else if tx.call.CallInvest? || tx.call.CallDivest? {
        StrategyFlows(l, tx, a);
      } else if tx.call.CallRebalance? {
        RebalanceFlows(l, tx, a);
      } else {
        HousekeepingFlows(l, tx, a);
      }
    }
  }
}
