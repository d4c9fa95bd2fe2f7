/** No call of the vault, a strategy's side included, creates or destroys tokens. */
module TokenSupply {
  import opened Checked
  import opened Sums
  import opened Token
  import opened ShareMath
  import opened VaultLedger
  import opened ShareAccounting
  import Batch
  import FeeMath
  import Governance

  ghost predicate NonNegative(t: Balances) {
    forall a <- t.Keys :: t[a] >= 0
  }

  /** The supply is the same, and no account goes below zero. */
  ghost predicate Conserved(t: Balances, t': Balances) {
    Sum(t') == Sum(t) && (NonNegative(t) ==> NonNegative(t'))
  }

  lemma TransferConserves(t: Balances, from: Address, to: Address, amount: int)
    requires Transfer(t, from, to, amount).Done?
    ensures Conserved(t, Transfer(t, from, to, amount).value)
  {
    TransferKeepsSupply(t, from, to, amount);
    var t' := Transfer(t, from, to, amount).value;
    if NonNegative(t) {
      forall a | a in t'
        ensures t'[a] >= 0
      {
        TransferMoves(t, from, to, amount, a);
      }
    }
  }

  lemma ConservedChains(t: Balances, t': Balances, t'': Balances)
    requires Conserved(t, t') && Conserved(t', t'')
    ensures Conserved(t, t'')
  {
  }

  lemma Untouched(t: Balances)
    ensures Conserved(t, t)
  {
  }

  lemma DepositConserves(l: Ledger, signers: set<Address>, user: Address, amount: int)
    requires Deposit(l, signers, user, amount).Done?
    ensures Conserved(l.tokens, Deposit(l, signers, user, amount).value.0.tokens)
  {
    hide Transfer, AssetsToShares, Conserved;
    TransferConserves(l.tokens, user, VAULT, amount);
  }

  lemma {:induction false} DepositsConserve(l: Ledger, signers: set<Address>, entries: seq<DepositEntry>, i: nat)
    requires i <= |entries|
    ensures Conserved(l.tokens, At(l, Batch.DepositTxs(signers, entries), i).tokens)
  {
    hide Deposit, Conserved;
    if i == 0 {
      Untouched(l.tokens);
    } else {
      DepositsConserve(l, signers, entries, i - 1);
      var before, e := At(l, Batch.DepositTxs(signers, entries), i - 1), entries[i - 1];
      if Deposit(before, signers, e.user, e.amount).Done? {
        DepositConserves(before, signers, e.user, e.amount);
        ConservedChains(l.tokens, before.tokens, Deposit(before, signers, e.user, e.amount).value.0.tokens);
      }
    }
  }

  lemma CoveringConserves(l: Ledger, assets: int)
    requires CoverFromStrategy(l, assets).Done?
    ensures Conserved(l.tokens, CoverFromStrategy(l, assets).value.0.tokens)
  {
    hide Transfer, LoweredWatermark, Conserved;
    Untouched(l.tokens);
    if l.idleAssets < assets {
      TransferConserves(l.tokens, l.config.strategy.value, VAULT, assets - l.idleAssets);
    }
  }

  lemma DoWithdrawConserves(l: Ledger, user: Address, shares: int, assets: int)
    requires DoWithdraw(l, user, shares, assets).Done?
    ensures Conserved(l.tokens, DoWithdraw(l, user, shares, assets).value.0.tokens)
  {
    CoveringConserves(l, assets);
    hide CoverFromStrategy, Transfer, Conserved;
    var covered := CoverFromStrategy(l, assets).value.0;
    TransferConserves(covered.tokens, VAULT, user, assets);
    ConservedChains(l.tokens, covered.tokens, Transfer(covered.tokens, VAULT, user, assets).value);
  }

  lemma StrategyCallConserves(l: Ledger, tx: Tx)
    requires (tx.call.CallInvest? || tx.call.CallDivest?) && Accepted(l, tx)
    ensures Conserved(l.tokens, After(l, tx).tokens)
  {
    match tx.call {
      case CallInvest(amount, invested) => assert Perform(l, tx) == Invest(l, tx.signers, amount, invested);
      case CallDivest(amount) => assert Perform(l, tx) == Divest(l, amount);
    }
    hide Perform, Quotient, Transfer, LoweredWatermark, RaisedWatermark, Conserved;
    if tx.call.CallInvest? {
      TransferConserves(l.tokens, VAULT, l.config.strategy.value, tx.call.amount);
    } else {
      TransferConserves(l.tokens, l.config.strategy.value, VAULT, tx.call.amount);
    }
  }

  lemma RebalanceConserves(l: Ledger, tx: Tx)
    requires tx.call.CallRebalance? && Accepted(l, tx)
    ensures Conserved(l.tokens, After(l, tx).tokens)
  {
    var c := tx.call;
    assert Perform(l, tx) == Rebalance(l, tx.signers, c.from, c.to, c.amount, c.minDivest, c.minInvest,
                                       c.valueBefore, c.valueAfter);
    hide Perform, Transfer, LoweredWatermark, RaisedWatermark, Conserved;
    var divested := Transfer(l.tokens, c.from, VAULT, c.amount).value;
    var difference := Get(divested, VAULT) - Get(l.tokens, VAULT);
    var withdrawn := if InI128(difference) then difference else 0;
    TransferConserves(l.tokens, c.from, VAULT, c.amount);
    TransferConserves(divested, VAULT, c.to, withdrawn);
    ConservedChains(l.tokens, divested, Transfer(divested, VAULT, c.to, withdrawn).value);
  }

  lemma YieldConserves(l: Ledger, tx: Tx)
    requires BooksYield(tx.call) && Accepted(l, tx)
    ensures Conserved(l.tokens, After(l, tx).tokens)
  {
    match tx.call {
      case CallAccrueYield(amount) => assert Perform(l, tx) == AccrueYield(l, tx.signers, amount);
      case CallReportBenjiYield(strategy, amount) =>
        assert Perform(l, tx) == ReportBenjiYield(l, tx.signers, strategy, amount);
      case CallAccrueKoreanDebtYield(harvested) =>
        assert Perform(l, tx) == AccrueKoreanDebtYield(l, tx.signers, harvested);
    }
    hide Perform, Quotient, FeeMath.InlineFee, FeeMath.CalculateProtocolFee, Transfer, RaisedWatermark, Conserved;
    if tx.call.CallAccrueYield? {
      TransferConserves(l.tokens, l.config.admin, VAULT, tx.call.amount);
    } else if tx.call.CallReportBenjiYield? {
      TransferConserves(l.tokens, tx.call.strategy, VAULT, tx.call.amount);
    } else {
      Untouched(l.tokens);
    }
  }

  lemma HousekeepingConserves(l: Ledger, tx: Tx)
    requires tx.call.CallClaimFees? || tx.call.CallConfigure? || tx.call.CallPause? || tx.call.CallGovernance?
             || tx.call.TokenTransfer? || tx.call.AdvanceTime?
    requires Accepted(l, tx)
    ensures Conserved(l.tokens, After(l, tx).tokens)
  {
    match tx.call {
      case CallClaimFees => assert Perform(l, tx) == ClaimFees(l, tx.signers);
      case CallConfigure(config) => assert Perform(l, tx) == Configure(l, tx.signers, config);
      case CallPause(paused) => assert Perform(l, tx) == SetPaused(l, tx.signers, paused);
      case CallGovernance(action) => assert Perform(l, tx) == Govern(l, tx.signers, action);
      case TokenTransfer(from, to, amount) => assert Perform(l, tx) == MoveTokens(l, tx.signers, from, to, amount);
      case AdvanceTime(timestamp) => assert Perform(l, tx) == PassTime(l, timestamp);
    }
    hide Perform, ValidConfig, Transfer, Governance.Perform, Conserved;
    Untouched(l.tokens);
    if tx.call.CallClaimFees? {
      TransferConserves(l.tokens, VAULT, l.config.treasury.value, l.treasuryBalance);
    } else if tx.call.TokenTransfer? {
      TransferConserves(l.tokens, tx.call.from, tx.call.to, tx.call.amount);
    }
  }

  lemma StepConserves(l: Ledger, tx: Tx)
    requires CountersAgree(l)
    ensures Conserved(l.tokens, After(l, tx).tokens)
  {
    hide Perform, DoWithdraw, Deposit, SharesToAssets, CountersAgree, Conserved;
    Untouched(l.tokens);
    if Accepted(l, tx) {
      if MovesShares(tx.call) {
        assert l.totalShares == l.state.totalShares by { CountersMeet(l); }
        ShareCalls(l, tx);
        if tx.call.CallDeposit? {
          DepositConserves(l, tx.signers, tx.call.user, tx.call.amount);
        } else if tx.call.CallBatchDeposit? {
          DepositsConserve(l, tx.signers, tx.call.entries, |tx.call.entries|);
        } else if Recorded(l, tx) {
          RecordingOnlyRecords(l, tx);
        } else {
          PayoutIsDoWithdraw(l, tx);
          var (p, shares) := Payout(l, tx);
          DoWithdrawConserves(p, tx.call.user, shares,
                              SharesToAssets(shares, p.state.totalShares, p.state.totalAssets).value);
        }
      } else if BooksYield(tx.call) {
        YieldConserves(l, tx);
      } else if tx.call.CallInvest? || tx.call.CallDivest? {
        StrategyCallConserves(l, tx);
      } else if tx.call.CallRebalance? {
        RebalanceConserves(l, tx);
      } else {
        HousekeepingConserves(l, tx);
      }
    }
  }

  lemma CountersMeet(l: Ledger)
    requires CountersAgree(l)
    ensures l.totalShares == l.state.totalShares
  {
  }

  /** In every state of every run the supply of the token is what it was at the
      start, deposits to and recalls from strategies included, and accounts that
      started without debt stay without. */
  lemma {:induction false} TokensAreConserved(admin: Address, tokens: Balances, now: nat, txs: seq<Tx>, n: nat)
    requires n <= |txs|
    ensures Conserved(tokens, At(Initial(admin, tokens, now), txs, n).tokens)
  {
    hide Perform, Conserved, CountersAgree;
    if n == 0 {
      Untouched(tokens);
    } else {
      var before := At(Initial(admin, tokens, now), txs, n - 1);
      TokensAreConserved(admin, tokens, now, txs, n - 1);
      CountersAlwaysAgree(admin, tokens, now, txs, n - 1);
      StepConserves(before, txs[n - 1]);
      ConservedChains(tokens, before.tokens, After(before, txs[n - 1]).tokens);
    }
  }
}
