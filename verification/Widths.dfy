/** Every number the vault stores stays within the width of its type: what is
    written was checked, or came in as a typed argument. */
module Widths {
  import opened Checked
  import opened Sums
  import opened Token
  import opened ShareMath
  import opened VaultLedger
  import opened ShareAccounting
  import opened Reachable
  import Batch
  import FeeMath
  import Governance

  ghost predicate AllFit(m: map<Address, int>) {
    forall a <- m.Keys :: InI128(m[a])
  }

  predicate InU64(x: int) {
    0 <= x <= U64_MAX
  }

  ghost predicate TimesFit(m: map<Address, int>) {
    forall a <- m.Keys :: InU64(m[a])
  }

  ghost predicate RecordsFit(m: map<Address, PendingWithdrawal>) {
    forall a <- m.Keys :: InI128(m[a].shares)
  }

  /** Every stored number is a 128-bit one, and times are 64-bit ones. */
  ghost predicate Fits(l: Ledger) {
    && InI128(l.idleAssets) && InI128(l.totalShares) && InI128(l.state.totalShares) && InI128(l.state.totalAssets)
    && AllFit(l.shareBalance) && AllFit(l.userDeposit) && AllFit(l.watermark)
    && InU64(l.now) && TimesFit(l.lastDepositTime) && RecordsFit(l.pending)
  }

  lemma FitAt(m: map<Address, int>, a: Address)
    requires AllFit(m)
    ensures InI128(Get(m, a))
  {
  }

  lemma FitUpdate(m: map<Address, int>, a: Address, x: int)
    requires AllFit(m) && InI128(x)
    ensures AllFit(m[a := x])
  {
  }

  lemma TimesFitUpdate(m: map<Address, int>, a: Address, x: int)
    requires TimesFit(m) && InU64(x)
    ensures TimesFit(m[a := x])
  {
  }

  lemma RecordsFitWithout(m: map<Address, PendingWithdrawal>, a: Address)
    requires RecordsFit(m)
    ensures RecordsFit(m - {a})
  {
  }

  lemma RecordsFitUpdate(m: map<Address, PendingWithdrawal>, a: Address, r: PendingWithdrawal)
    requires RecordsFit(m) && InI128(r.shares)
    ensures RecordsFit(m[a := r])
  {
  }

  lemma DepositKeepsFits(l: Ledger, signers: set<Address>, user: Address, amount: int)
    requires Fits(l) && Deposit(l, signers, user, amount).Done?
    ensures Fits(Deposit(l, signers, user, amount).value.0)
  {
    hide Transfer, AssetsToShares, AllFit, TimesFit, RecordsFit;
    var (l', minted) := Deposit(l, signers, user, amount).value;
    FitUpdate(l.shareBalance, user, BalanceOf(l, user) + minted);
    FitUpdate(l.userDeposit, user, Get(l.userDeposit, user) + amount);
    TimesFitUpdate(l.lastDepositTime, user, l.now);
  }

  lemma {:induction false} DepositsKeepFits(l: Ledger, signers: set<Address>, entries: seq<DepositEntry>, i: nat)
    requires i <= |entries| && Fits(l)
    ensures Fits(At(l, Batch.DepositTxs(signers, entries), i))
  {
    hide Deposit, Fits;
    if i > 0 {
      DepositsKeepFits(l, signers, entries, i - 1);
      var before, e := At(l, Batch.DepositTxs(signers, entries), i - 1), entries[i - 1];
      if Deposit(before, signers, e.user, e.amount).Done? {
        DepositKeepsFits(before, signers, e.user, e.amount);
      }
    }
  }

  lemma LoweringFits(m: map<Address, int>, strategy: Address, amount: int)
    requires AllFit(m) && LoweredWatermark(m, strategy, amount).Done?
    ensures AllFit(LoweredWatermark(m, strategy, amount).value)
  {
  }

  lemma RaisingFits(m: map<Address, int>, strategy: Address, candidate: int)
    requires AllFit(m) && InI128(candidate)
    ensures AllFit(RaisedWatermark(m, strategy, candidate))
  {
  }

  lemma DivestKeepsFits(l: Ledger, amount: int)
    requires Fits(l) && Divest(l, amount).Done?
    ensures Fits(Divest(l, amount).value.0)
  {
    LoweringFits(l.watermark, l.config.strategy.value, amount);
    hide StrategyWithdraw, LoweredWatermark, AllFit, TimesFit, RecordsFit;
  }

  lemma CoveringKeepsFits(l: Ledger, assets: int)
    requires Fits(l) && CoverFromStrategy(l, assets).Done?
    ensures Fits(CoverFromStrategy(l, assets).value.0)
  {
    hide Divest, Fits;
    if l.idleAssets < assets {
      DivestKeepsFits(l, assets - l.idleAssets);
    }
  }

  lemma DoWithdrawKeepsFits(l: Ledger, user: Address, shares: int, assets: int)
    requires Fits(l) && DoWithdraw(l, user, shares, assets).Done?
    ensures Fits(DoWithdraw(l, user, shares, assets).value.0)
  {
    CoveringKeepsFits(l, assets);
    hide CoverFromStrategy;
    PayOutKeepsFits(CoverFromStrategy(l, assets).value.0, user, shares, assets);
    hide PayOut, Fits;
  }

  lemma PayOutKeepsFits(l: Ledger, user: Address, shares: int, assets: int)
    requires Fits(l) && PayOut(l, user, shares, assets).Done?
    ensures Fits(PayOut(l, user, shares, assets).value.0)
  {
    hide Transfer, AllFit, TimesFit, RecordsFit;
    var deposited := if Get(l.userDeposit, user) > assets then Get(l.userDeposit, user) - assets else 0;
    FitUpdate(l.shareBalance, user, BalanceOf(l, user) - shares);
    FitUpdate(l.userDeposit, user, deposited);
  }

  lemma PayoutKeepsFits(l: Ledger, tx: Tx)
    requires Fits(l) && (PaidAtOnce(l, tx) || Executed(l, tx))
    ensures Fits(After(l, tx))
  {
    PayoutIsDoWithdraw(l, tx);
    RecordsFitWithout(l.pending, tx.call.user);
    hide Perform, After, DoWithdraw, SharesToAssets, AllFit, TimesFit, RecordsFit;
    var (p, shares) := Payout(l, tx);
    assert Fits(p);
    DoWithdrawKeepsFits(p, tx.call.user, shares,
                        SharesToAssets(shares, p.state.totalShares, p.state.totalAssets).value);
  }

  lemma RecordingKeepsFits(l: Ledger, tx: Tx)
    requires Fits(l) && Recorded(l, tx)
    ensures Fits(After(l, tx))
  {
    RecordingOnlyRecords(l, tx);
    FitAt(l.shareBalance, tx.call.user);
    RecordsFitUpdate(l.pending, tx.call.user, PendingWithdrawal(tx.call.shares, l.now + TIMELOCK_SECONDS));
    hide Perform, After, Recorded, AllFit, TimesFit, RecordsFit;
  }

  lemma InvestKeepsFits(l: Ledger, tx: Tx)
    requires Fits(l) && tx.call.CallInvest? && Accepted(l, tx)
    ensures Fits(After(l, tx))
  {
    assert Perform(l, tx) == Invest(l, tx.signers, tx.call.amount, tx.call.invested);
    hide Perform, Quotient, StrategyDeposit, RaisedWatermark, AllFit, TimesFit, RecordsFit;
    RaisingFits(l.watermark, l.config.strategy.value, tx.call.invested + tx.call.amount);
  }

  lemma DivestingKeepsFits(l: Ledger, tx: Tx)
    requires Fits(l) && tx.call.CallDivest? && Accepted(l, tx)
    ensures Fits(After(l, tx))
  {
    assert Perform(l, tx) == Divest(l, tx.call.amount);
    hide Perform, Divest, Fits;
    DivestKeepsFits(l, tx.call.amount);
  }

  lemma RebalanceKeepsFits(l: Ledger, tx: Tx)
    requires Fits(l) && tx.call.CallRebalance? && Typed(tx.call) && Accepted(l, tx)
    ensures Fits(After(l, tx))
  {
    var c := tx.call;
    assert Perform(l, tx)
        == Rebalance(l, tx.signers, c.from, c.to, c.amount, c.minDivest, c.minInvest, c.valueBefore, c.valueAfter);
    hide Perform, StrategyDeposit, StrategyWithdraw, LoweredWatermark, RaisedWatermark, AllFit, TimesFit, RecordsFit;
    var divested := StrategyWithdraw(l.tokens, c.from, c.amount).value;
    var difference := Get(divested, VAULT) - Get(l.tokens, VAULT);
    var withdrawn := if InI128(difference) then difference else 0;
    LoweringFits(l.watermark, c.from, withdrawn);
    RaisingFits(LoweredWatermark(l.watermark, c.from, withdrawn).value, c.to, c.valueAfter);
  }

  lemma YieldKeepsFits(l: Ledger, tx: Tx)
    requires Fits(l) && BooksYield(tx.call) && Accepted(l, tx)
    ensures Fits(After(l, tx))
  {
    match tx.call {
      case CallAccrueYield(amount) => assert Perform(l, tx) == AccrueYield(l, tx.signers, amount);
      case CallReportBenjiYield(strategy, amount) =>
        assert Perform(l, tx) == ReportBenjiYield(l, tx.signers, strategy, amount);
      case CallAccrueKoreanDebtYield(harvested) =>
        assert Perform(l, tx) == AccrueKoreanDebtYield(l, tx.signers, harvested);
    }
    hide Perform, Quotient, FeeMath.InlineFee, FeeMath.CalculateProtocolFee, Transfer, RaisedWatermark;
    hide AllFit, TimesFit, RecordsFit;
    if tx.call.CallReportBenjiYield? {
      RaisingFits(l.watermark, tx.call.strategy, Get(l.watermark, tx.call.strategy) + tx.call.amount);
    }
  }

  lemma HousekeepingKeepsFits(l: Ledger, tx: Tx)
    requires tx.call.CallClaimFees? || tx.call.CallConfigure? || tx.call.CallPause? || tx.call.CallGovernance?
             || tx.call.TokenTransfer? || tx.call.AdvanceTime?
    requires Fits(l) && Accepted(l, tx)
    ensures Fits(After(l, tx))
  {
    match tx.call {
      case CallClaimFees => assert Perform(l, tx) == ClaimFees(l, tx.signers);
      case CallConfigure(config) => assert Perform(l, tx) == Configure(l, tx.signers, config);
      case CallPause(paused) => assert Perform(l, tx) == SetPaused(l, tx.signers, paused);
      case CallGovernance(action) => assert Perform(l, tx) == Govern(l, tx.signers, action);
      case TokenTransfer(from, to, amount) => assert Perform(l, tx) == MoveTokens(l, tx.signers, from, to, amount);
      case AdvanceTime(timestamp) => assert Perform(l, tx) == PassTime(l, timestamp);
    }
    hide Perform, ValidConfig, Transfer, Governance.Perform, AllFit, TimesFit, RecordsFit;
  }

  lemma StepKeepsFits(l: Ledger, tx: Tx)
    requires CountersAgree(l) && Fits(l) && Typed(tx.call)
    ensures Fits(After(l, tx))
  {
    hide Perform, DoWithdraw, Deposit, SharesToAssets, CountersAgree, Fits, Typed;
    if Accepted(l, tx) {
      if MovesShares(tx.call) {
        SharesAgree(l);
        ShareCalls(l, tx);
        if tx.call.CallDeposit? {
          DepositKeepsFits(l, tx.signers, tx.call.user, tx.call.amount);
        } else if tx.call.CallBatchDeposit? {
          DepositsKeepFits(l, tx.signers, tx.call.entries, |tx.call.entries|);
        } else if Recorded(l, tx) {
          RecordingKeepsFits(l, tx);
        } else {
          PayoutKeepsFits(l, tx);
        }
      } else if BooksYield(tx.call) {
        YieldKeepsFits(l, tx);
      } else {
        match tx.call
        case CallInvest(_, _) => InvestKeepsFits(l, tx);
        case CallDivest(_) => DivestingKeepsFits(l, tx);
        case CallRebalance(_, _, _, _, _, _, _) => RebalanceKeepsFits(l, tx);
        case _ => HousekeepingKeepsFits(l, tx);
      }
    }
  }

  /** In every state of every run from a 64-bit time. */
  lemma {:induction false} NumbersAlwaysFit(admin: Address, tokens: Balances, now: nat, txs: seq<Tx>, n: nat)
    requires n <= |txs| && WellFormed(txs) && now <= U64_MAX
    ensures Fits(At(Initial(admin, tokens, now), txs, n))
  {
    if n == 0 {
      hide Perform;
    } else {
      hide Perform, Initial, Fits, CountersAgree, Typed;
      NumbersAlwaysFit(admin, tokens, now, txs, n - 1);
      CountersAlwaysAgree(admin, tokens, now, txs, n - 1);
      StepKeepsFits(At(Initial(admin, tokens, now), txs, n - 1), txs[n - 1]);
    }
  }
}
