/** Share conservation over whole runs, and when balances stay non-negative. */
module ShareAccounting {
  import opened Checked
  import opened Sums
  import opened Token
  import opened ShareMath
  import opened VaultLedger
  import Batch
  import FeeMath
  import Governance

  /** The two share counters and the holders' balances tell one story. */
  ghost predicate CountersAgree(l: Ledger) {
    l.totalShares == l.state.totalShares == Sum(l.shareBalance)
  }

  lemma DepositKeepsCounters(l: Ledger, signers: set<Address>, user: Address, amount: int)
    requires CountersAgree(l) && Deposit(l, signers, user, amount).Done?
    ensures CountersAgree(Deposit(l, signers, user, amount).value.0)
  {
    var (l', minted) := Deposit(l, signers, user, amount).value;
    SumUpdate(l.shareBalance, user, BalanceOf(l, user) + minted);
  }

  lemma DoWithdrawKeepsCounters(l: Ledger, user: Address, shares: int, assets: int)
    requires CountersAgree(l) && DoWithdraw(l, user, shares, assets).Done?
    ensures CountersAgree(DoWithdraw(l, user, shares, assets).value.0)
  {
    CoveringLeavesShares(l, assets);
    hide CoverFromStrategy, Transfer;
    SumUpdate(l.shareBalance, user, BalanceOf(l, user) - shares);
  }

  lemma {:induction false} DepositsKeepCounters(l: Ledger, signers: set<Address>, entries: seq<DepositEntry>, i: nat)
    requires CountersAgree(l) && i <= |entries|
    ensures CountersAgree(At(l, Batch.DepositTxs(signers, entries), i))
  {
    hide Deposit;
    if i > 0 {
      DepositsKeepCounters(l, signers, entries, i - 1);
      var before, e := At(l, Batch.DepositTxs(signers, entries), i - 1), entries[i - 1];
      if Deposit(before, signers, e.user, e.amount).Done? {
        DepositKeepsCounters(before, signers, e.user, e.amount);
      }
    }
  }

  /** Shares, pending withdrawals and what is kept about users are as before, and
      so are the assets shares are priced with unless the call books yield. */
  predicate SharesUntouched(l: Ledger, l': Ledger, c: Call) {
    && l'.totalShares == l.totalShares
    && l'.state.totalShares == l.state.totalShares
    && l'.shareBalance == l.shareBalance
    && l'.pending == l.pending
    && l'.userDeposit == l.userDeposit
    && l'.lastDepositTime == l.lastDepositTime
    && (!BooksYield(c) ==> l'.state.totalAssets == l.state.totalAssets)
    && (ValidConfig(l.config) ==> ValidConfig(l'.config))
  }

  lemma StrategyCallsLeaveShares(l: Ledger, tx: Tx)
    requires tx.call.CallInvest? || tx.call.CallDivest? || tx.call.CallRebalance?
    ensures SharesUntouched(l, After(l, tx), tx.call)
  {
    match tx.call {
      case CallInvest(amount, invested) => assert Perform(l, tx) == Invest(l, tx.signers, amount, invested);
      case CallDivest(amount) => assert Perform(l, tx) == Divest(l, amount);
      case CallRebalance(from, to, amount, d, i, v, w) =>
        assert Perform(l, tx) == Rebalance(l, tx.signers, from, to, amount, d, i, v, w);
    }
    hide Perform, Quotient, StrategyDeposit, StrategyWithdraw, LoweredWatermark, RaisedWatermark, ValidConfig;
  }

  lemma AccruedYieldLeavesShares(l: Ledger, tx: Tx)
    requires tx.call.CallAccrueYield?
    ensures SharesUntouched(l, After(l, tx), tx.call)
  {
    assert Perform(l, tx) == AccrueYield(l, tx.signers, tx.call.amount);
    hide Perform, Quotient, FeeMath.InlineFee, Transfer, ValidConfig;
  }

  lemma ReportedYieldLeavesShares(l: Ledger, tx: Tx)
    requires tx.call.CallReportBenjiYield?
    ensures SharesUntouched(l, After(l, tx), tx.call)
  {
    assert Perform(l, tx) == ReportBenjiYield(l, tx.signers, tx.call.strategy, tx.call.amount);
    hide Perform, FeeMath.CalculateProtocolFee, Transfer, RaisedWatermark, ValidConfig;
  }

  lemma HarvestLeavesShares(l: Ledger, tx: Tx)
    requires tx.call.CallAccrueKoreanDebtYield?
    ensures SharesUntouched(l, After(l, tx), tx.call)
  {
    assert Perform(l, tx) == AccrueKoreanDebtYield(l, tx.signers, tx.call.harvested);
    hide Perform, ValidConfig;
  }

  lemma ConfiguringLeavesShares(l: Ledger, tx: Tx)
    requires tx.call.CallConfigure?
    ensures SharesUntouched(l, After(l, tx), tx.call)
  {
    assert Perform(l, tx) == Configure(l, tx.signers, tx.call.config);
    hide Perform, ValidConfig;
  }

  lemma GoverningLeavesShares(l: Ledger, tx: Tx)
    requires tx.call.CallGovernance?
    ensures SharesUntouched(l, After(l, tx), tx.call)
  {
    assert Perform(l, tx) == Govern(l, tx.signers, tx.call.action);
    hide Perform, Governance.Perform, ValidConfig;
  }

  lemma HousekeepingLeavesShares(l: Ledger, tx: Tx)
    requires tx.call.CallClaimFees? || tx.call.CallPause? || tx.call.TokenTransfer? || tx.call.AdvanceTime?
    ensures SharesUntouched(l, After(l, tx), tx.call)
  {
    match tx.call {
      case CallClaimFees => assert Perform(l, tx) == ClaimFees(l, tx.signers);
      case CallPause(paused) => assert Perform(l, tx) == SetPaused(l, tx.signers, paused);
      case TokenTransfer(from, to, amount) => assert Perform(l, tx) == MoveTokens(l, tx.signers, from, to, amount);
      case AdvanceTime(timestamp) => assert Perform(l, tx) == PassTime(l, timestamp);
    }
    hide Perform, ValidConfig, Transfer;
  }

  /** No other call touches shares. */
  lemma OtherCallsLeaveShares(l: Ledger, tx: Tx)
    requires !MovesShares(tx.call)
    ensures SharesUntouched(l, After(l, tx), tx.call)
  {
    hide After, SharesUntouched;
    match tx.call
    case CallAccrueYield(_) => AccruedYieldLeavesShares(l, tx);
    case CallReportBenjiYield(_, _) => ReportedYieldLeavesShares(l, tx);
    case CallAccrueKoreanDebtYield(_) => HarvestLeavesShares(l, tx);
    case CallInvest(_, _) => StrategyCallsLeaveShares(l, tx);
    case CallDivest(_) => StrategyCallsLeaveShares(l, tx);
    case CallRebalance(_, _, _, _, _, _, _) => StrategyCallsLeaveShares(l, tx);
    case CallConfigure(_) => ConfiguringLeavesShares(l, tx);
    case CallGovernance(_) => GoverningLeavesShares(l, tx);
    case _ => HousekeepingLeavesShares(l, tx);
  }

  /** What a withdrawal does: record it, pay it at once, or pay a recorded one. */
  predicate PaidAtOnce(l: Ledger, tx: Tx) {
    && tx.call.CallWithdraw? && Accepted(l, tx)
    && var assets := SharesToAssets(tx.call.shares, l.state.totalShares, l.state.totalAssets).value;
       assets <= l.config.largeWithdrawalThreshold
  }

  predicate Recorded(l: Ledger, tx: Tx) {
    tx.call.CallWithdraw? && Accepted(l, tx) && !PaidAtOnce(l, tx)
  }

  predicate Executed(l: Ledger, tx: Tx) {
    tx.call.CallExecuteWithdrawal? && Accepted(l, tx)
  }

  /** The ledger a payout starts from, and the shares it burns. */
  function Payout(l: Ledger, tx: Tx): (Ledger, int)
    requires PaidAtOnce(l, tx) || Executed(l, tx)
  {
    if tx.call.CallWithdraw? then (l, tx.call.shares)
    else (l.(pending := l.pending - {tx.call.user}), l.pending[tx.call.user].shares)
  }

  lemma PayoutIsDoWithdraw(l: Ledger, tx: Tx)
    requires PaidAtOnce(l, tx) || Executed(l, tx)
    ensures var (p, shares) := Payout(l, tx);
            var assets := SharesToAssets(shares, p.state.totalShares, p.state.totalAssets);
            && assets.Done?
            && DoWithdraw(p, tx.call.user, shares, assets.value).Done?
            && After(l, tx) == DoWithdraw(p, tx.call.user, shares, assets.value).value.0
            && Perform(l, tx) == DoWithdraw(p, tx.call.user, shares, assets.value)
            && (tx.call.CallWithdraw? ==> 0 < shares <= BalanceOf(l, tx.call.user))
            && (tx.call.CallExecuteWithdrawal? ==> tx.call.user in l.pending)
  {
    hide DoWithdraw;
  }

  /** Who a payout affects: its user's balance and, if executed, their record. */
  lemma PayoutBurns(l: Ledger, tx: Tx)
    requires PaidAtOnce(l, tx) || Executed(l, tx)
    ensures var (p, shares) := Payout(l, tx);
            && After(l, tx).shareBalance == l.shareBalance[tx.call.user := BalanceOf(l, tx.call.user) - shares]
            && After(l, tx).pending == p.pending
  {
    hide Perform, SharesToAssets, Transfer, CoverFromStrategy;
    PayoutIsDoWithdraw(l, tx);
    var (p, shares) := Payout(l, tx);
    CoveringLeavesShares(p, SharesToAssets(shares, p.state.totalShares, p.state.totalAssets).value);
  }

  lemma SignedByUser(l: Ledger, tx: Tx)
    requires Accepted(l, tx) && (tx.call.CallWithdraw? || tx.call.CallExecuteWithdrawal?)
    ensures tx.call.user in tx.signers
  {
    hide DoWithdraw, SharesToAssets;
  }

  lemma RecordingOnlyRecords(l: Ledger, tx: Tx)
    requires Recorded(l, tx)
    ensures tx.call.shares > 0 && BalanceOf(l, tx.call.user) >= tx.call.shares
    ensures var record := PendingWithdrawal(tx.call.shares, l.now + TIMELOCK_SECONDS);
            After(l, tx) == l.(pending := l.pending[tx.call.user := record])
  {
    hide DoWithdraw;
  }

  /** A call that moves shares and returns is one of five things. */
  lemma ShareCalls(l: Ledger, tx: Tx)
    requires MovesShares(tx.call) && Accepted(l, tx)
    ensures tx.call.CallDeposit? || tx.call.CallBatchDeposit? || PaidAtOnce(l, tx) || Recorded(l, tx) || Executed(l, tx)
    ensures tx.call.CallDeposit? ==>
              Deposit(l, tx.signers, tx.call.user, tx.call.amount).Done?
              && After(l, tx) == Deposit(l, tx.signers, tx.call.user, tx.call.amount).value.0
    ensures tx.call.CallBatchDeposit? && l.totalShares == l.state.totalShares ==>
              After(l, tx) == At(l, Batch.DepositTxs(tx.signers, tx.call.entries), |tx.call.entries|)
  {
    hide Deposit, BatchDeposit, Withdraw, ExecuteWithdrawal, At;
    if tx.call.CallBatchDeposit? && l.totalShares == l.state.totalShares {
      Batch.BatchRefinesDeposits(l, tx.signers, tx.call.relayer, tx.call.entries);
    }
  }

  lemma StepKeepsCounters(l: Ledger, tx: Tx)
    requires CountersAgree(l)
    ensures CountersAgree(After(l, tx))
  {
    hide Perform, SharesToAssets, DoWithdraw, Deposit;
    if !MovesShares(tx.call) {
      OtherCallsLeaveShares(l, tx);
    } else if Accepted(l, tx) {
      ShareCalls(l, tx);
      if tx.call.CallDeposit? {
        DepositKeepsCounters(l, tx.signers, tx.call.user, tx.call.amount);
      } else if tx.call.CallBatchDeposit? {
        DepositsKeepCounters(l, tx.signers, tx.call.entries, |tx.call.entries|);
      } else if Recorded(l, tx) {
        RecordingOnlyRecords(l, tx);
      } else {
        PayoutIsDoWithdraw(l, tx);
        var (p, shares) := Payout(l, tx);
        DoWithdrawKeepsCounters(p, tx.call.user, shares,
                                SharesToAssets(shares, p.state.totalShares, p.state.totalAssets).value);
      }
    }
  }

  /** In every state reachable from `initialize`, whatever was called and
      whatever failed: TotalShares = State.total_shares = sum of all balances. */
  lemma {:induction false} CountersAlwaysAgree(admin: Address, tokens: Balances, now: nat, txs: seq<Tx>, i: nat)
    requires i <= |txs|
    ensures CountersAgree(At(Initial(admin, tokens, now), txs, i))
  {
    hide Perform;
    if i > 0 {
      CountersAlwaysAgree(admin, tokens, now, txs, i - 1);
      StepKeepsCounters(At(Initial(admin, tokens, now), txs, i - 1), txs[i - 1]);
    }
  }

  // ---- Non-negative balances ----

  ghost predicate NoDebt(l: Ledger) {
    forall u <- l.shareBalance.Keys :: l.shareBalance[u] >= 0
  }

  /** `execute_withdrawal` does not compare the recorded shares with the balance
      left at execution; this is the comparison it omits. */
  predicate Covered(l: Ledger, tx: Tx) {
    Executed(l, tx) ==> l.pending[tx.call.user].shares <= BalanceOf(l, tx.call.user)
  }

  /** What holds of every reachable ledger as long as executions are covered. */
  ghost predicate Sound(l: Ledger) {
    && CountersAgree(l)
    && NoDebt(l)
    && 0 <= l.state.totalShares <= l.state.totalAssets
    && (forall u <- l.pending.Keys :: l.pending[u].shares > 0)
    && ValidConfig(l.config)
  }

  /** What an accepted deposit changes that shares depend on. */
  lemma DepositMints(l: Ledger, signers: set<Address>, user: Address, amount: int)
    requires Deposit(l, signers, user, amount).Done?
    ensures var (l', minted) := Deposit(l, signers, user, amount).value;
            && amount > 0 && minted != 0
            && AssetsToShares(amount, l.state.totalShares, l.state.totalAssets) == Done(minted)
            && l'.state.totalShares == l.state.totalShares + minted
            && l'.state.totalAssets == l.state.totalAssets + amount
            && l'.shareBalance == l.shareBalance[user := BalanceOf(l, user) + minted]
            && l'.pending == l.pending && l'.config == l.config
  {
    hide AssetsToShares, Transfer;
  }

  lemma DepositKeepsSound(l: Ledger, signers: set<Address>, user: Address, amount: int)
    requires Sound(l) && Deposit(l, signers, user, amount).Done?
    ensures var (l', minted) := Deposit(l, signers, user, amount).value;
            Sound(l') && 0 < minted <= amount && l'.state.totalShares > 0
  {
    DepositKeepsCounters(l, signers, user, amount);
    DepositMints(l, signers, user, amount);
    MintWithinAmount(amount, l.state.totalShares, l.state.totalAssets);
    hide Deposit, AssetsToShares, ValidConfig, CountersAgree;
  }

  /** With assets at least the shares, a deposit mints at most its amount. */
  lemma MintWithinAmount(amount: int, s: int, a: int)
    requires 0 <= s <= a && amount > 0
    requires AssetsToShares(amount, s, a).Done? && AssetsToShares(amount, s, a).value != 0
    ensures 0 < AssetsToShares(amount, s, a).value <= amount
  {
    var minted := AssetsToShares(amount, s, a).value;
    if s > 0 {
      MintRoundsDown(amount, s, a);
      hide AssetsToShares;
      assert amount * s <= amount * a;
      CancelFactor(minted, amount, a);
    }
  }

  lemma CoveringLeavesShares(l: Ledger, assets: int)
    requires CoverFromStrategy(l, assets).Done?
    ensures var c := CoverFromStrategy(l, assets).value.0;
            c == l.(tokens := c.tokens, watermark := c.watermark, idleAssets := c.idleAssets)
  {
  }

  lemma PaysNonNegative(l: Ledger, user: Address, shares: int, assets: int)
    requires DoWithdraw(l, user, shares, assets).Done?
    ensures assets >= 0
  {
    hide CoverFromStrategy;
  }

  lemma RedeemKeepsBacking(shares: int, assets: int, s: int, a: int)
    requires 0 <= shares <= s <= a && 0 < s && assets * s <= shares * a
    ensures s - shares <= a - assets
  {
    assert s * (s - shares) <= a * (s - shares);
    RedeemKeepsPrice(shares, assets, s, a);
    CancelFactor(s - shares, a - assets, s);
  }

  /** A redemption of `shares` out of a sound ledger, when the balance covers it. */
  lemma DoWithdrawKeepsSound(l: Ledger, user: Address, shares: int)
    requires Sound(l) && 0 < shares <= BalanceOf(l, user)
    requires SharesToAssets(shares, l.state.totalShares, l.state.totalAssets).Done?
    requires DoWithdraw(l, user, shares, SharesToAssets(shares, l.state.totalShares, l.state.totalAssets).value).Done?
    ensures var assets := SharesToAssets(shares, l.state.totalShares, l.state.totalAssets).value;
            && Sound(DoWithdraw(l, user, shares, assets).value.0)
            && 0 <= assets
            && assets * l.state.totalShares <= shares * l.state.totalAssets
  {
    hide SharesToAssets, Transfer, CoverFromStrategy;
    var s, a := l.state.totalShares, l.state.totalAssets;
    var assets := SharesToAssets(shares, s, a).value;
    CoveringLeavesShares(l, assets);
    DoWithdrawKeepsCounters(l, user, shares, assets);
    SumBoundsEntry(l.shareBalance, user);
    RedeemRoundsDown(shares, s, a);
    RedeemKeepsBacking(shares, assets, s, a);
  }

  lemma {:induction false} DepositsKeepSound(l: Ledger, signers: set<Address>, entries: seq<DepositEntry>, i: nat)
    requires Sound(l) && i <= |entries|
    ensures Sound(At(l, Batch.DepositTxs(signers, entries), i))
  {
    hide Deposit;
    if i > 0 {
      DepositsKeepSound(l, signers, entries, i - 1);
      var before, e := At(l, Batch.DepositTxs(signers, entries), i - 1), entries[i - 1];
      if Deposit(before, signers, e.user, e.amount).Done? {
        DepositKeepsSound(before, signers, e.user, e.amount);
      }
    }
  }

  lemma YieldRaisesAssets(l: Ledger, tx: Tx)
    requires ValidConfig(l.config) && BooksYield(tx.call)
    ensures After(l, tx).state.totalAssets >= l.state.totalAssets
  {
    if tx.call.CallAccrueYield? || tx.call.CallReportBenjiYield? {
      if tx.call.amount > 0 {
        FeeMath.FeeWithinAmount(tx.call.amount, l.config.feeBps);
      }
    }
  }

  lemma StepKeepsSound(l: Ledger, tx: Tx)
    requires Sound(l) && Covered(l, tx)
    ensures Sound(After(l, tx))
  {
    hide Perform, SharesToAssets, DoWithdraw, Deposit, ValidConfig;
    if !MovesShares(tx.call) {
      OtherCallsLeaveShares(l, tx);
      if BooksYield(tx.call) {
        YieldRaisesAssets(l, tx);
      }
    } else if Accepted(l, tx) {
      ShareCalls(l, tx);
      if tx.call.CallDeposit? {
        DepositKeepsSound(l, tx.signers, tx.call.user, tx.call.amount);
      } else if tx.call.CallBatchDeposit? {
        DepositsKeepSound(l, tx.signers, tx.call.entries, |tx.call.entries|);
      } else if Recorded(l, tx) {
        RecordingOnlyRecords(l, tx);
      } else {
        PayoutIsDoWithdraw(l, tx);
        var (p, shares) := Payout(l, tx);
        DoWithdrawKeepsSound(p, tx.call.user, shares);
      }
    }
  }

  ghost predicate CoveredRun(l: Ledger, txs: seq<Tx>, n: nat)
    requires n <= |txs|
  {
    forall i :: 0 <= i < n ==> Covered(At(l, txs, i), txs[i])
  }

  lemma {:induction false} RunKeepsSound(l: Ledger, txs: seq<Tx>, n: nat)
    requires n <= |txs| && Sound(l) && CoveredRun(l, txs, n)
    ensures Sound(At(l, txs, n))
  {
    hide Perform, Sound;
    if n > 0 {
      RunKeepsSound(l, txs, n - 1);
      StepKeepsSound(At(l, txs, n - 1), txs[n - 1]);
    }
  }

  lemma InitialIsSound(admin: Address, tokens: Balances, now: nat)
    ensures Sound(Initial(admin, tokens, now))
  {
  }

  /** An execution that is not covered puts its user in debt. */
  lemma UncoveredExecutionOverdraws(l: Ledger, tx: Tx)
    requires !Covered(l, tx)
    ensures !NoDebt(After(l, tx))
  {
    PayoutBurns(l, tx);
    hide Perform, After;
    assert tx.call.user in After(l, tx).shareBalance;
  }

  /** Over any run from `initialize`: no balance is ever negative if and only if
      every accepted `execute_withdrawal` finds its recorded shares covered. */
  lemma {:induction false} NoDebtIffCovered(admin: Address, tokens: Balances, now: nat, txs: seq<Tx>, n: nat)
    requires n <= |txs|
    ensures var l := Initial(admin, tokens, now);
            CoveredRun(l, txs, n) <==> forall i :: 0 <= i <= n ==> NoDebt(At(l, txs, i))
  {
    hide Perform, NoDebt, Initial;
    var l := Initial(admin, tokens, now);
    if CoveredRun(l, txs, n) {
      forall i | 0 <= i <= n
        ensures NoDebt(At(l, txs, i))
      {
        InitialIsSound(admin, tokens, now);
        RunKeepsSound(l, txs, i);
      }
    } else {
      var i :| 0 <= i < n && !Covered(At(l, txs, i), txs[i]);
      UncoveredExecutionOverdraws(At(l, txs, i), txs[i]);
      assert !NoDebt(At(l, txs, i + 1));
    }
  }
}
