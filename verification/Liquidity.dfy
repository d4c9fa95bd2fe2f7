/** When a withdrawal is accepted: what the vault and its strategy hold against
    what is asked for. */
module Liquidity {
  import opened Checked
  import opened Sums
  import opened Token
  import opened ShareMath
  import opened VaultLedger
  import opened ShareAccounting
  import opened Reachable
  import opened TokenSupply
  import opened Conservation
  import opened Widths
  import Batch
  import FeeMath
  import Governance

  // ---- Idle assets never run into debt ----

  lemma DepositRaisesIdle(l: Ledger, signers: set<Address>, user: Address, amount: int)
    requires Deposit(l, signers, user, amount).Done?
    ensures Deposit(l, signers, user, amount).value.0.idleAssets == l.idleAssets + amount && amount > 0
  {
    hide Transfer, AssetsToShares;
  }

  lemma {:induction false} DepositsRaiseIdle(l: Ledger, signers: set<Address>, entries: seq<DepositEntry>, i: nat)
    requires i <= |entries|
    ensures At(l, Batch.DepositTxs(signers, entries), i).idleAssets >= l.idleAssets
  {
    hide Deposit;
    if i > 0 {
      DepositsRaiseIdle(l, signers, entries, i - 1);
      var before, e := At(l, Batch.DepositTxs(signers, entries), i - 1), entries[i - 1];
      if Deposit(before, signers, e.user, e.amount).Done? {
        DepositRaisesIdle(before, signers, e.user, e.amount);
      }
    }
  }

  lemma DoWithdrawKeepsIdle(l: Ledger, user: Address, shares: int, assets: int)
    requires DoWithdraw(l, user, shares, assets).Done? && l.idleAssets >= 0
    ensures DoWithdraw(l, user, shares, assets).value.0.idleAssets >= 0
  {
    CoveringMoves(l, assets);
    hide CoverFromStrategy, Transfer;
  }

  lemma StrategyCallKeepsIdle(l: Ledger, tx: Tx)
    requires (tx.call.CallInvest? || tx.call.CallDivest? || tx.call.CallRebalance?) && Accepted(l, tx)
             && l.idleAssets >= 0
    ensures After(l, tx).idleAssets >= 0
  {
    match tx.call {
      case CallInvest(amount, invested) => assert Perform(l, tx) == Invest(l, tx.signers, amount, invested);
      case CallDivest(amount) => assert Perform(l, tx) == Divest(l, amount);
      case CallRebalance(from, to, amount, d, i, v, w) =>
        assert Perform(l, tx) == Rebalance(l, tx.signers, from, to, amount, d, i, v, w);
    }
    hide Perform, Quotient, LoweredWatermark, RaisedWatermark;
  }

  lemma YieldKeepsIdle(l: Ledger, tx: Tx)
    requires BooksYield(tx.call) && Accepted(l, tx) && l.idleAssets >= 0 && ValidConfig(l.config)
    ensures After(l, tx).idleAssets >= 0
  {
    match tx.call {
      case CallAccrueYield(amount) => assert Perform(l, tx) == AccrueYield(l, tx.signers, amount);
      case CallReportBenjiYield(strategy, amount) =>
        assert Perform(l, tx) == ReportBenjiYield(l, tx.signers, strategy, amount);
      case CallAccrueKoreanDebtYield(harvested) =>
        assert Perform(l, tx) == AccrueKoreanDebtYield(l, tx.signers, harvested);
    }
    if !tx.call.CallAccrueKoreanDebtYield? && tx.call.amount > 0 {
      FeeMath.FeeWithinAmount(tx.call.amount, l.config.feeBps);
    }
    hide Perform, Transfer, RaisedWatermark;
  }

  lemma HousekeepingKeepsIdle(l: Ledger, tx: Tx)
    requires tx.call.CallClaimFees? || tx.call.CallConfigure? || tx.call.CallPause? || tx.call.CallGovernance?
             || tx.call.TokenTransfer? || tx.call.AdvanceTime?
    requires Accepted(l, tx)
    ensures After(l, tx).idleAssets == l.idleAssets
  {
    match tx.call {
      case CallClaimFees => assert Perform(l, tx) == ClaimFees(l, tx.signers);
      case CallConfigure(config) => assert Perform(l, tx) == Configure(l, tx.signers, config);
      case CallPause(paused) => assert Perform(l, tx) == SetPaused(l, tx.signers, paused);
      case CallGovernance(action) => assert Perform(l, tx) == Govern(l, tx.signers, action);
      case TokenTransfer(from, to, amount) => assert Perform(l, tx) == MoveTokens(l, tx.signers, from, to, amount);
      case AdvanceTime(timestamp) => assert Perform(l, tx) == PassTime(l, timestamp);
    }
    hide Perform, ValidConfig, Transfer, Governance.Perform;
  }

  lemma StepKeepsIdle(l: Ledger, tx: Tx)
    requires Ranged(l) && l.idleAssets >= 0
    ensures After(l, tx).idleAssets >= 0
  {
    RangedMeans(l);
    hide Perform, DoWithdraw, Deposit, SharesToAssets, CountersAgree, Ranged, ValidConfig;
    if Accepted(l, tx) {
      if MovesShares(tx.call) {
        SharesAgree(l);
        ShareCalls(l, tx);
        if tx.call.CallDeposit? {
          DepositRaisesIdle(l, tx.signers, tx.call.user, tx.call.amount);
        } else if tx.call.CallBatchDeposit? {
          DepositsRaiseIdle(l, tx.signers, tx.call.entries, |tx.call.entries|);
        } else if Recorded(l, tx) {
          RecordingOnlyRecords(l, tx);
        } else {
          PayoutIsDoWithdraw(l, tx);
          var (p, shares) := Payout(l, tx);
          DoWithdrawKeepsIdle(p, tx.call.user, shares,
                              SharesToAssets(shares, p.state.totalShares, p.state.totalAssets).value);
        }
      } else if BooksYield(tx.call) {
        YieldKeepsIdle(l, tx);
      } else if tx.call.CallInvest? || tx.call.CallDivest? || tx.call.CallRebalance? {
        StrategyCallKeepsIdle(l, tx);
      } else {
        HousekeepingKeepsIdle(l, tx);
      }
    }
  }

  lemma {:induction false} IdleNeverNegative(admin: Address, tokens: Balances, now: nat, txs: seq<Tx>, n: nat)
    requires n <= |txs|
    ensures Ranged(At(Initial(admin, tokens, now), txs, n)) && At(Initial(admin, tokens, now), txs, n).idleAssets >= 0
  {
    if n == 0 {
      InitialIsRanged(admin, tokens, now);
      hide Perform, Ranged;
    } else {
      hide Perform, Ranged, Initial, After;
      IdleNeverNegative(admin, tokens, now, txs, n - 1);
      var before := At(Initial(admin, tokens, now), txs, n - 1);
      StepKeepsIdle(before, txs[n - 1]);
      StepKeepsRanged(before, txs[n - 1]);
    }
  }

  lemma StartsInRange(admin: Address, tokens: Balances, now: nat)
    ensures FeesInRange(Initial(admin, tokens, now)) && CountersAgree(Initial(admin, tokens, now))
    ensures VaultTokens(Initial(admin, tokens, now)) == Get(tokens, VAULT)
            && Initial(admin, tokens, now).treasuryBalance == 0
    ensures Initial(admin, tokens, now).idleAssets == 0
  {
  }

  /** The vault's tokens cover its idle assets in every state of every run. */
  lemma IdleIsHeld(admin: Address, tokens: Balances, now: nat, txs: seq<Tx>, n: nat)
    requires n <= |txs| && WellFormed(txs) && NonNegative(tokens)
    ensures var l := At(Initial(admin, tokens, now), txs, n);
            0 <= l.idleAssets <= VaultTokens(l)
  {
    var l0 := Initial(admin, tokens, now);
    IdleNeverNegative(admin, tokens, now, txs, n);
    StartsInRange(admin, tokens, now);
    RunMoves(l0, txs, n);
    SurplusOnlyGrows(l0, txs, n);
    hide At, Initial, Perform, FlowsOver, WellFormed, CountersAgree, ValidConfig, Ranged;
  }

  // ---- Accepting a payout ----

  /** Tokens of no account are in debt, and all of them fit. */
  ghost predicate Plausible(t: Balances) {
    NonNegative(t) && Sum(t) <= I128_MAX
  }

  /** Idle assets, or what the configured strategy holds beside them, are enough. */
  predicate Affordable(l: Ledger, assets: int) {
    || assets <= l.idleAssets
    || (l.config.strategy.Some? && l.config.strategy.value != VAULT
        && assets - l.idleAssets <= Get(l.tokens, l.config.strategy.value))
  }

  lemma TwoAccountsFit(t: Balances, a: Address, b: Address)
    requires Plausible(t) && a != b
    ensures Get(t, a) >= 0 && Get(t, b) >= 0 && Get(t, a) + Get(t, b) <= I128_MAX
  {
    SumBoundsEntry(t, a);
    SumBoundsEntry(t, b);
    if a in t {
      SumTakes(t, a);
      SumBoundsEntry(t - {a}, b);
    }
  }

  lemma TransferAcceptedIff(t: Balances, from: Address, to: Address, amount: int)
    requires Plausible(t) && from != to && amount >= 0
    ensures Transfer(t, from, to, amount).Done? <==> amount <= Get(t, from)
    ensures Transfer(t, from, to, amount).Done? ==> Plausible(Transfer(t, from, to, amount).value)
  {
    TwoAccountsFit(t, from, to);
    if Transfer(t, from, to, amount).Done? {
      TransferConserves(t, from, to, amount);
    }
    hide NonNegative;
  }

  lemma CoveringAcceptedIff(l: Ledger, assets: int)
    requires Fits(l) && Plausible(l.tokens) && 0 <= l.idleAssets <= VaultTokens(l) && 0 <= assets <= I128_MAX
    ensures CoverFromStrategy(l, assets).Done? <==> Affordable(l, assets)
    ensures CoverFromStrategy(l, assets).Done? ==>
              Plausible(CoverFromStrategy(l, assets).value.0.tokens)
              && assets <= CoverFromStrategy(l, assets).value.0.idleAssets
              && CoverFromStrategy(l, assets).value.0.idleAssets <= VaultTokens(CoverFromStrategy(l, assets).value.0)
              && InI128(CoverFromStrategy(l, assets).value.0.idleAssets)
  {
    if l.idleAssets < assets && l.config.strategy.Some? && l.config.strategy.value != VAULT {
      var strategy, needed := l.config.strategy.value, assets - l.idleAssets;
      TransferAcceptedIff(l.tokens, strategy, VAULT, needed);
      WatermarkLowers(l, strategy, needed);
      if Transfer(l.tokens, strategy, VAULT, needed).Done? {
        TransferMoves(l.tokens, strategy, VAULT, needed, VAULT);
      }
      hide Transfer, Plausible, LoweredWatermark, Fits;
      assert Divest(l, needed).Done? <==> needed <= Get(l.tokens, strategy);
    }
    hide Plausible;
  }

  lemma WatermarkLowers(l: Ledger, strategy: Address, amount: int)
    requires Fits(l) && amount >= 0
    ensures LoweredWatermark(l.watermark, strategy, amount).Done?
  {
    FitAt(l.watermark, strategy);
  }

  /** A payout goes through exactly when it is affordable, whether the user's
      balance covers it or not. */
  lemma PayoutAcceptedIff(l: Ledger, user: Address, shares: int, assets: int)
    requires Fits(l) && Plausible(l.tokens) && 0 <= l.idleAssets <= VaultTokens(l) && user != VAULT
    requires 0 < shares <= I128_MAX && BalanceOf(l, user) >= 0 && l.state.totalShares >= 0 && l.state.totalAssets >= 0
    requires 0 <= assets <= I128_MAX
    ensures DoWithdraw(l, user, shares, assets).Done? <==> Affordable(l, assets)
  {
    CoveringAcceptedIff(l, assets);
    if CoverFromStrategy(l, assets).Done? {
      var covered := CoverFromStrategy(l, assets).value.0;
      CoveringLeavesShares(l, assets);
      FitAt(l.userDeposit, user);
      FitAt(l.shareBalance, user);
      TransferAcceptedIff(covered.tokens, VAULT, user, assets);
      assert PayOut(covered, user, shares, assets).Done? by {
        hide CoverFromStrategy, Transfer, Plausible;
      }
    }
    hide CoverFromStrategy, PayOut, Plausible, Affordable;
  }

  /** The shares' part of the assets, rounded down; nothing when there are no
      shares to be a part of. */
  function Worth(l: Ledger, shares: int): int {
    if l.state.totalShares > 0 then (shares * l.state.totalAssets) / l.state.totalShares else 0
  }

  lemma ConversionFits(shares: int, s: int, a: int)
    requires shares > 0 && s >= 0 && a >= 0
    ensures SharesToAssets(shares, s, a).Done? <==> s == 0 || InI128(shares * a)
    ensures SharesToAssets(shares, s, a).Done? ==>
              0 <= SharesToAssets(shares, s, a).value <= I128_MAX
              && SharesToAssets(shares, s, a).value == if s > 0 then (shares * a) / s else 0
  {
    assert shares * a >= 0;
    if s > 0 {
      FloorBounds(shares * a, s);
      var q := (shares * a) / s;
      if q > 0 {
        MulMonotone(1, s, q);
      }
    }
  }

  // ---- Accepting a withdrawal ----

  /** The user may ask now. */
  predicate MayWithdraw(l: Ledger, signers: set<Address>, user: Address, shares: int) {
    && !l.state.isPaused && user in signers && 0 < shares <= BalanceOf(l, user)
    && (l.config.withdrawalCooldown > 0 ==>
          Get(l.lastDepositTime, user) + l.config.withdrawalCooldown <= l.now)
    && InI128(shares * l.state.totalAssets)
  }

  lemma WithdrawDecides(l: Ledger, tx: Tx)
    requires tx.call.CallWithdraw? && Fits(l) && tx.call.shares > 0 && BalanceOf(l, tx.call.user) >= tx.call.shares
    requires var assets := SharesToAssets(tx.call.shares, l.state.totalShares, l.state.totalAssets);
             assets.Done? <==> InI128(tx.call.shares * l.state.totalAssets)
    ensures Accepted(l, tx) <==>
              && MayWithdraw(l, tx.signers, tx.call.user, tx.call.shares)
              && var assets := SharesToAssets(tx.call.shares, l.state.totalShares, l.state.totalAssets).value;
                 if assets > l.config.largeWithdrawalThreshold then l.now + TIMELOCK_SECONDS <= U64_MAX
                 else DoWithdraw(l, tx.call.user, tx.call.shares, assets).Done?
  {
    assert Perform(l, tx) == Withdraw(l, tx.signers, tx.call.user, tx.call.shares);
    hide Perform, SharesToAssets, DoWithdraw;
  }

  lemma AcceptedIff(l: Ledger, tx: Tx)
    requires Sound(l) && Fits(l) && Plausible(l.tokens) && 0 <= l.idleAssets <= VaultTokens(l)
    requires tx.call.CallWithdraw? && VAULT !in tx.signers
    ensures Accepted(l, tx) <==>
              && MayWithdraw(l, tx.signers, tx.call.user, tx.call.shares)
              && var assets := Worth(l, tx.call.shares);
                 if assets > l.config.largeWithdrawalThreshold then l.now + TIMELOCK_SECONDS <= U64_MAX
                 else Affordable(l, assets)
  {
    var user, shares := tx.call.user, tx.call.shares;
    if 0 < shares <= BalanceOf(l, user) {
      SumBoundsEntry(l.shareBalance, user);
      FitAt(l.shareBalance, user);
      ConversionFits(shares, l.state.totalShares, l.state.totalAssets);
      WithdrawDecides(l, tx);
      if MayWithdraw(l, tx.signers, user, shares) {
        PayoutAcceptedIff(l, user, shares, Worth(l, shares));
        hide Perform, DoWithdraw, Affordable, Plausible, Fits, Sound;
      }
    } else {
      hide DoWithdraw, SharesToAssets, Plausible, Fits, Sound;
      assert Perform(l, tx) == Withdraw(l, tx.signers, user, shares);
    }
  }

  lemma ReachedSoundly(admin: Address, tokens: Balances, now: nat, txs: seq<Tx>, n: nat)
    requires n <= |txs| && WellFormed(txs) && CoveredRun(Initial(admin, tokens, now), txs, n)
    requires Plausible(tokens) && now <= U64_MAX
    ensures var l := At(Initial(admin, tokens, now), txs, n);
            Sound(l) && Fits(l) && Plausible(l.tokens) && 0 <= l.idleAssets <= VaultTokens(l)
  {
    InitialIsSound(admin, tokens, now);
    RunKeepsSound(Initial(admin, tokens, now), txs, n);
    IdleIsHeld(admin, tokens, now, txs, n);
    TokensAreConserved(admin, tokens, now, txs, n);
    NumbersAlwaysFit(admin, tokens, now, txs, n);
    hide At, Initial, Sound, Fits;
  }

  /** In every state of every covered run, a withdrawal is accepted if and only if
      its user may ask for it and what it pays now is affordable; one large enough
      to be recorded needs nothing in hand. */
  lemma WithdrawalAcceptedIff(admin: Address, tokens: Balances, now: nat, txs: seq<Tx>, n: nat, tx: Tx)
    requires n <= |txs| && WellFormed(txs) && CoveredRun(Initial(admin, tokens, now), txs, n)
    requires Plausible(tokens) && now <= U64_MAX
    requires tx.call.CallWithdraw? && VAULT !in tx.signers
    ensures var l := At(Initial(admin, tokens, now), txs, n);
            Accepted(l, tx) <==>
              && MayWithdraw(l, tx.signers, tx.call.user, tx.call.shares)
              && var assets := Worth(l, tx.call.shares);
                 if assets > l.config.largeWithdrawalThreshold then l.now + TIMELOCK_SECONDS <= U64_MAX
                 else Affordable(l, assets)
  {
    hide *;
    ReachedSoundly(admin, tokens, now, txs, n);
    AcceptedIff(At(Initial(admin, tokens, now), txs, n), tx);
  }

  // ---- Accepting an execution ----

  /** The user has a record whose time has come. */
  predicate MayExecute(l: Ledger, signers: set<Address>, user: Address) {
    && user in signers && user in l.pending && l.pending[user].unlockTimestamp <= l.now
    && (l.state.totalShares == 0 || InI128(l.pending[user].shares * l.state.totalAssets))
  }

  lemma ExecutionDecides(l: Ledger, tx: Tx)
    requires tx.call.CallExecuteWithdrawal? && tx.call.user in l.pending
    requires var shares := l.pending[tx.call.user].shares;
             SharesToAssets(shares, l.state.totalShares, l.state.totalAssets).Done?
             <==> l.state.totalShares == 0 || InI128(shares * l.state.totalAssets)
    ensures var user := tx.call.user;
            var p, shares := l.(pending := l.pending - {user}), l.pending[user].shares;
            Accepted(l, tx) <==>
              && MayExecute(l, tx.signers, user)
              && var assets := SharesToAssets(shares, l.state.totalShares, l.state.totalAssets).value;
                 DoWithdraw(p, user, shares, assets).Done?
  {
    assert Perform(l, tx) == ExecuteWithdrawal(l, tx.signers, tx.call.user);
    hide Perform, SharesToAssets, DoWithdraw;
  }

  lemma PendingFits(l: Ledger, user: Address)
    requires Sound(l) && Fits(l) && user in l.pending
    ensures 0 < l.pending[user].shares <= I128_MAX && BalanceOf(l, user) >= 0
    ensures l.state.totalShares >= 0 && l.state.totalAssets >= 0
    ensures Fits(l.(pending := l.pending - {user}))
  {
    RecordsFitWithout(l.pending, user);
    hide AllFit, TimesFit;
  }

  lemma ExecutedIff(l: Ledger, tx: Tx)
    requires Sound(l) && Fits(l) && Plausible(l.tokens) && 0 <= l.idleAssets <= VaultTokens(l)
    requires tx.call.CallExecuteWithdrawal? && VAULT !in tx.signers
    ensures Accepted(l, tx) <==>
              && MayExecute(l, tx.signers, tx.call.user)
              && Affordable(l, Worth(l, l.pending[tx.call.user].shares))
  {
    var user := tx.call.user;
    if user in l.pending {
      var shares, p := l.pending[user].shares, l.(pending := l.pending - {user});
      PendingFits(l, user);
      ConversionFits(shares, l.state.totalShares, l.state.totalAssets);
      ExecutionDecides(l, tx);
      if MayExecute(l, tx.signers, user) {
        hide Perform, DoWithdraw, Plausible, Fits, Sound, SharesToAssets;
        PayoutAcceptedIff(p, user, shares, Worth(l, shares));
        assert Affordable(p, Worth(l, shares)) <==> Affordable(l, Worth(l, shares));
      }
    } else {
      hide DoWithdraw, SharesToAssets, Plausible, Fits, Sound;
      assert Perform(l, tx) == ExecuteWithdrawal(l, tx.signers, user);
    }
  }

  /** In every state of every covered run, an execution, covered itself or not, is
      accepted if and only if its user has a record whose time has come and what
      it pays is affordable. */
  lemma ExecutionAcceptedIff(admin: Address, tokens: Balances, now: nat, txs: seq<Tx>, n: nat, tx: Tx)
    requires n <= |txs| && WellFormed(txs) && CoveredRun(Initial(admin, tokens, now), txs, n)
    requires Plausible(tokens) && now <= U64_MAX
    requires tx.call.CallExecuteWithdrawal? && VAULT !in tx.signers
    ensures var l := At(Initial(admin, tokens, now), txs, n);
            Accepted(l, tx) <==>
              && MayExecute(l, tx.signers, tx.call.user)
              && Affordable(l, Worth(l, l.pending[tx.call.user].shares))
  {
    hide Perform, At, Initial, Sound, Fits, Plausible, Affordable, Worth, CoveredRun;
    ReachedSoundly(admin, tokens, now, txs, n);
    ExecutedIff(At(Initial(admin, tokens, now), txs, n), tx);
  }
}
