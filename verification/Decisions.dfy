/** Exactly which calls are accepted in the states a vault can reach, and how each
    other one ends, told from its arguments, the settings and the totals
    (`contracts/vault/src/lib.rs`, lines 787-808 and 1090-2232).

    What a reachable state rules out (sums of idle assets and fees that overflow, a
    price check that fails, a watermark that underflows) is not among the reasons. */
module Decisions {
  import opened Checked
  import opened Sums
  import opened Token
  import opened TokenSupply
  import opened ShareMath
  import opened VaultLedger
  import opened ShareAccounting
  import opened Reachable
  import opened Widths
  import opened Liquidity
  import Batch
  import Conservation
  import FeeMath
  import Price

  /** How a call ends. */
  datatype Verdict = Accepts | Panics | Refuses(code: VaultError)

  function VerdictOf<T>(o: Outcome<T>): Verdict {
    match o
    case Done(_) => Accepts
    case Panic => Panics
    case Error(code) => Refuses(code)
  }

  // ---- What holds of every reachable state ----

  /** Numbers fit, tokens are plausible, and the vault holds its idle assets and
      unpaid fees. */
  ghost predicate Booked(l: Ledger) {
    && Fits(l) && Plausible(l.tokens) && Ranged(l)
    && 0 <= l.idleAssets && 0 <= l.treasuryBalance && l.idleAssets + l.treasuryBalance <= VaultTokens(l)
  }

  lemma AlwaysBooked(admin: Address, tokens: Balances, now: nat, txs: seq<Tx>, n: nat)
    requires n <= |txs| && WellFormed(txs) && Plausible(tokens) && now <= U64_MAX
    ensures Booked(At(Initial(admin, tokens, now), txs, n))
  {
    var l0 := Initial(admin, tokens, now);
    IdleIsHeld(admin, tokens, now, txs, n);
    IdleNeverNegative(admin, tokens, now, txs, n);
    TokensAreConserved(admin, tokens, now, txs, n);
    NumbersAlwaysFit(admin, tokens, now, txs, n);
    StartsInRange(admin, tokens, now);
    Conservation.RunMoves(l0, txs, n);
    Conservation.SurplusOnlyGrows(l0, txs, n);
    hide At, Initial, Fits, Conservation.FlowsOver, WellFormed, CountersAgree, ValidConfig, Ranged;
  }

  lemma BookedMeans(l: Ledger)
    requires Booked(l)
    ensures InI128(l.idleAssets) && InI128(l.state.totalAssets) && InI128(l.state.totalShares)
    ensures 0 <= l.idleAssets && 0 <= l.treasuryBalance && l.idleAssets + l.treasuryBalance <= VaultTokens(l)
    ensures Plausible(l.tokens) && Fits(l) && ValidConfig(l.config)
    ensures l.state.totalShares >= 0 ==> l.state.totalAssets >= 0
  {
  }

  // ---- Investing ----

  function CapOf(c: Config, strategy: Address): int {
    if strategy in c.strategyCap then c.strategyCap[strategy] else I128_MAX
  }

  function RiskOf(c: Config, strategy: Address): int {
    if strategy in c.riskThreshold then c.riskThreshold[strategy] else 10_000
  }

  /** In whole basis points, the strategy's part of idle and invested assets stays
      within its risk threshold. */
  predicate WithinRisk(l: Ledger, strategy: Address, raised: int, all: int) {
    all > 0 ==> raised * 10_000 < (RiskOf(l.config, strategy) + 1) * all
  }

  /** What becomes of investing `amount` when the strategy reports `invested`. */
  function InvestVerdict(l: Ledger, signers: set<Address>, amount: int, invested: int): Verdict {
    if l.config.admin !in signers then Panics
    else if amount <= 0 then Refuses(InvalidAmount)
    else if l.config.strategy.None? then Panics
    else
      var strategy := l.config.strategy.value;
      var raised, all := invested + amount, l.idleAssets + invested;
      if !InI128(raised) then Panics
      else if raised > CapOf(l.config, strategy) then Refuses(ExceedsStrategyCap)
      else if !InI128(all) || (all > 0 && !InI128(raised * 10_000)) then Panics
      else if !WithinRisk(l, strategy, raised, all) then Refuses(ExceedsRiskThreshold)
      else if l.idleAssets < amount then Panics
      else if l.idleAssets - amount < l.config.minLiquidityBuffer then Refuses(LiquidityBufferNotMet)
      else if strategy == VAULT then Panics
      else Accepts
  }

  lemma RiskWithoutDivision(raised: int, all: int, risk: int)
    requires all > 0 && risk >= 0
    ensures Quotient(raised * 10_000, all) <= risk <==> raised * 10_000 < (risk + 1) * all
  {
    var x := raised * 10_000;
    if x >= 0 {
      FloorBounds(x, all);
      if x / all <= risk {
        MulMonotone(x / all + 1, risk + 1, all);
      } else {
        MulMonotone(risk + 1, x / all, all);
      }
    } else {
      NegativeQuotient(x, all);
      MulMonotone(0, risk + 1, all);
    }
  }

  /** In every state of every run an investment is accepted if and only if the
      administrator asks for a positive amount with a strategy configured, the cap
      and the risk threshold hold with the amount added, and the idle assets left
      are not below the buffer; and each refusal has its own code. */
  lemma InvestDecided(l: Ledger, tx: Tx)
    requires Booked(l) && tx.call.CallInvest?
    ensures VerdictOf(Perform(l, tx)) == InvestVerdict(l, tx.signers, tx.call.amount, tx.call.invested)
  {
    BookedMeans(l);
    var amount, invested := tx.call.amount, tx.call.invested;
    assert Perform(l, tx) == Invest(l, tx.signers, amount, invested);
    hide Perform, Booked, Plausible, Fits, Quotient;
    if l.config.strategy.Some? {
      var strategy := l.config.strategy.value;
      if l.idleAssets + invested > 0 {
        RiskWithoutDivision(invested + amount, l.idleAssets + invested, RiskOf(l.config, strategy));
      }
      if 0 <= amount && strategy != VAULT {
        TransferAcceptedIff(l.tokens, VAULT, strategy, amount);
      }
    }
    hide Transfer, RaisedWatermark, ValidConfig;
  }

  /** An accepted investment leaves the buffer idle, and the strategy within its cap
      and its risk threshold. */
  lemma InvestKeepsLimits(l: Ledger, tx: Tx)
    requires ValidConfig(l.config) && tx.call.CallInvest? && Accepted(l, tx)
    ensures var l' := After(l, tx);
            && l'.idleAssets == l.idleAssets - tx.call.amount
            && l'.idleAssets >= l.config.minLiquidityBuffer
    ensures l.config.strategy.Some?
    ensures var strategy, raised := l.config.strategy.value, tx.call.invested + tx.call.amount;
            && raised <= CapOf(l.config, strategy)
            && WithinRisk(l, strategy, raised, l.idleAssets + tx.call.invested)
  {
    var amount, invested := tx.call.amount, tx.call.invested;
    assert Perform(l, tx) == Invest(l, tx.signers, amount, invested);
    hide Perform, Quotient, StrategyDeposit, RaisedWatermark;
    if l.config.strategy.Some? && l.idleAssets + invested > 0 {
      RiskWithoutDivision(invested + amount, l.idleAssets + invested, RiskOf(l.config, l.config.strategy.value));
    }
  }

  // ---- Recalling and moving on ----

  /** Anybody may recall what the configured strategy has. */
  lemma DivestDecided(l: Ledger, tx: Tx)
    requires Booked(l) && tx.call.CallDivest?
    ensures var amount := tx.call.amount;
            VerdictOf(Perform(l, tx)) ==
            if l.config.strategy.Some? && l.config.strategy.value != VAULT
               && 0 <= amount <= Get(l.tokens, l.config.strategy.value)
            then Accepts else Panics
  {
    BookedMeans(l);
    var amount := tx.call.amount;
    assert Perform(l, tx) == Divest(l, amount);
    hide Perform, Booked, Plausible, Fits;
    if l.config.strategy.Some? && l.config.strategy.value != VAULT && amount >= 0 {
      var strategy := l.config.strategy.value;
      TransferAcceptedIff(l.tokens, strategy, VAULT, amount);
      WatermarkLowers(l, strategy, amount);
      TwoAccountsFit(l.tokens, strategy, VAULT);
    }
    hide Transfer, LoweredWatermark, ValidConfig;
    NegativeTransferPanics(l.tokens, if l.config.strategy.Some? then l.config.strategy.value else VAULT, VAULT, amount);
  }

  lemma NegativeTransferPanics(t: Balances, from: Address, to: Address, amount: int)
    ensures amount < 0 ==> Transfer(t, from, to, amount) == Panic
    ensures !Transfer(t, from, to, amount).Error?
  {
  }

  /** The value a strategy gained, as the contract computes it. */
  function Gained(before: int, after: int): int {
    if InI128(after - before) then after - before else 0
  }

  /** What becomes of moving `c.amount` from one strategy to another. */
  function RebalanceVerdict(l: Ledger, signers: set<Address>, c: Call): Verdict
    requires c.CallRebalance?
  {
    if l.config.admin !in signers then Panics
    else if c.amount <= 0 then Refuses(InvalidAmount)
    else if c.from == VAULT || Get(l.tokens, c.from) < c.amount then Panics
    else if c.amount < c.minDivest then Refuses(SlippageExceeded)
    else if c.to == VAULT then Panics
    else if Gained(c.valueBefore, c.valueAfter) < c.minInvest then Refuses(SlippageExceeded)
    else Accepts
  }

  lemma RebalanceDecided(l: Ledger, tx: Tx)
    requires Booked(l) && tx.call.CallRebalance? && Typed(tx.call)
    ensures VerdictOf(Perform(l, tx)) == RebalanceVerdict(l, tx.signers, tx.call)
  {
    BookedMeans(l);
    var c := tx.call;
    assert Perform(l, tx) == Rebalance(l, tx.signers, c.from, c.to, c.amount, c.minDivest, c.minInvest,
                                       c.valueBefore, c.valueAfter);
    hide Perform, Booked, Plausible, Fits, RaisedWatermark;
    if c.from != VAULT && c.amount > 0 {
      TransferAcceptedIff(l.tokens, c.from, VAULT, c.amount);
      WatermarkLowers(l, c.from, c.amount);
      if Transfer(l.tokens, c.from, VAULT, c.amount).Done? {
        var divested := Transfer(l.tokens, c.from, VAULT, c.amount).value;
        TransferMoves(l.tokens, c.from, VAULT, c.amount, VAULT);
        if c.to != VAULT {
          TransferAcceptedIff(divested, VAULT, c.to, c.amount);
        }
      }
      NegativeTransferPanics(l.tokens, c.from, VAULT, c.amount);
    }
    hide Transfer, LoweredWatermark, ValidConfig;
  }

  // ---- Yield and fees ----

  /** The price check multiplies assets by the price's scale when shares are out. */
  predicate PriceFits(l: Ledger, assets: int) {
    l.state.totalShares > 0 ==> InI128(assets * SHARE_PRICE_SCALE)
  }

  function AccrueVerdict(l: Ledger, signers: set<Address>, amount: int): Verdict {
    var assets := l.state.totalAssets + amount - FeeMath.FeeOf(amount, l.config.feeBps);
    if l.config.admin !in signers then Panics
    else if amount <= 0 then Refuses(InvalidAmount)
    else if !InI128(amount * l.config.feeBps) then Refuses(MathOverflow)
    else if Get(l.tokens, l.config.admin) < amount || !InI128(assets) || !PriceFits(l, assets) then Panics
    else Accepts
  }

  lemma FeesFit(l: Ledger, payer: Address, amount: int)
    requires Booked(l) && payer != VAULT && 0 < amount <= Get(l.tokens, payer)
    ensures var fee := FeeMath.FeeOf(amount, l.config.feeBps);
            && 0 <= fee <= amount && InI128(amount) && InI128(amount - fee)
            && InI128(l.treasuryBalance + fee) && InI128(l.idleAssets + amount - fee)
  {
    BookedMeans(l);
    FeeMath.FeeWithinAmount(amount, l.config.feeBps);
    TwoAccountsFit(l.tokens, payer, VAULT);
    hide Booked, Plausible, Fits, Quotient;
  }

  lemma PriceCheckHolds(l: Ledger, net: int)
    requires l.state.totalShares > 0 && l.state.totalAssets >= 0 && net >= 0
    ensures Quotient((l.state.totalAssets + net) * SHARE_PRICE_SCALE, l.state.totalShares)
         >= Quotient(l.state.totalAssets * SHARE_PRICE_SCALE, l.state.totalShares)
    ensures InI128((l.state.totalAssets + net) * SHARE_PRICE_SCALE) ==>
              InI128(l.state.totalAssets * SHARE_PRICE_SCALE)
  {
    Price.YieldAssertionNeverFires(l.state.totalShares, l.state.totalAssets, net);
  }

  lemma AccrueDecided(l: Ledger, tx: Tx)
    requires Booked(l) && tx.call.CallAccrueYield? && VAULT !in tx.signers && Typed(tx.call)
    ensures VerdictOf(Perform(l, tx)) == AccrueVerdict(l, tx.signers, tx.call.amount)
  {
    BookedMeans(l);
    var amount, payer := tx.call.amount, l.config.admin;
    assert Perform(l, tx) == AccrueYield(l, tx.signers, amount);
    hide Perform, Booked, Plausible, Fits;
    if amount > 0 && payer in tx.signers {
      Conservation.FeesAgree(amount, l.config.feeBps);
      FeeMath.FeeWithinAmount(amount, l.config.feeBps);
      TransferAcceptedIff(l.tokens, payer, VAULT, amount);
      NegativeTransferPanics(l.tokens, payer, VAULT, amount);
      if amount <= Get(l.tokens, payer) {
        FeesFit(l, payer, amount);
      }
      if l.state.totalShares > 0 {
        PriceCheckHolds(l, amount - FeeMath.FeeOf(amount, l.config.feeBps));
      }
    }
    hide Transfer, ValidConfig, Quotient;
  }

  function ReportVerdict(l: Ledger, signers: set<Address>, strategy: Address, amount: int): Verdict {
    var assets := l.state.totalAssets + amount - FeeMath.FeeOf(amount, l.config.feeBps);
    if strategy in signers && amount > 0 && l.dao.benjiStrategy == Some(strategy)
       && amount <= Get(l.tokens, strategy) && InI128(amount * l.config.feeBps)
       && InI128(Get(l.watermark, strategy) + amount) && InI128(assets)
    then Accepts else Panics
  }

  lemma ReportDecided(l: Ledger, tx: Tx)
    requires Booked(l) && tx.call.CallReportBenjiYield? && VAULT !in tx.signers
    ensures VerdictOf(Perform(l, tx)) == ReportVerdict(l, tx.signers, tx.call.strategy, tx.call.amount)
  {
    BookedMeans(l);
    var amount, payer := tx.call.amount, tx.call.strategy;
    assert Perform(l, tx) == ReportBenjiYield(l, tx.signers, payer, amount);
    hide Perform, Booked, Plausible, Fits;
    if amount > 0 && payer in tx.signers {
      FeeDecided(amount, l.config.feeBps);
      TransferAcceptedIff(l.tokens, payer, VAULT, amount);
      NegativeTransferPanics(l.tokens, payer, VAULT, amount);
      if amount <= Get(l.tokens, payer) {
        FeesFit(l, payer, amount);
      }
    }
    hide Transfer, ValidConfig, Quotient, FeeMath.CalculateProtocolFee, FeeMath.FeeOf, RaisedWatermark;
  }

  lemma FeeDecided(amount: int, feeBps: int)
    requires amount > 0 && 0 <= feeBps <= FeeMath.BPS_DENOMINATOR
    ensures var r := FeeMath.CalculateProtocolFee(amount, feeBps);
            && !r.Error? && (r.Done? <==> InI128(amount * feeBps))
            && (r.Done? ==> r.value == (FeeMath.FeeOf(amount, feeBps), amount - FeeMath.FeeOf(amount, feeBps)))
  {
    Conservation.FeesAgree(amount, feeBps);
    assert feeBps == 0 ==> amount * feeBps == 0;
  }

  lemma HarvestDecided(l: Ledger, tx: Tx)
    requires Booked(l) && tx.call.CallAccrueKoreanDebtYield?
    ensures VerdictOf(Perform(l, tx)) ==
            if l.config.admin in tx.signers && l.config.koreanStrategy.Some? && tx.call.harvested > 0
               && l.state.totalAssets + tx.call.harvested <= I128_MAX
            then Accepts else Panics
  {
    BookedMeans(l);
    assert Perform(l, tx) == AccrueKoreanDebtYield(l, tx.signers, tx.call.harvested);
    hide Perform, Booked, Plausible, Fits;
  }

  /** Fees can always be claimed: the vault holds them. */
  lemma ClaimDecided(l: Ledger, tx: Tx)
    requires Booked(l) && tx.call.CallClaimFees?
    ensures VerdictOf(Perform(l, tx)) ==
            if l.config.admin in tx.signers && l.config.treasury.Some? && l.treasuryBalance > 0 then Accepts else Panics
  {
    BookedMeans(l);
    assert Perform(l, tx) == ClaimFees(l, tx.signers);
    hide Perform, Booked, Fits, ValidConfig;
    if l.config.treasury.Some? {
      var treasury := l.config.treasury.value;
      if treasury != VAULT {
        TransferAcceptedIff(l.tokens, VAULT, treasury, l.treasuryBalance);
      } else {
        TwoAccountsFit(l.tokens, VAULT, VAULT + 1);
      }
    }
    hide Plausible;
  }

  // ---- Deposits ----

  /** What becomes of a deposit when no balance is negative. */
  function DepositVerdict(l: Ledger, signers: set<Address>, user: Address, amount: int): Verdict {
    var s, a, deposited := l.state.totalShares, l.state.totalAssets, Get(l.userDeposit, user) + amount;
    if l.state.isPaused then Refuses(ContractPaused)
    else if user !in signers then Panics
    else if amount <= 0 then Refuses(InvalidAmount)
    else if amount < l.config.minDeposit then Refuses(MinDepositNotMet)
    else if s > 0 && amount * s > I128_MAX then Panics
    else if s > 0 && amount * s < a then Refuses(InvalidAmount)
    else if deposited > I128_MAX then Panics
    else if deposited > l.config.perUserCap then Refuses(ExceedsUserCap)
    else if amount > Get(l.tokens, user) || a + amount > I128_MAX then Panics
    else Accepts
  }

  lemma MintDecided(amount: int, s: int, a: int)
    requires amount > 0 && 0 <= s <= a
    ensures var minted := AssetsToShares(amount, s, a);
            && !minted.Error? && (minted.Done? <==> s == 0 || amount * s <= I128_MAX)
            && (minted.Done? ==> 0 <= minted.value <= amount && (minted.value == 0 <==> s > 0 && amount * s < a))
  {
    if s > 0 {
      assert amount * s >= 0;
      FloorBounds(amount * s, a);
      var q := (amount * s) / a;
      assert q * a <= amount * s <= amount * a by { MulMonotone(s, a, amount); }
      CancelFactor(q, amount, a);
      if q > 0 {
        MulMonotone(1, q, a);
        MulMonotone(1, a, q);
      }
    }
  }

  lemma DepositDecided(l: Ledger, tx: Tx)
    requires Booked(l) && Sound(l) && tx.call.CallDeposit? && VAULT !in tx.signers
    ensures VerdictOf(Perform(l, tx)) == DepositVerdict(l, tx.signers, tx.call.user, tx.call.amount)
  {
    BookedMeans(l);
    var user, amount := tx.call.user, tx.call.amount;
    assert Perform(l, tx) == Deposit(l, tx.signers, user, amount);
    SumBoundsEntry(l.shareBalance, user);
    FitAt(l.userDeposit, user);
    hide Perform, Booked, Fits;
    if amount > 0 && user in tx.signers {
      MintDecided(amount, l.state.totalShares, l.state.totalAssets);
      TransferAcceptedIff(l.tokens, user, VAULT, amount);
      NegativeTransferPanics(l.tokens, user, VAULT, amount);
      TwoAccountsFit(l.tokens, user, VAULT);
    }
    hide Transfer, AssetsToShares, Plausible;
  }

  // ---- Withdrawals ----

  function WithdrawVerdict(l: Ledger, signers: set<Address>, user: Address, shares: int): Verdict {
    var earliest := Get(l.lastDepositTime, user) + l.config.withdrawalCooldown;
    if l.state.isPaused then Refuses(ContractPaused)
    else if user !in signers then Panics
    else if shares <= 0 then Refuses(InvalidAmount)
    else if l.config.withdrawalCooldown > 0 && earliest > U64_MAX then Panics
    else if l.config.withdrawalCooldown > 0 && l.now < earliest then Refuses(WithdrawalCooldownActive)
    else if BalanceOf(l, user) < shares then Refuses(InsufficientShares)
    else if shares * l.state.totalAssets > I128_MAX then Panics
    else if Worth(l, shares) > l.config.largeWithdrawalThreshold then
      if l.now + TIMELOCK_SECONDS > U64_MAX then Panics else Accepts
    else if !Affordable(l, Worth(l, shares)) then Panics
    else Accepts
  }

  /** Paying out panics or succeeds. */
  lemma PayoutNeverRefuses(l: Ledger, user: Address, shares: int, assets: int)
    ensures !DoWithdraw(l, user, shares, assets).Error?
  {
  }

  lemma RedemptionNeverRefuses(shares: int, s: int, a: int)
    ensures !SharesToAssets(shares, s, a).Error?
  {
  }

  lemma WithdrawDecided(l: Ledger, tx: Tx)
    requires Booked(l) && Sound(l) && tx.call.CallWithdraw? && VAULT !in tx.signers
    ensures VerdictOf(Perform(l, tx)) == WithdrawVerdict(l, tx.signers, tx.call.user, tx.call.shares)
  {
    BookedMeans(l);
    var user, shares := tx.call.user, tx.call.shares;
    AcceptedIff(l, tx);
    SumBoundsEntry(l.shareBalance, user);
    assert Perform(l, tx) == Withdraw(l, tx.signers, user, shares);
    hide Perform, Booked, Fits, Plausible, DoWithdraw, SharesToAssets, Affordable, Worth;
    RedemptionNeverRefuses(shares, l.state.totalShares, l.state.totalAssets);
    if SharesToAssets(shares, l.state.totalShares, l.state.totalAssets).Done? {
      PayoutNeverRefuses(l, user, shares, SharesToAssets(shares, l.state.totalShares, l.state.totalAssets).value);
    }
    if 0 < shares <= BalanceOf(l, user) {
      MulMonotone(0, l.state.totalAssets, shares);
      assert shares * l.state.totalAssets >= 0;
    }
  }

  function ExecuteVerdict(l: Ledger, signers: set<Address>, user: Address): Verdict {
    if user !in signers then Panics
    else if user !in l.pending then Refuses(NoPendingWithdrawal)
    else if l.now < l.pending[user].unlockTimestamp then Refuses(TimelockNotExpired)
    else if l.state.totalShares > 0 && l.pending[user].shares * l.state.totalAssets > I128_MAX then Panics
    else if !Affordable(l, Worth(l, l.pending[user].shares)) then Panics
    else Accepts
  }

  lemma ExecuteDecided(l: Ledger, tx: Tx)
    requires Booked(l) && Sound(l) && tx.call.CallExecuteWithdrawal? && VAULT !in tx.signers
    ensures VerdictOf(Perform(l, tx)) == ExecuteVerdict(l, tx.signers, tx.call.user)
  {
    BookedMeans(l);
    var user := tx.call.user;
    ExecutedIff(l, tx);
    assert Perform(l, tx) == ExecuteWithdrawal(l, tx.signers, user);
    hide Perform, Booked, Fits, Plausible, DoWithdraw, SharesToAssets, Affordable, Worth;
    if user in l.pending {
      var shares := l.pending[user].shares;
      RedemptionNeverRefuses(shares, l.state.totalShares, l.state.totalAssets);
      if SharesToAssets(shares, l.state.totalShares, l.state.totalAssets).Done? {
        PayoutNeverRefuses(l.(pending := l.pending - {user}), user, shares,
                           SharesToAssets(shares, l.state.totalShares, l.state.totalAssets).value);
      }
      MulMonotone(0, l.state.totalAssets, shares);
      assert shares * l.state.totalAssets >= 0;
    }
  }

  // ---- Batches ----

  /** The guards of a batch; past them no error code is possible, as a failing entry
      is reported and a panicking one takes the whole call down. */
  lemma BatchRefusals(l: Ledger, tx: Tx)
    requires tx.call.CallBatchDeposit?
    ensures var verdict := VerdictOf(Perform(l, tx));
            && (verdict.Refuses? ==> verdict.code in {ContractPaused, RelayerNotAuthorized, BatchTooLarge})
            && (verdict == Refuses(ContractPaused) <==> l.state.isPaused)
            && (verdict == Refuses(RelayerNotAuthorized)
                <==> && !l.state.isPaused && tx.call.relayer in tx.signers && tx.call.relayer !in l.config.relayers)
            && (verdict == Refuses(BatchTooLarge)
                <==> && !l.state.isPaused && tx.call.relayer in tx.signers && tx.call.relayer in l.config.relayers
                     && |tx.call.entries| > l.config.maxBatchSize)
            && (verdict == Accepts ==>
                  && !l.state.isPaused && tx.call.relayer in tx.signers && tx.call.relayer in l.config.relayers
                  && |tx.call.entries| <= l.config.maxBatchSize)
  {
    LoopNeverRefuses(BatchProgress(l, l.state, NO_RESULTS), tx.signers, tx.call.entries);
    assert VerdictOf(Perform(l, tx)) == VerdictOf(BatchDeposit(l, tx.signers, tx.call.relayer, tx.call.entries));
    hide Perform, BatchLoop;
  }

  lemma {:induction false} LoopNeverRefuses(p: BatchProgress, signers: set<Address>, entries: seq<DepositEntry>)
    ensures !BatchLoop(p, signers, entries).Error?
    decreases |entries|
  {
    hide ProcessEntry;
    if entries != [] && BatchEntry(p, signers, entries[0]).Done? {
      LoopNeverRefuses(BatchEntry(p, signers, entries[0]).value, signers, entries[1..]);
    }
  }

  // ---- Over runs ----

  /** How every call ends in every state of every run: calls of strategies, yield
      and fees whatever was executed before, deposits and withdrawals while no
      balance is negative. */
  lemma CallsAreDecided(admin: Address, tokens: Balances, now: nat, txs: seq<Tx>, n: nat, tx: Tx)
    requires n <= |txs| && WellFormed(txs) && Plausible(tokens) && now <= U64_MAX
    requires VAULT !in tx.signers && Typed(tx.call)
    ensures var l := At(Initial(admin, tokens, now), txs, n);
            var verdict, covered := VerdictOf(Perform(l, tx)), CoveredRun(Initial(admin, tokens, now), txs, n);
            match tx.call
            case CallInvest(amount, invested) => verdict == InvestVerdict(l, tx.signers, amount, invested)
            case CallRebalance(_, _, _, _, _, _, _) => verdict == RebalanceVerdict(l, tx.signers, tx.call)
            case CallAccrueYield(amount) => verdict == AccrueVerdict(l, tx.signers, amount)
            case CallReportBenjiYield(strategy, amount) => verdict == ReportVerdict(l, tx.signers, strategy, amount)
            case CallDeposit(user, amount) => covered ==> verdict == DepositVerdict(l, tx.signers, user, amount)
            case CallWithdraw(user, shares) => covered ==> verdict == WithdrawVerdict(l, tx.signers, user, shares)
            case CallExecuteWithdrawal(user) => covered ==> verdict == ExecuteVerdict(l, tx.signers, user)
            case _ => true
  {
    hide *;
    var l0 := Initial(admin, tokens, now);
    var l := At(l0, txs, n);
    AlwaysBooked(admin, tokens, now, txs, n);
    if CoveredRun(l0, txs, n) {
      InitialIsSound(admin, tokens, now);
      RunKeepsSound(l0, txs, n);
    }
    match tx.call
    case CallInvest(_, _) => InvestDecided(l, tx);
    case CallRebalance(_, _, _, _, _, _, _) => RebalanceDecided(l, tx);
    case CallAccrueYield(_) => AccrueDecided(l, tx);
    case CallReportBenjiYield(_, _) => ReportDecided(l, tx);
    case CallDeposit(_, _) => if CoveredRun(l0, txs, n) { DepositDecided(l, tx); }
    case CallWithdraw(_, _) => if CoveredRun(l0, txs, n) { WithdrawDecided(l, tx); }
    case CallExecuteWithdrawal(_) => if CoveredRun(l0, txs, n) { ExecuteDecided(l, tx); }
    case _ =>
  }
}
