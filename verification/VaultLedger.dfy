/** The vault's storage and every entry point that moves value, as functions:
    `contracts/vault/src/lib.rs`. Each function performs the source's checks in
    the source's order; an error or a panic discards every write of the call.

    Outside the vault there are the token contract, strategies that move exactly
    the amount asked for (as `benji_strategy.rs` does), and the ledger clock.
 */
module VaultLedger {
  import opened Checked
  import opened Sums
  import opened Token
  import opened ShareMath
  import FeeMath
  import Governance

  const SHARE_PRICE_SCALE: int := 1_000_000_000_000_000_000
  const TIMELOCK_SECONDS: int := 86_400

  /** The vault contract's own address. */
  const VAULT: Address := 0

  datatype VaultState = VaultState(totalShares: int, totalAssets: int, isPaused: bool)

  datatype PendingWithdrawal = PendingWithdrawal(shares: int, unlockTimestamp: int)

  datatype DepositEntry = DepositEntry(user: Address, amount: int)

  datatype DepositResult = DepositResult(user: Address, sharesMinted: int, success: bool, errorCode: nat)

  datatype BatchResult = BatchResult(
    results: seq<DepositResult>,
    totalSharesMinted: int,
    successCount: nat,
    failureCount: nat
  )

  /** Everything administrators set, with the source's defaults in `DEFAULTS`. */
  datatype Config = Config(
    admin: Address,
    feeBps: int,
    treasury: Option<Address>,
    largeWithdrawalThreshold: int,
    minDeposit: int,
    minLiquidityBuffer: int,
    withdrawalCooldown: int,
    perUserCap: int,
    maxBatchSize: nat,
    relayers: set<Address>,
    strategy: Option<Address>,
    strategyCap: map<Address, int>,
    riskThreshold: map<Address, int>,
    koreanStrategy: Option<Address>
  )

  function Defaults(admin: Address): Config {
    Config(admin, 0, None, I128_MAX, 0, 0, 0, I128_MAX, 50, {}, None, map[], map[], None)
  }

  /** The range checks of the setters. */
  predicate ValidConfig(c: Config) {
    && 0 <= c.feeBps <= FeeMath.BPS_DENOMINATOR
    && c.largeWithdrawalThreshold > 0
    && c.minDeposit >= 0
    && c.minLiquidityBuffer >= 0
    && 0 <= c.withdrawalCooldown <= U64_MAX
    && 0 < c.maxBatchSize <= Governance.U32_MAX
    && (forall s <- c.riskThreshold.Keys :: 0 <= c.riskThreshold[s] <= 10_000)
  }

  datatype Ledger = Ledger(
    config: Config,
    state: VaultState,
    totalShares: int,
    idleAssets: int,
    shareBalance: map<Address, int>,
    userDeposit: map<Address, int>,
    pending: map<Address, PendingWithdrawal>,
    lastDepositTime: map<Address, int>,
    treasuryBalance: int,
    watermark: map<Address, int>,
    dao: Governance.Dao,
    tokens: Balances,
    now: int
  )

  /** The ledger that `initialize` leaves, in a world with the given token balances. */
  function Initial(admin: Address, tokens: Balances, now: nat): Ledger {
    Ledger(Defaults(admin), VaultState(0, 0, false), 0, 0, map[], map[], map[], map[], 0, map[],
           Governance.INITIAL, tokens, now)
  }

  function BalanceOf(l: Ledger, user: Address): int {
    Get(l.shareBalance, user)
  }

  function VaultTokens(l: Ledger): int {
    Get(l.tokens, VAULT)
  }

  // ---- Deposits ----

  function Deposit(l: Ledger, signers: set<Address>, user: Address, amount: int): Outcome<(Ledger, int)> {
    if l.state.isPaused then Error(ContractPaused) else
    :- Insist(user in signers);
    :- Need(amount > 0, InvalidAmount);
    :- Need(amount >= l.config.minDeposit, MinDepositNotMet);
    var minted :- AssetsToShares(amount, l.state.totalShares, l.state.totalAssets);
    :- Need(minted != 0, InvalidAmount);
    var deposited :- Add(Get(l.userDeposit, user), amount);
    :- Need(deposited <= l.config.perUserCap, ExceedsUserCap);
    var tokens :- Transfer(l.tokens, user, VAULT, amount);
    var idle :- Add(l.idleAssets, amount);
    var supply :- Add(l.state.totalShares, minted);
    var assets :- Add(l.state.totalAssets, amount);
    var balance :- Add(BalanceOf(l, user), minted);
    Done((l.(tokens := tokens,
             userDeposit := l.userDeposit[user := deposited],
             idleAssets := idle,
             totalShares := supply,
             state := l.state.(totalAssets := assets, totalShares := supply),
             shareBalance := l.shareBalance[user := balance],
             lastDepositTime := l.lastDepositTime[user := l.now]),
          minted))
  }

  /** One entry of a batch. It prices shares from the in-memory state `st`, adds
      to the stored `TotalShares`, and leaves the stored `State` untouched. */
  function ProcessEntry(l: Ledger, st: VaultState, signers: set<Address>, e: DepositEntry)
    : Outcome<(Ledger, VaultState, int)>
  {
    if e.amount <= 0 then Error(InvalidAmount) else
    :- Need(e.amount >= l.config.minDeposit, MinDepositNotMet);
    var minted :- AssetsToShares(e.amount, st.totalShares, st.totalAssets);
    :- Need(minted != 0, InvalidAmount);
    var deposited :- Add(Get(l.userDeposit, e.user), e.amount);
    :- Need(deposited <= l.config.perUserCap, ExceedsUserCap);
    :- Insist(e.user in signers);
    var tokens :- Transfer(l.tokens, e.user, VAULT, e.amount);
    var idle :- Add(l.idleAssets, e.amount);
    var stored :- Add(l.totalShares, minted);
    var assets :- Add(st.totalAssets, e.amount);
    var supply :- Add(st.totalShares, minted);
    var balance :- Add(BalanceOf(l, e.user), minted);
    Done((l.(tokens := tokens,
             userDeposit := l.userDeposit[e.user := deposited],
             idleAssets := idle,
             totalShares := stored,
             shareBalance := l.shareBalance[e.user := balance],
             lastDepositTime := l.lastDepositTime[e.user := l.now]),
          st.(totalAssets := assets, totalShares := supply),
          minted))
  }

  /** The stored ledger, the in-memory state and the results gathered so far. */
  datatype BatchProgress = BatchProgress(l: Ledger, st: VaultState, tally: BatchResult)

  /** Records one entry's outcome; an entry's error is a result, its panic ends the call. */
  function BatchEntry(p: BatchProgress, signers: set<Address>, e: DepositEntry): Outcome<BatchProgress> {
    var r := ProcessEntry(p.l, p.st, signers, e);
    match r
    case Done((l, st, minted)) =>
      var total :- Add(p.tally.totalSharesMinted, minted);
      :- Insist(p.tally.successCount + 1 <= Governance.U32_MAX);
      Done(BatchProgress(l, st, BatchResult(
        p.tally.results + [DepositResult(e.user, minted, true, 0)],
        total, p.tally.successCount + 1, p.tally.failureCount)))
    case Error(code) =>
      :- Insist(p.tally.failureCount + 1 <= Governance.U32_MAX);
      Done(BatchProgress(p.l, p.st, p.tally.(
        results := p.tally.results + [DepositResult(e.user, 0, false, ErrorCode(code))],
        failureCount := p.tally.failureCount + 1)))
    case Panic => Panic
  }

  function BatchLoop(p: BatchProgress, signers: set<Address>, entries: seq<DepositEntry>): Outcome<BatchProgress>
    decreases |entries|
  {
    if entries == [] then Done(p)
    else
      var q :- BatchEntry(p, signers, entries[0]);
      BatchLoop(q, signers, entries[1..])
  }

  const NO_RESULTS := BatchResult([], 0, 0, 0)

  function BatchDeposit(l: Ledger, signers: set<Address>, relayer: Address, entries: seq<DepositEntry>)
    : Outcome<(Ledger, BatchResult)>
  {
    if l.state.isPaused then Error(ContractPaused) else
    :- Insist(relayer in signers);
    :- Need(relayer in l.config.relayers, RelayerNotAuthorized);
    :- Need(|entries| <= l.config.maxBatchSize, BatchTooLarge);
    var p :- BatchLoop(BatchProgress(l, l.state, NO_RESULTS), signers, entries);
    Done((p.l.(state := p.st), p.tally))
  }

  // ---- Withdrawals ----

  /** What leaving the strategy does to its high-watermark. */
  function LoweredWatermark(w: map<Address, int>, strategy: Address, amount: int): Outcome<map<Address, int>> {
    if Get(w, strategy) > amount then
      var lowered :- Sub(Get(w, strategy), amount);
      Done(w[strategy := lowered])
    else
      Done(w[strategy := 0])
  }

  function RaisedWatermark(w: map<Address, int>, strategy: Address, candidate: int): map<Address, int> {
    if candidate > Get(w, strategy) then w[strategy := candidate] else w
  }

  /** A strategy contract moves exactly `amount`; the vault cannot call itself. */
  function StrategyWithdraw(tokens: Balances, strategy: Address, amount: int): Outcome<Balances> {
    if strategy == VAULT then Panic else
    Transfer(tokens, strategy, VAULT, amount)
  }

  function StrategyDeposit(tokens: Balances, strategy: Address, amount: int): Outcome<Balances> {
    if strategy == VAULT then Panic else
    Transfer(tokens, VAULT, strategy, amount)
  }

  /** Recalls funds from the strategy; needs no signature. */
  function Divest(l: Ledger, amount: int): Outcome<(Ledger, int)> {
    if l.config.strategy.None? then Panic else
    var strategy := l.config.strategy.value;
    var tokens :- StrategyWithdraw(l.tokens, strategy, amount);
    var watermark :- LoweredWatermark(l.watermark, strategy, amount);
    var idle :- Add(l.idleAssets, amount);
    Done((l.(tokens := tokens, watermark := watermark, idleAssets := idle), 0))
  }

  /** Brings idle assets up to `assets`, divesting the shortfall. */
  function CoverFromStrategy(l: Ledger, assets: int): Outcome<(Ledger, int)> {
    if l.idleAssets < assets then
      var needed :- Sub(assets, l.idleAssets);
      Divest(l, needed)
    else
      Done((l, 0))
  }

  /** Burns shares and pays assets out of idle ones. The user's balance may go
      negative here: `checked_sub` only guards the i128 range. */
  function PayOut(l: Ledger, user: Address, shares: int, assets: int): Outcome<(Ledger, int)> {
    var tokens :- Transfer(l.tokens, VAULT, user, assets);
    var idle :- Sub(l.idleAssets, assets);
    var supply :- Sub(l.state.totalShares, shares);
    var balance :- Sub(BalanceOf(l, user), shares);
    var total :- Sub(l.state.totalAssets, assets);
    var deposited :- if Get(l.userDeposit, user) > assets then Sub(Get(l.userDeposit, user), assets) else Done(0);
    Done((l.(tokens := tokens,
             idleAssets := idle,
             totalShares := supply,
             shareBalance := l.shareBalance[user := balance],
             state := l.state.(totalAssets := total, totalShares := supply),
             userDeposit := l.userDeposit[user := deposited]),
          assets))
  }

  function DoWithdraw(l: Ledger, user: Address, shares: int, assets: int): Outcome<(Ledger, int)> {
    var (covered, _) :- CoverFromStrategy(l, assets);
    PayOut(covered, user, shares, assets)
  }

  function Withdraw(l: Ledger, signers: set<Address>, user: Address, shares: int): Outcome<(Ledger, int)> {
    if l.state.isPaused then Error(ContractPaused) else
    :- Insist(user in signers);
    :- Need(shares > 0, InvalidAmount);
    var earliest := Get(l.lastDepositTime, user) + l.config.withdrawalCooldown;
    :- Insist(l.config.withdrawalCooldown > 0 ==> earliest <= U64_MAX);
    :- Need(l.config.withdrawalCooldown > 0 ==> l.now >= earliest, WithdrawalCooldownActive);
    :- Need(BalanceOf(l, user) >= shares, InsufficientShares);
    var assets :- SharesToAssets(shares, l.state.totalShares, l.state.totalAssets);
    if assets > l.config.largeWithdrawalThreshold then
      :- Insist(l.now + TIMELOCK_SECONDS <= U64_MAX);
      Done((l.(pending := l.pending[user := PendingWithdrawal(shares, l.now + TIMELOCK_SECONDS)]), 0))
    else
      DoWithdraw(l, user, shares, assets)
  }

  function ExecuteWithdrawal(l: Ledger, signers: set<Address>, user: Address): Outcome<(Ledger, int)> {
    if user !in signers then Panic else
    :- Need(user in l.pending, NoPendingWithdrawal);
    var p := l.pending[user];
    :- Need(l.now >= p.unlockTimestamp, TimelockNotExpired);
    var assets :- SharesToAssets(p.shares, l.state.totalShares, l.state.totalAssets);
    DoWithdraw(l.(pending := l.pending - {user}), user, p.shares, assets)
  }

  // ---- Strategies ----

  /** Moves idle funds to the strategy, whose reported value is `invested`. */
  function Invest(l: Ledger, signers: set<Address>, amount: int, invested: int): Outcome<(Ledger, int)> {
    if l.config.admin !in signers then Panic else
    :- Need(amount > 0, InvalidAmount);
    :- Insist(l.config.strategy.Some?);
    var strategy := l.config.strategy.value;
    var cap := if strategy in l.config.strategyCap then l.config.strategyCap[strategy] else I128_MAX;
    var raised :- Add(invested, amount);
    :- Need(raised <= cap, ExceedsStrategyCap);
    var risk := if strategy in l.config.riskThreshold then l.config.riskThreshold[strategy] else 10_000;
    var all :- Add(l.idleAssets, invested);
    :- Insist(all > 0 ==> InI128(raised * 10_000));
    :- Need(all > 0 ==> Quotient(raised * 10_000, all) <= risk, ExceedsRiskThreshold);
    :- Insist(l.idleAssets >= amount);
    var remaining :- Sub(l.idleAssets, amount);
    :- Need(remaining >= l.config.minLiquidityBuffer, LiquidityBufferNotMet);
    var tokens :- StrategyDeposit(l.tokens, strategy, amount);
    Done((l.(tokens := tokens,
             watermark := RaisedWatermark(l.watermark, strategy, raised),
             idleAssets := remaining),
          0))
  }

  /** Migrates funds between strategies, measuring what actually moved. The
      target reports `valueBefore` and `valueAfter` around its deposit. */
  function Rebalance(l: Ledger, signers: set<Address>, from: Address, to: Address, amount: int,
                     minDivest: int, minInvest: int, valueBefore: int, valueAfter: int): Outcome<(Ledger, int)>
  {
    if l.config.admin !in signers then Panic else
    :- Need(amount > 0, InvalidAmount);
    var divested :- StrategyWithdraw(l.tokens, from, amount);
    var difference := Get(divested, VAULT) - Get(l.tokens, VAULT);
    var withdrawn := if InI128(difference) then difference else 0;
    :- Need(withdrawn >= minDivest, SlippageExceeded);
    var lowered :- LoweredWatermark(l.watermark, from, withdrawn);
    var tokens :- StrategyDeposit(divested, to, withdrawn);
    var gained := if InI128(valueAfter - valueBefore) then valueAfter - valueBefore else 0;
    :- Need(gained >= minInvest, SlippageExceeded);
    Done((l.(tokens := tokens, watermark := RaisedWatermark(lowered, to, valueAfter)), 0))
  }

  // ---- Yield and fees ----

  function AccrueYield(l: Ledger, signers: set<Address>, amount: int): Outcome<(Ledger, int)> {
    if l.config.admin !in signers then Panic else
    :- Need(amount > 0, InvalidAmount);
    var (fee, net) :- FeeMath.InlineFee(amount, l.config.feeBps);
    var tokens :- Transfer(l.tokens, l.config.admin, VAULT, amount);
    var treasury :- if fee > 0 then Add(l.treasuryBalance, fee) else Done(l.treasuryBalance);
    var idle :- Add(l.idleAssets, net);
    var s, a := l.state.totalShares, l.state.totalAssets;
    :- Insist(s > 0 ==> InI128(a * SHARE_PRICE_SCALE));
    var assets :- Add(a, net);
    :- Insist(s > 0 ==> InI128(assets * SHARE_PRICE_SCALE));
    :- Insist(s > 0 ==> Quotient(assets * SHARE_PRICE_SCALE, s) >= Quotient(a * SHARE_PRICE_SCALE, s));
    Done((l.(tokens := tokens,
             treasuryBalance := treasury,
             idleAssets := idle,
             state := l.state.(totalAssets := assets)),
          0))
  }

  function ReportBenjiYield(l: Ledger, signers: set<Address>, strategy: Address, amount: int): Outcome<(Ledger, int)> {
    if strategy !in signers then Panic else
    :- Insist(amount > 0);
    :- Insist(l.dao.benjiStrategy == Some(strategy));
    var tokens :- Transfer(l.tokens, strategy, VAULT, amount);
    var (fee, net) :- FeeMath.CalculateProtocolFee(amount, l.config.feeBps);
    var treasury :- if fee > 0 then Add(l.treasuryBalance, fee) else Done(l.treasuryBalance);
    var candidate :- Add(Get(l.watermark, strategy), amount);
    var idle :- Add(l.idleAssets, net);
    var assets :- Add(l.state.totalAssets, net);
    Done((l.(tokens := tokens,
             treasuryBalance := treasury,
             watermark := RaisedWatermark(l.watermark, strategy, candidate),
             idleAssets := idle,
             state := l.state.(totalAssets := assets)),
          0))
  }

  /** Books what the Korean debt strategy says it harvested; no token moves here. */
  function AccrueKoreanDebtYield(l: Ledger, signers: set<Address>, harvested: int): Outcome<(Ledger, int)> {
    if l.config.admin !in signers then Panic else
    :- Insist(l.config.koreanStrategy.Some?);
    :- Insist(harvested > 0);
    var assets :- Add(l.state.totalAssets, harvested);
    Done((l.(state := l.state.(totalAssets := assets)), harvested))
  }

  function ClaimFees(l: Ledger, signers: set<Address>): Outcome<(Ledger, int)> {
    if l.config.admin !in signers then Panic else
    :- Insist(l.config.treasury.Some?);
    :- Insist(l.treasuryBalance != 0);
    var tokens :- Transfer(l.tokens, VAULT, l.config.treasury.value, l.treasuryBalance);
    Done((l.(tokens := tokens, treasuryBalance := 0), l.treasuryBalance))
  }

  // ---- Transactions and runs ----

  datatype Call =
    | CallDeposit(user: Address, amount: int)
    | CallBatchDeposit(relayer: Address, entries: seq<DepositEntry>)
    | CallWithdraw(user: Address, shares: int)
    | CallExecuteWithdrawal(user: Address)
    | CallInvest(amount: int, invested: int)
    | CallDivest(amount: int)
    | CallRebalance(from: Address, to: Address, amount: int, minDivest: int, minInvest: int,
                    valueBefore: int, valueAfter: int)
    | CallAccrueYield(amount: int)
    | CallReportBenjiYield(strategy: Address, amount: int)
    | CallAccrueKoreanDebtYield(harvested: int)
    | CallClaimFees
    | CallConfigure(config: Config)
    | CallPause(paused: bool)
    | CallGovernance(action: Governance.Action)
    | TokenTransfer(from: Address, to: Address, amount: int)
    | AdvanceTime(timestamp: int)

  /** A call together with the accounts whose authorisation it carries. */
  datatype Tx = Tx(signers: set<Address>, call: Call)

  /** Any of the administrators' setters: every configuration they can reach. */
  function Configure(l: Ledger, signers: set<Address>, config: Config): Outcome<(Ledger, int)> {
    if l.config.admin !in signers then Panic else
    :- Insist(ValidConfig(config));
    Done((l.(config := config), 0))
  }

  function SetPaused(l: Ledger, signers: set<Address>, paused: bool): Outcome<(Ledger, int)> {
    if l.config.admin !in signers then Panic else
    Done((l.(state := l.state.(isPaused := paused)), 0))
  }

  function Govern(l: Ledger, signers: set<Address>, a: Governance.Action): Outcome<(Ledger, int)> {
    var (dao, r) :- Governance.Perform(l.dao, signers, l.config.admin, a);
    Done((l.(dao := dao), r))
  }

  /** Token movements outside the vault, donations to it included. */
  function MoveTokens(l: Ledger, signers: set<Address>, from: Address, to: Address, amount: int)
    : Outcome<(Ledger, int)>
  {
    if from !in signers then Panic else
    var tokens :- Transfer(l.tokens, from, to, amount);
    Done((l.(tokens := tokens), 0))
  }

  function PassTime(l: Ledger, to: int): Outcome<(Ledger, int)> {
    if !(l.now <= to <= U64_MAX) then Panic else
    Done((l.(now := to), 0))
  }

  function Perform(l: Ledger, tx: Tx): Outcome<(Ledger, int)> {
    match tx.call
    case CallDeposit(user, amount) => Deposit(l, tx.signers, user, amount)
    case CallBatchDeposit(relayer, entries) =>
      var (l', r) :- BatchDeposit(l, tx.signers, relayer, entries); Done((l', r.totalSharesMinted))
    case CallWithdraw(user, shares) => Withdraw(l, tx.signers, user, shares)
    case CallExecuteWithdrawal(user) => ExecuteWithdrawal(l, tx.signers, user)
    case CallInvest(amount, invested) => Invest(l, tx.signers, amount, invested)
    case CallDivest(amount) => Divest(l, amount)
    case CallRebalance(from, to, amount, minDivest, minInvest, before, after) =>
      Rebalance(l, tx.signers, from, to, amount, minDivest, minInvest, before, after)
    case CallAccrueYield(amount) => AccrueYield(l, tx.signers, amount)
    case CallReportBenjiYield(strategy, amount) => ReportBenjiYield(l, tx.signers, strategy, amount)
    case CallAccrueKoreanDebtYield(harvested) => AccrueKoreanDebtYield(l, tx.signers, harvested)
    case CallClaimFees => ClaimFees(l, tx.signers)
    case CallConfigure(config) => Configure(l, tx.signers, config)
    case CallPause(paused) => SetPaused(l, tx.signers, paused)
    case CallGovernance(a) => Govern(l, tx.signers, a)
    case TokenTransfer(from, to, amount) => MoveTokens(l, tx.signers, from, to, amount)
    case AdvanceTime(timestamp) => PassTime(l, timestamp)
  }

  /** An error or a panic leaves the ledger as it was. */
  function After(l: Ledger, tx: Tx): Ledger {
    var o := Perform(l, tx);
    if o.Done? then o.value.0 else l
  }

  predicate Accepted(l: Ledger, tx: Tx) {
    Perform(l, tx).Done?
  }

  /** The calls that mint or burn shares. */
  predicate MovesShares(c: Call) {
    c.CallDeposit? || c.CallBatchDeposit? || c.CallWithdraw? || c.CallExecuteWithdrawal?
  }

  /** The calls that book yield. */
  predicate BooksYield(c: Call) {
    c.CallAccrueYield? || c.CallReportBenjiYield? || c.CallAccrueKoreanDebtYield?
  }

  /** The ledger after the first `i` transactions. */
  function At(l: Ledger, txs: seq<Tx>, i: nat): Ledger
    requires i <= |txs|
  {
    if i == 0 then l else After(At(l, txs, i - 1), txs[i - 1])
  }

  /** Call arguments are 128-bit integers; only the places that depend on it are
      spelled out. */
  predicate Typed(c: Call) {
    && (c.CallRebalance? ==> InI128(c.amount) && InI128(c.valueAfter))
    && (c.CallAccrueYield? ==> InI128(c.amount))
  }

  /** The vault contract signs nothing by itself. */
  ghost predicate WellFormed(txs: seq<Tx>) {
    forall i :: 0 <= i < |txs| ==> VAULT !in txs[i].signers && Typed(txs[i].call)
  }
}
