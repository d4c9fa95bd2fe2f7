/** Whose signature each effect needs (`contracts/vault/src/lib.rs`): shares and
    records move only with their owner's, tokens only with their holder's or out of
    a strategy, and everything administrators decide only with the administrator's. */
module Consent {
  import opened Checked
  import opened Sums
  import opened Token
  import opened ShareMath
  import opened VaultLedger
  import opened ShareAccounting
  import opened TokenFlow
  import Batch
  import FeeMath
  import Governance
  import Limits

  // ---- Who must sign ----

  /** The account whose signature the call asks for, if it asks for any. */
  function MustSign(l: Ledger, c: Call): Option<Address> {
    match c
    case CallDeposit(user, _) => Some(user)
    case CallBatchDeposit(relayer, _) => Some(relayer)
    case CallWithdraw(user, _) => Some(user)
    case CallExecuteWithdrawal(user) => Some(user)
    case CallReportBenjiYield(strategy, _) => Some(strategy)
    case TokenTransfer(from, _, _) => Some(from)
    case CallGovernance(CreateProposal(proposer, _)) => Some(proposer)
    case CallGovernance(Vote(voter, _, _, _)) => Some(voter)
    case CallGovernance(Execute(_)) => None
    case CallDivest(_) => None
    case AdvanceTime(_) => None
    case _ => Some(l.config.admin)
  }

  lemma ShareCallIsSigned(l: Ledger, tx: Tx)
    requires MovesShares(tx.call) && Accepted(l, tx)
    ensures MustSign(l, tx.call).value in tx.signers
  {
    hide BatchLoop, DoWithdraw, SharesToAssets, AssetsToShares, Transfer;
  }

  lemma OtherCallIsSigned(l: Ledger, tx: Tx)
    requires !MovesShares(tx.call) && Accepted(l, tx) && MustSign(l, tx.call).Some?
    ensures MustSign(l, tx.call).value in tx.signers
  {
    match tx.call {
      case CallInvest(amount, invested) => assert Perform(l, tx) == Invest(l, tx.signers, amount, invested);
      case CallRebalance(from, to, amount, d, i, v, w) =>
        assert Perform(l, tx) == Rebalance(l, tx.signers, from, to, amount, d, i, v, w);
      case CallAccrueYield(amount) => assert Perform(l, tx) == AccrueYield(l, tx.signers, amount);
      case CallReportBenjiYield(strategy, amount) =>
        assert Perform(l, tx) == ReportBenjiYield(l, tx.signers, strategy, amount);
      case CallAccrueKoreanDebtYield(harvested) =>
        assert Perform(l, tx) == AccrueKoreanDebtYield(l, tx.signers, harvested);
      case CallClaimFees => assert Perform(l, tx) == ClaimFees(l, tx.signers);
      case CallConfigure(config) => assert Perform(l, tx) == Configure(l, tx.signers, config);
      case CallPause(paused) => assert Perform(l, tx) == SetPaused(l, tx.signers, paused);
      case CallGovernance(action) => assert Perform(l, tx) == Govern(l, tx.signers, action);
      case TokenTransfer(from, to, amount) => assert Perform(l, tx) == MoveTokens(l, tx.signers, from, to, amount);
      case _ =>
    }
    hide Perform, ValidConfig, Quotient, StrategyDeposit, StrategyWithdraw, Transfer, LoweredWatermark,
         RaisedWatermark, FeeMath.InlineFee, FeeMath.CalculateProtocolFee;
  }

  /** A call without the signature it asks for changes nothing at all. */
  lemma UnsignedCallsDoNothing(l: Ledger, tx: Tx)
    requires MustSign(l, tx.call).Some? && MustSign(l, tx.call).value !in tx.signers
    ensures !Accepted(l, tx) && After(l, tx) == l
  {
    hide Perform, MustSign;
    if Accepted(l, tx) {
      if MovesShares(tx.call) {
        ShareCallIsSigned(l, tx);
      } else {
        OtherCallIsSigned(l, tx);
      }
    }
  }

  // ---- Shares ----

  /** All that is kept about the user as a holder. */
  predicate SameHolder(l: Ledger, l': Ledger, user: Address) {
    && BalanceOf(l', user) == BalanceOf(l, user)
    && Get(l'.userDeposit, user) == Get(l.userDeposit, user)
    && Get(l'.lastDepositTime, user) == Get(l.lastDepositTime, user)
    && (user in l'.pending <==> user in l.pending)
    && (user in l.pending ==> l'.pending[user] == l.pending[user])
  }

  lemma OthersDeposit(l: Ledger, signers: set<Address>, u: Address, amount: int, user: Address)
    requires Deposit(l, signers, u, amount).Done? && user !in signers
    ensures SameHolder(l, Deposit(l, signers, u, amount).value.0, user)
  {
    DepositMints(l, signers, u, amount);
    Limits.DepositRecords(l, signers, u, amount);
    DepositFlows(l, signers, u, amount, user);
    hide Deposit, AssetsToShares;
  }

  lemma {:induction false} OthersDeposits(l: Ledger, signers: set<Address>, entries: seq<DepositEntry>, n: nat,
                                          user: Address)
    requires n <= |entries| && user !in signers
    ensures SameHolder(l, At(l, Batch.DepositTxs(signers, entries), n), user)
  {
    hide Deposit;
    if n > 0 {
      OthersDeposits(l, signers, entries, n - 1, user);
      var before, e := At(l, Batch.DepositTxs(signers, entries), n - 1), entries[n - 1];
      if Deposit(before, signers, e.user, e.amount).Done? {
        OthersDeposit(before, signers, e.user, e.amount, user);
      }
    }
  }

  lemma OthersPayout(l: Ledger, tx: Tx, user: Address)
    requires (PaidAtOnce(l, tx) || Executed(l, tx)) && user !in tx.signers
    ensures SameHolder(l, After(l, tx), user)
  {
    SignedByUser(l, tx);
    PayoutIsDoWithdraw(l, tx);
    PayoutBurns(l, tx);
    hide Perform, After, DoWithdraw, SharesToAssets;
    var (p, shares) := Payout(l, tx);
    Limits.DoWithdrawRecords(p, tx.call.user, shares,
                             SharesToAssets(shares, p.state.totalShares, p.state.totalAssets).value);
  }

  /** Without an account's signature no call changes its shares, its recorded
      withdrawal, its net deposits or the start of its cooldown. */
  lemma HoldersMustSign(l: Ledger, tx: Tx, user: Address)
    requires CountersAgree(l) && user !in tx.signers
    ensures SameHolder(l, After(l, tx), user)
  {
    if !MovesShares(tx.call) {
      OtherCallsLeaveShares(l, tx);
      hide Perform, After;
    } else if Accepted(l, tx) {
      hide Perform, Deposit, DoWithdraw, SharesToAssets, SameHolder;
      ShareCalls(l, tx);
      if tx.call.CallDeposit? {
        OthersDeposit(l, tx.signers, tx.call.user, tx.call.amount, user);
      } else if tx.call.CallBatchDeposit? {
        OthersDeposits(l, tx.signers, tx.call.entries, |tx.call.entries|, user);
      } else if Recorded(l, tx) {
        OthersRecord(l, tx, user);
      } else {
        OthersPayout(l, tx, user);
      }
    }
  }

  lemma OthersRecord(l: Ledger, tx: Tx, user: Address)
    requires Recorded(l, tx) && user !in tx.signers
    ensures SameHolder(l, After(l, tx), user)
  {
    hide Perform;
    SignedByUser(l, tx);
    RecordingOnlyRecords(l, tx);
  }

  /** Over any stretch of any run in which an account signs nothing, it stays the
      holder it was. */
  lemma {:induction false} HoldersKeepShares(admin: Address, tokens: Balances, now: nat, txs: seq<Tx>, i: nat, j: nat,
                                             user: Address)
    requires i <= j <= |txs| && forall k :: i <= k < j ==> user !in txs[k].signers
    ensures SameHolder(At(Initial(admin, tokens, now), txs, i), At(Initial(admin, tokens, now), txs, j), user)
    decreases j
  {
    hide Perform, Initial, After, CountersAgree;
    if i < j {
      HoldersKeepShares(admin, tokens, now, txs, i, j - 1, user);
      CountersAlwaysAgree(admin, tokens, now, txs, j - 1);
      HoldersMustSign(At(Initial(admin, tokens, now), txs, j - 1), txs[j - 1], user);
    }
  }

  // ---- Tokens ----

  /** The strategies a call may recall funds from. */
  predicate Recalls(l: Ledger, c: Call, a: Address) {
    || (c.CallRebalance? && c.from == a && c.from != c.to)
    || ((c.CallDivest? || c.CallWithdraw? || c.CallExecuteWithdrawal?) && l.config.strategy == Some(a))
  }

  lemma {:induction false} DepositsTakeFromSigners(l: Ledger, signers: set<Address>, entries: seq<DepositEntry>, n: nat,
                                                   a: Address)
    requires n <= |entries| && a !in signers
    ensures DepositsAdd(l, Batch.DepositTxs(signers, entries), n, a) >= 0
  {
    hide Deposit;
    if n > 0 {
      DepositsTakeFromSigners(l, signers, entries, n - 1, a);
      var before, e := At(l, Batch.DepositTxs(signers, entries), n - 1), entries[n - 1];
      if Deposit(before, signers, e.user, e.amount).Done? {
        DepositFlows(before, signers, e.user, e.amount, a);
      }
    }
  }

  lemma AmountsAreNotNegative(l: Ledger, tx: Tx)
    requires Accepted(l, tx)
    ensures (tx.call.CallInvest? || tx.call.CallRebalance? || tx.call.CallAccrueYield? || tx.call.CallReportBenjiYield?
             || tx.call.TokenTransfer? || tx.call.CallDivest?) ==> tx.call.amount >= 0
  {
    match tx.call {
      case CallInvest(amount, invested) => assert Perform(l, tx) == Invest(l, tx.signers, amount, invested);
      case CallDivest(amount) => assert Perform(l, tx) == Divest(l, amount);
      case CallRebalance(from, to, amount, d, i, v, w) =>
        assert Perform(l, tx) == Rebalance(l, tx.signers, from, to, amount, d, i, v, w);
      case CallAccrueYield(amount) => assert Perform(l, tx) == AccrueYield(l, tx.signers, amount);
      case CallReportBenjiYield(strategy, amount) =>
        assert Perform(l, tx) == ReportBenjiYield(l, tx.signers, strategy, amount);
      case TokenTransfer(from, to, amount) => assert Perform(l, tx) == MoveTokens(l, tx.signers, from, to, amount);
      case _ =>
    }
    hide Perform, Quotient, StrategyDeposit, LoweredWatermark, RaisedWatermark, FeeMath.InlineFee,
         FeeMath.CalculateProtocolFee;
  }

  lemma PayoutsAreNotNegative(l: Ledger, tx: Tx)
    requires PaidAtOnce(l, tx) || Executed(l, tx)
    ensures var (p, shares) := Payout(l, tx);
            var assets := SharesToAssets(shares, p.state.totalShares, p.state.totalAssets);
            assets.Done? && assets.value >= 0
  {
    PayoutIsDoWithdraw(l, tx);
    hide Perform, DoWithdraw, SharesToAssets;
    var (p, shares) := Payout(l, tx);
    PaysNonNegative(p, tx.call.user, shares, SharesToAssets(shares, p.state.totalShares, p.state.totalAssets).value);
  }

  /** An account other than the vault loses tokens only by its own signature, or as
      a strategy that funds are recalled from. */
  lemma TokensNeedConsent(l: Ledger, tx: Tx, a: Address)
    requires CountersAgree(l) && Typed(tx.call) && a != VAULT && a !in tx.signers && !Recalls(l, tx.call, a)
    ensures Get(After(l, tx).tokens, a) >= Get(l.tokens, a)
  {
    hide *;
    StepFlows(l, tx, a);
    FlowsMeans(l, tx, a);
    if Accepted(l, tx) {
      AddsToOthers(l, tx, a);
    } else {
      AddsNothing(l, tx, a);
    }
  }

  lemma FlowsMeans(l: Ledger, tx: Tx, a: Address)
    requires Flows(l, After(l, tx), a, Adds(l, tx, a))
    ensures Get(After(l, tx).tokens, a) == Get(l.tokens, a) + Adds(l, tx, a)
  {
    hide After, Adds;
  }

  lemma AddsToOthers(l: Ledger, tx: Tx, a: Address)
    requires Accepted(l, tx) && a != VAULT && a !in tx.signers && !Recalls(l, tx.call, a)
    ensures Adds(l, tx, a) >= 0
  {
    if MovesShares(tx.call) {
      ShareCallIsSigned(l, tx);
      ShareCalls(l, tx) by { hide Perform; }
      if PaidAtOnce(l, tx) || Executed(l, tx) {
        PayoutsAreNotNegative(l, tx);
      }
      if tx.call.CallDeposit? {
        DepositFlows(l, tx.signers, tx.call.user, tx.call.amount, a);
      } else if tx.call.CallBatchDeposit? {
        DepositsTakeFromSigners(l, tx.signers, tx.call.entries, |tx.call.entries|, a);
      }
    } else {
      AmountsAreNotNegative(l, tx);
      if MustSign(l, tx.call).Some? {
        OtherCallIsSigned(l, tx);
      }
    }
    hide Perform, Deposit, SharesToAssets, DepositsAdd;
  }

  // ---- The administrator's decisions ----

  /** The settings, the pause and the voting threshold are as they were, and no fees
      left the treasury balance. */
  predicate SameOffice(l: Ledger, l': Ledger) {
    && l'.config == l.config && l'.state.isPaused == l.state.isPaused
    && l'.dao.threshold == l.dao.threshold && l'.treasuryBalance >= l.treasuryBalance
  }

  lemma DepositKeepsOffice(l: Ledger, signers: set<Address>, user: Address, amount: int)
    requires Deposit(l, signers, user, amount).Done?
    ensures SameOffice(l, Deposit(l, signers, user, amount).value.0)
  {
    hide Transfer, AssetsToShares;
  }

  lemma {:induction false} DepositsKeepOffice(l: Ledger, signers: set<Address>, entries: seq<DepositEntry>, n: nat)
    requires n <= |entries|
    ensures SameOffice(l, At(l, Batch.DepositTxs(signers, entries), n))
  {
    hide Deposit;
    if n > 0 {
      DepositsKeepOffice(l, signers, entries, n - 1);
      var before, e := At(l, Batch.DepositTxs(signers, entries), n - 1), entries[n - 1];
      if Deposit(before, signers, e.user, e.amount).Done? {
        DepositKeepsOffice(before, signers, e.user, e.amount);
      }
    }
  }

  lemma PayoutKeepsOffice(l: Ledger, tx: Tx)
    requires PaidAtOnce(l, tx) || Executed(l, tx)
    ensures SameOffice(l, After(l, tx))
  {
    PayoutIsDoWithdraw(l, tx);
    hide Perform, After, CoverFromStrategy, SharesToAssets, Transfer;
    var (p, shares) := Payout(l, tx);
    CoveringLeavesShares(p, SharesToAssets(shares, p.state.totalShares, p.state.totalAssets).value);
  }

  lemma ReportKeepsOffice(l: Ledger, tx: Tx)
    requires tx.call.CallReportBenjiYield? && Accepted(l, tx)
    ensures SameOffice(l, After(l, tx))
  {
    assert Perform(l, tx) == ReportBenjiYield(l, tx.signers, tx.call.strategy, tx.call.amount);
    hide Perform, Transfer, RaisedWatermark, FeeMath.CalculateProtocolFee;
  }

  lemma VotingKeepsOffice(l: Ledger, tx: Tx)
    requires tx.call.CallGovernance? && Accepted(l, tx) && !tx.call.action.SetThreshold?
    ensures SameOffice(l, After(l, tx))
  {
    assert Perform(l, tx) == Govern(l, tx.signers, tx.call.action);
    hide Perform;
  }

  lemma OtherCallKeepsOffice(l: Ledger, tx: Tx)
    requires !MovesShares(tx.call) && Accepted(l, tx) && l.config.admin !in tx.signers
    ensures SameOffice(l, After(l, tx))
  {
    if MustSign(l, tx.call).Some? {
      OtherCallIsSigned(l, tx);
    }
    match tx.call
    case CallReportBenjiYield(_, _) => ReportKeepsOffice(l, tx);
    case CallGovernance(_) => VotingKeepsOffice(l, tx);
    case _ => UnsignedKeepsOffice(l, tx);
  }

  lemma UnsignedKeepsOffice(l: Ledger, tx: Tx)
    requires tx.call.CallDivest? || tx.call.TokenTransfer? || tx.call.AdvanceTime?
    ensures SameOffice(l, After(l, tx))
  {
    match tx.call {
      case CallDivest(amount) => assert Perform(l, tx) == Divest(l, amount);
      case TokenTransfer(from, to, amount) => assert Perform(l, tx) == MoveTokens(l, tx.signers, from, to, amount);
      case AdvanceTime(timestamp) => assert Perform(l, tx) == PassTime(l, timestamp);
    }
    hide Perform, Transfer, LoweredWatermark;
  }

  /** Without the administrator's signature no call changes a setting, the pause or
      the voting threshold, or takes fees out. */
  lemma OfficeNeedsAdmin(l: Ledger, tx: Tx)
    requires CountersAgree(l) && l.config.admin !in tx.signers
    ensures SameOffice(l, After(l, tx))
  {
    hide Perform, Deposit, DoWithdraw, SharesToAssets, ValidConfig;
    if Accepted(l, tx) {
      if MovesShares(tx.call) {
        ShareCalls(l, tx);
        if tx.call.CallDeposit? {
          DepositKeepsOffice(l, tx.signers, tx.call.user, tx.call.amount);
        } else if tx.call.CallBatchDeposit? {
          DepositsKeepOffice(l, tx.signers, tx.call.entries, |tx.call.entries|);
        } else if Recorded(l, tx) {
          RecordingOnlyRecords(l, tx);
        } else {
          PayoutKeepsOffice(l, tx);
        }
      } else {
        OtherCallKeepsOffice(l, tx);
      }
    }
  }

  /** Over any stretch of any run that the administrator in office at its start does
      not sign, the office is as it was. */
  lemma {:induction false} OfficeStays(admin: Address, tokens: Balances, now: nat, txs: seq<Tx>, i: nat, j: nat)
    requires i <= j <= |txs|
    requires var boss := At(Initial(admin, tokens, now), txs, i).config.admin;
             forall k :: i <= k < j ==> boss !in txs[k].signers
    ensures SameOffice(At(Initial(admin, tokens, now), txs, i), At(Initial(admin, tokens, now), txs, j))
    decreases j
  {
    hide Perform, Initial, After, CountersAgree, ValidConfig;
    if i < j {
      OfficeStays(admin, tokens, now, txs, i, j - 1);
      CountersAlwaysAgree(admin, tokens, now, txs, j - 1);
      OfficeNeedsAdmin(At(Initial(admin, tokens, now), txs, j - 1), txs[j - 1]);
    }
  }

  // ---- Settings and clock told from the run ----

  /** The settings in force: the last valid ones their administrator signed for. */
  function ConfigAfter(admin: Address, txs: seq<Tx>, n: nat): Config
    requires n <= |txs|
  {
    if n == 0 then Defaults(admin)
    else
      var before, tx := ConfigAfter(admin, txs, n - 1), txs[n - 1];
      if tx.call.CallConfigure? && before.admin in tx.signers && ValidConfig(tx.call.config) then tx.call.config
      else before
  }

  function PausedAfter(admin: Address, txs: seq<Tx>, n: nat): bool
    requires n <= |txs|
  {
    if n == 0 then false
    else if txs[n - 1].call.CallPause? && ConfigAfter(admin, txs, n - 1).admin in txs[n - 1].signers
    then txs[n - 1].call.paused
    else PausedAfter(admin, txs, n - 1)
  }

  predicate SameSettings(l: Ledger, l': Ledger) {
    l'.config == l.config && l'.state.isPaused == l.state.isPaused
  }

  lemma StrategyCallKeepsSettings(l: Ledger, tx: Tx)
    requires tx.call.CallInvest? || tx.call.CallDivest? || tx.call.CallRebalance?
    ensures SameSettings(l, After(l, tx))
  {
    match tx.call {
      case CallInvest(amount, invested) => assert Perform(l, tx) == Invest(l, tx.signers, amount, invested);
      case CallDivest(amount) => assert Perform(l, tx) == Divest(l, amount);
      case CallRebalance(from, to, amount, d, i, v, w) =>
        assert Perform(l, tx) == Rebalance(l, tx.signers, from, to, amount, d, i, v, w);
    }
    hide Perform, Quotient, StrategyDeposit, StrategyWithdraw, LoweredWatermark, RaisedWatermark;
  }

  lemma YieldKeepsSettings(l: Ledger, tx: Tx)
    requires BooksYield(tx.call)
    ensures SameSettings(l, After(l, tx))
  {
    match tx.call {
      case CallAccrueYield(amount) => assert Perform(l, tx) == AccrueYield(l, tx.signers, amount);
      case CallReportBenjiYield(strategy, amount) =>
        assert Perform(l, tx) == ReportBenjiYield(l, tx.signers, strategy, amount);
      case CallAccrueKoreanDebtYield(harvested) =>
        assert Perform(l, tx) == AccrueKoreanDebtYield(l, tx.signers, harvested);
    }
    hide Perform, Quotient, FeeMath.InlineFee, FeeMath.CalculateProtocolFee, Transfer, RaisedWatermark;
  }

  lemma OtherCallKeepsSettings(l: Ledger, tx: Tx)
    requires tx.call.CallClaimFees? || tx.call.CallGovernance? || tx.call.TokenTransfer? || tx.call.AdvanceTime?
    ensures SameSettings(l, After(l, tx))
  {
    match tx.call {
      case CallClaimFees => assert Perform(l, tx) == ClaimFees(l, tx.signers);
      case CallGovernance(action) => assert Perform(l, tx) == Govern(l, tx.signers, action);
      case TokenTransfer(from, to, amount) => assert Perform(l, tx) == MoveTokens(l, tx.signers, from, to, amount);
      case AdvanceTime(timestamp) => assert Perform(l, tx) == PassTime(l, timestamp);
    }
    hide Perform, Transfer, Governance.Perform;
  }

  lemma SettersSet(l: Ledger, tx: Tx)
    requires tx.call.CallConfigure? || tx.call.CallPause?
    ensures var signed := l.config.admin in tx.signers;
            var l' := After(l, tx);
            && l'.config == (if tx.call.CallConfigure? && signed && ValidConfig(tx.call.config) then tx.call.config
                             else l.config)
            && l'.state.isPaused == if tx.call.CallPause? && signed then tx.call.paused else l.state.isPaused
  {
    match tx.call {
      case CallConfigure(config) => assert Perform(l, tx) == Configure(l, tx.signers, config);
      case CallPause(paused) => assert Perform(l, tx) == SetPaused(l, tx.signers, paused);
    }
    hide Perform, ValidConfig;
  }

  lemma ShareCallKeepsSettings(l: Ledger, tx: Tx)
    requires MovesShares(tx.call) && CountersAgree(l)
    ensures SameSettings(l, After(l, tx))
  {
    hide Perform, Deposit, DoWithdraw, SharesToAssets;
    if Accepted(l, tx) {
      ShareCalls(l, tx);
      if tx.call.CallDeposit? {
        DepositKeepsOffice(l, tx.signers, tx.call.user, tx.call.amount);
      } else if tx.call.CallBatchDeposit? {
        DepositsKeepOffice(l, tx.signers, tx.call.entries, |tx.call.entries|);
      } else if Recorded(l, tx) {
        RecordingOnlyRecords(l, tx);
      } else {
        PayoutKeepsOffice(l, tx);
      }
    }
  }

  lemma StepSets(l: Ledger, tx: Tx)
    requires CountersAgree(l)
    ensures var signed := l.config.admin in tx.signers;
            var l' := After(l, tx);
            && l'.config == (if tx.call.CallConfigure? && signed && ValidConfig(tx.call.config) then tx.call.config
                             else l.config)
            && l'.state.isPaused == if tx.call.CallPause? && signed then tx.call.paused else l.state.isPaused
  {
    hide Perform, After, ValidConfig, CountersAgree;
    if MovesShares(tx.call) {
      ShareCallKeepsSettings(l, tx);
    } else if BooksYield(tx.call) {
      YieldKeepsSettings(l, tx);
    } else if tx.call.CallInvest? || tx.call.CallDivest? || tx.call.CallRebalance? {
      StrategyCallKeepsSettings(l, tx);
    } else if tx.call.CallConfigure? || tx.call.CallPause? {
      SettersSet(l, tx);
    } else {
      OtherCallKeepsSettings(l, tx);
    }
  }

  /** In every state of every run settings and pause are those last set by whoever
      was administrator then, however many calls came in between. */
  lemma {:induction false} SettingsAreLastSet(admin: Address, tokens: Balances, now: nat, txs: seq<Tx>, n: nat)
    requires n <= |txs|
    ensures var l := At(Initial(admin, tokens, now), txs, n);
            l.config == ConfigAfter(admin, txs, n) && l.state.isPaused == PausedAfter(admin, txs, n)
  {
    if n == 0 {
      hide Perform;
    } else {
      hide Perform, Initial, After, CountersAgree, ValidConfig;
      SettingsAreLastSet(admin, tokens, now, txs, n - 1);
      CountersAlwaysAgree(admin, tokens, now, txs, n - 1);
      StepSets(At(Initial(admin, tokens, now), txs, n - 1), txs[n - 1]);
    }
  }
}
