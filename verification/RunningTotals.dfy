/** What the vault's running counters say about a whole run: a user's net deposits,
    which the cap limits, and a strategy's high-watermark
    (`contracts/vault/src/lib.rs`, lines 1114-1179, 1379-1469, 1585-1843, 2182-2232). */
module RunningTotals {
  import opened Checked
  import opened Sums
  import opened Token
  import opened ShareMath
  import opened VaultLedger
  import opened ShareAccounting
  import opened Levels
  import Batch
  import FeeMath
  import Governance
  import Limits
  import Timelock

  // ---- Net deposits ----

  /** What the user deposits in the first `n` deposits of a sequence. */
  function DepositedIn(l: Ledger, txs: seq<Tx>, n: nat, user: Address): int
    requires n <= |txs| && forall i :: 0 <= i < n ==> txs[i].call.CallDeposit?
  {
    if n == 0 then 0
    else
      DepositedIn(l, txs, n - 1, user)
      + if txs[n - 1].call.user == user && Accepted(At(l, txs, n - 1), txs[n - 1]) then txs[n - 1].call.amount else 0
  }

  /** The assets a payout pays. */
  function PaidOut(l: Ledger, tx: Tx): int
    requires PaidAtOnce(l, tx) || Executed(l, tx)
  {
    PayoutIsDoWithdraw(l, tx);
    var (p, shares) := Payout(l, tx);
    SharesToAssets(shares, p.state.totalShares, p.state.totalAssets).value
  }

  /** What the call deposits for the user or pays to them. */
  function DepositMove(l: Ledger, tx: Tx, user: Address): Move {
    if !Accepted(l, tx) then Up(0)
    else if tx.call.CallDeposit? && tx.call.user == user then Up(tx.call.amount)
    else if tx.call.CallBatchDeposit? then
      Up(DepositedIn(l, Batch.DepositTxs(tx.signers, tx.call.entries), |tx.call.entries|, user))
    else if (PaidAtOnce(l, tx) || Executed(l, tx)) && tx.call.user == user then Down(PaidOut(l, tx))
    else Up(0)
  }

  lemma {:induction false} DepositsAddUp(l: Ledger, signers: set<Address>, entries: seq<DepositEntry>, n: nat,
                                         user: Address)
    requires n <= |entries|
    ensures var txs := Batch.DepositTxs(signers, entries);
            Get(At(l, txs, n).userDeposit, user) == Get(l.userDeposit, user) + DepositedIn(l, txs, n, user)
  {
    hide Deposit;
    if n > 0 {
      DepositsAddUp(l, signers, entries, n - 1, user);
      var before, e := At(l, Batch.DepositTxs(signers, entries), n - 1), entries[n - 1];
      if Deposit(before, signers, e.user, e.amount).Done? {
        Limits.DepositRecords(before, signers, e.user, e.amount);
      }
    }
  }

  lemma PayoutLowers(l: Ledger, user: Address, shares: int, assets: int, u: Address)
    requires DoWithdraw(l, user, shares, assets).Done?
    ensures Get(DoWithdraw(l, user, shares, assets).value.0.userDeposit, u)
         == if u == user then Applied(Get(l.userDeposit, u), Down(assets)) else Get(l.userDeposit, u)
  {
    CoveringLeavesShares(l, assets);
    hide CoverFromStrategy, Transfer;
  }

  lemma PayoutMovesDeposits(l: Ledger, tx: Tx, user: Address)
    requires PaidAtOnce(l, tx) || Executed(l, tx)
    ensures Get(After(l, tx).userDeposit, user) == Applied(Get(l.userDeposit, user), DepositMove(l, tx, user))
  {
    PayoutIsDoWithdraw(l, tx);
    hide Perform, After, DoWithdraw, SharesToAssets;
    var (p, shares) := Payout(l, tx);
    PayoutLowers(p, tx.call.user, shares, PaidOut(l, tx), user);
  }

  lemma MovesNoDeposit(l: Ledger, tx: Tx, user: Address)
    requires !MovesShares(tx.call) || !Accepted(l, tx) || Recorded(l, tx)
    ensures DepositMove(l, tx, user) == Up(0)
  {
    hide Perform;
  }

  lemma StepMovesDeposits(l: Ledger, tx: Tx, user: Address)
    requires CountersAgree(l)
    ensures Get(After(l, tx).userDeposit, user) == Applied(Get(l.userDeposit, user), DepositMove(l, tx, user))
  {
    if !MovesShares(tx.call) {
      MovesNoDeposit(l, tx, user);
      OtherCallsLeaveShares(l, tx);
      hide Perform, After;
    } else if !Accepted(l, tx) {
      MovesNoDeposit(l, tx, user);
      hide Perform;
    } else {
      hide Perform, Deposit, DoWithdraw, SharesToAssets;
      ShareCalls(l, tx);
      if tx.call.CallDeposit? {
        Limits.DepositRecords(l, tx.signers, tx.call.user, tx.call.amount);
      } else if tx.call.CallBatchDeposit? {
        DepositsAddUp(l, tx.signers, tx.call.entries, |tx.call.entries|, user);
      } else if Recorded(l, tx) {
        MovesNoDeposit(l, tx, user);
        RecordingOnlyRecords(l, tx);
      } else {
        PayoutMovesDeposits(l, tx, user);
      }
    }
  }

  /** What the user deposited less what they were paid, from transaction `k` on. */
  function Net(l: Ledger, txs: seq<Tx>, k: nat, n: nat, user: Address): int
    requires k <= n <= |txs|
    decreases n
  {
    if k == n then 0
    else Net(l, txs, k, n - 1, user) + Signed(DepositMove(At(l, txs, n - 1), txs[n - 1], user))
  }

  lemma {:induction false} NetIsBounded(l: Ledger, txs: seq<Tx>, k: nat, n: nat, user: Address)
    requires k <= n <= |txs| && CountersAgree(l) && Get(l.userDeposit, user) >= 0
    requires Get(At(l, txs, k).userDeposit, user) >= 0
    ensures Net(l, txs, k, n, user) <= Get(At(l, txs, n).userDeposit, user)
    decreases n
  {
    hide Perform, After, CountersAgree, DepositMove;
    if k < n {
      NetIsBounded(l, txs, k, n - 1, user);
      Timelock.ClockNeverRunsBack(l, txs, n - 1, n - 1);
      StepMovesDeposits(At(l, txs, n - 1), txs[n - 1], user);
    }
  }

  /** In every state of every run a user's recorded net deposits are the most they
      deposited, less what they were paid, over any stretch of the run that ends
      here: no stretch exceeds them, and one of them reaches them. */
  lemma {:induction false} NetDepositsAreHighest(admin: Address, tokens: Balances, now: nat, txs: seq<Tx>, n: nat,
                                                 user: Address) returns (k: nat)
    requires n <= |txs|
    ensures var l := Initial(admin, tokens, now);
            var recorded := Get(At(l, txs, n).userDeposit, user);
            && (forall i :: 0 <= i <= n ==> Net(l, txs, i, n, user) <= recorded)
            && k <= n && Net(l, txs, k, n, user) == recorded
  {
    hide Perform, Initial, After, CountersAgree, DepositMove;
    var l := Initial(admin, tokens, now);
    Limits.NobodyDeposited(admin, tokens, now, user);
    if n == 0 {
      k := 0;
    } else {
      k := NetDepositsAreHighest(admin, tokens, now, txs, n - 1, user);
      CountersAlwaysAgree(admin, tokens, now, txs, n - 1);
      var before, tx := At(l, txs, n - 1), txs[n - 1];
      assert Net(l, txs, n - 1, n - 1, user) == 0;
      StepMovesDeposits(before, tx, user);
      var m := DepositMove(before, tx, user);
      NeverRaised(before, tx, user);
      forall i | 0 <= i <= n
        ensures Net(l, txs, i, n, user) <= Get(At(l, txs, n).userDeposit, user)
      {
      }
      if m.Down? && Get(before.userDeposit, user) <= m.amount {
        k := n;
      }
    }
  }

  lemma {:induction false} DepositedIsNotNegative(l: Ledger, signers: set<Address>, entries: seq<DepositEntry>, n: nat,
                                                  user: Address)
    requires n <= |entries|
    ensures DepositedIn(l, Batch.DepositTxs(signers, entries), n, user) >= 0
  {
    hide Deposit;
    if n > 0 {
      DepositedIsNotNegative(l, signers, entries, n - 1, user);
      var before, e := At(l, Batch.DepositTxs(signers, entries), n - 1), entries[n - 1];
      if Deposit(before, signers, e.user, e.amount).Done? {
        DepositMints(before, signers, e.user, e.amount);
      }
    }
  }

  lemma NeverRaised(l: Ledger, tx: Tx, user: Address)
    ensures !DepositMove(l, tx, user).Raise?
    ensures DepositMove(l, tx, user).Up? ==> DepositMove(l, tx, user).amount >= 0
  {
    if tx.call.CallBatchDeposit? {
      DepositedIsNotNegative(l, tx.signers, tx.call.entries, |tx.call.entries|, user);
    } else if tx.call.CallDeposit? && Accepted(l, tx) {
      DepositMints(l, tx.signers, tx.call.user, tx.call.amount);
    }
    hide Perform, Deposit;
  }

  /** The cap limits what it is for: over no stretch of a run does a user put in more
      than they are paid back and the highest cap in force before its end. */
  lemma CapLimitsNetDeposits(admin: Address, tokens: Balances, now: nat, txs: seq<Tx>, k: nat, n: nat, user: Address,
                             bound: int)
    requires k <= n <= |txs| && 0 <= bound
    requires forall i :: 0 <= i < n ==> At(Initial(admin, tokens, now), txs, i).config.perUserCap <= bound
    ensures Net(Initial(admin, tokens, now), txs, k, n, user) <= bound
  {
    hide *;
    var _ := NetDepositsAreHighest(admin, tokens, now, txs, n, user);
    Limits.DepositsStayWithinCap(admin, tokens, now, txs, n, user, bound);
  }

  // ---- The high-watermark of a strategy ----

  /** What a payout recalls from the configured strategy. */
  function Recalled(l: Ledger, assets: int, strategy: Address): seq<Move> {
    if l.idleAssets < assets && l.config.strategy == Some(strategy) then [Down(assets - l.idleAssets)] else []
  }

  /** What the call does to a strategy's watermark, told from its arguments. */
  function WatermarkMoves(l: Ledger, tx: Tx, strategy: Address): seq<Move> {
    if !Accepted(l, tx) then []
    else
      match tx.call
      case CallInvest(amount, invested) =>
        if l.config.strategy == Some(strategy) then [Raise(invested + amount)] else []
      case CallDivest(amount) => if l.config.strategy == Some(strategy) then [Down(amount)] else []
      case CallRebalance(from, to, amount, _, _, _, valueAfter) =>
        (if from == strategy then [Down(amount)] else []) + (if to == strategy then [Raise(valueAfter)] else [])
      case CallReportBenjiYield(reporter, amount) => if reporter == strategy then [Up(amount)] else []
      case CallWithdraw(_, _) => if PaidAtOnce(l, tx) then Recalled(l, PaidOut(l, tx), strategy) else []
      case CallExecuteWithdrawal(_) => if Executed(l, tx) then Recalled(l, PaidOut(l, tx), strategy) else []
      case _ => []
  }

  /** All of them in the first `n` transactions. */
  function WatermarkHistory(l: Ledger, txs: seq<Tx>, n: nat, strategy: Address): seq<Move>
    requires n <= |txs|
  {
    if n == 0 then [] else WatermarkHistory(l, txs, n - 1, strategy)
                           + WatermarkMoves(At(l, txs, n - 1), txs[n - 1], strategy)
  }

  /** At most two moves, one after the other. */
  function Moved(x: int, moves: seq<Move>): int {
    if moves == [] then x else if |moves| == 1 then Applied(x, moves[0]) else Applied(Applied(x, moves[0]), moves[1])
  }

  lemma LoweringMoves(w: map<Address, int>, strategy: Address, amount: int, s: Address)
    requires LoweredWatermark(w, strategy, amount).Done?
    ensures Get(LoweredWatermark(w, strategy, amount).value, s)
         == if s == strategy then Applied(Get(w, s), Down(amount)) else Get(w, s)
  {
  }

  lemma RaisingMoves(w: map<Address, int>, strategy: Address, candidate: int, s: Address)
    ensures Get(RaisedWatermark(w, strategy, candidate), s)
         == if s == strategy then Applied(Get(w, s), Raise(candidate)) else Get(w, s)
  {
  }

  lemma CoveringMovesWatermark(l: Ledger, assets: int, s: Address)
    requires CoverFromStrategy(l, assets).Done?
    ensures Get(CoverFromStrategy(l, assets).value.0.watermark, s)
         == Moved(Get(l.watermark, s), Recalled(l, assets, s))
  {
    hide StrategyWithdraw, LoweredWatermark, Applied;
    if l.idleAssets < assets {
      LoweringMoves(l.watermark, l.config.strategy.value, assets - l.idleAssets, s);
    }
  }

  lemma PayoutMovesWatermark(l: Ledger, tx: Tx, s: Address)
    requires PaidAtOnce(l, tx) || Executed(l, tx)
    ensures Get(After(l, tx).watermark, s) == Moved(Get(l.watermark, s), WatermarkMoves(l, tx, s))
  {
    PayoutIsDoWithdraw(l, tx);
    var (p, shares) := Payout(l, tx);
    hide Perform, After, DoWithdraw, SharesToAssets, Moved, Recalled;
    DoWithdrawMovesWatermark(p, tx.call.user, shares, PaidOut(l, tx), s);
    RecalledAlike(l, p, PaidOut(l, tx), s);
  }

  lemma RecalledAlike(l: Ledger, p: Ledger, assets: int, s: Address)
    requires p.idleAssets == l.idleAssets && p.config == l.config
    ensures Recalled(p, assets, s) == Recalled(l, assets, s)
  {
  }

  lemma DoWithdrawMovesWatermark(l: Ledger, user: Address, shares: int, assets: int, s: Address)
    requires DoWithdraw(l, user, shares, assets).Done?
    ensures Get(DoWithdraw(l, user, shares, assets).value.0.watermark, s)
         == Moved(Get(l.watermark, s), Recalled(l, assets, s))
  {
    CoveringMovesWatermark(l, assets, s);
    hide CoverFromStrategy, Transfer, Moved, Recalled;
  }

  lemma StrategyCallMovesWatermark(l: Ledger, tx: Tx, s: Address)
    requires (tx.call.CallInvest? || tx.call.CallDivest?) && Accepted(l, tx)
    ensures Get(After(l, tx).watermark, s) == Moved(Get(l.watermark, s), WatermarkMoves(l, tx, s))
  {
    match tx.call {
      case CallInvest(amount, invested) => assert Perform(l, tx) == Invest(l, tx.signers, amount, invested);
      case CallDivest(amount) => assert Perform(l, tx) == Divest(l, amount);
    }
    hide Perform, Quotient, StrategyDeposit, StrategyWithdraw, LoweredWatermark, RaisedWatermark, Applied;
    if tx.call.CallInvest? {
      RaisingMoves(l.watermark, l.config.strategy.value, tx.call.invested + tx.call.amount, s);
    } else {
      LoweringMoves(l.watermark, l.config.strategy.value, tx.call.amount, s);
    }
  }

  lemma RebalanceMovesWatermark(l: Ledger, tx: Tx, s: Address)
    requires tx.call.CallRebalance? && Typed(tx.call) && Accepted(l, tx)
    ensures Get(After(l, tx).watermark, s) == Moved(Get(l.watermark, s), WatermarkMoves(l, tx, s))
  {
    var c := tx.call;
    assert Perform(l, tx) == Rebalance(l, tx.signers, c.from, c.to, c.amount, c.minDivest, c.minInvest,
                                       c.valueBefore, c.valueAfter);
    hide Perform, Transfer, LoweredWatermark, RaisedWatermark, Applied;
    TransferMoves(l.tokens, c.from, VAULT, c.amount, VAULT);
    LoweringMoves(l.watermark, c.from, c.amount, s);
    RaisingMoves(LoweredWatermark(l.watermark, c.from, c.amount).value, c.to, c.valueAfter, s);
  }

  lemma YieldMovesWatermark(l: Ledger, tx: Tx, s: Address)
    requires BooksYield(tx.call) && Accepted(l, tx)
    ensures Get(After(l, tx).watermark, s) == Moved(Get(l.watermark, s), WatermarkMoves(l, tx, s))
  {
    if tx.call.CallReportBenjiYield? {
      ReportMovesWatermark(l, tx, s);
    } else {
      match tx.call {
        case CallAccrueYield(amount) => assert Perform(l, tx) == AccrueYield(l, tx.signers, amount);
        case CallAccrueKoreanDebtYield(harvested) =>
          assert Perform(l, tx) == AccrueKoreanDebtYield(l, tx.signers, harvested);
      }
      hide Perform, Quotient, FeeMath.InlineFee, Transfer;
    }
  }

  lemma ReportMovesWatermark(l: Ledger, tx: Tx, s: Address)
    requires tx.call.CallReportBenjiYield? && Accepted(l, tx)
    ensures Get(After(l, tx).watermark, s) == Moved(Get(l.watermark, s), WatermarkMoves(l, tx, s))
  {
    assert Perform(l, tx) == ReportBenjiYield(l, tx.signers, tx.call.strategy, tx.call.amount);
    hide Perform, FeeMath.CalculateProtocolFee, Transfer, RaisedWatermark;
    RaisingMoves(l.watermark, tx.call.strategy, Get(l.watermark, tx.call.strategy) + tx.call.amount, s);
  }

  lemma HousekeepingKeepsWatermark(l: Ledger, tx: Tx)
    requires tx.call.CallClaimFees? || tx.call.CallConfigure? || tx.call.CallPause? || tx.call.CallGovernance?
             || tx.call.TokenTransfer? || tx.call.AdvanceTime?
    requires Accepted(l, tx)
    ensures After(l, tx).watermark == l.watermark
  {
    match tx.call {
      case CallClaimFees => assert Perform(l, tx) == ClaimFees(l, tx.signers);
      case CallConfigure(config) => assert Perform(l, tx) == Configure(l, tx.signers, config);
      case CallPause(paused) => assert Perform(l, tx) == SetPaused(l, tx.signers, paused);
      case CallGovernance(action) => assert Perform(l, tx) == Govern(l, tx.signers, action);
      case TokenTransfer(from, to, amount) => assert Perform(l, tx) == MoveTokens(l, tx.signers, from, to, amount);
      case AdvanceTime(timestamp) => assert Perform(l, tx) == PassTime(l, timestamp);
    }
    hide Perform, ValidConfig, Transfer, Governance.Perform;
  }

  lemma DepositKeepsWatermark(l: Ledger, signers: set<Address>, user: Address, amount: int)
    requires Deposit(l, signers, user, amount).Done?
    ensures Deposit(l, signers, user, amount).value.0.watermark == l.watermark
  {
    hide Transfer, AssetsToShares;
  }

  lemma {:induction false} DepositsKeepWatermark(l: Ledger, signers: set<Address>, entries: seq<DepositEntry>, i: nat)
    requires i <= |entries|
    ensures At(l, Batch.DepositTxs(signers, entries), i).watermark == l.watermark
  {
    hide Deposit;
    if i > 0 {
      DepositsKeepWatermark(l, signers, entries, i - 1);
      var before, e := At(l, Batch.DepositTxs(signers, entries), i - 1), entries[i - 1];
      if Deposit(before, signers, e.user, e.amount).Done? {
        DepositKeepsWatermark(before, signers, e.user, e.amount);
      }
    }
  }

  lemma NoWatermarkMoves(l: Ledger, tx: Tx, s: Address)
    requires || !Accepted(l, tx) || Recorded(l, tx)
             || !(tx.call.CallInvest? || tx.call.CallDivest? || tx.call.CallRebalance?
                  || tx.call.CallReportBenjiYield? || tx.call.CallWithdraw? || tx.call.CallExecuteWithdrawal?)
    ensures WatermarkMoves(l, tx, s) == []
  {
    hide Perform;
  }

  lemma StepMovesWatermark(l: Ledger, tx: Tx, s: Address)
    requires CountersAgree(l) && Typed(tx.call)
    ensures Get(After(l, tx).watermark, s) == Moved(Get(l.watermark, s), WatermarkMoves(l, tx, s))
  {
    hide Perform, Deposit, DoWithdraw, SharesToAssets, WatermarkMoves, Applied;
    if !Accepted(l, tx) {
      NoWatermarkMoves(l, tx, s);
    } else if MovesShares(tx.call) {
      ShareCalls(l, tx);
      if tx.call.CallDeposit? {
        NoWatermarkMoves(l, tx, s);
        DepositKeepsWatermark(l, tx.signers, tx.call.user, tx.call.amount);
      } else if tx.call.CallBatchDeposit? {
        NoWatermarkMoves(l, tx, s);
        DepositsKeepWatermark(l, tx.signers, tx.call.entries, |tx.call.entries|);
      } else if Recorded(l, tx) {
        NoWatermarkMoves(l, tx, s);
        RecordingOnlyRecords(l, tx);
      } else {
        PayoutMovesWatermark(l, tx, s);
      }
    } else if BooksYield(tx.call) {
      YieldMovesWatermark(l, tx, s);
    } else if tx.call.CallInvest? || tx.call.CallDivest? {
      StrategyCallMovesWatermark(l, tx, s);
    } else if tx.call.CallRebalance? {
      RebalanceMovesWatermark(l, tx, s);
    } else {
      NoWatermarkMoves(l, tx, s);
      HousekeepingKeepsWatermark(l, tx);
    }
  }

  lemma AtMostTwoMoves(l: Ledger, tx: Tx, s: Address)
    ensures |WatermarkMoves(l, tx, s)| <= 2
  {
    hide Perform;
  }

  lemma {:induction false} WatermarkIsLevel(admin: Address, tokens: Balances, now: nat, txs: seq<Tx>, n: nat,
                                            s: Address)
    requires n <= |txs| && WellFormed(txs)
    ensures var l := Initial(admin, tokens, now);
            Get(At(l, txs, n).watermark, s) == Level(WatermarkHistory(l, txs, n, s))
  {
    hide Perform, Initial, After, Level, CountersAgree, WatermarkMoves, Applied;
    var l := Initial(admin, tokens, now);
    if n == 0 {
      NoWatermarkYet(admin, tokens, now, s);
    } else {
      WatermarkIsLevel(admin, tokens, now, txs, n - 1, s);
      CountersAlwaysAgree(admin, tokens, now, txs, n - 1);
      var before, tx := At(l, txs, n - 1), txs[n - 1];
      StepMovesWatermark(before, tx, s);
      AtMostTwoMoves(before, tx, s);
      LevelOf(WatermarkHistory(l, txs, n - 1, s), WatermarkMoves(before, tx, s));
    }
  }

  lemma NoWatermarkYet(admin: Address, tokens: Balances, now: nat, s: Address)
    ensures Get(Initial(admin, tokens, now).watermark, s) == 0 && Level([]) == 0
  {
  }

  /** In every state of every run a strategy's watermark is the highest of what it
      was raised to by an investment, or of zero where a recall exhausted it, less
      what was recalled and more what it reported since. */
  lemma WatermarkIsHighest(admin: Address, tokens: Balances, now: nat, txs: seq<Tx>, n: nat, s: Address)
    returns (k: nat, base: int)
    requires n <= |txs| && WellFormed(txs)
    ensures var l := Initial(admin, tokens, now);
            var watermark, moves := Get(At(l, txs, n).watermark, s), WatermarkHistory(l, txs, n, s);
            && (forall i, b :: 0 <= i <= |moves| && Anchored(moves, i, b) ==> b + Drift(moves, i) <= watermark)
            && k <= |moves| && Anchored(moves, k, base) && base + Drift(moves, k) == watermark
  {
    hide *;
    WatermarkIsLevel(admin, tokens, now, txs, n, s);
    k, base := LevelIsHighest(WatermarkHistory(Initial(admin, tokens, now), txs, n, s));
  }
}
