/** Large withdrawals wait a day and are paid once; yield is reported only by
    strategies that governance chose. Both need to know which calls touch the
    clock, the pending records and the governance state. */
module Timelock {
  import opened Checked
  import opened Token
  import opened ShareMath
  import opened VaultLedger
  import opened ShareAccounting
  import Batch
  import FeeMath
  import Governance

  // ---- What leaves the clock and governance alone ----

  predicate SameClockAndDao(l: Ledger, l': Ledger) {
    l'.now == l.now && l'.dao == l.dao
  }

  lemma DepositFrame(l: Ledger, signers: set<Address>, user: Address, amount: int)
    requires Deposit(l, signers, user, amount).Done?
    ensures var l' := Deposit(l, signers, user, amount).value.0;
            SameClockAndDao(l, l') && l'.pending == l.pending
  {
    hide Transfer, AssetsToShares;
  }

  lemma {:induction false} DepositsFrame(l: Ledger, signers: set<Address>, entries: seq<DepositEntry>, i: nat)
    requires i <= |entries|
    ensures var l' := At(l, Batch.DepositTxs(signers, entries), i);
            SameClockAndDao(l, l') && l'.pending == l.pending
  {
    hide Deposit;
    if i > 0 {
      DepositsFrame(l, signers, entries, i - 1);
      var before, e := At(l, Batch.DepositTxs(signers, entries), i - 1), entries[i - 1];
      if Deposit(before, signers, e.user, e.amount).Done? {
        DepositFrame(before, signers, e.user, e.amount);
      }
    }
  }

  lemma PayoutFrame(l: Ledger, tx: Tx)
    requires PaidAtOnce(l, tx) || Executed(l, tx)
    ensures SameClockAndDao(l, After(l, tx))
  {
    hide Perform, SharesToAssets, CoverFromStrategy, Transfer;
    PayoutIsDoWithdraw(l, tx);
    var (p, shares) := Payout(l, tx);
    CoveringLeavesShares(p, SharesToAssets(shares, p.state.totalShares, p.state.totalAssets).value);
  }

  lemma StrategyFrame(l: Ledger, tx: Tx)
    requires tx.call.CallInvest? || tx.call.CallDivest? || tx.call.CallRebalance?
    ensures SameClockAndDao(l, After(l, tx))
  {
    hide Quotient, StrategyDeposit, StrategyWithdraw, LoweredWatermark, RaisedWatermark;
  }

  lemma YieldFrame(l: Ledger, tx: Tx)
    requires BooksYield(tx.call)
    ensures SameClockAndDao(l, After(l, tx))
  {
    hide Quotient, FeeMath.InlineFee, FeeMath.CalculateProtocolFee, Transfer, RaisedWatermark;
  }

  lemma HousekeepingFrame(l: Ledger, tx: Tx)
    requires tx.call.CallClaimFees? || tx.call.CallConfigure? || tx.call.CallPause? || tx.call.TokenTransfer?
    ensures SameClockAndDao(l, After(l, tx))
  {
    hide ValidConfig, Transfer;
  }

  /** What each call may do to the clock, the pending records and governance. */
  lemma StepFrame(l: Ledger, tx: Tx)
    requires CountersAgree(l)
    ensures !tx.call.AdvanceTime? && !tx.call.CallGovernance? ==> SameClockAndDao(l, After(l, tx))
    ensures !Recorded(l, tx) && !Executed(l, tx) ==> After(l, tx).pending == l.pending
  {
    hide Perform, SameClockAndDao, DoWithdraw, Deposit, SharesToAssets;
    if MovesShares(tx.call) {
      if Accepted(l, tx) {
        ShareCalls(l, tx);
        if tx.call.CallDeposit? {
          DepositFrame(l, tx.signers, tx.call.user, tx.call.amount);
        } else if tx.call.CallBatchDeposit? {
          DepositsFrame(l, tx.signers, tx.call.entries, |tx.call.entries|);
        } else if Recorded(l, tx) {
          RecordingFrame(l, tx);
        } else {
          PayoutFrame(l, tx);
          PayoutBurns(l, tx);
        }
      } else {
        assert SameClockAndDao(l, l) by { Unchanged(l); }
      }
    } else {
      OtherCallsLeaveShares(l, tx);
      if BooksYield(tx.call) {
        YieldFrame(l, tx);
      } else if tx.call.CallInvest? || tx.call.CallDivest? || tx.call.CallRebalance? {
        StrategyFrame(l, tx);
      } else if !tx.call.AdvanceTime? && !tx.call.CallGovernance? {
        HousekeepingFrame(l, tx);
      }
    }
  }

  lemma Unchanged(l: Ledger)
    ensures SameClockAndDao(l, l)
  {
  }

  lemma RecordingFrame(l: Ledger, tx: Tx)
    requires Recorded(l, tx)
    ensures SameClockAndDao(l, After(l, tx))
  {
    hide Perform;
    RecordingOnlyRecords(l, tx);
  }

  lemma ClockAdvances(l: Ledger, tx: Tx)
    requires CountersAgree(l)
    ensures l.now <= After(l, tx).now
  {
    hide CountersAgree, Governance.Perform, Deposit, BatchDeposit, Withdraw, ExecuteWithdrawal, Invest, Divest,
         Rebalance, AccrueYield, ReportBenjiYield, AccrueKoreanDebtYield, ClaimFees, Configure;
    if !tx.call.AdvanceTime? && !tx.call.CallGovernance? {
      StepFrame(l, tx);
    }
  }

  lemma {:induction false} ClockNeverRunsBack(l: Ledger, txs: seq<Tx>, i: nat, j: nat)
    requires i <= j <= |txs| && CountersAgree(l)
    ensures CountersAgree(At(l, txs, j))
    ensures At(l, txs, i).now <= At(l, txs, j).now
    decreases j
  {
    hide Perform, CountersAgree;
    if i < j {
      ClockNeverRunsBack(l, txs, i, j - 1);
      StepKeepsCounters(At(l, txs, j - 1), txs[j - 1]);
      ClockAdvances(At(l, txs, j - 1), txs[j - 1]);
    } else if 0 < j {
      ClockNeverRunsBack(l, txs, j - 1, j - 1);
      StepKeepsCounters(At(l, txs, j - 1), txs[j - 1]);
    }
  }

  // ---- Each record has one writer and is paid at most once ----

  predicate RecordedBy(l: Ledger, tx: Tx, user: Address) {
    Recorded(l, tx) && tx.call.user == user
  }

  predicate ExecutedFor(l: Ledger, tx: Tx, user: Address) {
    Executed(l, tx) && tx.call.user == user
  }

  /** The transaction that wrote the user's current record, if there is one. */
  function Writer(l: Ledger, txs: seq<Tx>, n: nat, user: Address): Option<nat>
    requires n <= |txs|
  {
    if n == 0 then None
    else if RecordedBy(At(l, txs, n - 1), txs[n - 1], user) then Some(n - 1)
    else if ExecutedFor(At(l, txs, n - 1), txs[n - 1], user) then None
    else Writer(l, txs, n - 1, user)
  }

  /** `w` wrote the user's record, and nothing replaced or paid it before `n`. */
  ghost predicate WroteRecord(l: Ledger, txs: seq<Tx>, w: nat, n: nat, user: Address)
    requires n <= |txs|
  {
    && w < n
    && RecordedBy(At(l, txs, w), txs[w], user)
    && (forall k :: w < k < n ==> !RecordedBy(At(l, txs, k), txs[k], user) && !ExecutedFor(At(l, txs, k), txs[k], user))
    && user in At(l, txs, n).pending
    && At(l, txs, n).pending[user] == PendingWithdrawal(txs[w].call.shares, At(l, txs, w).now + TIMELOCK_SECONDS)
  }

  lemma StepKeepsRecord(l: Ledger, tx: Tx, user: Address)
    requires CountersAgree(l)
    ensures RecordedBy(l, tx, user) ==>
              user in After(l, tx).pending
              && After(l, tx).pending[user] == PendingWithdrawal(tx.call.shares, l.now + TIMELOCK_SECONDS)
    ensures ExecutedFor(l, tx, user) ==> user !in After(l, tx).pending
    ensures !RecordedBy(l, tx, user) && !ExecutedFor(l, tx, user) ==>
              (user in After(l, tx).pending <==> user in l.pending)
              && (user in l.pending ==> After(l, tx).pending[user] == l.pending[user])
  {
    hide Perform, CountersAgree;
    if Recorded(l, tx) {
      RecordingOnlyRecords(l, tx);
    } else if Executed(l, tx) {
      PayoutBurns(l, tx);
    } else {
      StepFrame(l, tx);
    }
  }

  lemma {:induction false} RecordsHaveWriters(l: Ledger, txs: seq<Tx>, n: nat, user: Address)
    requires n <= |txs| && CountersAgree(l) && l.pending == map[]
    ensures var w := Writer(l, txs, n, user);
            && (w.Some? ==> WroteRecord(l, txs, w.value, n, user))
            && (w.None? ==> user !in At(l, txs, n).pending)
  {
    hide Perform, CountersAgree, Recorded, Executed;
    if n > 0 {
      RecordsHaveWriters(l, txs, n - 1, user);
      ClockNeverRunsBack(l, txs, n - 1, n - 1);
      StepKeepsRecord(At(l, txs, n - 1), txs[n - 1], user);
    }
  }

  /** Every payout of a recorded withdrawal comes at least 86,400 seconds after
      the withdrawal that wrote the record, is for the shares recorded there, and
      nothing replaced or paid the record in between. */
  lemma PayoutsWaitADay(admin: Address, tokens: Balances, now: nat, txs: seq<Tx>, j: nat)
    requires j < |txs| && Executed(At(Initial(admin, tokens, now), txs, j), txs[j])
    ensures var l, user := Initial(admin, tokens, now), txs[j].call.user;
            var w := Writer(l, txs, j, user);
            && w.Some? && WroteRecord(l, txs, w.value, j, user)
            && At(l, txs, j).now >= At(l, txs, w.value).now + TIMELOCK_SECONDS
  {
    hide Perform, Initial;
    var l := Initial(admin, tokens, now);
    assert CountersAgree(l) && l.pending == map[] by { FreshLedger(admin, tokens, now); }
    RecordsHaveWriters(l, txs, j, txs[j].call.user);
    UnlockedWhenExecuted(At(l, txs, j), txs[j]);
  }

  lemma FreshLedger(admin: Address, tokens: Balances, now: nat)
    ensures CountersAgree(Initial(admin, tokens, now)) && Initial(admin, tokens, now).pending == map[]
  {
  }

  lemma UnlockedWhenExecuted(l: Ledger, tx: Tx)
    requires Executed(l, tx)
    ensures tx.call.user in l.pending && l.now >= l.pending[tx.call.user].unlockTimestamp
  {
    hide DoWithdraw, SharesToAssets;
  }

  lemma {:induction false} WriterComesAfterPayout(l: Ledger, txs: seq<Tx>, i: nat, n: nat, user: Address)
    requires i < n <= |txs| && ExecutedFor(At(l, txs, i), txs[i], user) && Writer(l, txs, n, user).Some?
    ensures Writer(l, txs, n, user).value > i
    decreases n
  {
    hide Perform, Recorded, Executed;
    if n > i + 1 && !RecordedBy(At(l, txs, n - 1), txs[n - 1], user) {
      WriterComesAfterPayout(l, txs, i, n - 1, user);
    } else {
      RecordingIsNotExecuting(At(l, txs, n - 1), txs[n - 1]);
    }
  }

  lemma RecordingIsNotExecuting(l: Ledger, tx: Tx)
    ensures !(Recorded(l, tx) && Executed(l, tx))
  {
    hide Perform;
  }

  /** No record is paid twice: two payouts to the same user go back to two
      different withdrawals. */
  lemma NoRecordPaidTwice(admin: Address, tokens: Balances, now: nat, txs: seq<Tx>, i: nat, j: nat)
    requires i < j < |txs|
    requires Executed(At(Initial(admin, tokens, now), txs, i), txs[i])
    requires Executed(At(Initial(admin, tokens, now), txs, j), txs[j])
    requires txs[i].call.user == txs[j].call.user
    ensures var l, user := Initial(admin, tokens, now), txs[i].call.user;
            Writer(l, txs, i, user).Some? && Writer(l, txs, j, user).Some?
            && Writer(l, txs, i, user).value < i < Writer(l, txs, j, user).value
  {
    var user := txs[i].call.user;
    hide Perform, Initial, Recorded, Executed;
    PayoutsWaitADay(admin, tokens, now, txs, i);
    PayoutsWaitADay(admin, tokens, now, txs, j);
    WriterComesAfterPayout(Initial(admin, tokens, now), txs, i, j, user);
  }

  // ---- Yield comes from strategies that governance executed ----

  lemma StepKeepsDaoConsistent(l: Ledger, tx: Tx)
    requires CountersAgree(l) && Governance.Consistent(l.dao)
    ensures Governance.Consistent(After(l, tx).dao)
  {
    hide CountersAgree, Governance.Consistent, Governance.Perform, Deposit, BatchDeposit, Withdraw, ExecuteWithdrawal,
         Invest, Divest, Rebalance, AccrueYield, ReportBenjiYield, AccrueKoreanDebtYield, ClaimFees, Configure;
    if tx.call.CallGovernance? {
      if Governance.Perform(l.dao, tx.signers, l.config.admin, tx.call.action).Done? {
        Governance.StepKeepsConsistent(l.dao, tx.signers, l.config.admin, tx.call.action);
      }
    } else if !tx.call.AdvanceTime? {
      StepFrame(l, tx);
    }
  }

  lemma {:induction false} DaoStaysConsistent(l: Ledger, txs: seq<Tx>, n: nat)
    requires n <= |txs| && CountersAgree(l) && Governance.Consistent(l.dao)
    ensures Governance.Consistent(At(l, txs, n).dao)
  {
    hide Perform, CountersAgree, Governance.Consistent;
    if n > 0 {
      DaoStaysConsistent(l, txs, n - 1);
      ClockNeverRunsBack(l, txs, n - 1, n - 1);
      StepKeepsDaoConsistent(At(l, txs, n - 1), txs[n - 1]);
    }
  }

  /** Every accepted yield report is signed by its strategy, and that strategy is
      named by an executed proposal whose yes votes exceed its no votes. */
  lemma YieldNeedsExecutedProposal(admin: Address, tokens: Balances, now: nat, txs: seq<Tx>, n: nat)
    requires n < |txs| && txs[n].call.CallReportBenjiYield?
    requires Accepted(At(Initial(admin, tokens, now), txs, n), txs[n])
    ensures txs[n].call.strategy in txs[n].signers
    ensures var dao := At(Initial(admin, tokens, now), txs, n).dao;
            exists id :: id in dao.proposals && dao.proposals[id].executed
                      && dao.proposals[id].strategy == txs[n].call.strategy
                      && dao.proposals[id].yesVotes > dao.proposals[id].noVotes
  {
    hide FeeMath.CalculateProtocolFee, Transfer, RaisedWatermark;
    DaoStaysConsistent(Initial(admin, tokens, now), txs, n);
  }
}
