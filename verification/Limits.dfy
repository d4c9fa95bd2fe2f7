/** What the vault's guards achieve over whole runs: pausing, the withdrawal
    cooldown and the per-user cap. */
module Limits {
  import opened Sums
  import opened Token
  import opened ShareMath
  import opened VaultLedger
  import opened ShareAccounting
  import Batch
  import Timelock

  // ---- Pausing ----

  /** While the vault is paused no call mints or burns shares or records a
      withdrawal, except that a withdrawal recorded before can still be executed. */
  lemma PausedVaultOnlyPaysRecords(l: Ledger, tx: Tx)
    requires l.state.isPaused && !Executed(l, tx)
    ensures After(l, tx).shareBalance == l.shareBalance && After(l, tx).pending == l.pending
    ensures After(l, tx).totalShares == l.totalShares && After(l, tx).state.totalShares == l.state.totalShares
  {
    if MovesShares(tx.call) {
      hide ExecuteWithdrawal, DoWithdraw, BatchLoop, AssetsToShares, SharesToAssets;
    } else {
      hide Perform;
      OtherCallsLeaveShares(l, tx);
    }
  }

  // ---- What a deposit and a payout do to what is kept about their user ----

  lemma DepositRecords(l: Ledger, signers: set<Address>, user: Address, amount: int)
    requires Deposit(l, signers, user, amount).Done?
    ensures var l' := Deposit(l, signers, user, amount).value.0;
            && l'.lastDepositTime == l.lastDepositTime[user := l.now]
            && l'.userDeposit == l.userDeposit[user := Get(l.userDeposit, user) + amount]
            && Get(l'.userDeposit, user) <= l.config.perUserCap
            && l'.now == l.now && l'.config == l.config
  {
    hide Transfer, AssetsToShares;
  }

  lemma CoveringKeepsRecords(l: Ledger, assets: int)
    requires CoverFromStrategy(l, assets).Done?
    ensures var c := CoverFromStrategy(l, assets).value.0;
            c.userDeposit == l.userDeposit && c.lastDepositTime == l.lastDepositTime
  {
    CoveringLeavesShares(l, assets);
    hide CoverFromStrategy;
  }

  lemma DoWithdrawRecords(l: Ledger, user: Address, shares: int, assets: int)
    requires DoWithdraw(l, user, shares, assets).Done?
    ensures var l' := DoWithdraw(l, user, shares, assets).value.0;
            && l'.lastDepositTime == l.lastDepositTime
            && (forall u :: u != user ==> Get(l'.userDeposit, u) == Get(l.userDeposit, u))
            && (Get(l'.userDeposit, user) <= Get(l.userDeposit, user) || Get(l'.userDeposit, user) == 0)
  {
    CoveringKeepsRecords(l, assets);
    PaysNonNegative(l, user, shares, assets);
    hide CoverFromStrategy, Transfer;
  }

  // ---- Runs ----

  /** The call credits `user` with a deposit, alone or in a batch. */
  ghost predicate DepositsFor(l: Ledger, tx: Tx, user: Address) {
    && Accepted(l, tx)
    && match tx.call
       case CallDeposit(u, _) => u == user
       case CallBatchDeposit(_, entries) =>
         exists i :: 0 <= i < |entries| && EntryDepositsFor(l, Batch.DepositTxs(tx.signers, entries), i, user)
       case _ => false
  }

  predicate EntryDepositsFor(l: Ledger, txs: seq<Tx>, i: nat, user: Address)
    requires i < |txs|
  {
    txs[i].call.CallDeposit? && txs[i].call.user == user && Accepted(At(l, txs, i), txs[i])
  }

  /** A user's last deposit is never in the future, and only moves forward. */
  predicate Stamps(l: Ledger, l': Ledger, user: Address) {
    Get(l.lastDepositTime, user) <= Get(l'.lastDepositTime, user) <= l'.now
  }

  lemma {:induction false} DepositsStamp(l: Ledger, signers: set<Address>, entries: seq<DepositEntry>, n: nat,
                                         user: Address)
    requires n <= |entries| && Get(l.lastDepositTime, user) <= l.now
    ensures var l', txs := At(l, Batch.DepositTxs(signers, entries), n), Batch.DepositTxs(signers, entries);
            && Stamps(l, l', user) && l'.now == l.now && l'.config == l.config
            && ((exists i :: 0 <= i < n && EntryDepositsFor(l, txs, i, user)) ==>
                Get(l'.lastDepositTime, user) == l.now)
  {
    hide Deposit;
    if n > 0 {
      DepositsStamp(l, signers, entries, n - 1, user);
      var before, e := At(l, Batch.DepositTxs(signers, entries), n - 1), entries[n - 1];
      if Deposit(before, signers, e.user, e.amount).Done? {
        DepositRecords(before, signers, e.user, e.amount);
      }
    }
  }

  lemma StepStamps(l: Ledger, tx: Tx, user: Address)
    requires CountersAgree(l) && Get(l.lastDepositTime, user) <= l.now
    ensures Stamps(l, After(l, tx), user)
    ensures DepositsFor(l, tx, user) ==> Get(After(l, tx).lastDepositTime, user) == l.now
  {
    hide Perform, Deposit, DoWithdraw, SharesToAssets;
    Timelock.ClockAdvances(l, tx);
    if !MovesShares(tx.call) {
      OtherCallsLeaveShares(l, tx);
    } else if Accepted(l, tx) {
      ShareCalls(l, tx);
      if tx.call.CallDeposit? {
        DepositRecords(l, tx.signers, tx.call.user, tx.call.amount);
      } else if tx.call.CallBatchDeposit? {
        DepositsStamp(l, tx.signers, tx.call.entries, |tx.call.entries|, user);
      } else if Recorded(l, tx) {
        RecordingOnlyRecords(l, tx);
      } else {
        PayoutIsDoWithdraw(l, tx);
        var (p, shares) := Payout(l, tx);
        DoWithdrawRecords(p, tx.call.user, shares,
                          SharesToAssets(shares, p.state.totalShares, p.state.totalAssets).value);
      }
    }
  }

  lemma {:induction false} RunStamps(l: Ledger, txs: seq<Tx>, i: nat, j: nat, user: Address)
    requires i <= j <= |txs| && CountersAgree(l) && Get(l.lastDepositTime, user) <= l.now
    ensures Stamps(At(l, txs, i), At(l, txs, j), user)
    ensures i < j && DepositsFor(At(l, txs, i), txs[i], user) ==>
              Get(At(l, txs, j).lastDepositTime, user) >= At(l, txs, i).now
    decreases j
  {
    hide Perform, CountersAgree, DepositsFor;
    if i < j {
      RunStamps(l, txs, i, j - 1, user);
      Timelock.ClockNeverRunsBack(l, txs, i, j - 1);
      StepStamps(At(l, txs, j - 1), txs[j - 1], user);
    } else if 0 < j {
      RunStamps(l, txs, j - 1, j - 1, user);
      Timelock.ClockNeverRunsBack(l, txs, j - 1, j - 1);
      StepStamps(At(l, txs, j - 1), txs[j - 1], user);
    }
  }

  lemma CooledDown(l: Ledger, tx: Tx)
    requires tx.call.CallWithdraw? && Accepted(l, tx) && l.config.withdrawalCooldown > 0
    ensures l.now >= Get(l.lastDepositTime, tx.call.user) + l.config.withdrawalCooldown
  {
    hide DoWithdraw, SharesToAssets;
  }

  /** An accepted withdrawal comes at least the cooldown after every earlier
      deposit credited to its user, alone or inside a batch. */
  lemma WithdrawalsCoolDown(admin: Address, tokens: Balances, now: nat, txs: seq<Tx>, i: nat, j: nat)
    requires i < j < |txs|
    requires txs[j].call.CallWithdraw? && Accepted(At(Initial(admin, tokens, now), txs, j), txs[j])
    requires DepositsFor(At(Initial(admin, tokens, now), txs, i), txs[i], txs[j].call.user)
    ensures var l := Initial(admin, tokens, now);
            At(l, txs, j).config.withdrawalCooldown > 0 ==>
              At(l, txs, j).now >= At(l, txs, i).now + At(l, txs, j).config.withdrawalCooldown
  {
    hide Perform, DepositsFor, Initial;
    var l := Initial(admin, tokens, now);
    assert CountersAgree(l) by { Timelock.FreshLedger(admin, tokens, now); }
    assert Get(l.lastDepositTime, txs[j].call.user) <= l.now by {
      NobodyDeposited(admin, tokens, now, txs[j].call.user);
    }
    RunStamps(l, txs, i, j, txs[j].call.user);
    if At(l, txs, j).config.withdrawalCooldown > 0 {
      CooledDown(At(l, txs, j), txs[j]);
    }
  }

  lemma NobodyDeposited(admin: Address, tokens: Balances, now: nat, user: Address)
    ensures Get(Initial(admin, tokens, now).lastDepositTime, user) == 0
    ensures Get(Initial(admin, tokens, now).userDeposit, user) == 0
    ensures Initial(admin, tokens, now).now == now
  {
  }

  // ---- The per-user cap ----

  lemma {:induction false} DepositsStayCapped(l: Ledger, signers: set<Address>, entries: seq<DepositEntry>, n: nat,
                                              user: Address, bound: int)
    requires n <= |entries| && Get(l.userDeposit, user) <= bound && l.config.perUserCap <= bound
    ensures var l' := At(l, Batch.DepositTxs(signers, entries), n);
            Get(l'.userDeposit, user) <= bound && l'.config == l.config
  {
    hide Deposit;
    if n > 0 {
      DepositsStayCapped(l, signers, entries, n - 1, user, bound);
      var before, e := At(l, Batch.DepositTxs(signers, entries), n - 1), entries[n - 1];
      if Deposit(before, signers, e.user, e.amount).Done? {
        DepositRecords(before, signers, e.user, e.amount);
      }
    }
  }

  lemma StepStaysCapped(l: Ledger, tx: Tx, user: Address, bound: int)
    requires CountersAgree(l) && Get(l.userDeposit, user) <= bound && l.config.perUserCap <= bound && 0 <= bound
    ensures Get(After(l, tx).userDeposit, user) <= bound
  {
    hide Perform, Deposit, DoWithdraw, SharesToAssets;
    if !MovesShares(tx.call) {
      OtherCallsLeaveShares(l, tx);
    } else if Accepted(l, tx) {
      ShareCalls(l, tx);
      if tx.call.CallDeposit? {
        DepositRecords(l, tx.signers, tx.call.user, tx.call.amount);
      } else if tx.call.CallBatchDeposit? {
        DepositsStayCapped(l, tx.signers, tx.call.entries, |tx.call.entries|, user, bound);
      } else if Recorded(l, tx) {
        RecordingOnlyRecords(l, tx);
      } else {
        PayoutIsDoWithdraw(l, tx);
        var (p, shares) := Payout(l, tx);
        DoWithdrawRecords(p, tx.call.user, shares,
                          SharesToAssets(shares, p.state.totalShares, p.state.totalAssets).value);
      }
    }
  }

  /** No run takes a user's net deposits above the highest cap in force before. */
  lemma {:induction false} DepositsStayWithinCap(admin: Address, tokens: Balances, now: nat, txs: seq<Tx>, n: nat,
                                                 user: Address, bound: int)
    requires n <= |txs| && 0 <= bound
    requires forall k :: 0 <= k < n ==> At(Initial(admin, tokens, now), txs, k).config.perUserCap <= bound
    ensures Get(At(Initial(admin, tokens, now), txs, n).userDeposit, user) <= bound
  {
    hide Perform, Initial;
    var l := Initial(admin, tokens, now);
    if n == 0 {
      NobodyDeposited(admin, tokens, now, user);
    } else {
      DepositsStayWithinCap(admin, tokens, now, txs, n - 1, user, bound);
      CountersAlwaysAgree(admin, tokens, now, txs, n - 1);
      StepStaysCapped(At(l, txs, n - 1), txs[n - 1], user, bound);
    }
  }
}
