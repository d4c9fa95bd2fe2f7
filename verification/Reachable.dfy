/** What holds of every reachable ledger, executions that are not covered
    included. Such an execution can take the supply below zero. */
module Reachable {
  import opened Sums
  import opened Token
  import opened ShareMath
  import opened VaultLedger
  import opened ShareAccounting
  import Batch

  ghost predicate Ranged(l: Ledger) {
    && CountersAgree(l)
    && (forall u <- l.pending.Keys :: l.pending[u].shares > 0)
    && ValidConfig(l.config)
    && (l.state.totalShares >= 0 ==> l.state.totalAssets >= 0)
  }

  lemma RangedMeans(l: Ledger)
    requires Ranged(l)
    ensures CountersAgree(l) && ValidConfig(l.config) && (l.state.totalShares >= 0 ==> l.state.totalAssets >= 0)
  {
  }

  lemma SoundIsRanged(l: Ledger)
    requires Sound(l)
    ensures Ranged(l)
  {
  }

  lemma InitialIsRanged(admin: Address, tokens: Balances, now: nat)
    ensures Ranged(Initial(admin, tokens, now))
  {
  }

  /** An accepted deposit mints a positive number of shares unless the supply is
      negative and the assets positive; then it takes shares away. */
  lemma DepositMintsPositiveIff(l: Ledger, signers: set<Address>, user: Address, amount: int)
    requires Ranged(l) && Deposit(l, signers, user, amount).Done?
    ensures Deposit(l, signers, user, amount).value.1 > 0 <==> l.state.totalShares >= 0 || l.state.totalAssets <= 0
  {
    DepositMints(l, signers, user, amount);
    hide Deposit, AssetsToShares;
    MintAtAnySupply(amount, l.state.totalShares, l.state.totalAssets);
  }

  lemma DepositKeepsRanged(l: Ledger, signers: set<Address>, user: Address, amount: int)
    requires Ranged(l) && Deposit(l, signers, user, amount).Done?
    ensures Ranged(Deposit(l, signers, user, amount).value.0)
  {
    DepositMints(l, signers, user, amount);
    DepositKeepsCounters(l, signers, user, amount);
    hide Deposit, AssetsToShares, CountersAgree, ValidConfig;
    MintAtAnySupply(amount, l.state.totalShares, l.state.totalAssets);
  }

  lemma {:induction false} DepositsKeepRanged(l: Ledger, signers: set<Address>, entries: seq<DepositEntry>, i: nat)
    requires Ranged(l) && i <= |entries|
    ensures Ranged(At(l, Batch.DepositTxs(signers, entries), i))
  {
    hide Deposit, Ranged;
    if i > 0 {
      DepositsKeepRanged(l, signers, entries, i - 1);
      var before, e := At(l, Batch.DepositTxs(signers, entries), i - 1), entries[i - 1];
      if Deposit(before, signers, e.user, e.amount).Done? {
        DepositKeepsRanged(before, signers, e.user, e.amount);
      }
    }
  }

  /** A payout takes out of the totals exactly what it burns and pays. */
  lemma PayoutMovesTotals(l: Ledger, tx: Tx)
    requires PaidAtOnce(l, tx) || Executed(l, tx)
    ensures var shares := Payout(l, tx).1;
            var assets := SharesToAssets(shares, l.state.totalShares, l.state.totalAssets);
            && assets.Done? && assets.value >= 0
            && After(l, tx).state.totalShares == l.state.totalShares - shares
            && After(l, tx).state.totalAssets == l.state.totalAssets - assets.value
            && After(l, tx).config == l.config
  {
    PayoutIsDoWithdraw(l, tx);
    hide Perform, SharesToAssets, Transfer, CoverFromStrategy;
    var (p, shares) := Payout(l, tx);
    var assets := SharesToAssets(shares, p.state.totalShares, p.state.totalAssets).value;
    CoveringLeavesShares(p, assets);
    PaysNonNegative(p, tx.call.user, shares, assets);
  }

  lemma PayoutBurnsShares(l: Ledger, tx: Tx)
    requires Ranged(l) && (PaidAtOnce(l, tx) || Executed(l, tx))
    ensures Payout(l, tx).1 > 0
  {
    PayoutIsDoWithdraw(l, tx);
    hide Perform, DoWithdraw, SharesToAssets;
  }

  lemma PayoutKeepsRanged(l: Ledger, tx: Tx)
    requires Ranged(l) && (PaidAtOnce(l, tx) || Executed(l, tx))
    ensures Ranged(After(l, tx))
  {
    StepKeepsCounters(l, tx);
    PayoutBurns(l, tx);
    PayoutMovesTotals(l, tx);
    PayoutBurnsShares(l, tx);
    RedeemAtAnySupply(Payout(l, tx).1, l.state.totalShares, l.state.totalAssets);
    hide Perform, After, SharesToAssets, DoWithdraw, CountersAgree, ValidConfig;
  }

  lemma StepKeepsRanged(l: Ledger, tx: Tx)
    requires Ranged(l)
    ensures Ranged(After(l, tx))
  {
    hide Perform, SharesToAssets, DoWithdraw, Deposit, ValidConfig, CountersAgree;
    StepKeepsCounters(l, tx);
    if !MovesShares(tx.call) {
      OtherCallsLeaveShares(l, tx);
      if BooksYield(tx.call) {
        YieldRaisesAssets(l, tx);
      }
    } else if Accepted(l, tx) {
      SharesAgree(l);
      ShareCalls(l, tx);
      if tx.call.CallDeposit? {
        DepositKeepsRanged(l, tx.signers, tx.call.user, tx.call.amount);
      } else if tx.call.CallBatchDeposit? {
        DepositsKeepRanged(l, tx.signers, tx.call.entries, |tx.call.entries|);
      } else if Recorded(l, tx) {
        RecordingOnlyRecords(l, tx);
      } else {
        PayoutKeepsRanged(l, tx);
      }
    }
  }

  lemma SharesAgree(l: Ledger)
    requires CountersAgree(l)
    ensures l.totalShares == l.state.totalShares == Sum(l.shareBalance)
  {
  }

  lemma {:induction false} RunKeepsRanged(l: Ledger, txs: seq<Tx>, n: nat)
    requires n <= |txs| && Ranged(l)
    ensures Ranged(At(l, txs, n))
  {
    hide Perform, Ranged;
    if n > 0 {
      RunKeepsRanged(l, txs, n - 1);
      StepKeepsRanged(At(l, txs, n - 1), txs[n - 1]);
    }
  }

  // ---- Which steps keep a recorded withdrawal covered ----

  predicate PendingCovered(l: Ledger, user: Address) {
    user in l.pending ==> l.pending[user].shares <= BalanceOf(l, user)
  }

  lemma DepositMovesBalance(l: Ledger, signers: set<Address>, user: Address, amount: int, u: Address)
    requires Ranged(l) && Deposit(l, signers, user, amount).Done?
    requires l.state.totalShares >= 0 || l.state.totalAssets <= 0
    ensures var l' := Deposit(l, signers, user, amount).value.0;
            && BalanceOf(l', u) >= BalanceOf(l, u) && l'.pending == l.pending
            && (l.state.totalShares >= 0 ==> l'.state.totalShares >= 0)
  {
    DepositMints(l, signers, user, amount);
    DepositMintsPositiveIff(l, signers, user, amount);
    hide Deposit, AssetsToShares, Ranged;
  }

  lemma {:induction false} DepositsOnlyRaiseBalances(l: Ledger, signers: set<Address>, entries: seq<DepositEntry>,
                                                     i: nat, user: Address)
    requires Ranged(l) && i <= |entries| && l.state.totalShares >= 0
    ensures var l' := At(l, Batch.DepositTxs(signers, entries), i);
            BalanceOf(l', user) >= BalanceOf(l, user) && l'.pending == l.pending && l'.state.totalShares >= 0
  {
    hide Deposit, Ranged;
    if i > 0 {
      DepositsOnlyRaiseBalances(l, signers, entries, i - 1, user);
      DepositsKeepRanged(l, signers, entries, i - 1);
      var before, e := At(l, Batch.DepositTxs(signers, entries), i - 1), entries[i - 1];
      if Deposit(before, signers, e.user, e.amount).Done? {
        DepositMovesBalance(before, signers, e.user, e.amount, user);
      }
    }
  }

  /** In every reachable state where deposits mint, that is, with a non-negative
      supply or, for calls other than a batch, without positive assets: a step
      keeps a user's recorded withdrawal covered, except a further withdrawal by
      that user paid at once; that one keeps it exactly when the balance it leaves
      is enough. */
  lemma OnlyOwnWithdrawalsUncover(l: Ledger, tx: Tx, user: Address)
    requires Ranged(l) && PendingCovered(l, user)
    requires l.state.totalShares >= 0 || (l.state.totalAssets <= 0 && !tx.call.CallBatchDeposit?)
    ensures !(PaidAtOnce(l, tx) && tx.call.user == user) ==> PendingCovered(After(l, tx), user)
    ensures PaidAtOnce(l, tx) && tx.call.user == user ==>
              (PendingCovered(After(l, tx), user) <==>
               (user in l.pending ==> l.pending[user].shares <= BalanceOf(l, user) - tx.call.shares))
  {
    hide Perform, SharesToAssets, DoWithdraw, Deposit, Ranged, CountersAgree;
    RangedMeans(l);
    if !MovesShares(tx.call) {
      OtherCallsLeaveShares(l, tx);
    } else if Accepted(l, tx) {
      SharesAgree(l);
      ShareCalls(l, tx);
      if tx.call.CallDeposit? {
        DepositMovesBalance(l, tx.signers, tx.call.user, tx.call.amount, user);
      } else if tx.call.CallBatchDeposit? {
        DepositsOnlyRaiseBalances(l, tx.signers, tx.call.entries, |tx.call.entries|, user);
      } else if Recorded(l, tx) {
        RecordingOnlyRecords(l, tx);
      } else {
        PayoutIsDoWithdraw(l, tx);
        PayoutBurns(l, tx);
      }
    }
  }
}
