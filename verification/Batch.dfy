/** `batch_deposit` against a left-to-right sequence of single deposits. */
module Batch {
  import opened Checked
  import opened Token
  import opened ShareMath
  import opened VaultLedger
  import Governance

  /** The single deposits a batch stands for. */
  function DepositTxs(signers: set<Address>, entries: seq<DepositEntry>): seq<Tx> {
    seq(|entries|, i requires 0 <= i < |entries| => Tx(signers, CallDeposit(entries[i].user, entries[i].amount)))
  }

  /** The deposit an entry stands for, with its user's consent. A batch checks an
      entry's amounts before it asks for the user's signature. */
  function Consented(signers: set<Address>, e: DepositEntry): Tx {
    Tx(signers + {e.user}, CallDeposit(e.user, e.amount))
  }

  /** What a batch reports for an entry whose deposit ended with `o`. */
  function Report(e: DepositEntry, o: Outcome<(Ledger, int)>): DepositResult {
    match o
    case Done((_, minted)) => DepositResult(e.user, minted, true, 0)
    case Error(code) => DepositResult(e.user, 0, false, ErrorCode(code))
    case Panic => DepositResult(e.user, 0, false, 0)
  }

  function MintedBy(results: seq<DepositResult>): int {
    if results == [] then 0 else MintedBy(results[..|results| - 1]) + results[|results| - 1].sharesMinted
  }

  function Successes(results: seq<DepositResult>): nat {
    if results == [] then 0
    else Successes(results[..|results| - 1]) + (if results[|results| - 1].success then 1 else 0)
  }

  /** The ledger a batch in progress would persist if it stopped now. */
  function Synced(p: BatchProgress): Ledger {
    p.l.(state := p.st)
  }

  /** The batch's two share counters agree and its totals match its results. */
  ghost predicate InStep(p: BatchProgress) {
    && p.l.totalShares == p.st.totalShares
    && !p.st.isPaused
    && p.tally.totalSharesMinted == MintedBy(p.tally.results)
    && p.tally.successCount == Successes(p.tally.results)
    && p.tally.failureCount + p.tally.successCount == |p.tally.results|
  }

  /** An entry does to the batch what the deposit does to the synced ledger. */
  lemma EntryIsDeposit(p: BatchProgress, signers: set<Address>, e: DepositEntry)
    requires p.l.totalShares == p.st.totalShares && !p.st.isPaused
    ensures var r, d := ProcessEntry(p.l, p.st, signers, e), Deposit(Synced(p), signers, e.user, e.amount);
            && (r.Done? ==> d == Done((r.value.0.(state := r.value.1), r.value.2)))
            && (r.Done? ==> r.value.0.totalShares == r.value.1.totalShares && !r.value.1.isPaused)
            && (r.Done? ==> e.user in signers)
            && (r.Error? ==> !d.Done?)
            && (e.user in signers ==> (r.Panic? <==> d.Panic?))
  {
  }

  lemma EntryIsConsentedDeposit(p: BatchProgress, signers: set<Address>, e: DepositEntry)
    requires !p.st.isPaused
    ensures var r, c := ProcessEntry(p.l, p.st, signers, e), Deposit(Synced(p), signers + {e.user}, e.user, e.amount);
            && (r.Error? <==> c.Error?) && (r.Error? ==> r.code == c.code)
            && (r.Done? ==> c.Done? && r.value.2 == c.value.1 && e.user in signers)
  {
  }

  lemma EntryStep(p: BatchProgress, signers: set<Address>, e: DepositEntry)
    requires InStep(p) && BatchEntry(p, signers, e).Done?
    ensures var q, tx := BatchEntry(p, signers, e).value, Tx(signers, CallDeposit(e.user, e.amount));
            && InStep(q)
            && Synced(q) == After(Synced(p), tx)
            && |q.tally.results| == |p.tally.results| + 1
            && q.tally.results[..|p.tally.results|] == p.tally.results
            && q.tally.results[|p.tally.results|] == Report(e, Perform(Synced(p), Consented(signers, e)))
            && !Perform(Synced(p), Consented(signers, e)).Panic?
            && (q.tally.results[|p.tally.results|].success ==> e.user in signers)
  {
    EntryIsDeposit(p, signers, e);
    EntryIsConsentedDeposit(p, signers, e);
    var q, tx := BatchEntry(p, signers, e).value, Tx(signers, CallDeposit(e.user, e.amount));
    DepositIsPerformed(Synced(p), tx, Consented(signers, e), e);
    assert q.tally.results[..|q.tally.results| - 1] == p.tally.results;
    hide Perform, Deposit, ProcessEntry;
  }

  lemma DepositIsPerformed(l: Ledger, tx: Tx, consented: Tx, e: DepositEntry)
    requires tx.call == consented.call == CallDeposit(e.user, e.amount)
    ensures Perform(l, tx) == Deposit(l, tx.signers, e.user, e.amount)
    ensures Perform(l, consented) == Deposit(l, consented.signers, e.user, e.amount)
  {
  }

  /** A run splits after its first transaction. */
  lemma {:induction false} AtTail(l: Ledger, txs: seq<Tx>, i: nat)
    requires 0 < i <= |txs|
    ensures At(l, txs, i) == At(After(l, txs[0]), txs[1..], i - 1)
  {
    if i > 1 {
      AtTail(l, txs, i - 1);
    } else {
      assert At(l, txs, 0) == l;
    }
  }

  lemma {:induction false} LoopEndsInStep(p: BatchProgress, signers: set<Address>, entries: seq<DepositEntry>)
    requires InStep(p) && BatchLoop(p, signers, entries).Done?
    ensures var q, n := BatchLoop(p, signers, entries).value, |p.tally.results|;
            && InStep(q)
            && Synced(q) == At(Synced(p), DepositTxs(signers, entries), |entries|)
            && |q.tally.results| == n + |entries|
            && q.tally.results[..n] == p.tally.results
    decreases |entries|
  {
    hide Deposit, ProcessEntry, BatchEntry;
    var txs, n := DepositTxs(signers, entries), |p.tally.results|;
    if entries != [] {
      EntryStep(p, signers, entries[0]);
      LoopEndsInStep(BatchEntry(p, signers, entries[0]).value, signers, entries[1..]);
      assert txs[1..] == DepositTxs(signers, entries[1..]);
      AtTail(Synced(p), txs, |entries|);
      var f := BatchLoop(p, signers, entries).value;
      assert f.tally.results[..n] == f.tally.results[..n + 1][..n];
    }
  }

  /** The result recorded for entry `i` is that of its deposit at its turn. */
  lemma {:induction false} LoopReports(p: BatchProgress, signers: set<Address>, entries: seq<DepositEntry>, i: nat)
    requires InStep(p) && BatchLoop(p, signers, entries).Done?
    requires i < |entries|
    ensures var q, txs, n := BatchLoop(p, signers, entries).value, DepositTxs(signers, entries), |p.tally.results|;
            var o := Perform(At(Synced(p), txs, i), Consented(signers, entries[i]));
            && |q.tally.results| == n + |entries|
            && q.tally.results[n + i] == Report(entries[i], o)
            && !o.Panic?
            && (q.tally.results[n + i].success ==> entries[i].user in signers)
    decreases |entries|
  {
    hide Deposit, ProcessEntry, BatchEntry;
    var txs, n := DepositTxs(signers, entries), |p.tally.results|;
    var q := BatchEntry(p, signers, entries[0]).value;
    EntryStep(p, signers, entries[0]);
    LoopEndsInStep(p, signers, entries);
    LoopEndsInStep(q, signers, entries[1..]);
    if i > 0 {
      LoopReports(q, signers, entries[1..], i - 1);
      assert txs[1..] == DepositTxs(signers, entries[1..]);
      AtTail(Synced(p), txs, i);
    } else {
      var f := BatchLoop(p, signers, entries).value;
      assert f.tally.results[n] == f.tally.results[..n + 1][n];
    }
  }

  /** A batch that returns leaves the ledger of its deposits made one by one, and
      reports for every entry what its deposit, consented to, returns there; no
      entry succeeds whose user did not sign. */
  lemma BatchRefinesDeposits(l: Ledger, signers: set<Address>, relayer: Address, entries: seq<DepositEntry>)
    requires l.totalShares == l.state.totalShares
    requires BatchDeposit(l, signers, relayer, entries).Done?
    ensures BatchDeposit(l, signers, relayer, entries).value.0 == At(l, DepositTxs(signers, entries), |entries|)
    ensures var r, txs := BatchDeposit(l, signers, relayer, entries).value.1, DepositTxs(signers, entries);
            && |r.results| == |entries|
            && (forall i :: 0 <= i < |entries| ==>
                  && r.results[i] == Report(entries[i], Perform(At(l, txs, i), Consented(signers, entries[i])))
                  && !Perform(At(l, txs, i), Consented(signers, entries[i])).Panic?
                  && (r.results[i].success ==> entries[i].user in signers))
            && r.totalSharesMinted == MintedBy(r.results)
            && r.successCount == Successes(r.results)
            && r.successCount + r.failureCount == |entries|
  {
    var p := BatchProgress(l, l.state, NO_RESULTS);
    assert Synced(p) == l;
    LoopEndsInStep(p, signers, entries);
    forall i | 0 <= i < |entries| {
      LoopReports(p, signers, entries, i);
    }
  }

  // ---- The converse: deposits that all return make a batch that returns ----

  /** Bounds that keep the batch's own running total inside i128. */
  ghost predicate Bounded(p: BatchProgress, start: int) {
    && 0 <= start
    && p.st.totalShares >= 0 && p.st.totalAssets >= 0
    && p.tally.totalSharesMinted == p.st.totalShares - start
    && 0 <= p.tally.totalSharesMinted
  }

  lemma EntryReturns(p: BatchProgress, signers: set<Address>, e: DepositEntry, start: int)
    requires InStep(p) && Bounded(p, start) && e.user in signers
    requires |p.tally.results| < Governance.U32_MAX
    requires !Deposit(Synced(p), signers, e.user, e.amount).Panic?
    ensures BatchEntry(p, signers, e).Done? && Bounded(BatchEntry(p, signers, e).value, start)
  {
    EntryIsDeposit(p, signers, e);
    var r := ProcessEntry(p.l, p.st, signers, e);
    if r.Done? && p.st.totalShares > 0 && p.st.totalAssets > 0 {
      MintRoundsDown(e.amount, p.st.totalShares, p.st.totalAssets);
    }
  }

  lemma {:induction false} LoopReturns(p: BatchProgress, signers: set<Address>, entries: seq<DepositEntry>, start: int)
    requires InStep(p) && Bounded(p, start)
    requires |p.tally.results| + |entries| <= Governance.U32_MAX
    requires forall i :: 0 <= i < |entries| ==> entries[i].user in signers
    requires forall i :: 0 <= i < |entries| ==>
               !Perform(At(Synced(p), DepositTxs(signers, entries), i), DepositTxs(signers, entries)[i]).Panic?
    ensures BatchLoop(p, signers, entries).Done?
    decreases |entries|
  {
    if entries != [] {
      var txs := DepositTxs(signers, entries);
      assert At(Synced(p), txs, 0) == Synced(p) && !Perform(At(Synced(p), txs, 0), txs[0]).Panic?;
      EntryReturns(p, signers, entries[0], start);
      EntryStep(p, signers, entries[0]);
      var q := BatchEntry(p, signers, entries[0]).value;
      var rest := DepositTxs(signers, entries[1..]);
      assert txs[1..] == rest;
      forall i | 0 <= i < |entries[1..]|
        ensures entries[1..][i].user in signers && !Perform(At(Synced(q), rest, i), rest[i]).Panic?
      {
        AtTail(Synced(p), txs, i + 1);
        assert entries[1..][i] == entries[i + 1] && rest[i] == txs[i + 1];
      }
      LoopReturns(q, signers, entries[1..], start);
    }
  }

  /** When the relayer is allowed, every user signed and no single deposit would
      panic, the batch returns too. */
  lemma DepositsMakeBatch(l: Ledger, signers: set<Address>, relayer: Address, entries: seq<DepositEntry>)
    requires l.totalShares == l.state.totalShares && l.state.totalShares >= 0 && l.state.totalAssets >= 0
    requires !l.state.isPaused && relayer in signers && relayer in l.config.relayers
    requires |entries| <= l.config.maxBatchSize <= Governance.U32_MAX
    requires forall i :: 0 <= i < |entries| ==> entries[i].user in signers
    requires forall i :: 0 <= i < |entries| ==>
               !Perform(At(l, DepositTxs(signers, entries), i), DepositTxs(signers, entries)[i]).Panic?
    ensures BatchDeposit(l, signers, relayer, entries).Done?
  {
    var p := BatchProgress(l, l.state, NO_RESULTS);
    assert Synced(p) == l;
    LoopReturns(p, signers, entries, l.state.totalShares);
  }
}
