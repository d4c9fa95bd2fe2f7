/** The price of a share over whole runs, and what it means for one account. */
module Price {
  import opened Checked
  import opened Sums
  import opened Token
  import opened ShareMath
  import opened VaultLedger
  import opened ShareAccounting
  import opened Reachable
  import Batch

  /** total_assets / total_shares did not fall, compared without division. */
  predicate PriceNotLower(l: Ledger, l': Ledger) {
    l.state.totalAssets * l'.state.totalShares <= l'.state.totalAssets * l.state.totalShares
  }

  lemma CrossMultiplicationIsTransitive(a0: int, s0: int, a1: int, s1: int, a2: int, s2: int)
    requires s0 > 0 && s1 > 0 && s2 > 0
    requires a0 * s1 <= a1 * s0 && a1 * s2 <= a2 * s1
    ensures a0 * s2 <= a2 * s0
  {
    MulMonotone(a0 * s1, a1 * s0, s2);
    MulMonotone(a1 * s2, a2 * s1, s0);
    assert (a0 * s1) * s2 == (a0 * s2) * s1;
    assert (a1 * s0) * s2 == (a1 * s2) * s0;
    assert (a2 * s1) * s0 == (a2 * s0) * s1;
    CancelFactor(a0 * s2, a2 * s0, s1);
  }

  lemma PriceTransitive(l0: Ledger, l1: Ledger, l2: Ledger)
    requires l0.state.totalShares > 0 && l1.state.totalShares > 0 && l2.state.totalShares > 0
    requires PriceNotLower(l0, l1) && PriceNotLower(l1, l2)
    ensures PriceNotLower(l0, l2)
  {
    CrossMultiplicationIsTransitive(l0.state.totalAssets, l0.state.totalShares, l1.state.totalAssets,
                                    l1.state.totalShares, l2.state.totalAssets, l2.state.totalShares);
  }

  lemma PriceReflexive(l: Ledger)
    ensures PriceNotLower(l, l)
  {
  }

  lemma DepositKeepsPrice(l: Ledger, signers: set<Address>, user: Address, amount: int)
    requires Ranged(l) && l.state.totalShares > 0 && Deposit(l, signers, user, amount).Done?
    ensures var l' := Deposit(l, signers, user, amount).value.0;
            PriceNotLower(l, l') && l'.state.totalShares > 0
  {
    DepositMints(l, signers, user, amount);
    RangedMeans(l);
    hide Deposit, AssetsToShares, Ranged;
    var s, a := l.state.totalShares, l.state.totalAssets;
    var minted := Deposit(l, signers, user, amount).value.1;
    MintAtAnySupply(amount, s, a);
    MintKeepsPrice(amount, minted, s, a);
  }

  lemma {:induction false} DepositsKeepPrice(l: Ledger, signers: set<Address>, entries: seq<DepositEntry>, i: nat)
    requires Ranged(l) && l.state.totalShares > 0 && i <= |entries|
    ensures var l' := At(l, Batch.DepositTxs(signers, entries), i);
            PriceNotLower(l, l') && l'.state.totalShares > 0
  {
    hide Deposit, Ranged, PriceNotLower;
    if i == 0 {
      PriceReflexive(l);
    } else {
      DepositsKeepPrice(l, signers, entries, i - 1);
      DepositsKeepRanged(l, signers, entries, i - 1);
      var before, e := At(l, Batch.DepositTxs(signers, entries), i - 1), entries[i - 1];
      if Deposit(before, signers, e.user, e.amount).Done? {
        DepositKeepsPrice(before, signers, e.user, e.amount);
        PriceTransitive(l, before, Deposit(before, signers, e.user, e.amount).value.0);
      }
    }
  }

  lemma PayoutKeepsPrice(l: Ledger, tx: Tx)
    requires Ranged(l) && l.state.totalShares > 0 && (PaidAtOnce(l, tx) || Executed(l, tx))
    ensures PriceNotLower(l, After(l, tx))
  {
    RangedMeans(l);
    PayoutMovesTotals(l, tx);
    PayoutBurnsShares(l, tx);
    hide Perform, After, Payout, SharesToAssets, Ranged;
    var shares := Payout(l, tx).1;
    var s, a := l.state.totalShares, l.state.totalAssets;
    RedeemAtAnySupply(shares, s, a);
    RedeemKeepsPrice(shares, SharesToAssets(shares, s, a).value, s, a);
  }

  /** No step lowers the price of a share, whether its payouts are covered or not. */
  lemma StepKeepsPrice(l: Ledger, tx: Tx)
    requires Ranged(l) && l.state.totalShares > 0
    ensures PriceNotLower(l, After(l, tx))
  {
    hide Perform, SharesToAssets, DoWithdraw, Deposit, ValidConfig, Ranged, CountersAgree;
    RangedMeans(l);
    if !MovesShares(tx.call) {
      OtherCallsLeaveShares(l, tx);
      if BooksYield(tx.call) {
        YieldRaisesAssets(l, tx);
        MulMonotone(l.state.totalAssets, After(l, tx).state.totalAssets, l.state.totalShares);
      }
    } else if Accepted(l, tx) {
      SharesAgree(l);
      ShareCalls(l, tx);
      if tx.call.CallDeposit? {
        DepositKeepsPrice(l, tx.signers, tx.call.user, tx.call.amount);
      } else if tx.call.CallBatchDeposit? {
        DepositsKeepPrice(l, tx.signers, tx.call.entries, |tx.call.entries|);
      } else if Recorded(l, tx) {
        RecordingOnlyRecords(l, tx);
      } else {
        PayoutKeepsPrice(l, tx);
      }
    }
  }

  /** Shares are outstanding in every state from `i` to `j`. */
  ghost predicate Outstanding(l: Ledger, txs: seq<Tx>, i: nat, j: nat)
    requires i <= j <= |txs|
  {
    forall k :: i <= k <= j ==> At(l, txs, k).state.totalShares > 0
  }

  lemma {:induction false} PriceNeverFallsFrom(l: Ledger, txs: seq<Tx>, i: nat, j: nat)
    requires i <= j <= |txs| && Ranged(l) && Outstanding(l, txs, i, j)
    ensures PriceNotLower(At(l, txs, i), At(l, txs, j))
    decreases j
  {
    hide Perform, Ranged, PriceNotLower;
    if i == j {
      PriceReflexive(At(l, txs, i));
    } else {
      PriceNeverFallsFrom(l, txs, i, j - 1);
      RunKeepsRanged(l, txs, j - 1);
      StepKeepsPrice(At(l, txs, j - 1), txs[j - 1]);
      PriceTransitive(At(l, txs, i), At(l, txs, j - 1), At(l, txs, j));
    }
  }

  /** Between any two states of any run, with shares outstanding in between, the
      price of a share never falls. */
  lemma PriceNeverFalls(admin: Address, tokens: Balances, now: nat, txs: seq<Tx>, i: nat, j: nat)
    requires i <= j <= |txs| && Outstanding(Initial(admin, tokens, now), txs, i, j)
    ensures PriceNotLower(At(Initial(admin, tokens, now), txs, i), At(Initial(admin, tokens, now), txs, j))
  {
    InitialIsRanged(admin, tokens, now);
    PriceNeverFallsFrom(Initial(admin, tokens, now), txs, i, j);
  }

  /** `share_price`, scaled by 10^18 and rounded down, never falls either. */
  lemma ScaledPriceNeverFalls(admin: Address, tokens: Balances, now: nat, txs: seq<Tx>, i: nat, j: nat)
    requires i <= j <= |txs| && Outstanding(Initial(admin, tokens, now), txs, i, j)
    ensures var l := Initial(admin, tokens, now);
            var x, y := At(l, txs, i).state, At(l, txs, j).state;
            && x.totalShares > 0 && y.totalShares > 0
            && (SHARE_PRICE_SCALE * x.totalAssets) / x.totalShares
               <= (SHARE_PRICE_SCALE * y.totalAssets) / y.totalShares
  {
    var l := Initial(admin, tokens, now);
    InitialIsRanged(admin, tokens, now);
    hide Perform, Initial, Ranged;
    RunKeepsRanged(l, txs, i);
    RunKeepsRanged(l, txs, j);
    RangedMeans(At(l, txs, i));
    RangedMeans(At(l, txs, j));
    PriceNeverFallsFrom(l, txs, i, j);
    var x, y := At(l, txs, i).state, At(l, txs, j).state;
    ClaimGrowsWithPrice(SHARE_PRICE_SCALE, x.totalShares, x.totalAssets, y.totalShares, y.totalAssets);
  }

  // ---- One asset per share ----

  predicate Backed(l: Ledger) {
    0 <= l.state.totalShares <= l.state.totalAssets
  }

  /** A payout burns no more shares than there are. */
  predicate WithinSupply(l: Ledger, tx: Tx) {
    PaidAtOnce(l, tx) || Executed(l, tx) ==> Payout(l, tx).1 <= l.state.totalShares
  }

  lemma DepositKeepsBacked(l: Ledger, signers: set<Address>, user: Address, amount: int)
    requires Backed(l) && Deposit(l, signers, user, amount).Done?
    ensures Backed(Deposit(l, signers, user, amount).value.0)
  {
    DepositMints(l, signers, user, amount);
    hide Deposit, AssetsToShares;
    MintWithinAmount(amount, l.state.totalShares, l.state.totalAssets);
  }

  lemma {:induction false} DepositsKeepBacked(l: Ledger, signers: set<Address>, entries: seq<DepositEntry>, i: nat)
    requires Backed(l) && i <= |entries|
    ensures Backed(At(l, Batch.DepositTxs(signers, entries), i))
  {
    hide Deposit, Backed;
    if i > 0 {
      DepositsKeepBacked(l, signers, entries, i - 1);
      var before, e := At(l, Batch.DepositTxs(signers, entries), i - 1), entries[i - 1];
      if Deposit(before, signers, e.user, e.amount).Done? {
        DepositKeepsBacked(before, signers, e.user, e.amount);
      }
    }
  }

  /** From a backed state, a step ends in one exactly when its payout, if it is
      one, stays within the supply. */
  lemma StepKeepsBackedIff(l: Ledger, tx: Tx)
    requires Ranged(l) && Backed(l)
    ensures Backed(After(l, tx)) <==> WithinSupply(l, tx)
  {
    hide Perform, SharesToAssets, DoWithdraw, Deposit, ValidConfig, Ranged, CountersAgree;
    RangedMeans(l);
    if !MovesShares(tx.call) {
      OtherCallsLeaveShares(l, tx);
      if BooksYield(tx.call) {
        YieldRaisesAssets(l, tx);
      }
    } else if Accepted(l, tx) {
      SharesAgree(l);
      ShareCalls(l, tx);
      if tx.call.CallDeposit? {
        DepositKeepsBacked(l, tx.signers, tx.call.user, tx.call.amount);
      } else if tx.call.CallBatchDeposit? {
        DepositsKeepBacked(l, tx.signers, tx.call.entries, |tx.call.entries|);
      } else if Recorded(l, tx) {
        RecordingOnlyRecords(l, tx);
      } else {
        PayoutKeepsBackedIff(l, tx);
      }
    }
  }

  lemma PayoutKeepsBackedIff(l: Ledger, tx: Tx)
    requires Ranged(l) && Backed(l) && (PaidAtOnce(l, tx) || Executed(l, tx))
    ensures Backed(After(l, tx)) <==> Payout(l, tx).1 <= l.state.totalShares
  {
    PayoutMovesTotals(l, tx);
    PayoutBurnsShares(l, tx);
    hide Perform, After, Payout, SharesToAssets, Ranged;
    var shares, s, a := Payout(l, tx).1, l.state.totalShares, l.state.totalAssets;
    RedeemAtAnySupply(shares, s, a);
    if shares <= s {
      RedeemKeepsBacking(shares, SharesToAssets(shares, s, a).value, s, a);
    }
  }

  ghost predicate BackedThroughout(l: Ledger, txs: seq<Tx>, n: nat)
    requires n <= |txs|
  {
    forall k :: 0 <= k <= n ==> Backed(At(l, txs, k))
  }

  ghost predicate SuppliedThroughout(l: Ledger, txs: seq<Tx>, n: nat)
    requires n <= |txs|
  {
    forall k :: 0 <= k < n ==> WithinSupply(At(l, txs, k), txs[k])
  }

  /** Over any run: every state holds at least one asset for each of a
      non-negative number of shares if and only if no payout, at once or
      executed, burned more shares than there were. */
  lemma AlwaysBackedIff(admin: Address, tokens: Balances, now: nat, txs: seq<Tx>, n: nat)
    requires n <= |txs|
    ensures var l := Initial(admin, tokens, now);
            BackedThroughout(l, txs, n) <==> SuppliedThroughout(l, txs, n)
  {
    InitialIsRanged(admin, tokens, now);
    InitialIsSound(admin, tokens, now);
    SoundIsBacked(Initial(admin, tokens, now));
    hide Initial;
    BackedIffSupplied(Initial(admin, tokens, now), txs, n);
  }

  lemma OneStateMore(l: Ledger, txs: seq<Tx>, n: nat)
    requires 0 < n <= |txs|
    ensures BackedThroughout(l, txs, n) <==> BackedThroughout(l, txs, n - 1) && Backed(At(l, txs, n))
    ensures SuppliedThroughout(l, txs, n) <==>
              SuppliedThroughout(l, txs, n - 1) && WithinSupply(At(l, txs, n - 1), txs[n - 1])
    ensures BackedThroughout(l, txs, n - 1) ==> Backed(At(l, txs, n - 1))
    ensures At(l, txs, n) == After(At(l, txs, n - 1), txs[n - 1])
  {
    hide Backed, WithinSupply, After;
  }

  lemma {:induction false} BackedIffSupplied(l: Ledger, txs: seq<Tx>, n: nat)
    requires n <= |txs| && Ranged(l) && Backed(l)
    ensures BackedThroughout(l, txs, n) <==> SuppliedThroughout(l, txs, n)
  {
    if n == 0 {
      hide Perform, Ranged, WithinSupply, Backed, After;
      assert At(l, txs, 0) == l;
    } else {
      hide *;
      BackedIffSupplied(l, txs, n - 1);
      RunKeepsRanged(l, txs, n - 1);
      OneStateMore(l, txs, n);
      if Backed(At(l, txs, n - 1)) {
        StepKeepsBackedIff(At(l, txs, n - 1), txs[n - 1]);
      }
    }
  }

  /** In particular, every state of a covered run is backed. */
  lemma AlwaysBacked(admin: Address, tokens: Balances, now: nat, txs: seq<Tx>, n: nat)
    requires n <= |txs| && CoveredRun(Initial(admin, tokens, now), txs, n)
    ensures Backed(At(Initial(admin, tokens, now), txs, n))
  {
    InitialIsSound(admin, tokens, now);
    RunKeepsSound(Initial(admin, tokens, now), txs, n);
  }

  lemma SoundIsBacked(l: Ledger)
    requires Sound(l)
    ensures Backed(l)
  {
  }

  /** `accrue_yield`'s own check that the price did not fall can never fail. */
  lemma YieldAssertionNeverFires(s: int, a: int, net: int)
    requires s > 0 && net >= 0
    ensures Quotient((a + net) * SHARE_PRICE_SCALE, s) >= Quotient(a * SHARE_PRICE_SCALE, s)
  {
    QuotientMonotone(a * SHARE_PRICE_SCALE, (a + net) * SHARE_PRICE_SCALE, s);
  }

  lemma QuotientMonotone(x: int, y: int, d: int)
    requires d > 0 && x <= y
    ensures Quotient(x, d) <= Quotient(y, d)
  {
    if x >= 0 {
      FloorBounds(x, d);
      FloorAtLeast(y, d, x / d);
    } else if y < 0 {
      FloorBounds(-y, d);
      FloorAtLeast(-x, d, (-y) / d);
    } else {
      FloorBounds(-x, d);
      FloorBounds(y, d);
    }
  }

  // ---- Supply that ends where it began; one account's round trip ----

  lemma SameSupplyKeepsAssetsFrom(l: Ledger, txs: seq<Tx>, i: nat, j: nat)
    requires i <= j <= |txs| && Ranged(l) && Outstanding(l, txs, i, j)
    requires At(l, txs, i).state.totalShares == At(l, txs, j).state.totalShares
    ensures At(l, txs, i).state.totalAssets <= At(l, txs, j).state.totalAssets
  {
    hide Perform, Ranged;
    PriceNeverFallsFrom(l, txs, i, j);
    var x, y := At(l, txs, i).state, At(l, txs, j).state;
    CancelFactor(x.totalAssets, y.totalAssets, x.totalShares);
  }

  /** A stretch of any run that keeps shares outstanding and ends with the supply
      it began with leaves at least as many assets behind. */
  lemma SameSupplyKeepsAssets(admin: Address, tokens: Balances, now: nat, txs: seq<Tx>, i: nat, j: nat)
    requires i <= j <= |txs| && Outstanding(Initial(admin, tokens, now), txs, i, j)
    requires var l := Initial(admin, tokens, now);
             At(l, txs, i).state.totalShares == At(l, txs, j).state.totalShares
    ensures var l := Initial(admin, tokens, now);
            At(l, txs, i).state.totalAssets <= At(l, txs, j).state.totalAssets
  {
    InitialIsRanged(admin, tokens, now);
    hide Perform, Initial;
    SameSupplyKeepsAssetsFrom(Initial(admin, tokens, now), txs, i, j);
  }

  /** Only `user` deposits and withdraws; time may pass. */
  predicate OnlyActs(tx: Tx, user: Address) {
    || ((tx.call.CallDeposit? || tx.call.CallWithdraw? || tx.call.CallExecuteWithdrawal?) && tx.call.user == user)
    || tx.call.AdvanceTime?
  }

  /** What leaves the vault's books is at least what `user` receives, and the
      supply moves with the user's balance. */
  predicate ZeroSum(l: Ledger, l': Ledger, user: Address) {
    && Get(l'.tokens, user) - Get(l.tokens, user) <= l.state.totalAssets - l'.state.totalAssets
    && l'.state.totalShares - l.state.totalShares == BalanceOf(l', user) - BalanceOf(l, user)
  }

  lemma DepositIsZeroSum(l: Ledger, tx: Tx)
    requires tx.call.CallDeposit? && VAULT !in tx.signers
    ensures ZeroSum(l, After(l, tx), tx.call.user)
  {
    hide AssetsToShares;
  }

  lemma DivestingTakesFromStrategies(l: Ledger, assets: int, user: Address)
    requires CoverFromStrategy(l, assets).Done? && user != VAULT
    ensures Get(CoverFromStrategy(l, assets).value.0.tokens, user) <= Get(l.tokens, user)
  {
    hide LoweredWatermark;
  }

  lemma DoWithdrawIsZeroSum(l: Ledger, user: Address, shares: int, assets: int)
    requires DoWithdraw(l, user, shares, assets).Done? && user != VAULT
    ensures ZeroSum(l, DoWithdraw(l, user, shares, assets).value.0, user)
  {
    hide CoverFromStrategy;
    CoveringLeavesShares(l, assets);
    DivestingTakesFromStrategies(l, assets, user);
  }

  lemma PayoutIsZeroSum(l: Ledger, tx: Tx)
    requires (PaidAtOnce(l, tx) || Executed(l, tx)) && tx.call.user != VAULT
    ensures ZeroSum(l, After(l, tx), tx.call.user)
  {
    hide Perform, SharesToAssets, DoWithdraw;
    PayoutIsDoWithdraw(l, tx);
    var (p, shares) := Payout(l, tx);
    DoWithdrawIsZeroSum(p, tx.call.user, shares,
                        SharesToAssets(shares, p.state.totalShares, p.state.totalAssets).value);
  }

  lemma StepIsZeroSum(l: Ledger, tx: Tx, user: Address)
    requires OnlyActs(tx, user) && VAULT !in tx.signers
    ensures ZeroSum(l, After(l, tx), user)
  {
    hide Perform, SharesToAssets, Deposit;
    if tx.call.AdvanceTime? {
      TimeMovesNothing(l, tx);
    } else if tx.call.CallDeposit? {
      DepositIsZeroSum(l, tx);
    } else if Accepted(l, tx) {
      ShareCalls(l, tx);
      SignedByUser(l, tx);
      if Recorded(l, tx) {
        RecordingOnlyRecords(l, tx);
      } else {
        PayoutIsZeroSum(l, tx);
      }
    }
  }

  lemma TimeMovesNothing(l: Ledger, tx: Tx)
    requires tx.call.AdvanceTime?
    ensures After(l, tx) == l.(now := After(l, tx).now)
  {
  }

  lemma {:induction false} RunIsZeroSum(l: Ledger, txs: seq<Tx>, n: nat, user: Address)
    requires n <= |txs| && WellFormed(txs) && forall i :: 0 <= i < n ==> OnlyActs(txs[i], user)
    ensures ZeroSum(l, At(l, txs, n), user)
  {
    hide Perform;
    if n > 0 {
      RunIsZeroSum(l, txs, n - 1, user);
      StepIsZeroSum(At(l, txs, n - 1), txs[n - 1], user);
    }
  }

  /** An account that enters and leaves with no shares, while others are idle,
      never ends with more tokens than it started with, provided the vault was
      empty, or had shares outstanding that the account's own debt never reaches. */
  lemma AccountNeverGains(l: Ledger, txs: seq<Tx>, user: Address)
    requires Ranged(l) && WellFormed(txs)
    requires forall i :: 0 <= i < |txs| ==> OnlyActs(txs[i], user)
    requires BalanceOf(l, user) == 0 && BalanceOf(At(l, txs, |txs|), user) == 0
    requires || (l.state.totalShares == 0 && l.state.totalAssets == 0)
             || forall k :: 0 <= k <= |txs| ==> l.state.totalShares + BalanceOf(At(l, txs, k), user) > 0
    ensures Get(At(l, txs, |txs|).tokens, user) <= Get(l.tokens, user)
  {
    hide Perform, Ranged;
    var n := |txs|;
    RunIsZeroSum(l, txs, n, user);
    RunKeepsRanged(l, txs, n);
    RangedMeans(At(l, txs, n));
    if l.state.totalShares > 0 {
      forall k | 0 <= k <= n
        ensures At(l, txs, k).state.totalShares > 0
      {
        RunIsZeroSum(l, txs, k, user);
      }
      assert Outstanding(l, txs, 0, n);
      SameSupplyKeepsAssetsFrom(l, txs, 0, n);
    } else {
      assert At(l, txs, 0) == l;
    }
  }

  lemma PaysUser(l: Ledger, user: Address, shares: int, assets: int)
    requires DoWithdraw(l, user, shares, assets).Done? && user != VAULT && l.config.strategy != Some(user)
    ensures Get(DoWithdraw(l, user, shares, assets).value.0.tokens, user) == Get(l.tokens, user) + assets
  {
    DivestingSparesUser(l, assets, user);
    hide CoverFromStrategy;
  }

  lemma DivestingSparesUser(l: Ledger, assets: int, user: Address)
    requires CoverFromStrategy(l, assets).Done? && user != VAULT && l.config.strategy != Some(user)
    ensures Get(CoverFromStrategy(l, assets).value.0.tokens, user) == Get(l.tokens, user)
  {
    hide LoweredWatermark;
  }

  lemma DepositTakes(l: Ledger, signers: set<Address>, user: Address, amount: int)
    requires Deposit(l, signers, user, amount).Done? && user != VAULT
    ensures Get(Deposit(l, signers, user, amount).value.0.tokens, user) == Get(l.tokens, user) - amount
  {
    hide AssetsToShares;
  }

  lemma PayoutPaysUser(l: Ledger, tx: Tx)
    requires PaidAtOnce(l, tx) && tx.call.user != VAULT && l.config.strategy != Some(tx.call.user)
    ensures var worth := SharesToAssets(tx.call.shares, l.state.totalShares, l.state.totalAssets);
            && worth.Done? && Get(After(l, tx).tokens, tx.call.user) == Get(l.tokens, tx.call.user) + worth.value
            && BalanceOf(After(l, tx), tx.call.user) == BalanceOf(l, tx.call.user) - tx.call.shares
  {
    PayoutIsDoWithdraw(l, tx);
    PayoutBurns(l, tx);
    hide Perform, After, DoWithdraw, SharesToAssets;
    PaysUser(l, tx.call.user, tx.call.shares,
             SharesToAssets(tx.call.shares, l.state.totalShares, l.state.totalAssets).value);
  }

  /** In every reachable state: an account that deposits and redeems what it was
      minted at once ends with more tokens exactly when `RoundTripGains` says so
      of the totals it found. */
  lemma RedeemingAtOnceGainsIff(l: Ledger, deposit: Tx, withdraw: Tx, user: Address, amount: int)
    requires Ranged(l) && user != VAULT && l.config.strategy != Some(user)
    requires deposit.call == CallDeposit(user, amount) && Accepted(l, deposit)
    requires withdraw.call.CallWithdraw? && withdraw.call.user == user
    requires AssetsToShares(amount, l.state.totalShares, l.state.totalAssets) == Done(withdraw.call.shares)
    requires PaidAtOnce(After(l, deposit), withdraw)
    ensures var m := After(After(l, deposit), withdraw);
            && BalanceOf(m, user) == BalanceOf(l, user)
            && (Get(m.tokens, user) > Get(l.tokens, user)
                <==> RoundTripGains(amount, l.state.totalShares, l.state.totalAssets))
  {
    hide *;
    var m, s, a := After(l, deposit), l.state.totalShares, l.state.totalAssets;
    RangedMeans(l);
    DepositSwaps(l, deposit, user, amount);
    PayoutPaysUser(m, withdraw);
    RoundTripIsRedeemed(amount, s, a, withdraw.call.shares);
    RoundTripGainsIff(amount, s, a);
  }

  lemma RoundTripIsRedeemed(amount: int, s: int, a: int, minted: int)
    requires AssetsToShares(amount, s, a) == Done(minted) && InI128(s + minted) && InI128(a + amount)
    ensures RoundTrip(amount, s, a) == SharesToAssets(minted, s + minted, a + amount)
  {
    hide AssetsToShares, SharesToAssets;
  }

  /** What an accepted deposit takes from its user and gives to them. */
  lemma DepositSwaps(l: Ledger, deposit: Tx, user: Address, amount: int)
    requires deposit.call == CallDeposit(user, amount) && Accepted(l, deposit) && user != VAULT
    ensures amount > 0
    ensures var m := After(l, deposit);
            var minted := AssetsToShares(amount, l.state.totalShares, l.state.totalAssets);
            && minted.Done?
            && BalanceOf(m, user) == BalanceOf(l, user) + minted.value
            && Get(m.tokens, user) == Get(l.tokens, user) - amount
            && m.state.totalShares == l.state.totalShares + minted.value && InI128(m.state.totalShares)
            && m.state.totalAssets == l.state.totalAssets + amount && InI128(m.state.totalAssets)
            && m.config == l.config
  {
    assert Perform(l, deposit) == Deposit(l, deposit.signers, user, amount);
    DepositMints(l, deposit.signers, user, amount);
    DepositTakes(l, deposit.signers, user, amount);
    DepositFits(l, deposit.signers, user, amount);
    hide Perform, Deposit, AssetsToShares;
  }

  lemma DepositFits(l: Ledger, signers: set<Address>, user: Address, amount: int)
    requires Deposit(l, signers, user, amount).Done?
    ensures var l' := Deposit(l, signers, user, amount).value.0;
            InI128(l'.state.totalShares) && InI128(l'.state.totalAssets)
  {
    hide Transfer, AssetsToShares;
  }

  /** Without shares the gain is everything: the vault hands all its assets to
      whoever deposits next and redeems at once. */
  lemma NextDepositorTakesAll(l: Ledger, deposit: Tx, withdraw: Tx, user: Address, amount: int)
    requires Ranged(l) && l.state.totalShares == 0 && user != VAULT && l.config.strategy != Some(user)
    requires deposit.call == CallDeposit(user, amount) && Accepted(l, deposit)
    requires withdraw.call == CallWithdraw(user, amount) && PaidAtOnce(After(l, deposit), withdraw)
    ensures var m := After(l, deposit);
            && Get(After(m, withdraw).tokens, user) == Get(l.tokens, user) + l.state.totalAssets
            && BalanceOf(After(m, withdraw), user) == BalanceOf(l, user)
  {
    var m := After(l, deposit);
    RangedMeans(l);
    assert Perform(l, deposit) == Deposit(l, deposit.signers, user, amount);
    DepositMints(l, deposit.signers, user, amount);
    DepositTakes(l, deposit.signers, user, amount);
    hide Perform, Deposit, Ranged;
    assert m.state.totalShares == amount && m.state.totalAssets == l.state.totalAssets + amount;
    TakesAll(m, withdraw, user, amount);
    hide After;
  }

  /** Whoever holds the whole supply redeems all assets. */
  lemma TakesAll(m: Ledger, withdraw: Tx, user: Address, shares: int)
    requires withdraw.call == CallWithdraw(user, shares) && PaidAtOnce(m, withdraw)
    requires m.state.totalShares == shares > 0 && m.state.totalAssets >= 0 && user != VAULT
             && m.config.strategy != Some(user)
    ensures Get(After(m, withdraw).tokens, user) == Get(m.tokens, user) + m.state.totalAssets
    ensures BalanceOf(After(m, withdraw), user) == BalanceOf(m, user) - shares
  {
    PayoutIsDoWithdraw(m, withdraw);
    PayoutBurns(m, withdraw);
    FullRedemption(shares, m.state.totalAssets);
    hide Perform, After, DoWithdraw, SharesToAssets;
    PaysUser(m, user, shares, m.state.totalAssets);
  }
}
