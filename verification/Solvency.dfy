/** What holders are owed against what the vault accounts for, and what they are
    paid when all of them leave. */
module Solvency {
  import opened Sums
  import opened Token
  import opened ShareMath
  import opened VaultLedger
  import opened ShareAccounting
  import opened Reachable
  import opened Price

  /** What a holding is worth in a given state, rounded down. */
  function Claim(balance: int, st: VaultState): int
    requires st.totalShares > 0
  {
    (balance * st.totalAssets) / st.totalShares
  }

  function Claims(balances: map<Address, int>, st: VaultState): map<Address, int>
    requires st.totalShares > 0
  {
    map u | u in balances :: Claim(balances[u], st)
  }

  lemma FloorBelow(x: int, y: int)
    requires y > 0
    ensures (x / y) * y <= x
  {
    assert x == (x / y) * y + x % y;
  }

  lemma AddProducts(x: int, y: int, s: int, b: int, c: int, a: int)
    requires x * s <= b * a && y * s <= c * a
    ensures (x + y) * s <= (b + c) * a
  {
  }

  lemma {:induction false} ClaimsAreProportional(balances: map<Address, int>, st: VaultState)
    requires st.totalShares > 0
    ensures Sum(Claims(balances, st)) * st.totalShares <= Sum(balances) * st.totalAssets
    decreases |balances|
  {
    var claims := Claims(balances, st);
    if balances == map[] {
      assert claims == map[];
    } else {
      var u :| u in balances;
      ClaimsWithout(balances, st, u);
      SumTakes(balances, u);
      SumTakes(claims, u);
      assert |(balances - {u}).Keys| < |balances.Keys|;
      ClaimsAreProportional(balances - {u}, st);
      FloorBelow(balances[u] * st.totalAssets, st.totalShares);
      AddProducts(Claim(balances[u], st), Sum(Claims(balances - {u}, st)), st.totalShares,
                  balances[u], Sum(balances - {u}), st.totalAssets);
    }
  }

  lemma ClaimsWithout(balances: map<Address, int>, st: VaultState, u: Address)
    requires st.totalShares > 0
    ensures Claims(balances, st) - {u} == Claims(balances - {u}, st)
  {
    hide Claim;
  }

  /** The rounded-down claims of all accounts, a debtor's negative one included,
      never exceed the assets. */
  lemma ClaimsNeverExceedAssets(l: Ledger)
    requires CountersAgree(l) && l.state.totalShares > 0
    ensures Sum(Claims(l.shareBalance, l.state)) <= l.state.totalAssets
  {
    ClaimsAreProportional(l.shareBalance, l.state);
    CancelFactor(Sum(Claims(l.shareBalance, l.state)), l.state.totalAssets, l.state.totalShares);
  }

  /** ... in every state of every run from `initialize`. */
  lemma AlwaysSolvent(admin: Address, tokens: Balances, now: nat, txs: seq<Tx>, n: nat)
    requires n <= |txs|
    ensures var l := At(Initial(admin, tokens, now), txs, n);
            l.state.totalShares > 0 ==> Sum(Claims(l.shareBalance, l.state)) <= l.state.totalAssets
  {
    CountersAlwaysAgree(admin, tokens, now, txs, n);
    hide At, Initial, CountersAgree;
    var l := At(Initial(admin, tokens, now), txs, n);
    if l.state.totalShares > 0 {
      ClaimsNeverExceedAssets(l);
    }
  }

  // ---- Those who are owed something ----

  /** The positive balances: debts do not help those who hold shares. */
  function Holders(balances: map<Address, int>): map<Address, int> {
    map u | u in balances && balances[u] > 0 :: balances[u]
  }

  lemma {:induction false} HoldersExceedSupply(balances: map<Address, int>)
    ensures Sum(balances) <= Sum(Holders(balances))
    ensures Sum(balances) == Sum(Holders(balances)) <==> forall u <- balances.Keys :: balances[u] >= 0
    decreases |balances|
  {
    if balances == map[] {
      assert Holders(balances) == map[];
    } else {
      var u :| u in balances;
      var rest := balances - {u};
      assert |rest.Keys| < |balances.Keys|;
      HoldersExceedSupply(rest);
      SumTakes(balances, u);
      if balances[u] > 0 {
        SumTakes(Holders(balances), u);
        assert Holders(balances) - {u} == Holders(rest);
      } else {
        assert Holders(balances) == Holders(rest);
      }
      assert forall v <- balances.Keys :: v == u || (v in rest && rest[v] == balances[v]);
    }
  }

  /** The holders' claims, before rounding, are within the assets. */
  ghost predicate HoldersBacked(l: Ledger) {
    Sum(Holders(l.shareBalance)) * l.state.totalAssets <= l.state.totalShares * l.state.totalAssets
  }

  /** The exact condition: nobody is in debt, or there is nothing to claim. */
  lemma HoldersBackedIff(l: Ledger)
    requires Ranged(l) && l.state.totalShares > 0
    ensures HoldersBacked(l) <==> NoDebt(l) || l.state.totalAssets == 0
  {
    RangedMeans(l);
    SharesAgree(l);
    HoldersExceedSupply(l.shareBalance);
    hide Ranged, Holders;
    var owed, s, a := Sum(Holders(l.shareBalance)), l.state.totalShares, l.state.totalAssets;
    if a > 0 && owed * a <= s * a {
      CancelFactor(owed, s, a);
    }
  }

  /** Backed holders' rounded claims are within the assets too. */
  lemma BackedHoldersCanBePaid(l: Ledger)
    requires l.state.totalShares > 0 && HoldersBacked(l)
    ensures Sum(Claims(Holders(l.shareBalance), l.state)) <= l.state.totalAssets
  {
    hide Holders, Claims;
    ClaimsAreProportional(Holders(l.shareBalance), l.state);
    CancelFactor(Sum(Claims(Holders(l.shareBalance), l.state)), l.state.totalAssets, l.state.totalShares);
  }

  /** No execution that is not covered takes the last shares or the last assets. */
  ghost predicate UncoveredLeaveSome(l: Ledger, txs: seq<Tx>, n: nat)
    requires n <= |txs|
  {
    forall k :: 0 <= k < n && !Covered(At(l, txs, k), txs[k]) ==>
      At(l, txs, k + 1).state.totalShares > 0 && At(l, txs, k + 1).state.totalAssets > 0
  }

  ghost predicate HoldersBackedThroughout(l: Ledger, txs: seq<Tx>, n: nat)
    requires n <= |txs|
  {
    forall k :: 0 <= k <= n && At(l, txs, k).state.totalShares > 0 ==> HoldersBacked(At(l, txs, k))
  }

  /** Over any run whose uncovered executions leave some shares and assets: the
      holders are backed throughout if and only if there is no such execution. */
  lemma HoldersBackedIffCovered(admin: Address, tokens: Balances, now: nat, txs: seq<Tx>, n: nat)
    requires n <= |txs| && UncoveredLeaveSome(Initial(admin, tokens, now), txs, n)
    ensures var l := Initial(admin, tokens, now);
            HoldersBackedThroughout(l, txs, n) <==> CoveredRun(l, txs, n)
  {
    InitialIsRanged(admin, tokens, now);
    NoDebtIffCovered(admin, tokens, now, txs, n);
    hide *;
    var l := Initial(admin, tokens, now);
    if CoveredRun(l, txs, n) {
      NoDebtBacksHolders(l, txs, n);
    } else {
      UncoveredUnbacksHolders(l, txs, n);
    }
  }

  lemma NoDebtBacksHolders(l: Ledger, txs: seq<Tx>, n: nat)
    requires n <= |txs| && Ranged(l) && forall i :: 0 <= i <= n ==> NoDebt(At(l, txs, i))
    ensures HoldersBackedThroughout(l, txs, n)
  {
    hide At, Ranged, NoDebt, HoldersBacked;
    forall k | 0 <= k <= n && At(l, txs, k).state.totalShares > 0
      ensures HoldersBacked(At(l, txs, k))
    {
      RunKeepsRanged(l, txs, k);
      HoldersBackedIff(At(l, txs, k));
    }
  }

  lemma UncoveredUnbacksHolders(l: Ledger, txs: seq<Tx>, n: nat)
    requires n <= |txs| && Ranged(l) && UncoveredLeaveSome(l, txs, n) && !CoveredRun(l, txs, n)
    ensures !HoldersBackedThroughout(l, txs, n)
  {
    hide Ranged, HoldersBacked, Executed, Covered, After;
    var k :| 0 <= k < n && !Covered(At(l, txs, k), txs[k]);
    assert At(l, txs, k + 1) == After(At(l, txs, k), txs[k]);
    hide At;
    RunKeepsRanged(l, txs, k + 1);
    UncoveredIsExecuted(At(l, txs, k), txs[k]);
    UncoveredUnbacks(At(l, txs, k), txs[k]);
  }

  lemma UncoveredUnbacks(l: Ledger, tx: Tx)
    requires !Covered(l, tx) && Ranged(After(l, tx))
    requires After(l, tx).state.totalShares > 0 && After(l, tx).state.totalAssets > 0
    ensures !HoldersBacked(After(l, tx))
  {
    hide *;
    UncoveredExecutionOverdraws(l, tx);
    HoldersBackedIff(After(l, tx));
  }

  lemma UncoveredIsExecuted(l: Ledger, tx: Tx)
    requires !Covered(l, tx)
    ensures Executed(l, tx)
  {
  }

  // ---- A holding that is left alone ----

  /** In any run, while shares stay outstanding, the claim of a holder whose balance
      is the same at the end never falls, whatever others deposit, redeem or earn
      in between. */
  lemma HolderClaimNeverFalls(admin: Address, tokens: Balances, now: nat, txs: seq<Tx>, i: nat, j: nat, u: Address)
    requires i <= j <= |txs| && Outstanding(Initial(admin, tokens, now), txs, i, j)
    requires var x, y := At(Initial(admin, tokens, now), txs, i), At(Initial(admin, tokens, now), txs, j);
             BalanceOf(x, u) == BalanceOf(y, u) >= 0
    ensures var x, y := At(Initial(admin, tokens, now), txs, i), At(Initial(admin, tokens, now), txs, j);
            && x.state.totalShares > 0 && y.state.totalShares > 0
            && Claim(BalanceOf(x, u), x.state) <= Claim(BalanceOf(y, u), y.state)
  {
    var l := Initial(admin, tokens, now);
    InitialIsRanged(admin, tokens, now);
    hide Perform, Initial, Ranged;
    RunKeepsRanged(l, txs, i);
    RunKeepsRanged(l, txs, j);
    RangedMeans(At(l, txs, i));
    RangedMeans(At(l, txs, j));
    PriceNeverFallsFrom(l, txs, i, j);
    var x, y := At(l, txs, i), At(l, txs, j);
    ClaimGrowsWithPrice(BalanceOf(x, u), x.state.totalShares, x.state.totalAssets, y.state.totalShares,
                        y.state.totalAssets);
  }

  // ---- Everybody leaves ----

  /** A payout of all its user holds, at once or by executing a record. */
  predicate Leaves(l: Ledger, tx: Tx) {
    (PaidAtOnce(l, tx) || Executed(l, tx)) && Payout(l, tx).1 == BalanceOf(l, tx.call.user)
  }

  /** Anything that leaves shares and accounted assets alone: recording a
      withdrawal, waiting, recalling funds from a strategy, failing. */
  predicate Waits(l: Ledger, tx: Tx) {
    && After(l, tx).shareBalance == l.shareBalance
    && After(l, tx).state.totalShares == l.state.totalShares
    && After(l, tx).state.totalAssets == l.state.totalAssets
  }

  /** In some order, with any waiting in between, all holders leave. */
  ghost predicate EverybodyLeaves(l: Ledger, txs: seq<Tx>) {
    && (forall i :: 0 <= i < |txs| ==> Leaves(At(l, txs, i), txs[i]) || Waits(At(l, txs, i), txs[i]))
    && (forall u :: BalanceOf(At(l, txs, |txs|), u) == 0)
  }

  lemma StepOfLeaving(l: Ledger, txs: seq<Tx>, i: nat)
    requires EverybodyLeaves(l, txs) && i < |txs|
    ensures Leaves(At(l, txs, i), txs[i]) || Waits(At(l, txs, i), txs[i])
  {
    hide Leaves, Waits, At;
  }

  lemma LeavingZeroes(l: Ledger, tx: Tx, u: Address)
    requires Leaves(l, tx)
    ensures BalanceOf(After(l, tx), u) == if u == tx.call.user then 0 else BalanceOf(l, u)
  {
    PayoutBurns(l, tx);
    hide Perform, After, Payout;
  }

  /** Whoever holds something holds what they held before. */
  lemma {:induction false} HeldBefore(l: Ledger, txs: seq<Tx>, k: nat, i: nat, u: Address)
    requires EverybodyLeaves(l, txs) && k <= i <= |txs| && BalanceOf(At(l, txs, i), u) != 0
    ensures BalanceOf(At(l, txs, k), u) == BalanceOf(At(l, txs, i), u)
    decreases i
  {
    hide Perform, EverybodyLeaves, Leaves;
    if k < i {
      StepOfLeaving(l, txs, i - 1);
      if Leaves(At(l, txs, i - 1), txs[i - 1]) {
        LeavingZeroes(At(l, txs, i - 1), txs[i - 1], u);
      }
      HeldBefore(l, txs, k, i - 1, u);
    }
  }

  lemma NobodyOwes(l: Ledger, txs: seq<Tx>, i: nat)
    requires Sound(l) && EverybodyLeaves(l, txs) && i <= |txs|
    ensures NoDebt(At(l, txs, i))
  {
    SoundMeansNoDebt(l);
    hide Perform, EverybodyLeaves, Sound, Initial;
    forall u | u in At(l, txs, i).shareBalance
      ensures At(l, txs, i).shareBalance[u] >= 0
    {
      assert At(l, txs, i).shareBalance[u] == BalanceOf(At(l, txs, i), u);
      if BalanceOf(At(l, txs, i), u) != 0 {
        HeldBefore(l, txs, 0, i, u);
        assert At(l, txs, 0) == l;
      }
    }
  }

  lemma SoundMeansNoDebt(l: Ledger)
    requires Sound(l)
    ensures NoDebt(l)
  {
  }

  /** While somebody still holds shares, shares are outstanding. */
  lemma HolderMeansShares(l: Ledger, u: Address)
    requires CountersAgree(l) && NoDebt(l) && BalanceOf(l, u) > 0
    ensures l.state.totalShares >= BalanceOf(l, u)
  {
    SumBoundsEntry(l.shareBalance, u);
  }

  lemma RangedWhileLeaving(l: Ledger, txs: seq<Tx>, i: nat)
    requires Sound(l) && i <= |txs|
    ensures Ranged(At(l, txs, i)) && CountersAgree(At(l, txs, i))
  {
    SoundIsRanged(l);
    hide At, Sound, Ranged;
    RunKeepsRanged(l, txs, i);
    RangedMeans(At(l, txs, i));
  }

  lemma OutstandingWhileHeld(l: Ledger, txs: seq<Tx>, i: nat, u: Address)
    requires Sound(l) && EverybodyLeaves(l, txs) && i <= |txs| && BalanceOf(At(l, txs, i), u) > 0
    ensures Outstanding(l, txs, 0, i)
  {
    hide At, Perform, EverybodyLeaves, Sound, Ranged, CountersAgree, NoDebt;
    forall k | 0 <= k <= i
      ensures At(l, txs, k).state.totalShares > 0
    {
      HeldBefore(l, txs, k, i, u);
      RangedWhileLeaving(l, txs, k);
      NobodyOwes(l, txs, k);
      HolderMeansShares(At(l, txs, k), u);
    }
  }

  lemma PayoutPays(l: Ledger, tx: Tx)
    requires Leaves(l, tx) && Ranged(l) && l.state.totalShares > 0
    ensures Perform(l, tx).Done? && BalanceOf(l, tx.call.user) > 0
    ensures Perform(l, tx).value.1 == Claim(BalanceOf(l, tx.call.user), l.state)
    ensures After(l, tx).state.totalShares == l.state.totalShares - BalanceOf(l, tx.call.user)
    ensures After(l, tx).state.totalAssets == l.state.totalAssets - Claim(BalanceOf(l, tx.call.user), l.state)
  {
    RangedMeans(l);
    PayoutIsDoWithdraw(l, tx);
    PayoutMovesTotals(l, tx);
    PayoutBurnsShares(l, tx);
    PaysWhatItReturns(Payout(l, tx).0, tx.call.user, Payout(l, tx).1,
                      SharesToAssets(Payout(l, tx).1, l.state.totalShares, l.state.totalAssets).value);
    ConversionIsClaim(BalanceOf(l, tx.call.user), l.state);
    hide Perform, DoWithdraw, SharesToAssets, Ranged, Claim, After;
  }

  lemma PaysWhatItReturns(l: Ledger, user: Address, shares: int, assets: int)
    requires DoWithdraw(l, user, shares, assets).Done?
    ensures DoWithdraw(l, user, shares, assets).value.1 == assets
  {
    hide CoverFromStrategy, Transfer;
  }

  lemma ConversionIsClaim(shares: int, st: VaultState)
    requires st.totalShares > 0 && st.totalAssets >= 0 && shares > 0
    requires SharesToAssets(shares, st.totalShares, st.totalAssets).Done?
    ensures SharesToAssets(shares, st.totalShares, st.totalAssets).value == Claim(shares, st)
  {
    assert shares * st.totalAssets >= 0;
  }

  /** Each holder who leaves, at once or after the timelock, is paid at least the
      claim they had at the start. */
  lemma EachGetsTheirClaim(l: Ledger, txs: seq<Tx>, i: nat)
    requires Sound(l) && l.state.totalShares > 0 && EverybodyLeaves(l, txs)
    requires i < |txs| && Leaves(At(l, txs, i), txs[i])
    ensures Perform(At(l, txs, i), txs[i]).Done?
    ensures Perform(At(l, txs, i), txs[i]).value.1 >= Claim(BalanceOf(l, txs[i].call.user), l.state)
  {
    var before, u := At(l, txs, i), txs[i].call.user;
    SoundIsRanged(l);
    RangedWhileLeaving(l, txs, i);
    LeaverHolds(before, txs[i]);
    OutstandingWhileHeld(l, txs, i, u);
    HeldBefore(l, txs, 0, i, u);
    assert At(l, txs, 0) == l;
    assert before.state.totalShares > 0;
    hide At, Perform, Leaves, Sound, EverybodyLeaves, CountersAgree, NoDebt;
    PayoutPays(before, txs[i]);
    PriceNeverFallsFrom(l, txs, 0, i);
    RangedMeans(l);
    RangedMeans(before);
    hide Ranged, Outstanding;
    ClaimGrowsWithPrice(BalanceOf(l, u), l.state.totalShares, l.state.totalAssets,
                        before.state.totalShares, before.state.totalAssets);
  }

  lemma LeaverHolds(l: Ledger, tx: Tx)
    requires Ranged(l) && Leaves(l, tx)
    ensures BalanceOf(l, tx.call.user) > 0
  {
    PayoutBurnsShares(l, tx);
    hide Perform;
  }

  lemma WholeSupplyClaimsEverything(st: VaultState)
    requires st.totalShares > 0 && st.totalAssets >= 0
    ensures Claim(st.totalShares, st) == st.totalAssets
  {
    var s, a := st.totalShares, st.totalAssets;
    assert s * a == a * s >= 0;
    FloorAtLeast(s * a, s, a);
    FloorAtMost(s * a, s, a);
  }

  /** Who takes the last shares takes the last assets. */
  predicate EmptyTogether(l: Ledger) {
    l.state.totalShares == 0 ==> l.state.totalAssets == 0
  }

  lemma LeavingEmptiesTogether(l: Ledger, tx: Tx)
    requires Ranged(l) && NoDebt(l) && Leaves(l, tx)
    ensures EmptyTogether(After(l, tx))
  {
    RangedMeans(l);
    LeaverHolds(l, tx);
    HolderMeansShares(l, tx.call.user);
    PayoutPays(l, tx);
    WholeSupplyClaimsEverything(l.state);
    hide Perform, After, Leaves, Ranged, CountersAgree, Claim;
  }

  lemma {:induction false} EmptiesTogether(l: Ledger, txs: seq<Tx>, i: nat)
    requires Sound(l) && l.state.totalShares > 0 && EverybodyLeaves(l, txs) && i <= |txs|
    ensures EmptyTogether(At(l, txs, i))
  {
    hide Perform, Sound, EverybodyLeaves, Leaves, Ranged, CountersAgree, NoDebt;
    if i > 0 {
      EmptiesTogether(l, txs, i - 1);
      StepOfLeaving(l, txs, i - 1);
      RangedWhileLeaving(l, txs, i - 1);
      NobodyOwes(l, txs, i - 1);
      if Leaves(At(l, txs, i - 1), txs[i - 1]) {
        LeavingEmptiesTogether(At(l, txs, i - 1), txs[i - 1]);
      }
    }
  }

  lemma {:induction false} ZeroSumIsZero(m: map<Address, int>)
    requires forall u <- m.Keys :: m[u] == 0
    ensures Sum(m) == 0
    decreases |m|
  {
    if m != map[] {
      var u :| u in m && Sum(m) == m[u] + Sum(m - {u});
      assert |(m - {u}).Keys| < |m.Keys|;
      ZeroSumIsZero(m - {u});
    }
  }

  /** When everybody has left, in whatever order and however they were paid,
      nothing is left: every unit of the assets went to a holder. */
  lemma NothingIsLeft(l: Ledger, txs: seq<Tx>)
    requires Sound(l) && l.state.totalShares > 0 && EverybodyLeaves(l, txs)
    ensures At(l, txs, |txs|).state.totalShares == 0
    ensures At(l, txs, |txs|).state.totalAssets == 0
  {
    var end := At(l, txs, |txs|);
    RangedWhileLeaving(l, txs, |txs|);
    EmptiesTogether(l, txs, |txs|);
    hide At, Sound, Leaves, Waits;
    forall u | u in end.shareBalance
      ensures end.shareBalance[u] == 0
    {
      assert BalanceOf(end, u) == 0;
    }
    ZeroSumIsZero(end.shareBalance);
  }
}
