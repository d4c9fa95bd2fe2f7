/** Share conversions: `contracts/vault/src/math.rs`. */
module ShareMath {
  import opened Checked

  function AssetsToShares(assets: int, totalShares: int, totalAssets: int): Outcome<int> {
    if totalAssets == 0 || totalShares == 0 then
      Done(assets)
    else
      var product :- Mul(assets, totalShares);
      Div(product, totalAssets)
  }

  function SharesToAssets(shares: int, totalShares: int, totalAssets: int): Outcome<int> {
    if totalShares == 0 then
      Done(0)
    else
      var product :- Mul(shares, totalAssets);
      Div(product, totalShares)
  }

  /** A quotient of non-negative numbers is the greatest integer whose product fits. */
  lemma FloorBounds(x: int, y: int)
    requires x >= 0 && y > 0
    ensures (x / y) * y <= x < (x / y + 1) * y
    ensures 0 <= x / y
  {
    assert x == (x / y) * y + x % y;
  }

  /** A product bound pins the quotient from below. */
  lemma FloorAtLeast(x: int, y: int, q: int)
    requires y > 0 && q * y <= x && x >= 0
    ensures q <= x / y
  {
    FloorBounds(x, y);
  }

  /** ... and from above. */
  lemma FloorAtMost(x: int, y: int, q: int)
    requires y > 0 && x >= 0 && x < (q + 1) * y
    ensures x / y <= q
  {
    FloorBounds(x, y);
  }

  /** Minting is the largest share count worth no more than the assets paid in. */
  lemma MintRoundsDown(assets: int, totalShares: int, totalAssets: int)
    requires assets >= 0 && totalShares > 0 && totalAssets > 0
    ensures var r := AssetsToShares(assets, totalShares, totalAssets);
            r.Done? ==> r.value >= 0 && r.value * totalAssets <= assets * totalShares < (r.value + 1) * totalAssets
  {
    assert assets * totalShares >= 0;
    FloorBounds(assets * totalShares, totalAssets);
  }

  /** Redeeming is the largest asset amount worth no more than the shares handed in. */
  lemma RedeemRoundsDown(shares: int, totalShares: int, totalAssets: int)
    requires shares >= 0 && totalShares > 0 && totalAssets >= 0
    ensures var r := SharesToAssets(shares, totalShares, totalAssets);
            r.Done? ==> r.value >= 0 && r.value * totalShares <= shares * totalAssets < (r.value + 1) * totalShares
  {
    assert shares * totalAssets >= 0;
    FloorBounds(shares * totalAssets, totalShares);
  }

  /** Paying `assets` in for `minted` shares never lowers the price of a share. */
  lemma MintKeepsPrice(assets: int, minted: int, totalShares: int, totalAssets: int)
    requires minted * totalAssets <= assets * totalShares
    ensures totalAssets * (totalShares + minted) <= (totalAssets + assets) * totalShares
  {
  }

  /** Paying `assets` out for `shares` burned never lowers the price of a share. */
  lemma RedeemKeepsPrice(shares: int, assets: int, totalShares: int, totalAssets: int)
    requires assets * totalShares <= shares * totalAssets
    ensures totalAssets * (totalShares - shares) <= (totalAssets - assets) * totalShares
  {
  }

  /** Redeeming the whole supply pays out exactly everything. */
  lemma FullRedemption(totalShares: int, totalAssets: int)
    requires totalShares > 0 && totalAssets >= 0
    ensures var r := SharesToAssets(totalShares, totalShares, totalAssets);
            r.Done? ==> r.value == totalAssets
  {
    var r := SharesToAssets(totalShares, totalShares, totalAssets);
    if r.Done? {
      RedeemRoundsDown(totalShares, totalShares, totalAssets);
      assert r.value * totalShares <= totalAssets * totalShares < (r.value + 1) * totalShares;
    }
  }

  /** If price did not fall from (s0, a0) to (s1, a1), nor did any holder's claim. */
  lemma ClaimGrowsWithPrice(shares: int, s0: int, a0: int, s1: int, a1: int)
    requires shares >= 0 && s0 > 0 && s1 > 0 && a0 >= 0 && a1 >= 0
    requires a0 * s1 <= a1 * s0
    ensures (shares * a0) / s0 <= (shares * a1) / s1
  {
    var q := (shares * a0) / s0;
    FloorBounds(shares * a0, s0);
    assert q * s0 <= shares * a0;
    assert (q * s1) * s0 <= (shares * a1) * s0 by {
      assert (q * s0) * s1 <= (shares * a0) * s1 by { MulMonotone(q * s0, shares * a0, s1); }
      assert (a0 * s1) * shares <= (a1 * s0) * shares by { MulMonotone(a0 * s1, a1 * s0, shares); }
      assert (q * s0) * s1 == (q * s1) * s0;
      assert (shares * a0) * s1 == (a0 * s1) * shares;
      assert (a1 * s0) * shares == (shares * a1) * s0;
    }
    CancelFactor(q * s1, shares * a1, s0);
    assert shares * a1 >= 0;
    FloorAtLeast(shares * a1, s1, q);
  }

  lemma MulMonotone(x: int, y: int, z: int)
    requires x <= y && z >= 0
    ensures x * z <= y * z
  {
  }

  lemma CancelFactor(x: int, y: int, z: int)
    requires z > 0 && x * z <= y * z
    ensures x <= y
  {
  }

  /** A quotient of a negative number rounds towards zero as well. */
  lemma NegativeQuotient(x: int, y: int)
    requires x <= 0 && y > 0
    ensures Quotient(x, y) <= 0 && Quotient(x, y) * y >= x
  {
    if x < 0 {
      FloorBounds(-x, y);
    }
  }

  lemma NegativeDivisor(x: int, y: int)
    requires x >= 0 && y > 0
    ensures Quotient(x, -y) == -(x / y) && Quotient(-x, -y) == x / y
  {
    FloorBounds(x, y);
    if x == 0 {
      assert 0 / y == 0 && 0 / -y == 0;
    } else {
      assert x / -y == -(x / y);
    }
  }

  /** Minting when the supply may have gone negative: what is minted is positive
      unless a negative supply stands against positive assets, and a supply that
      comes out non-negative has non-negative assets. */
  lemma MintAtAnySupply(assets: int, totalShares: int, totalAssets: int)
    requires assets > 0 && (totalShares >= 0 ==> totalAssets >= 0)
    requires AssetsToShares(assets, totalShares, totalAssets).Done?
    requires AssetsToShares(assets, totalShares, totalAssets).value != 0
    ensures var minted := AssetsToShares(assets, totalShares, totalAssets).value;
            && (minted > 0 <==> totalShares >= 0 || totalAssets <= 0)
            && (totalShares + minted >= 0 ==> totalAssets + assets >= 0)
            && (totalShares > 0 ==> minted * totalAssets <= assets * totalShares)
  {
    var minted := AssetsToShares(assets, totalShares, totalAssets).value;
    if totalShares > 0 && totalAssets > 0 {
      MintRoundsDown(assets, totalShares, totalAssets);
    } else if totalShares < 0 && totalAssets > 0 {
      assert assets * totalShares <= 0;
      NegativeQuotient(assets * totalShares, totalAssets);
    } else if totalShares < 0 && totalAssets < 0 {
      var owed, lacking := -totalShares, -totalAssets;
      assert assets * totalShares == -(assets * owed) && assets * owed >= 0;
      NegativeDivisor(assets * owed, lacking);
      FloorBounds(assets * owed, lacking);
      assert minted == (assets * owed) / lacking;
      if minted >= owed {
        assert owed * lacking <= minted * lacking <= assets * owed by { MulMonotone(owed, minted, lacking); }
        CancelFactor(lacking, assets, owed);
      }
    }
  }

  /** Redeeming when shares handed in may exceed the supply. */
  lemma RedeemAtAnySupply(shares: int, totalShares: int, totalAssets: int)
    requires shares > 0 && (totalShares >= 0 ==> totalAssets >= 0)
    requires SharesToAssets(shares, totalShares, totalAssets).Done?
    ensures var assets := SharesToAssets(shares, totalShares, totalAssets).value;
            && (totalShares - shares >= 0 ==> totalAssets - assets >= 0)
            && (totalShares > 0 ==> assets * totalShares <= shares * totalAssets)
  {
    var assets := SharesToAssets(shares, totalShares, totalAssets).value;
    if totalShares > 0 {
      RedeemRoundsDown(shares, totalShares, totalAssets);
      if shares <= totalShares {
        assert assets * totalShares <= totalAssets * totalShares by { MulMonotone(shares, totalShares, totalAssets); }
        CancelFactor(assets, totalAssets, totalShares);
      }
    }
  }

  /** What a depositor gets back by redeeming at once. */
  function RoundTrip(assets: int, totalShares: int, totalAssets: int): Outcome<int> {
    var minted :- AssetsToShares(assets, totalShares, totalAssets);
    var supply :- Add(totalShares, minted);
    var total :- Add(totalAssets, assets);
    SharesToAssets(minted, supply, total)
  }

  /** Exact arithmetic behind a round trip through a vault with shares. */
  lemma RoundTripArithmetic(assets: int, minted: int, back: int, totalShares: int, totalAssets: int)
    requires assets >= 0 && minted >= 0 && totalShares > 0 && totalAssets >= 0
    requires minted * totalAssets <= assets * totalShares
    requires back * (totalShares + minted) <= minted * (totalAssets + assets)
    ensures back <= assets
  {
    assert minted * (totalAssets + assets) == minted * totalAssets + minted * assets;
    assert assets * (totalShares + minted) == assets * totalShares + minted * assets;
    CancelFactor(back, assets, totalShares + minted);
  }

  /** When depositing `assets` and redeeming at once pays back more: for a vault with
      shares, never; without shares, when it holds assets; with a negative supply,
      when the deposit outweighs the debt and, if the assets are negative too, the
      rounding of what it mints does not eat the gain. */
  predicate RoundTripGains(assets: int, totalShares: int, totalAssets: int) {
    if totalShares > 0 then false
    else if totalShares == 0 then totalAssets > 0
    else if totalAssets == 0 then assets + totalShares > 0
    else if totalAssets > 0 then false
    else
      var owed, lacking := -totalShares, -totalAssets;
      var minted := (assets * owed) / lacking;
      minted > owed && (assets * owed) % lacking >= minted - owed
  }

  /** For all totals a vault can have: a round trip gains exactly then. */
  lemma RoundTripGainsIff(assets: int, totalShares: int, totalAssets: int)
    requires assets > 0 && (totalShares >= 0 ==> totalAssets >= 0)
    ensures var back := RoundTrip(assets, totalShares, totalAssets);
            back.Done? ==> (back.value > assets <==> RoundTripGains(assets, totalShares, totalAssets))
  {
    if RoundTrip(assets, totalShares, totalAssets).Done? {
      if totalShares >= 0 {
        RoundTripCompared(assets, totalShares, totalAssets);
      } else if totalAssets == 0 {
        RoundTripFromNothing(assets, -totalShares);
      } else if totalAssets > 0 {
        RoundTripAgainstDebt(assets, -totalShares, totalAssets);
      } else {
        RoundTripInDebt(assets, -totalShares, -totalAssets);
      }
    }
  }

  lemma RoundTripFromNothing(assets: int, owed: int)
    requires assets > 0 && owed > 0 && RoundTrip(assets, -owed, 0).Done?
    ensures RoundTrip(assets, -owed, 0).value > assets <==> assets > owed
  {
    var product := assets * assets;
    assert product >= 0;
    if assets > owed {
      assert (assets + 1) * (assets - owed) == product - assets * owed + assets - owed;
      MulMonotone(1, owed, assets);
      FloorAtLeast(product, assets - owed, assets + 1);
    } else if assets < owed {
      NegativeDivisor(product, owed - assets);
      FloorBounds(product, owed - assets);
    }
  }

  lemma RoundTripAgainstDebt(assets: int, owed: int, held: int)
    requires assets > 0 && owed > 0 && held > 0 && RoundTrip(assets, -owed, held).Done?
    ensures RoundTrip(assets, -owed, held).value <= assets
  {
    var taken := (assets * owed) / held;
    assert assets * -owed == -(assets * owed) && assets * owed > 0;
    FloorBounds(assets * owed, held);
    assert AssetsToShares(assets, -owed, held) == Done(-taken);
    assert SharesToAssets(-taken, -owed + -taken, held + assets).Done?;
    assert RoundTrip(assets, -owed, held).value == Quotient(-taken * (held + assets), -(owed + taken));
    hide RoundTrip, AssetsToShares, SharesToAssets, Quotient;
    AgainstDebt(assets, owed, held, taken);
  }

  lemma AgainstDebt(assets: int, owed: int, held: int, taken: int)
    requires assets > 0 && owed > 0 && held > 0 && taken >= 0 && taken * held <= assets * owed
    ensures Quotient(-taken * (held + assets), -(owed + taken)) <= assets
  {
    var product := taken * (held + assets);
    assert -taken * (held + assets) == -product && product >= 0;
    NegativeDivisor(product, owed + taken);
    hide Quotient;
    assert product == taken * held + taken * assets <= assets * owed + taken * assets;
    assert (assets + 1) * (owed + taken) == assets * owed + assets * taken + owed + taken;
    FloorAtMost(product, owed + taken, assets);
  }

  lemma RoundTripInDebt(assets: int, owed: int, lacking: int)
    requires assets > 0 && owed > 0 && lacking > 0 && RoundTrip(assets, -owed, -lacking).Done?
    ensures var minted := (assets * owed) / lacking;
            RoundTrip(assets, -owed, -lacking).value > assets
            <==> minted > owed && (assets * owed) % lacking >= minted - owed
  {
    var minted := (assets * owed) / lacking;
    assert assets * -owed == -(assets * owed) && assets * owed > 0;
    NegativeDivisor(assets * owed, lacking);
    FloorBounds(assets * owed, lacking);
    assert AssetsToShares(assets, -owed, -lacking) == Done(minted);
    var left := (assets * owed) % lacking;
    assert assets * owed == minted * lacking + left && 0 <= left < lacking;
    if minted > owed {
      InDebtAboveZero(assets, owed, lacking, minted, left);
    } else if minted < owed {
      InDebtBelowZero(assets, owed, lacking, minted, left);
    }
  }

  lemma InDebtAboveZero(assets: int, owed: int, lacking: int, minted: int, left: int)
    requires assets > 0 && minted > owed > 0 && lacking > 0 && assets * owed == minted * lacking + left && 0 <= left
    ensures Quotient(minted * (assets - lacking), minted - owed) > assets <==> left >= minted - owed
  {
    assert owed * lacking <= minted * lacking <= assets * owed by { MulMonotone(owed, minted, lacking); }
    CancelFactor(lacking, assets, owed);
    var product := minted * (assets - lacking);
    assert product >= 0;
    assert product == minted * assets - assets * owed + left;
    assert (assets + 1) * (minted - owed) == assets * minted - assets * owed + minted - owed;
    if left >= minted - owed {
      FloorAtLeast(product, minted - owed, assets + 1);
    } else {
      FloorAtMost(product, minted - owed, assets);
    }
  }

  lemma InDebtBelowZero(assets: int, owed: int, lacking: int, minted: int, left: int)
    requires assets > 0 && owed > minted >= 0 && lacking > left >= 0 && assets * owed == minted * lacking + left
    ensures Quotient(minted * (assets - lacking), minted - owed) <= assets
  {
    assert assets * owed < (minted + 1) * lacking <= owed * lacking by { MulMonotone(minted + 1, owed, lacking); }
    assert assets < lacking by {
      if assets >= lacking {
        MulMonotone(lacking, assets, owed);
      }
    }
    var product := minted * (lacking - assets);
    assert product >= 0 && minted * (assets - lacking) == -product;
    NegativeDivisor(product, owed - minted);
    assert product == assets * owed - left - minted * assets;
    assert (assets + 1) * (owed - minted) == assets * owed - assets * minted + owed - minted;
    FloorAtMost(product, owed - minted, assets);
  }

  lemma RoundTripCompared(assets: int, totalShares: int, totalAssets: int)
    requires assets > 0 && totalShares >= 0 && totalAssets >= 0
    requires RoundTrip(assets, totalShares, totalAssets).Done?
    ensures RoundTrip(assets, totalShares, totalAssets).value <= assets <==> totalShares > 0 || totalAssets == 0
  {
    var minted := AssetsToShares(assets, totalShares, totalAssets).value;
    var back := RoundTrip(assets, totalShares, totalAssets).value;
    if totalShares > 0 {
      if totalAssets > 0 {
        MintRoundsDown(assets, totalShares, totalAssets);
      }
      RedeemRoundsDown(minted, totalShares + minted, totalAssets + assets);
      RoundTripArithmetic(assets, minted, back, totalShares, totalAssets);
    } else {
      FullRedemption(assets, totalAssets + assets);
    }
  }

  lemma LossArithmetic(assets: int, minted: int, back: int, totalShares: int, totalAssets: int)
    requires minted >= 0 && totalShares > 0 && totalAssets > 0 && back <= assets
    requires assets * totalShares < (minted + 1) * totalAssets
    requires minted * (totalAssets + assets) < (back + 1) * (totalShares + minted)
    ensures (assets - back) * totalShares < totalAssets + totalShares
  {
    var d := assets - back - 1;
    assert assets * totalShares < minted * totalAssets + totalAssets;
    assert minted * totalAssets + minted * assets < (assets - d) * totalShares + (assets - d) * minted;
    assert (assets - d) * totalShares == assets * totalShares - d * totalShares;
    assert (assets - d) * minted == minted * assets - d * minted;
    assert d * totalShares + d * minted < totalAssets;
    assert d >= 0 ==> d * minted >= 0;
  }

  /** The loss of a round trip is less than one old share price plus one unit. */
  lemma RoundTripLossBounded(assets: int, totalShares: int, totalAssets: int)
    requires assets > 0 && totalShares > 0 && totalAssets > 0
    ensures var back := RoundTrip(assets, totalShares, totalAssets);
            back.Done? ==> (assets - back.value) * totalShares < totalAssets + totalShares
  {
    if RoundTrip(assets, totalShares, totalAssets).Done? {
      var minted := AssetsToShares(assets, totalShares, totalAssets).value;
      var back := RoundTrip(assets, totalShares, totalAssets).value;
      MintRoundsDown(assets, totalShares, totalAssets);
      RedeemRoundsDown(minted, totalShares + minted, totalAssets + assets);
      RoundTripCompared(assets, totalShares, totalAssets);
      LossArithmetic(assets, minted, back, totalShares, totalAssets);
    }
  }
}
