/** The contract as it runs: entry points read and overwrite storage in place.
    Every method is proved to end as its function in `VaultLedger` says, so the
    theorems about runs of those functions are theorems about this class.

    A failing call is undone whole by the host, so an entry point may compute
    every checked value before its first write; where a call has already written
    when it fails, `Rollback` stands for the host. */
module YieldVault {
  import opened Checked
  import opened Sums
  import opened Token
  import opened ShareMath
  import opened VaultLedger
  import opened Governance
  import FeeMath
  import opened ShareAccounting
  import opened Reachable
  import Conservation
  import Price

  /** What the caller sees and what storage holds once a call with outcome `o`
      has ended: nothing is kept of a call that fails. */
  function Settle<T>(l: Ledger, o: Outcome<(Ledger, T)>): (Outcome<T>, Ledger) {
    match o
    case Done((l', r)) => (Done(r), l')
    case Error(e) => (Error(e), l)
    case Panic => (Panic, l)
  }

  class Vault {
    // Instance storage
    var config: Config
    var state: VaultState
    var totalShares: int
    var totalAssets: int
    var shareBalance: map<Address, int>
    var userDeposit: map<Address, int>
    var pendingWithdrawal: map<Address, PendingWithdrawal>
    var lastDepositTime: map<Address, int>
    var treasuryBalance: int
    var strategyWatermark: map<Address, int>
    var dao: Dao
    // The token contract and the ledger clock
    var tokens: Balances
    var now: int

    function Snapshot(): Ledger
      reads this
    {
      Ledger(config, state, totalShares, totalAssets, shareBalance, userDeposit, pendingWithdrawal, lastDepositTime,
             treasuryBalance, strategyWatermark, dao, tokens, now)
    }

    /** `initialize` on fresh storage. */
    constructor (admin: Address, tokens: Balances, now: nat)
      ensures Snapshot() == Initial(admin, tokens, now)
    {
      config := Defaults(admin);
      totalAssets := 0;
      totalShares := 0;
      state := VaultState(0, 0, false);
      dao := Dao(1, 0, map[], {}, None);
      shareBalance, userDeposit, pendingWithdrawal, lastDepositTime := map[], map[], map[], map[];
      treasuryBalance, strategyWatermark := 0, map[];
      this.tokens, this.now := tokens, now;
    }

    /** The host undoes every write of a call that fails. */
    method Rollback(l: Ledger)
      modifies this
      ensures Snapshot() == l
    {
      config, state, totalShares, totalAssets := l.config, l.state, l.totalShares, l.idleAssets;
      shareBalance, userDeposit := l.shareBalance, l.userDeposit;
      pendingWithdrawal, lastDepositTime := l.pending, l.lastDepositTime;
      treasuryBalance, strategyWatermark := l.treasuryBalance, l.watermark;
      dao, tokens, now := l.dao, l.tokens, l.now;
    }

    /** The storage writes of a deposit, other than `State`. */
    method Credit(user: Address, moved: Balances, newDeposit: int, idle: int, supply: int, balance: int)
      modifies this
      ensures Snapshot() == old(Snapshot()).(
                tokens := moved,
                userDeposit := old(userDeposit)[user := newDeposit],
                idleAssets := idle,
                totalShares := supply,
                shareBalance := old(shareBalance)[user := balance],
                lastDepositTime := old(lastDepositTime)[user := old(now)])
    {
      tokens := moved;
      userDeposit := userDeposit[user := newDeposit];
      totalAssets := idle;
      totalShares := supply;
      shareBalance := shareBalance[user := balance];
      lastDepositTime := lastDepositTime[user := now];
    }

    method Deposit(signers: set<Address>, user: Address, amount: int) returns (r: Outcome<int>)
      modifies this
      ensures (r, Snapshot()) == Settle(old(Snapshot()), VaultLedger.Deposit(old(Snapshot()), signers, user, amount))
    {
      if state.isPaused {
        return Error(ContractPaused);
      }
      if user !in signers {
        return Panic;
      }
      if amount <= 0 {
        return Error(InvalidAmount);
      }
      if amount < config.minDeposit {
        return Error(MinDepositNotMet);
      }
      var sharesToMint :- AssetsToShares(amount, state.totalShares, state.totalAssets);
      if sharesToMint == 0 {
        return Error(InvalidAmount);
      }
      var newDeposit :- Add(Get(userDeposit, user), amount);
      if newDeposit > config.perUserCap {
        return Error(ExceedsUserCap);
      }
      var moved :- Transfer(tokens, user, VAULT, amount);
      var idle :- Add(totalAssets, amount);
      var supply :- Add(state.totalShares, sharesToMint);
      var assets :- Add(state.totalAssets, amount);
      var balance :- Add(Get(shareBalance, user), sharesToMint);
      Credit(user, moved, newDeposit, idle, supply, balance);
      state := state.(totalAssets := assets, totalShares := supply);
      return Done(sharesToMint);
    }

    /** One entry of a batch: storage except `State` is written, and the updated
        in-memory state returned. A failing entry writes nothing. */
    method ProcessSingleBatchEntry(st: VaultState, signers: set<Address>, entry: DepositEntry)
      returns (r: Outcome<int>, st': VaultState)
      modifies this
      ensures var o := ProcessEntry(old(Snapshot()), st, signers, entry);
              && (o.Done? ==> r == Done(o.value.2) && Snapshot() == o.value.0 && st' == o.value.1)
              && (!o.Done? ==> r == o.PropagateFailure() && Snapshot() == old(Snapshot()) && st' == st)
    {
      var user, amount := entry.user, entry.amount;
      st' := st;
      if amount <= 0 {
        return Error(InvalidAmount), st;
      }
      if amount < config.minDeposit {
        return Error(MinDepositNotMet), st;
      }
      var sharesToMint :- AssetsToShares(amount, st.totalShares, st.totalAssets);
      if sharesToMint == 0 {
        return Error(InvalidAmount), st;
      }
      var newDeposit :- Add(Get(userDeposit, user), amount);
      if newDeposit > config.perUserCap {
        return Error(ExceedsUserCap), st;
      }
      if user !in signers {
        return Panic, st;
      }
      var moved :- Transfer(tokens, user, VAULT, amount);
      var idle :- Add(totalAssets, amount);
      var stored :- Add(totalShares, sharesToMint);
      var assets :- Add(st.totalAssets, amount);
      var supply :- Add(st.totalShares, sharesToMint);
      var balance :- Add(Get(shareBalance, user), sharesToMint);
      Credit(user, moved, newDeposit, idle, stored, balance);
      return Done(sharesToMint), st.(totalAssets := assets, totalShares := supply);
    }

    method BatchDeposit(signers: set<Address>, relayer: Address, entries: seq<DepositEntry>)
      returns (r: Outcome<BatchResult>)
      modifies this
      ensures (r, Snapshot())
           == Settle(old(Snapshot()), VaultLedger.BatchDeposit(old(Snapshot()), signers, relayer, entries))
    {
      hide ProcessEntry;
      var before := Snapshot();
      if state.isPaused {
        return Error(ContractPaused);
      }
      if relayer !in signers {
        return Panic;
      }
      if relayer !in config.relayers {
        return Error(RelayerNotAuthorized);
      }
      if |entries| > config.maxBatchSize {
        return Error(BatchTooLarge);
      }
      var st := state;
      var results: seq<DepositResult> := [];
      var totalSharesMinted, successCount: nat, failureCount: nat := 0, 0, 0;
      var idx := 0;
      while idx < |entries|
        invariant 0 <= idx <= |entries|
        invariant BatchLoop(BatchProgress(before, before.state, NO_RESULTS), signers, entries)
               == BatchLoop(BatchProgress(Snapshot(), st, BatchResult(results, totalSharesMinted, successCount,
                                                                      failureCount)),
                            signers, entries[idx..])
      {
        assert entries[idx..][0] == entries[idx] && entries[idx..][1..] == entries[idx + 1..];
        var entryResult, st' := ProcessSingleBatchEntry(st, signers, entries[idx]);
        match entryResult {
          case Done(sharesMinted) =>
            var total := Add(totalSharesMinted, sharesMinted);
            if total.IsFailure() || successCount + 1 > U32_MAX {
              Rollback(before);
              return Panic;
            }
            totalSharesMinted := total.value;
            successCount := successCount + 1;
            results := results + [DepositResult(entries[idx].user, sharesMinted, true, 0)];
          case Error(e) =>
            if failureCount + 1 > U32_MAX {
              Rollback(before);
              return Panic;
            }
            failureCount := failureCount + 1;
            results := results + [DepositResult(entries[idx].user, 0, false, ErrorCode(e))];
          case Panic =>
            Rollback(before);
            return Panic;
        }
        st := st';
        idx := idx + 1;
      }
      state := st;
      return Done(BatchResult(results, totalSharesMinted, successCount, failureCount));
    }

    method Withdraw(signers: set<Address>, user: Address, shares: int) returns (r: Outcome<int>)
      modifies this
      ensures (r, Snapshot()) == Settle(old(Snapshot()), VaultLedger.Withdraw(old(Snapshot()), signers, user, shares))
    {
      if state.isPaused {
        return Error(ContractPaused);
      }
      if user !in signers {
        return Panic;
      }
      if shares <= 0 {
        return Error(InvalidAmount);
      }
      if config.withdrawalCooldown > 0 {
        var earliestWithdrawal := Get(lastDepositTime, user) + config.withdrawalCooldown;
        if earliestWithdrawal > U64_MAX {
          return Panic;
        }
        if now < earliestWithdrawal {
          return Error(WithdrawalCooldownActive);
        }
      }
      if Get(shareBalance, user) < shares {
        return Error(InsufficientShares);
      }
      var assetsToReturn :- SharesToAssets(shares, state.totalShares, state.totalAssets);
      if assetsToReturn > config.largeWithdrawalThreshold {
        if now + TIMELOCK_SECONDS > U64_MAX {
          return Panic;
        }
        pendingWithdrawal := pendingWithdrawal[user := PendingWithdrawal(shares, now + TIMELOCK_SECONDS)];
        return Done(0);
      }
      r := DoWithdraw(user, shares, assetsToReturn);
    }

    method ExecuteWithdrawal(signers: set<Address>, user: Address) returns (r: Outcome<int>)
      modifies this
      ensures (r, Snapshot()) == Settle(old(Snapshot()), VaultLedger.ExecuteWithdrawal(old(Snapshot()), signers, user))
    {
      var before := Snapshot();
      if user !in signers {
        return Panic;
      }
      if user !in pendingWithdrawal {
        return Error(NoPendingWithdrawal);
      }
      var pending := pendingWithdrawal[user];
      if now < pending.unlockTimestamp {
        return Error(TimelockNotExpired);
      }
      pendingWithdrawal := pendingWithdrawal - {user};
      var assetsToReturn := SharesToAssets(pending.shares, state.totalShares, state.totalAssets);
      if assetsToReturn.IsFailure() {
        Rollback(before);
        return Panic;
      }
      r := DoWithdraw(user, pending.shares, assetsToReturn.value);
      if r.IsFailure() {
        Rollback(before);
      }
    }

    method DoWithdraw(user: Address, shares: int, assetsToReturn: int) returns (r: Outcome<int>)
      modifies this
      ensures (r, Snapshot())
           == Settle(old(Snapshot()), VaultLedger.DoWithdraw(old(Snapshot()), user, shares, assetsToReturn))
    {
      var before := Snapshot();
      if totalAssets < assetsToReturn {
        var needed :- Sub(assetsToReturn, totalAssets);
        var divested := Divest(needed);
        if divested.IsFailure() {
          return divested;
        }
      }
      r := PayOut(user, shares, assetsToReturn);
      if r.IsFailure() {
        Rollback(before);
      }
    }

    /** The storage writes of a payout, other than `State`. */
    method Debit(user: Address, moved: Balances, newDeposit: int, idle: int, supply: int, balance: int)
      modifies this
      ensures Snapshot() == old(Snapshot()).(
                tokens := moved,
                userDeposit := old(userDeposit)[user := newDeposit],
                idleAssets := idle,
                totalShares := supply,
                shareBalance := old(shareBalance)[user := balance])
    {
      tokens := moved;
      totalAssets := idle;
      totalShares := supply;
      shareBalance := shareBalance[user := balance];
      userDeposit := userDeposit[user := newDeposit];
    }

    /** The part of `do_withdraw` after idle assets have been brought up. */
    method PayOut(user: Address, shares: int, assetsToReturn: int) returns (r: Outcome<int>)
      modifies this
      ensures (r, Snapshot())
           == Settle(old(Snapshot()), VaultLedger.PayOut(old(Snapshot()), user, shares, assetsToReturn))
    {
      hide Transfer;
      var moved :- Transfer(tokens, VAULT, user, assetsToReturn);
      var idle :- Sub(totalAssets, assetsToReturn);
      var supply :- Sub(state.totalShares, shares);
      var balance :- Sub(Get(shareBalance, user), shares);
      var assets :- Sub(state.totalAssets, assetsToReturn);
      var newDeposit := 0;
      if Get(userDeposit, user) > assetsToReturn {
        newDeposit :- Sub(Get(userDeposit, user), assetsToReturn);
      }
      Debit(user, moved, newDeposit, idle, supply, balance);
      state := state.(totalAssets := assets, totalShares := supply);
      return Done(assetsToReturn);
    }

    method Divest(amount: int) returns (r: Outcome<int>)
      modifies this
      ensures (r, Snapshot()) == Settle(old(Snapshot()), VaultLedger.Divest(old(Snapshot()), amount))
    {
      if config.strategy.None? {
        return Panic;
      }
      var strategy := config.strategy.value;
      var moved :- StrategyWithdraw(tokens, strategy, amount);
      var idle :- Add(totalAssets, amount);
      if Get(strategyWatermark, strategy) > amount {
        var lowered :- Sub(Get(strategyWatermark, strategy), amount);
        strategyWatermark := strategyWatermark[strategy := lowered];
      } else {
        strategyWatermark := strategyWatermark[strategy := 0];
      }
      tokens := moved;
      totalAssets := idle;
      return Done(0);
    }

    method RaiseStrategyWatermark(strategy: Address, candidate: int)
      modifies this
      ensures Snapshot() == old(Snapshot()).(watermark := RaisedWatermark(old(strategyWatermark), strategy, candidate))
    {
      if candidate > Get(strategyWatermark, strategy) {
        strategyWatermark := strategyWatermark[strategy := candidate];
      }
    }

    method Invest(signers: set<Address>, amount: int, totalInvested: int) returns (r: Outcome<int>)
      modifies this
      ensures (r, Snapshot())
           == Settle(old(Snapshot()), VaultLedger.Invest(old(Snapshot()), signers, amount, totalInvested))
    {
      if config.admin !in signers {
        return Panic;
      }
      if amount <= 0 {
        return Error(InvalidAmount);
      }
      if config.strategy.None? {
        return Panic;
      }
      var strategy := config.strategy.value;
      var cap := if strategy in config.strategyCap then config.strategyCap[strategy] else I128_MAX;
      var newTotalInvested :- Add(totalInvested, amount);
      if newTotalInvested > cap {
        return Error(ExceedsStrategyCap);
      }
      var threshold := if strategy in config.riskThreshold then config.riskThreshold[strategy] else 10_000;
      var all :- Add(totalAssets, totalInvested);
      if all > 0 {
        if !InI128(newTotalInvested * 10_000) {
          return Panic;
        }
        if Quotient(newTotalInvested * 10_000, all) > threshold {
          return Error(ExceedsRiskThreshold);
        }
      }
      if totalAssets < amount {
        return Panic;
      }
      var remainingIdle :- Sub(totalAssets, amount);
      if remainingIdle < config.minLiquidityBuffer {
        return Error(LiquidityBufferNotMet);
      }
      var moved :- StrategyDeposit(tokens, strategy, amount);
      tokens := moved;
      RaiseStrategyWatermark(strategy, newTotalInvested);
      totalAssets := remainingIdle;
      return Done(0);
    }

    method Rebalance(signers: set<Address>, from: Address, to: Address, amount: int,
                     minDivestValue: int, minInvestValue: int, valueBefore: int, valueAfter: int)
      returns (r: Outcome<int>)
      modifies this
      ensures (r, Snapshot()) == Settle(old(Snapshot()),
                VaultLedger.Rebalance(old(Snapshot()), signers, from, to, amount, minDivestValue, minInvestValue,
                                      valueBefore, valueAfter))
    {
      if config.admin !in signers {
        return Panic;
      }
      if amount <= 0 {
        return Error(InvalidAmount);
      }
      var vaultBalBefore := Get(tokens, VAULT);
      var divested :- StrategyWithdraw(tokens, from, amount);
      var difference := Get(divested, VAULT) - vaultBalBefore;
      var withdrawnAssets := if InI128(difference) then difference else 0;
      if withdrawnAssets < minDivestValue {
        return Error(SlippageExceeded);
      }
      var lowered := 0;
      if Get(strategyWatermark, from) > withdrawnAssets {
        lowered :- Sub(Get(strategyWatermark, from), withdrawnAssets);
      }
      var sent :- StrategyDeposit(divested, to, withdrawnAssets);
      var investedValue := if InI128(valueAfter - valueBefore) then valueAfter - valueBefore else 0;
      if investedValue < minInvestValue {
        return Error(SlippageExceeded);
      }
      strategyWatermark := strategyWatermark[from := lowered];
      tokens := sent;
      RaiseStrategyWatermark(to, valueAfter);
      return Done(0);
    }

    method AccrueYield(signers: set<Address>, amount: int) returns (r: Outcome<int>)
      modifies this
      ensures (r, Snapshot()) == Settle(old(Snapshot()), VaultLedger.AccrueYield(old(Snapshot()), signers, amount))
    {
      if config.admin !in signers {
        return Panic;
      }
      if amount <= 0 {
        return Error(InvalidAmount);
      }
      if !InI128(amount * config.feeBps) {
        return Error(MathOverflow);
      }
      var feeAmount := Quotient(amount * config.feeBps, FeeMath.BPS_DENOMINATOR);
      var netYield := amount - feeAmount;
      if !InI128(netYield) {
        return Error(MathOverflow);
      }
      var moved :- Transfer(tokens, config.admin, VAULT, amount);
      var treasury := treasuryBalance;
      if feeAmount > 0 {
        treasury :- Add(treasury, feeAmount);
      }
      var idle :- Add(totalAssets, netYield);
      if state.totalShares > 0 && !InI128(state.totalAssets * SHARE_PRICE_SCALE) {
        return Panic;
      }
      var assets :- Add(state.totalAssets, netYield);
      if state.totalShares > 0 {
        if !InI128(assets * SHARE_PRICE_SCALE) {
          return Panic;
        }
        var priceBefore := Quotient(state.totalAssets * SHARE_PRICE_SCALE, state.totalShares);
        var priceAfter := Quotient(assets * SHARE_PRICE_SCALE, state.totalShares);
        if priceAfter < priceBefore {
          return Panic;
        }
      }
      tokens := moved;
      treasuryBalance := treasury;
      totalAssets := idle;
      state := state.(totalAssets := assets);
      return Done(0);
    }

    method ReportBenjiYield(signers: set<Address>, strategy: Address, amount: int) returns (r: Outcome<int>)
      modifies this
      ensures (r, Snapshot())
           == Settle(old(Snapshot()), VaultLedger.ReportBenjiYield(old(Snapshot()), signers, strategy, amount))
    {
      if strategy !in signers || amount <= 0 || dao.benjiStrategy != Some(strategy) {
        return Panic;
      }
      var moved :- Transfer(tokens, strategy, VAULT, amount);
      var split :- FeeMath.CalculateProtocolFee(amount, config.feeBps);
      var (feeAmount, netYield) := split;
      var treasury := treasuryBalance;
      if feeAmount > 0 {
        treasury :- Add(treasury, feeAmount);
      }
      var nextWatermark :- Add(Get(strategyWatermark, strategy), amount);
      var idle :- Add(totalAssets, netYield);
      var assets :- Add(state.totalAssets, netYield);
      tokens := moved;
      treasuryBalance := treasury;
      RaiseStrategyWatermark(strategy, nextWatermark);
      totalAssets := idle;
      state := state.(totalAssets := assets);
      return Done(0);
    }

    method AccrueKoreanDebtYield(signers: set<Address>, harvested: int) returns (r: Outcome<int>)
      modifies this
      ensures (r, Snapshot())
           == Settle(old(Snapshot()), VaultLedger.AccrueKoreanDebtYield(old(Snapshot()), signers, harvested))
    {
      if config.admin !in signers || config.koreanStrategy.None? || harvested <= 0 {
        return Panic;
      }
      var assets :- Add(state.totalAssets, harvested);
      state := state.(totalAssets := assets);
      return Done(harvested);
    }

    method ClaimFees(signers: set<Address>) returns (r: Outcome<int>)
      modifies this
      ensures (r, Snapshot()) == Settle(old(Snapshot()), VaultLedger.ClaimFees(old(Snapshot()), signers))
    {
      if config.admin !in signers || config.treasury.None? || treasuryBalance == 0 {
        return Panic;
      }
      var balance := treasuryBalance;
      var moved :- Transfer(tokens, VAULT, config.treasury.value, balance);
      treasuryBalance := 0;
      tokens := moved;
      return Done(balance);
    }

    method CreateStrategyProposal(signers: set<Address>, proposer: Address, strategy: Address) returns (r: Outcome<int>)
      modifies this
      ensures (r, Snapshot())
           == Settle(old(Snapshot()), Govern(old(Snapshot()), signers, CreateProposal(proposer, strategy)))
    {
      if proposer !in signers || dao.nonce + 1 > U32_MAX {
        return Panic;
      }
      var nextNonce := dao.nonce + 1;
      dao := dao.(nonce := nextNonce);
      dao := dao.(proposals := dao.proposals[nextNonce := Proposal(strategy, 0, 0, false)]);
      return Done(nextNonce);
    }

    method VoteOnProposal(signers: set<Address>, voter: Address, id: nat, support: bool, weight: int)
      returns (r: Outcome<int>)
      modifies this
      ensures (r, Snapshot())
           == Settle(old(Snapshot()), Govern(old(Snapshot()), signers, Vote(voter, id, support, weight)))
    {
      if voter !in signers || weight <= 0 || (id, voter) in dao.votes || id !in dao.proposals {
        return Panic;
      }
      var proposal := dao.proposals[id];
      if proposal.executed {
        return Panic;
      }
      if support {
        var tally :- Add(proposal.yesVotes, weight);
        proposal := proposal.(yesVotes := tally);
      } else {
        var tally :- Add(proposal.noVotes, weight);
        proposal := proposal.(noVotes := tally);
      }
      dao := dao.(proposals := dao.proposals[id := proposal]);
      dao := dao.(votes := dao.votes + {(id, voter)});
      return Done(0);
    }

    method ExecuteStrategyProposal(signers: set<Address>, id: nat) returns (r: Outcome<int>)
      modifies this
      ensures (r, Snapshot()) == Settle(old(Snapshot()), Govern(old(Snapshot()), signers, Execute(id)))
    {
      if id !in dao.proposals {
        return Panic;
      }
      var proposal := dao.proposals[id];
      if proposal.executed || proposal.yesVotes < dao.threshold || proposal.yesVotes <= proposal.noVotes {
        return Panic;
      }
      dao := dao.(benjiStrategy := Some(proposal.strategy));
      dao := dao.(proposals := dao.proposals[id := proposal.(executed := true)]);
      return Done(0);
    }

    method SetDaoThreshold(signers: set<Address>, threshold: int) returns (r: Outcome<int>)
      modifies this
      ensures (r, Snapshot()) == Settle(old(Snapshot()), Govern(old(Snapshot()), signers, SetThreshold(threshold)))
    {
      if config.admin !in signers || threshold <= 0 {
        return Panic;
      }
      dao := dao.(threshold := threshold);
      return Done(0);
    }

    method Configure(signers: set<Address>, newConfig: Config) returns (r: Outcome<int>)
      modifies this
      ensures (r, Snapshot()) == Settle(old(Snapshot()), VaultLedger.Configure(old(Snapshot()), signers, newConfig))
    {
      if config.admin !in signers || !ValidConfig(newConfig) {
        return Panic;
      }
      config := newConfig;
      return Done(0);
    }

    method SetPaused(signers: set<Address>, paused: bool) returns (r: Outcome<int>)
      modifies this
      ensures (r, Snapshot()) == Settle(old(Snapshot()), VaultLedger.SetPaused(old(Snapshot()), signers, paused))
    {
      if config.admin !in signers {
        return Panic;
      }
      state := state.(isPaused := paused);
      return Done(0);
    }

    /** The token contract moves tokens outside the vault's entry points. */
    method MoveTokens(signers: set<Address>, from: Address, to: Address, amount: int) returns (r: Outcome<int>)
      modifies this
      ensures (r, Snapshot())
           == Settle(old(Snapshot()), VaultLedger.MoveTokens(old(Snapshot()), signers, from, to, amount))
    {
      if from !in signers {
        return Panic;
      }
      var moved :- Transfer(tokens, from, to, amount);
      tokens := moved;
      return Done(0);
    }

    /** The ledger closes with a later timestamp. */
    method PassTime(to: int) returns (r: Outcome<int>)
      modifies this
      ensures (r, Snapshot()) == Settle(old(Snapshot()), VaultLedger.PassTime(old(Snapshot()), to))
    {
      if !(now <= to <= U64_MAX) {
        return Panic;
      }
      now := to;
      return Done(0);
    }

    method PerformGovernance(signers: set<Address>, action: Action) returns (r: Outcome<int>)
      modifies this
      ensures (r, Snapshot()) == Settle(old(Snapshot()), Govern(old(Snapshot()), signers, action))
    {
      hide Govern;
      match action {
        case CreateProposal(proposer, strategy) => r := CreateStrategyProposal(signers, proposer, strategy);
        case Vote(voter, id, support, weight) => r := VoteOnProposal(signers, voter, id, support, weight);
        case Execute(id) => r := ExecuteStrategyProposal(signers, id);
        case SetThreshold(threshold) => r := SetDaoThreshold(signers, threshold);
      }
    }

    /** The host runs one transaction. */
    method Perform(tx: Tx) returns (r: Outcome<int>)
      modifies this
      ensures (r, Snapshot()) == Settle(old(Snapshot()), VaultLedger.Perform(old(Snapshot()), tx))
      ensures Snapshot() == VaultLedger.After(old(Snapshot()), tx)
    {
      hide VaultLedger.Deposit, VaultLedger.BatchDeposit, VaultLedger.Withdraw, VaultLedger.ExecuteWithdrawal,
           VaultLedger.Invest, VaultLedger.Divest, VaultLedger.Rebalance, VaultLedger.AccrueYield,
           VaultLedger.ReportBenjiYield, VaultLedger.AccrueKoreanDebtYield, VaultLedger.ClaimFees,
           VaultLedger.Configure, VaultLedger.SetPaused, Govern, VaultLedger.MoveTokens, VaultLedger.PassTime;
      match tx.call {
        case CallDeposit(user, amount) => r := Deposit(tx.signers, user, amount);
        case CallBatchDeposit(relayer, entries) =>
          var batch := BatchDeposit(tx.signers, relayer, entries);
          match batch {
            case Done(result) => r := Done(result.totalSharesMinted);
            case Error(code) => r := Error(code);
            case Panic => r := Panic;
          }
        case CallWithdraw(user, shares) => r := Withdraw(tx.signers, user, shares);
        case CallExecuteWithdrawal(user) => r := ExecuteWithdrawal(tx.signers, user);
        case CallInvest(amount, invested) => r := Invest(tx.signers, amount, invested);
        case CallDivest(amount) => r := Divest(amount);
        case CallRebalance(from, to, amount, minDivest, minInvest, before, after) =>
          r := Rebalance(tx.signers, from, to, amount, minDivest, minInvest, before, after);
        case CallAccrueYield(amount) => r := AccrueYield(tx.signers, amount);
        case CallReportBenjiYield(strategy, amount) => r := ReportBenjiYield(tx.signers, strategy, amount);
        case CallAccrueKoreanDebtYield(harvested) => r := AccrueKoreanDebtYield(tx.signers, harvested);
        case CallClaimFees => r := ClaimFees(tx.signers);
        case CallConfigure(newConfig) => r := Configure(tx.signers, newConfig);
        case CallPause(paused) => r := SetPaused(tx.signers, paused);
        case CallGovernance(action) => r := PerformGovernance(tx.signers, action);
        case TokenTransfer(from, to, amount) => r := MoveTokens(tx.signers, from, to, amount);
        case AdvanceTime(timestamp) => r := PassTime(timestamp);
      }
    }

    /** The host runs any sequence of transactions. The counters keep agreeing, and
        while shares stay outstanding their price does not fall. */
    method Run(txs: seq<Tx>)
      requires Ranged(Snapshot())
      modifies this
      ensures Snapshot() == At(old(Snapshot()), txs, |txs|)
      ensures Ranged(Snapshot()) && CountersAgree(Snapshot())
      ensures Price.Outstanding(old(Snapshot()), txs, 0, |txs|) ==> Price.PriceNotLower(old(Snapshot()), Snapshot())
    {
      hide *;
      ghost var start := Snapshot();
      var i := 0;
      AtStart(start, txs);
      while i < |txs|
        invariant 0 <= i <= |txs|
        invariant Snapshot() == At(start, txs, i)
      {
        AtNext(start, txs, i);
        var _ := Perform(txs[i]);
        i := i + 1;
      }
      RunKeepsRanged(start, txs, |txs|);
      RangedMeans(Snapshot());
      if Price.Outstanding(start, txs, 0, |txs|) {
        Price.PriceNeverFallsFrom(start, txs, 0, |txs|);
      }
    }
  }

  lemma AtStart(l: Ledger, txs: seq<Tx>)
    ensures At(l, txs, 0) == l
  {
  }

  lemma AtNext(l: Ledger, txs: seq<Tx>, i: nat)
    requires i < |txs|
    ensures At(l, txs, i + 1) == VaultLedger.After(At(l, txs, i), txs[i])
  {
    hide VaultLedger.After;
  }

  /** A vault from its initialisation through any run. Its books balance whatever
      was called and whatever failed. */
  method Live(admin: Address, tokens: Balances, now: nat, txs: seq<Tx>) returns (vault: Vault)
    requires WellFormed(txs)
    ensures fresh(vault) && vault.Snapshot() == At(Initial(admin, tokens, now), txs, |txs|)
    ensures CountersAgree(vault.Snapshot())
    ensures var l, f := vault.Snapshot(), Conservation.FlowsOver(Initial(admin, tokens, now), txs, |txs|);
            && Get(vault.tokens, VAULT) == vault.totalAssets + vault.treasuryBalance + Get(tokens, VAULT) + f.surplus
            && vault.state.totalAssets == vault.totalAssets + f.invested + f.harvested
            && vault.treasuryBalance + f.claimed == f.charged
  {
    vault := new Vault(admin, tokens, now);
    InitialIsRanged(admin, tokens, now);
    vault.Run(txs);
    Conservation.BooksBalance(admin, tokens, now, txs, |txs|);
    hide At, Initial, Conservation.FlowsOver, CountersAgree, Ranged;
  }
}
