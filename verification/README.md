# YieldVault: a verified model

This project models the parts of the YieldVault repository whose correctness
depends on whole runs rather than on one function body, and proves what those
runs keep:

- the on-chain vault (`contracts/vault/src/lib.rs` with `math.rs` and
  `fee_math.rs`): share accounting, price, solvency, where every token is,
  timelocked withdrawals, pausing, cooldown and deposit caps, yield and fees,
  batch deposits, governance, and the shipment index with cursor paging;
- the backend's concurrency protocols: refresh-token rotation with replay
  detection (section 10.4 of RFC 6749), single-use wallet nonces, the idempotency
  store and the event-replay cursor;
- two printers: the canonical JSON behind idempotency fingerprints and the CSV
  export (section 2 of RFC 4180).

## How it is built

**Vault.** `VaultLedger` gives every entry point that moves value as a function
on a ledger value, with the source's checks in the source's order, 128-bit
checked arithmetic and truncating division (`Checked`). An error or a panic
discards the whole call. A run is any sequence of transactions, each with the set
of accounts that signed it; the vault itself signs nothing. `YieldVault` is the
contract as it runs, a class whose methods overwrite storage in place; each
method is proved to end exactly as its ledger function says, and so are the
dispatcher `Perform` and the loop `Run` over any sequence of transactions. Theorems
about runs therefore hold of the class; `Run` and `Live` restate counters, price
and books on it. A strategy moves exactly the amount asked for, as
`benji_strategy.rs` does, and a re-entrant call into the vault panics. The
reported value of a strategy is a parameter of the call.

**Protocols.** Each async function is cut at its awaits into atomic segments;
segments of any number of calls interleave in any order. The in-memory stores
hand out references, so entry objects are kept apart from the keys that map to
them, and a check and a mark in one segment see the shared object. Tokens, nonces
and object identities are fresh opaque values, the clock never runs back. Beside
each state machine stands a class with the store's own fields and loops, proved
against the same functions.

**Event replay.** Processes read the cursor, ask for the head, fetch, check,
record and advance as separate steps, and may vanish at any of them. What the
node replies is up to the environment.

**Decisions.** Beside what every run keeps stands what each operation must do.
`Decisions` says exactly which vault calls are accepted in reachable states and
with which error the others end, `TokenFlow` whose tokens move, `Consent` whose
signature that takes, `RunningTotals` what the stored counters mean over a run, and
`GovernanceHistory` tells governance from its requests alone. `Sessions`,
`NonceUse`, `Retries` and `EventProcess` say when a rotation, a consume, an
idempotent call and a replay go through, and that they are turned down for no other
reason.

**Printers.** Both are pure functions, checked against readers written
independently from the standards' grammars. `sort()` is modelled by an insertion
sort; `SortSorts` and `SortedAlike` show that any sort of distinct keys gives the
same list.

## Where the code and its documentation differ

The model follows the code in each case.

- `execute_withdrawal` does not compare the recorded shares with the balance left
  at execution, and a checked subtraction on signed integers accepts a negative
  result. `UncoveredPayout.SharesPaidTwice` is a run that redeems the same shares
  twice; `ShareAccounting.NoDebtIffCovered` says exactly when balances stay
  non-negative. The price of a share never falls even then.
- "The vault is always solvent" (`math.rs:24`) holds of all accounts together, debts
  included. For those who hold shares it can fail
  (`UncoveredPayout.HoldersAreOwedMore`); `Solvency.HoldersBackedIff` and
  `HoldersBackedIffCovered` say exactly when it holds of their claims before
  rounding, and then it holds of the rounded ones (`BackedHoldersCanBePaid`). One
  asset per share is kept exactly as long as no payout burns more shares than there
  are (`Price.AlwaysBackedIff`), and a supply that went negative makes deposits take
  shares away (`Reachable.DepositMintsPositiveIff`,
  `UncoveredPayout.DepositTakesShares`).
- "Round-trip conversions never increase value" (`math.rs:23`) fails for a vault
  that holds assets but has no shares, which yield accrued before the first
  deposit produces (`UncoveredPayout.AccountCanGain`), and in part for one whose
  supply went negative (`UncoveredPayout.NegativeSupplyPays`).
  `ShareMath.RoundTripGainsIff` gives the exact condition for all totals a vault
  can reach, `Price.RedeemingAtOnceGainsIff` the same of a deposit and a withdrawal
  in any reachable state.
- `idempotency.ts:119` says a replay keeps the remaining lifetime; `set` without
  one restarts the standard lifetime. The expiry stays what it was in one case
  only (`Idempotency.ReplayKeepsExpiryIff`), and replays that keep coming extend a
  response's life for ever (`Idempotency.RepliesLast`).
- Logging out everywhere revokes the families of the tokens still stored; a family
  whose tokens had all been forgotten is not revoked
  (`RefreshTokens.LogoutAllRevokesStoredFamilies`), and a rotation of it that was
  under way still issues a live token (`RefreshTokens.LogoutAllCanMissASession`).
- The cap on active nonces is kept exactly when issues of a wallet do not overlap
  (`WalletNonces.CapHoldsIff`): with up to k overlapping ones it can be exceeded by
  k - 1, and no more (`ActiveNoncesWithinCap`, `OverlapReachesBound`).
- A manual replay may start beyond the cursor or end beyond the head, and a reply
  without a result, or one cut at the page limit, passes for a complete one:
  `EventReplay.ManualRangeSafeIff`, `NoResultIsCompleteIff`, `PageIsCompleteIff`.
- The vault's token balance exceeds its books after a donation, or a fee claim
  with the vault itself as the treasury: `Conservation.ExactlyBackedIff`.

## Model

| member | source | states |
|---|---|---|
| ShareMath.MintRoundsDown | contracts/vault/src/math.rs:52-65 | minting gives the largest number of shares worth no more than the assets paid |
| ShareMath.RedeemRoundsDown | contracts/vault/src/math.rs:78-91 | redeeming gives the largest amount worth no more than the shares handed in |
| ShareMath.RoundTripGainsIff | contracts/vault/src/math.rs:17-24 | for all totals a vault can have, negative supplies included, a deposit redeemed at once gains if and only if a condition on amount, shares and assets holds; with shares outstanding it never does |
| ShareMath.RoundTripLossBounded | contracts/vault/src/math.rs:17-24 | a round trip loses less than one share's price plus one unit |
| FeeMath.FeeSplit | contracts/vault/src/fee_math.rs:12-26 | fee and net are non-negative and add up to the amount, and the fee is the floor of its exact share |
| FeeMath.InlineFeeAgrees | contracts/vault/src/lib.rs:1855-1882 | the fee written out in `accrue_yield` is that of `calculate_protocol_fee` |
| FeeMath.SplittingYield | contracts/vault/src/fee_math.rs:12-26 | splitting a yield into n parts never raises the total fee and lowers it by fewer than n units |
| ShareAccounting.CountersAlwaysAgree | contracts/vault/src/lib.rs:320-343 | in every state reachable from `initialize`, TotalShares, State.total_shares and the sum of all balances are equal |
| ShareAccounting.NoDebtIffCovered | contracts/vault/src/lib.rs:1558-1582 | over any run, no balance is ever negative if and only if every accepted execution found its recorded shares covered |
| ShareAccounting.UncoveredExecutionOverdraws | contracts/vault/src/lib.rs:1558-1582 | an accepted execution that is not covered leaves its user in debt |
| Reachable.OnlyOwnWithdrawalsUncover | contracts/vault/src/lib.rs:1515-1582 | in every reachable state with a non-negative supply, and for calls other than a batch also without positive assets, a recorded withdrawal stays covered under every step but a further withdrawal by its user paid at once, which keeps it exactly when the balance left is enough |
| Reachable.DepositMintsPositiveIff | contracts/vault/src/lib.rs:1114-1179 | in every reachable state an accepted deposit mints a positive number of shares unless the supply is negative and the assets positive |
| ShareAccounting.StepKeepsSound | contracts/vault/src/lib.rs:1090-1657 | every covered step keeps counters, non-negative balances, assets at least shares, positive records and the configuration's ranges |
| UncoveredPayout.SharesPaidTwice | contracts/vault/src/lib.rs:1558-1657 | a run of accepted calls in which one user is paid twice for the same shares |
| UncoveredPayout.HoldersAreOwedMore | contracts/vault/src/math.rs:24-24 | in the state it leaves, holders have claims of 200 on 100 assets |
| UncoveredPayout.DepositTakesShares | contracts/vault/src/lib.rs:1114-1179 | a longer run in which a deposit lowers its user's balance |
| UncoveredPayout.NegativeSupplyPays | contracts/vault/src/lib.rs:1585-1657 | a run in which an account deposits 50 on a negative supply and redeems 250 at once |
| UncoveredPayout.AccountCanGain | contracts/vault/src/lib.rs:1847-1923 | a run in which yield booked before anybody holds shares goes to the next depositor |
| Price.StepKeepsPrice | contracts/vault/src/lib.rs:1090-1657 | in every reachable state with shares outstanding, no step lowers assets per share, covered or not |
| Price.PriceNeverFalls | contracts/vault/src/lib.rs:1090-1657 | between any two states of any run from `initialize` with shares outstanding in between, assets per share never fall |
| Price.ScaledPriceNeverFalls | contracts/vault/src/lib.rs:679-690 | neither does `share_price`, which is scaled and rounded down |
| Price.AlwaysBackedIff | contracts/vault/src/lib.rs:1585-1657 | over any run, every state has at least one asset for each of a non-negative number of shares if and only if no payout burned more shares than there were |
| Price.AlwaysBacked | contracts/vault/src/lib.rs:1090-1657 | in particular every state of a covered run |
| Price.YieldAssertionNeverFires | contracts/vault/src/lib.rs:1883-1923 | the price check inside `accrue_yield` can never fail |
| Price.SameSupplyKeepsAssets | contracts/vault/src/math.rs:17-24 | a stretch of any run with shares outstanding that ends with the supply it began with leaves at least as many assets |
| Price.AccountNeverGains | contracts/vault/src/lib.rs:1114-1179 | an account that enters and leaves with no shares, others idle, never ends with more tokens, from a vault that was empty or whose outstanding shares the account's own debt never reaches |
| Price.RedeemingAtOnceGainsIff | contracts/vault/src/lib.rs:1114-1179 | in every reachable state an account that deposits and redeems at once ends with more tokens if and only if that condition holds of the totals it found |
| Price.NextDepositorTakesAll | contracts/vault/src/lib.rs:1114-1179 | a vault with assets but no shares hands all of them to whoever deposits next and redeems at once |
| Solvency.ClaimsNeverExceedAssets | contracts/vault/src/math.rs:24-24 | the rounded-down claims of all accounts, debts included, add up to at most the assets |
| Solvency.AlwaysSolvent | contracts/vault/src/math.rs:24-24 | ... in every state of every run from `initialize` |
| Solvency.HoldersBackedIff | contracts/vault/src/math.rs:24-24 | in every reachable state the claims before rounding of those who hold shares are within the assets if and only if nobody is in debt or there is nothing to claim |
| Solvency.BackedHoldersCanBePaid | contracts/vault/src/math.rs:24-24 | and then their claims rounded down are within the assets too |
| Solvency.HoldersBackedIffCovered | contracts/vault/src/lib.rs:1558-1582 | over any run whose uncovered executions leave some shares and assets, holders are backed throughout if and only if there is no such execution |
| Solvency.HolderClaimNeverFalls | contracts/vault/src/math.rs:78-91 | in any run with shares outstanding the rounded claim of a holder whose balance is the same at the end never falls, whatever others do in between |
| Solvency.EachGetsTheirClaim | contracts/vault/src/lib.rs:1515-1657 | when all holders leave, in any order, at once or through recorded withdrawals, with any waiting and strategy moves in between, each is paid at least the claim they had at the start |
| Solvency.NothingIsLeft | contracts/vault/src/lib.rs:1585-1657 | ... and total_assets ends at exactly 0 |
| Liquidity.WithdrawalAcceptedIff | contracts/vault/src/lib.rs:1486-1657 | in every state of every covered run a withdrawal is accepted if and only if its user may ask for it and, unless it is recorded, idle assets with what the strategy holds are enough |
| Liquidity.ExecutionAcceptedIff | contracts/vault/src/lib.rs:1558-1657 | in every state of every covered run an execution, covered itself or not, is accepted if and only if its user has a record whose time has come and what it pays is affordable |
| Widths.NumbersAlwaysFit | contracts/vault/src/lib.rs:1090-1999 | in every state of every run all stored numbers are within their types' widths |
| Liquidity.IdleIsHeld | contracts/vault/src/lib.rs:1585-1657 | the vault's tokens cover its idle assets, which are never negative, in every state of every run |
| Conservation.StepMoves | contracts/vault/src/lib.rs:1585-1923 | what each call moves between the vault's tokens, idle assets, treasury and strategies, told from its arguments |
| Conservation.BooksBalance | contracts/vault/src/lib.rs:787-808 | in every reachable state the vault's tokens are idle assets plus treasury plus unbooked receipts, total_assets is idle plus net sent to strategies plus Korean harvests, and unpaid plus claimed fees are all fees charged |
| Conservation.ExactlyBackedIff | contracts/vault/src/lib.rs:1970-1999 | the vault holds exactly its books if and only if there was no donation and no claim to itself |
| Batch.BatchRefinesDeposits | contracts/vault/src/lib.rs:1258-1469 | a batch that returns leaves the ledger and totals of its deposits made one by one, reports for every entry the result and error code its consented deposit has there, and lets none succeed whose user did not sign |
| Batch.DepositsMakeBatch | contracts/vault/src/lib.rs:1258-1373 | deposits none of which panics make a batch that returns |
| Decisions.InvestDecided | contracts/vault/src/lib.rs:1660-1725 | with idle assets and fees held, an investment is accepted if and only if the administrator asks for a positive amount with a strategy configured, cap and risk threshold hold with the amount added, and what stays idle is not below the buffer; each refusal has its code |
| Decisions.InvestKeepsLimits | contracts/vault/src/lib.rs:1684-1706 | an accepted investment leaves at least the buffer idle and the strategy within its cap and its risk threshold in whole basis points |
| Decisions.DivestDecided | contracts/vault/src/lib.rs:1730-1758 | anybody may recall what the configured strategy has, and no more |
| Decisions.RebalanceDecided | contracts/vault/src/lib.rs:1762-1843 | a rebalance is accepted if and only if the source has the amount and neither minimum is missed; each refusal has its code |
| Decisions.AccrueDecided | contracts/vault/src/lib.rs:1847-1923 | yield is accepted if and only if the administrator has the amount and the fee and the scaled price fit; nothing else can fail |
| Decisions.ReportDecided | contracts/vault/src/lib.rs:2182-2232 | reported yield is accepted if and only if its strategy is in office, signs and has the amount, and fee, watermark and assets fit |
| Decisions.HarvestDecided | contracts/vault/src/lib.rs:787-808 | a harvest is accepted if and only if the administrator asks, a Korean strategy is set and it is positive and fits |
| Decisions.ClaimDecided | contracts/vault/src/lib.rs:1970-1999 | fees can be claimed whenever the administrator asks, a treasury is set and there are some: the vault holds them |
| Decisions.DepositDecided | contracts/vault/src/lib.rs:1090-1179 | while no balance is negative a deposit is accepted if and only if pause, signature, minimum, cap, funds and totals allow it and it is worth a share; each refusal has its code |
| Decisions.WithdrawDecided | contracts/vault/src/lib.rs:1486-1551 | the same of a withdrawal: which error it ends with, whether it is recorded or must be affordable |
| Decisions.ExecuteDecided | contracts/vault/src/lib.rs:1558-1582 | the same of the execution of a recorded withdrawal |
| Decisions.BatchRefusals | contracts/vault/src/lib.rs:1258-1300 | a batch ends with an error code only for the pause, an unknown relayer or its size, each exactly then |
| Decisions.CallsAreDecided | contracts/vault/src/lib.rs:1090-2232 | so does every call in every state of every run, deposits and withdrawals as long as the run is covered |
| TokenFlow.StepFlows | contracts/vault/src/lib.rs:1090-2232 | every call changes the token balance of every account by what its arguments say |
| Consent.UnsignedCallsDoNothing | contracts/vault/src/lib.rs:1090-2232 | a call without the signature of the account it acts for changes nothing |
| Consent.HoldersKeepShares | contracts/vault/src/lib.rs:1090-1657 | over any stretch of any run an account signs nothing in, its shares, recorded withdrawal, net deposits and cooldown stay as they were |
| Consent.TokensNeedConsent | contracts/vault/src/lib.rs:1090-2232 | an account other than the vault loses tokens only by its own signature or as a strategy that funds are recalled from |
| Consent.OfficeStays | contracts/vault/src/lib.rs:1970-1999 | over any stretch of any run its administrator does not sign, settings, pause and voting threshold stay and no fees are taken out |
| Consent.SettingsAreLastSet | contracts/vault/src/lib.rs:455-476 | in every state of every run pause and settings (one merged setter) are those last set by whoever was administrator then |
| Timelock.PayoutsWaitADay | contracts/vault/src/lib.rs:1521-1582 | every executed payout comes at least 86,400 seconds after the withdrawal that wrote its record, for the shares recorded there |
| Timelock.NoRecordPaidTwice | contracts/vault/src/lib.rs:1558-1582 | two payouts to a user go back to two different withdrawals, overwritten records included |
| Timelock.YieldNeedsExecutedProposal | contracts/vault/src/lib.rs:2182-2195 | every accepted yield report comes from a strategy named by an executed proposal with more yes than no votes |
| Limits.PausedVaultOnlyPaysRecords | contracts/vault/src/lib.rs:1486-1582 | while paused no call mints or burns shares or records a withdrawal, except that a recorded one can still be executed |
| Limits.WithdrawalsCoolDown | contracts/vault/src/lib.rs:1486-1513 | an accepted withdrawal comes at least the cooldown after every earlier deposit credited to its user, alone or in a batch |
| Limits.DepositsStayWithinCap | contracts/vault/src/lib.rs:1114-1179 | no run takes a user's net deposits above the highest cap in force before |
| RunningTotals.NetDepositsAreHighest | contracts/vault/src/lib.rs:1585-1657 | in every state of every run a user's recorded net deposits are the most they deposited less what they were paid over any stretch that ends there |
| RunningTotals.CapLimitsNetDeposits | contracts/vault/src/lib.rs:1114-1179 | so over no stretch does a user put in more than they are paid back and the highest cap in force |
| RunningTotals.WatermarkIsHighest | contracts/vault/src/lib.rs:1730-1843 | in every state of every run a strategy's watermark is the highest of what investments raised it to, or of zero where a recall exhausted it, less what was recalled and more what it reported since |
| VaultGovernance.DaoOfRun | contracts/vault/src/lib.rs:821-916 | the governance state of any run of the vault is that of the requests made in it |
| VaultGovernance.TalliesAreBallots | contracts/vault/src/lib.rs:845-885 | in every state of every run a proposal's tallies are the sums of the weights of its distinct voters, each on one side |
| VaultGovernance.VotesCountOnce | contracts/vault/src/lib.rs:845-885 | an accepted vote is the voter's first on that proposal in the whole run |
| VaultGovernance.ExecutedIsFrozen | contracts/vault/src/lib.rs:887-916 | once executed a proposal stays as it is in every later state of the run, with more yes than no votes |
| VaultGovernance.ExecutesOnce | contracts/vault/src/lib.rs:887-916 | no run executes a proposal twice |
| GovernanceHistory.DaoIsItsHistory | contracts/vault/src/lib.rs:810-916 | the governance state is that of the history: proposals in the order and with the strategies asked for, exactly the executed ones marked, the last threshold set, and in office the strategy of the last execution |
| GovernanceHistory.CreationNumbers | contracts/vault/src/lib.rs:821-843 | creating a proposal returns the number after those of all proposals created before |
| VaultGovernance.RequestAcceptedIff | contracts/vault/src/lib.rs:810-916 | in any run a request is accepted if and only if the history allows it: an execution needs the quorum in force and more yes than no votes on an open proposal, a vote its voter's first ballot |
| VaultGovernance.ReporterWasVotedIn | contracts/vault/src/lib.rs:2182-2195 | whoever reports yield signed, and the last execution before chose it with quorum and majority from a proposal that named it |
| YieldVault.Vault.Deposit | contracts/vault/src/lib.rs:1090-1179 | storage and result end as the ledger function says |
| YieldVault.Vault.BatchDeposit | contracts/vault/src/lib.rs:1258-1373 | the loop over the entries ends as the ledger function says, with nothing kept of a batch that panics |
| YieldVault.Vault.ProcessSingleBatchEntry | contracts/vault/src/lib.rs:1379-1469 | an entry writes storage but not State, and a failing entry writes nothing |
| YieldVault.Vault.Withdraw | contracts/vault/src/lib.rs:1486-1551 | records a large withdrawal or pays at once, as the ledger function says |
| YieldVault.Vault.ExecuteWithdrawal | contracts/vault/src/lib.rs:1558-1582 | pays a recorded withdrawal as the ledger function says |
| YieldVault.Vault.DoWithdraw | contracts/vault/src/lib.rs:1585-1657 | divests the shortfall, burns and pays as the ledger function says |
| YieldVault.Vault.Invest | contracts/vault/src/lib.rs:1660-1725 | checks cap, risk and buffer and moves idle assets as the ledger function says |
| YieldVault.Vault.Divest | contracts/vault/src/lib.rs:1730-1758 | recalls funds as the ledger function says |
| YieldVault.Vault.Rebalance | contracts/vault/src/lib.rs:1762-1843 | moves what was actually recalled on to the target, as the ledger function says |
| YieldVault.Vault.AccrueYield | contracts/vault/src/lib.rs:1847-1923 | books yield net of the fee as the ledger function says |
| YieldVault.Vault.ReportBenjiYield | contracts/vault/src/lib.rs:2182-2232 | books reported yield as the ledger function says |
| YieldVault.Vault.AccrueKoreanDebtYield | contracts/vault/src/lib.rs:787-808 | books a harvest as the ledger function says |
| YieldVault.Vault.ClaimFees | contracts/vault/src/lib.rs:1970-1999 | pays the treasury balance out and zeroes it |
| YieldVault.Vault.VoteOnProposal | contracts/vault/src/lib.rs:845-885 | counts a vote as the governance function says |
| YieldVault.Vault.ExecuteStrategyProposal | contracts/vault/src/lib.rs:887-916 | executes a proposal as the governance function says |
| YieldVault.Vault.Perform | contracts/vault/src/lib.rs:1090-1999 | any transaction leaves storage and result as the ledger says |
| YieldVault.Vault.Run | contracts/vault/src/lib.rs:1090-1999 | any sequence of transactions leaves the ledger's state of that run, with counters that agree and a price that did not fall while shares were outstanding |
| YieldVault.Live | contracts/vault/src/lib.rs:320-343 | from initialisation through any run the vault object's books balance |
| TokenSupply.TokensAreConserved | contracts/vault/src/benji_strategy.rs:35-86 | in every state of every run, strategy deposits and recalls included, the token supply is what it was at the start, and accounts without debt stay without |
| Shipments.InsertSortedUnique | contracts/vault/src/lib.rs:2282-2305 | the list with the id added, strictly increasing |
| Shipments.RemoveId | contracts/vault/src/lib.rs:2307-2320 | the list without the id, strictly increasing |
| Shipments.IndexAfterCursor | contracts/vault/src/lib.rs:2322-2336 | the position of the first id greater than the cursor |
| Shipments.ShipmentIndex.AddShipment | contracts/vault/src/lib.rs:926-949 | every status list stays strictly increasing and holds exactly the ids mapped to that status |
| Shipments.ShipmentIndex.UpdateShipmentStatus | contracts/vault/src/lib.rs:952-988 | the same when an id moves between lists |
| Shipments.ShipmentIndex.ShipmentIdsByStatus | contracts/vault/src/lib.rs:994-1037 | a page holds the first ids after the cursor, with a next cursor exactly when more are left |
| Shipments.PageIsUnique | contracts/vault/src/lib.rs:994-1037 | list, cursor and size determine the page |
| Shipments.FinishedWalkIsComplete | contracts/vault/src/lib.rs:994-1037 | a walk along next_cursor over a changing list returns nothing twice and every id that stays exactly once |
| Shipments.StayingShipmentsAreSeenOnce | contracts/vault/src/lib.rs:926-1037 | the same told from the index: a shipment in the status whenever a page is read is seen exactly once |
| Shipments.WalkLengthBounded | contracts/vault/src/lib.rs:994-1037 | a walk asking for at least k ids a page takes at most one page more than the ids ever listed divided by k |
| Shipments.WalkTerminates | contracts/vault/src/lib.rs:994-1037 | cursors strictly increase, so a walk over 64-bit ids ends whatever is listed |
| RefreshTokens.NextKeepsInv | backend/src/auth.ts:485-525 | every segment keeps one object per token, one exchanging call per entry, one seat per family and the truth of observed revocations |
| RefreshTokens.ExchangedAtMostOnce | backend/src/auth.ts:485-525 | each refresh token is exchanged at most once under any interleaving |
| RefreshTokens.OneLiveTokenPerFamily | backend/src/auth.ts:355-384 | a family never has two stored tokens that could still be exchanged |
| RefreshTokens.ReplayRevokesFamily | backend/src/auth.ts:501-514 | presenting a stored exchanged token never issues a pair, and once the call has ended its family is revoked for good |
| RefreshTokens.NoExchangeAfterRevocation | backend/src/auth.ts:493-499 | no rotation begun after a family was revoked ever exchanges a token of it |
| RefreshTokens.LogoutAllStopsStoredTokens | backend/src/auth.ts:410-438 | after a wallet has logged out everywhere, no rotation begun later exchanges a token that was stored for it, nor any other token of those families |
| RefreshTokens.LogoutAllCanMissASession | backend/src/auth.ts:410-438 | a run in which a wallet that has logged out everywhere is still issued a live token, in a family that is not revoked |
| RefreshTokens.OneWalletPerFamily | backend/src/auth.ts:355-384 | in every reachable state all tokens of a family belong to one wallet |
| Sessions.FoundIff | backend/src/auth.ts:187-206 | a call finds its token if and only if it is stored and unexpired, and an expired one is forgotten |
| Sessions.LogoutEndsSession | backend/src/auth.ts:388-404 | once a logout with a stored, unexpired token has ended its family is revoked, a segment of it left no token of the family stored and the last one not the token, and no rotation begun later exchanges one |
| Sessions.RevokedOnlyFor | backend/src/auth.ts:485-525 | a family is revoked only by a logout of it or of its wallet, or because two calls presented one token and one of them exchanged it |
| Sessions.RotationSucceedsUnless | backend/src/auth.ts:355-384 | a rotation of a stored, unexpired token that has ended has stored a live successor of the same wallet and family, unless the family was revoked or the token expired |
| Sessions.TurnedDownIsForgotten | backend/src/auth.ts:493-523 | a rotation that is turned down leaves its token unstored, and after a replay the whole family |
| Sessions.ExchangedWasExchangeable | backend/src/auth.ts:485-525 | a rotation exchanges only a token it found stored and, when it checked, unexpired in an unrevoked family |
| Sessions.SegmentsAdvance | backend/src/auth.ts:485-525 | every segment brings its call closer to its end |
| RefreshTokens.InMemoryRefreshTokenStore.Exchange | backend/src/auth.ts:493-523 | the check and the mark of a rotation, in one segment, do what the state machine's step does |
| RefreshTokens.InMemoryRefreshTokenStore.ForgetFamily | backend/src/auth.ts:217-221 | the loop deletes exactly the family's tokens |
| RefreshTokens.InMemoryRefreshTokenStore.RevokeAllSessions | backend/src/auth.ts:410-438 | the loops drop the wallet's tokens, revoke their families and return their number |
| WalletNonces.ConsumedAtMostOnce | backend/src/walletNonce.ts:351-359 | each nonce is consumed at most once under any interleaving |
| WalletNonces.ConsumedAsIssued | backend/src/walletNonce.ts:303-359 | a nonce is consumed only for the wallet and action it was issued to, by a call that validated it before it expired |
| WalletNonces.IndexCountsActive | backend/src/walletNonce.ts:145-154 | the count through the wallet index is that of a scan of the whole cache |
| WalletNonces.ActiveNoncesWithinCap | backend/src/walletNonce.ts:253-297 | if at most k issues of a wallet overlap it has at most cap + k - 1 active nonces, so the cap without overlap |
| WalletNonces.OverlapReachesBound | backend/src/walletNonce.ts:253-297 | for every cap and width some run with at most that many overlapping issues ends with cap + width - 1 active nonces |
| WalletNonces.CapHoldsIff | backend/src/walletNonce.ts:253-297 | all runs with at most k overlapping issues keep the cap if and only if k is at most 1 |
| NonceUse.ValidatedIff | backend/src/walletNonce.ts:303-345 | a loaded nonce is validated if and only if it is the caller's, unexpired and unused, and each refusal names the reason that holds |
| NonceUse.GoodNonceIsConsumed | backend/src/walletNonce.ts:253-359 | a consume for the wallet and action of the issue, given both its segments within the nonce's lifetime, succeeds if and only if no other call consumed it, and is refused as a replay otherwise |
| WalletNonces.InMemoryNonceStore.SaveEntry | backend/src/walletNonce.ts:124-129 | saving stores the entry and indexes it under its wallet, as the state machine's step does |
| WalletNonces.InMemoryNonceStore.Mark | backend/src/walletNonce.ts:135-143 | one segment checks and marks, and is true for an unused live nonce only |
| WalletNonces.InMemoryNonceStore.CountActiveForWallet | backend/src/walletNonce.ts:145-154 | the loop over the wallet's index counts its live unused nonces and forgets the expired ones |
| Idempotency.OneInFlightPerKey | backend/src/idempotency.ts:125-177 | at most one operation per key is in flight |
| Idempotency.OneSuccessPerLifetime | backend/src/idempotency.ts:100-177 | of two successes for a key, the later was started after the earlier one's whole lifetime |
| Idempotency.ReceivedIsTheResult | backend/src/idempotency.ts:100-177 | whatever a caller receives is the result of the operation started for its own key and fingerprint |
| Idempotency.CallsDuringLifetimeReplay | backend/src/idempotency.ts:107-128 | during a success's lifetime a call with its key ends with that result, or is refused if its fingerprint differs |
| Idempotency.ReplayKeepsExpiryIff | backend/src/idempotency.ts:114-126 | a replay leaves the stored expiry as it was if and only if it comes a standard lifetime before it |
| Idempotency.RepliesLast | backend/src/idempotency.ts:100-177 | as long as calls with the key come within a standard lifetime of the latest replay, each gets the first result and no second operation is started |
| Idempotency.CallIsServedIff | backend/src/idempotency.ts:107-166 | with nothing pending a call gets the stored result if and only if it comes by the deadline, and otherwise starts a second operation |
| Retries.CallDecides | backend/src/idempotency.ts:100-150 | in every reachable state a call starts an operation if and only if no response is stored and nobody owns an operation of its key, joins one if the fingerprints agree, and is refused exactly if they differ |
| Retries.FailedKeyIsRetried | backend/src/idempotency.ts:151-177 | once the caller of a failed operation has ended, the next call with the key runs the operation anew |
| Retries.RetryRuns | backend/src/idempotency.ts:151-177 | the shortest such run, for any key, fingerprint and lifetime |
| Retries.CallersLearnTheOutcome | backend/src/idempotency.ts:125-177 | whoever started or joined an operation ends with its result if it succeeded and with an error if it failed |
| Retries.CallsAreCounted | backend/src/idempotency.ts:100-150 | every call is a hit, a conflict or an operation, and the conflicts are the refused calls |
| Idempotency.IdempotencyStore.BeginExecute | backend/src/idempotency.ts:100-166 | the first segment replays, refuses, joins or starts, as the state machine's step does |
| Idempotency.IdempotencyStore.Complete | backend/src/idempotency.ts:155-163 | a success is stored with its own lifetime |
| Idempotency.IdempotencyStore.Release | backend/src/idempotency.ts:174-176 | the caller that started the operation clears the pending entry |
| EventReplay.BatchesPartition | backend/src/eventPollingService.ts:221-242 | the batches begin and end with the range, follow each other without gap or overlap, and none is empty or oversized |
| EventReplay.EachLedgerInOneBatch | backend/src/eventPollingService.ts:221-242 | every ledger of the range, and no other, is in exactly one batch |
| EventReplay.ReplayCovers | backend/src/eventPollingService.ts:252-306 | with honest replies, a replay that ends has recorded everything up to its last ledger, and one cut short everything up to the cursor it left, the end of the last batch fetched |
| EventReplay.ReplayStopsAtFailure | backend/src/eventPollingService.ts:221-306 | a replay records the batches fetched before the first failure, leaves the cursor at the end of the last of them, and ends cleanly if and only if there is none |
| EventReplay.PageIsCompleteIff | backend/src/eventPollingService.ts:395-427 | a fetch is complete if and only if the range holds at most one page of events |
| EventReplay.NoResultIsCompleteIff | backend/src/eventPollingService.ts:395-427 | a reply without a result is complete if and only if the range is empty |
| EventReplay.ManualRangeSafeIff | backend/src/eventPollingService.ts:200-250 | a manual range keeps the cursor truthful for every chain if and only if it starts at most one past the cursor and ends on a closed ledger |
| EventReplay.NextKeepsInv | backend/src/eventPollingService.ts:252-329 | every proper step of overlapping polls, replays and crashes keeps the cursor's claim and each process's |
| EventReplay.CursorNeverSkips | backend/src/eventPollingService.ts:252-363 | in every state of every proper run, an event at or below the cursor is in the table exactly once |
| EventReplay.RowsAreWrittenOnce | backend/src/eventPollingService.ts:345-363 | under any environment no event id is recorded twice and recorded rows stay |
| EventProcess.ProcessAloneIsReplay | backend/src/eventPollingService.ts:252-329 | a poll or start-up replay that nothing interrupts leaves rows and ending of the sequential replay |
| EventProcess.ManualAloneIsReplay | backend/src/eventPollingService.ts:200-250 | so does a manual replay whose range is accepted |
| EventProcess.CompletedHasRecorded | backend/src/eventPollingService.ts:200-329 | whatever overlaps, a process that completes has recorded every event up to the head it observed, or to the end of its range |
| EventReplay.EventPollingService.RecordEvents | backend/src/eventPollingService.ts:226-236 | the inner loop records what is new and counts processed and duplicates exactly |
| EventReplay.EventPollingService.ReplayBatches | backend/src/eventPollingService.ts:277-294 | the batch loop ends with the rows and totals of the replay function |
| EventReplay.EventPollingService.ReplayEventsForRange | backend/src/eventPollingService.ts:200-250 | an inverted or too large range is refused without effect, any other is replayed |
| EventReplay.EventPollingService.ReplayMissedEvents | backend/src/eventPollingService.ts:252-306 | a start-up replay runs from the cursor to the node's head |
| EventReplay.EventPollingService.PollEvents | backend/src/eventPollingService.ts:308-329 | a poll is a replay in a single batch and leaves no trace when its fetch fails |
| StableJson.ReadsBack | backend/src/idempotency.ts:276-289 | a reader of JSON texts gives back the value with its keys sorted, whatever follows it |
| StableJson.PrintIsCanonical | backend/src/idempotency.ts:276-289 | two values print the same if and only if they are equal up to object key order |
| StableJson.FingerprintsIdentifyPayloads | backend/src/idempotency.ts:267-274 | fingerprints, hashed or not, agree if and only if the payloads are equal up to key order, given no hash collision |
| Csv.FieldReadsBack | backend/src/listEndpoints.ts:566-570 | an escaped value reads back unchanged, whatever commas, quotes and line breaks it holds |
| Csv.BodyReadsBack | backend/src/listEndpoints.ts:547-564 | read by the grammar of RFC 4180 the export is the header and one record a transaction, with each cell under its own column's name |

## Left out

- Setters: merged into one configuration call that can reach every configuration in the setters' ranges, so runs include more than the setters allow; `set_per_user_cap` reads an admin key that `initialize` never writes.
- Storage migration and its registry, upgrade, admin rotation, emergency proposals, checkpoints, role checks, allowlist and wallet locks: easy members. Pausing is kept as a guard and emergency divestment as a divest step.
- `oracle.rs`: no vault operation calls it.
- Soroban authorisation is a set of signers per call; events, storage lifetimes and gas are not modelled.
- YieldVault.Vault.Rollback: stands for the host, which undoes every write of a call that fails; entry points otherwise compute their checked values before their first write.
- Strategies that lie or move another amount than asked are outside the model, except that `rebalance` measures what moved.
- StableJson.PrintIsCanonical: speaks of JSON values; `undefined`, `Date` and the text of a number (taken as ECMAScript's own) are not computed here.
- Csv.BodyReadsBack: values are sequences of Unicode scalar values, so lone surrogates are not covered; values are strings or null, as the transaction type says.
- EventReplay.CursorNeverSkips: like EventProcess.CompletedHasRecorded assumes honest replies and safe manual ranges, whose exact conditions are separate members; the leader lock is not modelled, so any number of processes may run.
- ShareAccounting.StepKeepsSound: assumes that an execution is covered, which the code does not check; the exact condition is NoDebtIffCovered, and what needs no coverage is stated without it.
- Decisions.DepositDecided: speaks of covered runs, like the decisions on withdrawals; on a negative supply minting is characterised by Reachable.DepositMintsPositiveIff only.
- Liquidity.WithdrawalAcceptedIff: takes it that all tokens together fit 128 bits, as the token contract has it.
- RefreshTokens.NoExchangeAfterRevocation: a rotation that read the family as unrevoked before its revocation may still issue, as in the code.
- Redis stores, the leader lock and remote caches: their JSON copies share no references.
- Hashing, HMAC, JWT and Ed25519 signatures: tokens and ids are opaque and fresh, access tokens are not modelled.
- Idempotency `deleteKey` and `clear`, replay metadata and eviction counters; a configured lifetime of zero, which the cache reads as unlimited.
- Nonce metrics, message text and normalisation of wallet addresses.
- Express routes, database, S3, e-mail, metrics, logging, rate limiting, circuit breaking, floating-point statistics and the frontend.
