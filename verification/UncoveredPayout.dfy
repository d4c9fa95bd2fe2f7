/** Concrete runs in which something a holder might expect fails: shares recorded
    for a timelocked withdrawal are first redeemed in small withdrawals and then,
    a day later, once more; and yield booked before anybody holds shares goes to
    whoever deposits next. */
module UncoveredPayout {
  import opened Checked
  import opened Sums
  import opened Token
  import opened ShareMath
  import opened VaultLedger
  import opened ShareAccounting
  import opened Solvency

  const ADMIN: Address := 9
  const ALICE: Address := 1
  const BOB: Address := 2
  const CAROL: Address := 3
  const DAVE: Address := 5
  const STRATEGY: Address := 7

  /** Numbers far from overflow, and no guard but the timelock's threshold. */
  predicate Modest(l: Ledger, user: Address) {
    && l.config == Defaults(ADMIN).(largeWithdrawalThreshold := 60) && !l.state.isPaused && l.now <= TIMELOCK_SECONDS
    && -1000 <= l.state.totalShares <= 1000 && 0 <= l.state.totalAssets <= 1000 && 0 <= l.idleAssets <= 1000
    && 0 <= Get(l.tokens, user) <= 1000 && 0 <= VaultTokens(l) <= 1000
    && -1000 <= BalanceOf(l, user) <= 1000 && 0 <= Get(l.userDeposit, user) <= 1000
    && user != VAULT
  }

  function DepositOf(user: Address, amount: int): Tx {
    Tx({user}, CallDeposit(user, amount))
  }

  function WithdrawalOf(user: Address, shares: int): Tx {
    Tx({user}, CallWithdraw(user, shares))
  }

  /** What a deposit that mints `minted` shares leaves. */
  function Credited(l: Ledger, user: Address, amount: int, minted: int): Ledger {
    l.(tokens := l.tokens[user := Get(l.tokens, user) - amount][VAULT := VaultTokens(l) + amount],
       userDeposit := l.userDeposit[user := Get(l.userDeposit, user) + amount],
       idleAssets := l.idleAssets + amount,
       totalShares := l.state.totalShares + minted,
       state := VaultState(l.state.totalShares + minted, l.state.totalAssets + amount, false),
       shareBalance := l.shareBalance[user := BalanceOf(l, user) + minted],
       lastDepositTime := l.lastDepositTime[user := l.now])
  }

  lemma TransferGoesThrough(t: Balances, from: Address, to: Address, amount: int)
    requires from != to && 0 <= amount <= Get(t, from) && 0 <= Get(t, to) <= 1000 && amount <= 1000
    ensures Transfer(t, from, to, amount) == Done(t[from := Get(t, from) - amount][to := Get(t, to) + amount])
  {
  }

  lemma DepositGoesThrough(l: Ledger, user: Address, amount: int, minted: int)
    requires Modest(l, user) && 0 < amount <= Get(l.tokens, user) && -1000 <= minted <= 1000 && minted != 0
    requires AssetsToShares(amount, l.state.totalShares, l.state.totalAssets) == Done(minted)
    ensures Deposit(l, {user}, user, amount) == Done((Credited(l, user, amount, minted), minted))
  {
    TransferGoesThrough(l.tokens, user, VAULT, amount);
    hide AssetsToShares, Transfer;
  }

  /** A deposit that mints `minted` shares. */
  lemma Depositing(l: Ledger, user: Address, amount: int, minted: int)
    requires Modest(l, user) && 0 < amount <= Get(l.tokens, user) && -1000 <= minted <= 1000 && minted != 0
    requires AssetsToShares(amount, l.state.totalShares, l.state.totalAssets) == Done(minted)
    ensures After(l, DepositOf(user, amount)) == Credited(l, user, amount, minted)
  {
    assert Perform(l, DepositOf(user, amount)) == Deposit(l, {user}, user, amount);
    hide Perform, Deposit, AssetsToShares;
    DepositGoesThrough(l, user, amount, minted);
  }

  /** What a payout of `assets` for `shares` leaves. */
  function Paid(l: Ledger, user: Address, shares: int, assets: int): Ledger {
    l.(tokens := l.tokens[VAULT := VaultTokens(l) - assets][user := Get(l.tokens, user) + assets],
       idleAssets := l.idleAssets - assets,
       totalShares := l.state.totalShares - shares,
       shareBalance := l.shareBalance[user := BalanceOf(l, user) - shares],
       state := VaultState(l.state.totalShares - shares, l.state.totalAssets - assets, false),
       userDeposit := l.userDeposit[
         user := if Get(l.userDeposit, user) > assets then Get(l.userDeposit, user) - assets else 0])
  }

  lemma PayingOut(l: Ledger, user: Address, shares: int, assets: int)
    requires Modest(l, user) && 0 <= shares <= 1000 && 0 <= assets <= l.idleAssets && assets <= VaultTokens(l)
    ensures DoWithdraw(l, user, shares, assets) == Done((Paid(l, user, shares, assets), assets))
  {
    TransferGoesThrough(l.tokens, VAULT, user, assets);
    hide Transfer;
  }

  lemma WithdrawingAtOnce(l: Ledger, user: Address, shares: int, assets: int)
    requires Modest(l, user) && 0 < shares <= BalanceOf(l, user)
    requires 0 <= assets <= l.idleAssets && assets <= VaultTokens(l) && assets <= 60
    requires SharesToAssets(shares, l.state.totalShares, l.state.totalAssets) == Done(assets)
    ensures After(l, WithdrawalOf(user, shares)) == Paid(l, user, shares, assets)
  {
    assert Perform(l, WithdrawalOf(user, shares)) == Withdraw(l, {user}, user, shares);
    PayingOut(l, user, shares, assets);
    hide Perform, SharesToAssets, DoWithdraw;
  }

  lemma WithdrawingLater(l: Ledger, user: Address, shares: int, assets: int)
    requires Modest(l, user) && 0 < shares <= BalanceOf(l, user) && assets > 60
    requires SharesToAssets(shares, l.state.totalShares, l.state.totalAssets) == Done(assets)
    ensures After(l, WithdrawalOf(user, shares))
            == l.(pending := l.pending[user := PendingWithdrawal(shares, l.now + TIMELOCK_SECONDS)])
  {
    assert Perform(l, WithdrawalOf(user, shares)) == Withdraw(l, {user}, user, shares);
    hide Perform, SharesToAssets, DoWithdraw;
  }

  lemma Executing(l: Ledger, user: Address, assets: int)
    requires Modest(l, user) && user in l.pending && l.now >= l.pending[user].unlockTimestamp
    requires 0 <= l.pending[user].shares <= 1000 && 0 <= assets <= l.idleAssets && assets <= VaultTokens(l)
    requires SharesToAssets(l.pending[user].shares, l.state.totalShares, l.state.totalAssets) == Done(assets)
    ensures Executed(l, Tx({user}, CallExecuteWithdrawal(user)))
    ensures After(l, Tx({user}, CallExecuteWithdrawal(user)))
            == Paid(l.(pending := l.pending - {user}), user, l.pending[user].shares, assets)
  {
    assert Perform(l, Tx({user}, CallExecuteWithdrawal(user))) == ExecuteWithdrawal(l, {user}, user);
    PayingOut(l.(pending := l.pending - {user}), user, l.pending[user].shares, assets);
    hide Perform, SharesToAssets, DoWithdraw;
  }

  lemma Configuring(l: Ledger, config: Config)
    requires ValidConfig(config) && l.config.admin == ADMIN
    ensures After(l, Tx({ADMIN}, CallConfigure(config))) == l.(config := config)
  {
  }

  lemma WaitingADay(l: Ledger)
    requires l.now == 0
    ensures After(l, Tx({}, AdvanceTime(TIMELOCK_SECONDS))) == l.(now := TIMELOCK_SECONDS)
  {
  }

  lemma RunStep(l: Ledger, txs: seq<Tx>, i: nat)
    requires i < |txs|
    ensures At(l, txs, 0) == l
    ensures At(l, txs, i + 1) == After(At(l, txs, i), txs[i])
  {
    hide After;
  }

  // ---- Three depositors ----

  datatype Account = Account(shares: int, purse: int)

  /** Everybody's shares and tokens, the supply and the assets. */
  datatype Figures = Figures(alice: Account, bob: Account, carol: Account, supply: int, assets: int)

  predicate Person(user: Address) {
    user == ALICE || user == BOB || user == CAROL
  }

  function AccountOf(f: Figures, user: Address): Account {
    if user == ALICE then f.alice else if user == BOB then f.bob else f.carol
  }

  /** `user` gains shares and tokens, which the supply and the assets mirror. */
  function Move(f: Figures, user: Address, shares: int, tokens: int): Figures {
    var account := Account(AccountOf(f, user).shares + shares, AccountOf(f, user).purse + tokens);
    var f := f.(supply := f.supply + shares, assets := f.assets - tokens);
    if user == ALICE then f.(alice := account)
    else if user == BOB then f.(bob := account)
    else f.(carol := account)
  }

  predicate Has(l: Ledger, user: Address, account: Account) {
    && BalanceOf(l, user) == account.shares && Get(l.tokens, user) == account.purse
    && 0 <= Get(l.userDeposit, user) <= 500
  }

  predicate Books(l: Ledger, f: Figures) {
    && l.shareBalance.Keys <= {ALICE, BOB, CAROL}
    && Has(l, ALICE, f.alice) && Has(l, BOB, f.bob) && Has(l, CAROL, f.carol)
    && Has(l, DAVE, Account(0, 50)) && Get(l.tokens, STRATEGY) == 200 && l.watermark == map[]
    && l.state == VaultState(f.supply, f.assets, false) && l.idleAssets == f.assets && VaultTokens(l) == f.assets
    && l.config == Defaults(ADMIN).(largeWithdrawalThreshold := 60) && l.now <= TIMELOCK_SECONDS
  }

  /** Nobody's net deposits went up. */
  predicate NoMoreDeposited(l: Ledger, m: Ledger) {
    && Get(m.userDeposit, ALICE) <= Get(l.userDeposit, ALICE)
    && Get(m.userDeposit, BOB) <= Get(l.userDeposit, BOB)
    && Get(m.userDeposit, CAROL) <= Get(l.userDeposit, CAROL)
  }

  predicate Little(account: Account) {
    -400 <= account.shares <= 400 && 0 <= account.purse <= 400
  }

  predicate Small(f: Figures) {
    Little(f.alice) && Little(f.bob) && Little(f.carol) && -400 <= f.supply <= 400 && 0 <= f.assets <= 400
  }

  lemma BooksDeposit(l: Ledger, f: Figures, user: Address, amount: int, minted: int)
    requires Books(l, f) && Small(f) && Person(user)
    requires 0 < amount <= AccountOf(f, user).purse && Get(l.userDeposit, user) + amount <= 500
    requires minted != 0 && -400 <= minted <= 400 && AssetsToShares(amount, f.supply, f.assets) == Done(minted)
    ensures var m := After(l, DepositOf(user, amount));
            && Books(m, Move(f, user, minted, -amount))
            && m.userDeposit == l.userDeposit[user := Get(l.userDeposit, user) + amount]
            && m.now == l.now && m.pending == l.pending
  {
    hide After, AssetsToShares;
    assert Modest(l, user);
    hide Modest, Small;
    Depositing(l, user, amount, minted);
    BooksCredited(l, f, user, amount, minted);
    hide Books, Move;
  }

  lemma BooksCredited(l: Ledger, f: Figures, user: Address, amount: int, minted: int)
    requires Books(l, f) && Person(user) && amount > 0 && Get(l.userDeposit, user) + amount <= 500
    ensures Books(Credited(l, user, amount, minted), Move(f, user, minted, -amount))
  {
  }

  lemma BooksPaid(l: Ledger, f: Figures, user: Address, burned: int, paid: int)
    requires Books(l, f) && Person(user) && paid >= 0
    ensures var m := Paid(l, user, burned, paid);
            Books(m, Move(f, user, -burned, paid)) && m.now == l.now && m.pending == l.pending && NoMoreDeposited(l, m)
  {
  }

  lemma BooksWithdraw(l: Ledger, f: Figures, user: Address, burned: int, paid: int)
    requires Books(l, f) && Small(f) && Person(user)
    requires 0 < burned <= AccountOf(f, user).shares && 0 <= paid <= f.assets && paid <= 60
    requires SharesToAssets(burned, f.supply, f.assets) == Done(paid)
    ensures var m := After(l, WithdrawalOf(user, burned));
            Books(m, Move(f, user, -burned, paid)) && m.now == l.now && m.pending == l.pending && NoMoreDeposited(l, m)
  {
    WithdrawingAtOnce(l, user, burned, paid);
    BooksPaid(l, f, user, burned, paid);
    hide After, SharesToAssets;
  }

  lemma BooksRecord(l: Ledger, f: Figures, user: Address, shares: int, worth: int)
    requires Books(l, f) && Small(f) && Person(user) && 0 < shares <= AccountOf(f, user).shares && worth > 60
    requires SharesToAssets(shares, f.supply, f.assets) == Done(worth)
    ensures var m := After(l, WithdrawalOf(user, shares));
            && Books(m, f) && m.now == l.now && NoMoreDeposited(l, m)
            && m.pending == l.pending[user := PendingWithdrawal(shares, l.now + TIMELOCK_SECONDS)]
  {
    WithdrawingLater(l, user, shares, worth);
    hide After, SharesToAssets;
  }

  // ---- Shares paid twice ----

  const PURSES: Balances := map[ALICE := 100, BOB := 100, CAROL := 100, DAVE := 50, STRATEGY := 200]

  const BEFORE := Figures(Account(0, 100), Account(0, 100), Account(0, 100), 0, 0)
  const DEPOSITED := Figures(Account(100, 0), Account(100, 0), Account(100, 0), 300, 300)
  const REDEEMED := Figures(Account(0, 100), Account(100, 0), Account(100, 0), 200, 200)
  const OVERDRAWN := Figures(Account(-100, 200), Account(100, 0), Account(100, 0), 100, 100)

  /** Everybody deposits; Alice records her withdrawal, redeems in parts, and a day
      later executes what she recorded. */
  function Run(): seq<Tx> {
    [ Tx({ADMIN}, CallConfigure(Defaults(ADMIN).(largeWithdrawalThreshold := 60))),
      DepositOf(ALICE, 100), DepositOf(BOB, 100), DepositOf(CAROL, 100),
      WithdrawalOf(ALICE, 100), WithdrawalOf(ALICE, 50), WithdrawalOf(ALICE, 50),
      Tx({}, AdvanceTime(TIMELOCK_SECONDS)),
      Tx({ALICE}, CallExecuteWithdrawal(ALICE)) ]
  }

  lemma AllDeposit(l: Ledger)
    requires Books(l, BEFORE) && l.now == 0 && l.pending == map[] && l.userDeposit == map[]
    ensures var m := After(After(After(l, DepositOf(ALICE, 100)), DepositOf(BOB, 100)), DepositOf(CAROL, 100));
            Books(m, DEPOSITED) && m.now == 0 && m.pending == map[] && Get(m.userDeposit, CAROL) <= 100
  {
    hide After, Books, DepositOf;
    BooksDeposit(l, BEFORE, ALICE, 100, 100);
    var l1, f1 := After(l, DepositOf(ALICE, 100)), Move(BEFORE, ALICE, 100, -100);
    BooksDeposit(l1, f1, BOB, 100, 100);
    var l2, f2 := After(l1, DepositOf(BOB, 100)), Move(f1, BOB, 100, -100);
    BooksDeposit(l2, f2, CAROL, 100, 100);
    assert Move(f2, CAROL, 100, -100) == DEPOSITED;
  }

  lemma AliceRedeems(l: Ledger)
    requires Books(l, DEPOSITED) && l.now == 0
    ensures var m := After(After(l, WithdrawalOf(ALICE, 50)), WithdrawalOf(ALICE, 50));
            Books(m, REDEEMED) && m.now == 0 && m.pending == l.pending && NoMoreDeposited(l, m)
  {
    hide After, Books, WithdrawalOf;
    BooksWithdraw(l, DEPOSITED, ALICE, 50, 50);
    var l1, f1 := After(l, WithdrawalOf(ALICE, 50)), Move(DEPOSITED, ALICE, -50, 50);
    BooksWithdraw(l1, f1, ALICE, 50, 50);
    assert Move(f1, ALICE, -50, 50) == REDEEMED;
  }

  lemma AliceExecutes(w: Ledger)
    requires Books(w, REDEEMED)
    requires w.now == TIMELOCK_SECONDS && w.pending == map[ALICE := PendingWithdrawal(100, TIMELOCK_SECONDS)]
    ensures var m := After(w, Tx({ALICE}, CallExecuteWithdrawal(ALICE)));
            && !Covered(w, Tx({ALICE}, CallExecuteWithdrawal(ALICE)))
            && Books(m, OVERDRAWN) && m.pending == map[] && m.now == TIMELOCK_SECONDS && NoMoreDeposited(w, m)
  {
    assert Modest(w, ALICE) && BalanceOf(w, ALICE) == 0;
    Executing(w, ALICE, 100);
    var p := w.(pending := w.pending - {ALICE});
    assert p.pending == map[];
    assert Books(p, REDEEMED);
    hide After, Paid, Executed, Modest, Books, NoMoreDeposited;
    BooksPaid(p, REDEEMED, ALICE, 100, 100);
    assert Move(REDEEMED, ALICE, -100, 100) == OVERDRAWN;
    SameDeposits(p, w, Paid(p, ALICE, 100, 100));
  }

  lemma SameDeposits(l: Ledger, l': Ledger, m: Ledger)
    requires NoMoreDeposited(l, m) && l.userDeposit == l'.userDeposit
    ensures NoMoreDeposited(l', m)
  {
  }

  lemma BooksWait(l: Ledger, f: Figures)
    requires Books(l, f) && l.now == 0
    ensures var m := After(l, Tx({}, AdvanceTime(TIMELOCK_SECONDS)));
            Books(m, f) && m.now == TIMELOCK_SECONDS && m.pending == l.pending && NoMoreDeposited(l, m)
  {
    WaitingADay(l);
    hide After;
  }

  lemma RunUnfolds(l: Ledger, txs: seq<Tx>)
    requires Run() <= txs
    ensures var a := After(l, txs[0]);
            var b := After(After(After(a, txs[1]), txs[2]), txs[3]);
            var c := After(b, txs[4]);
            var d := After(After(c, txs[5]), txs[6]);
            var e := After(d, txs[7]);
            At(l, txs, 8) == e && At(l, txs, 9) == After(e, txs[8])
  {
    RunStep(l, txs, 0);
    RunStep(l, txs, 1);
    RunStep(l, txs, 2);
    RunStep(l, txs, 3);
    RunStep(l, txs, 4);
    RunStep(l, txs, 5);
    RunStep(l, txs, 6);
    RunStep(l, txs, 7);
    RunStep(l, txs, 8);
    hide After, At;
  }

  lemma Configured()
    ensures var l := After(Initial(ADMIN, PURSES, 0), Run()[0]);
            Books(l, BEFORE) && l.now == 0 && l.pending == map[] && l.userDeposit == map[]
  {
    Configuring(Initial(ADMIN, PURSES, 0), Defaults(ADMIN).(largeWithdrawalThreshold := 60));
    hide After;
  }

  lemma WholeRun(txs: seq<Tx>)
    requires Run() <= txs
    ensures var l := Initial(ADMIN, PURSES, 0);
            var m := At(l, txs, 9);
            && Books(m, OVERDRAWN) && m.pending == map[] && m.now == TIMELOCK_SECONDS
            && Get(m.userDeposit, CAROL) <= 100
            && !Covered(At(l, txs, 8), txs[8])
  {
    var l := Initial(ADMIN, PURSES, 0);
    RunUnfolds(l, txs);
    Configured();
    assert forall i :: 0 <= i < 9 ==> txs[i] == Run()[i];
    hide *;
    AliceGoesThrough(After(l, txs[0]));
  }

  lemma AliceGoesThrough(a: Ledger)
    requires Books(a, BEFORE) && a.now == 0 && a.pending == map[] && a.userDeposit == map[]
    ensures var b := After(After(After(a, DepositOf(ALICE, 100)), DepositOf(BOB, 100)), DepositOf(CAROL, 100));
            var d := After(After(After(b, WithdrawalOf(ALICE, 100)), WithdrawalOf(ALICE, 50)), WithdrawalOf(ALICE, 50));
            var e := After(d, Tx({}, AdvanceTime(TIMELOCK_SECONDS)));
            var m := After(e, Tx({ALICE}, CallExecuteWithdrawal(ALICE)));
            && Books(m, OVERDRAWN) && m.pending == map[] && m.now == TIMELOCK_SECONDS
            && Get(m.userDeposit, CAROL) <= 100
            && !Covered(e, Tx({ALICE}, CallExecuteWithdrawal(ALICE)))
  {
    hide After, Books, Covered, Small, Modest, DepositOf, WithdrawalOf;
    AllDeposit(a);
    var b := After(After(After(a, DepositOf(ALICE, 100)), DepositOf(BOB, 100)), DepositOf(CAROL, 100));
    assert Small(DEPOSITED) by { DepositedIsSmall(); }
    BooksRecord(b, DEPOSITED, ALICE, 100, 100);
    var c := After(b, WithdrawalOf(ALICE, 100));
    assert c.pending == map[ALICE := PendingWithdrawal(100, TIMELOCK_SECONDS)];
    AliceRedeems(c);
    var d := After(After(c, WithdrawalOf(ALICE, 50)), WithdrawalOf(ALICE, 50));
    BooksWait(d, REDEEMED);
    AliceExecutes(After(d, Tx({}, AdvanceTime(TIMELOCK_SECONDS))));
  }

  lemma DepositedIsSmall()
    ensures Small(DEPOSITED)
  {
  }

  /** A user can be paid for the same shares twice: Alice put 100 in and ends with
      200 tokens and minus 100 shares. */
  lemma SharesPaidTwice(txs: seq<Tx>)
    requires txs == Run()
    ensures var l := At(Initial(ADMIN, PURSES, 0), txs, 9);
            && BalanceOf(l, ALICE) == -100 && Get(l.tokens, ALICE) == 200 && l.state == VaultState(100, 100, false)
    ensures !Covered(At(Initial(ADMIN, PURSES, 0), txs, 8), txs[8])
  {
    WholeRun(txs);
    hide At, Initial, Covered;
  }

  lemma SumOfTwo(m: map<Address, int>, u: Address, v: Address)
    requires m.Keys == {u, v} && u != v
    ensures Sum(m) == m[u] + m[v]
  {
    SumTakes(m, u);
    SumTakes(m - {u}, v);
    assert m - {u} - {v} == map[];
  }

  lemma ClaimsOfHolders(l: Ledger)
    requires Books(l, OVERDRAWN)
    ensures l.state.totalShares == 100 && Sum(Claims(Holders(l.shareBalance), l.state)) == 200
  {
    assert BalanceOf(l, BOB) == BalanceOf(l, CAROL) == 100 && BalanceOf(l, ALICE) == -100;
    assert Claims(Holders(l.shareBalance), l.state) == map[BOB := 100, CAROL := 100];
    SumOfTwo(map[BOB := 100, CAROL := 100], BOB, CAROL);
  }

  /** In that state the vault has 100 assets, and Bob and Carol have claims of 100
      each: the holders are not backed. */
  lemma HoldersAreOwedMore(txs: seq<Tx>)
    requires txs == Run()
    ensures var l := At(Initial(ADMIN, PURSES, 0), txs, 9);
            && l.state.totalShares == 100 && l.state.totalAssets == 100
            && Sum(Claims(Holders(l.shareBalance), l.state)) == 200
  {
    WholeRun(txs);
    hide At, Initial;
    ClaimsOfHolders(At(Initial(ADMIN, PURSES, 0), txs, 9));
  }

  // ---- A deposit that takes shares away ----

  /** The same run; then Bob and Carol redeem what is left, Bob more than there is;
      after that Carol deposits twice. */
  function LongerRun(): seq<Tx> {
    Run() + [ WithdrawalOf(BOB, 60), WithdrawalOf(CAROL, 40), WithdrawalOf(BOB, 40),
              DepositOf(CAROL, 10), DepositOf(CAROL, 5) ]
  }

  const NEGATIVE := Figures(Account(-100, 200), Account(0, 60), Account(60, 40), -40, 0)
  const RESTARTED := Figures(Account(-100, 200), Account(0, 60), Account(70, 30), -30, 10)
  const TAKEN := Figures(Account(-100, 200), Account(0, 60), Account(55, 25), -45, 15)

  lemma RedeemTheRest(l: Ledger)
    requires Books(l, OVERDRAWN)
    ensures var m := After(After(After(l, WithdrawalOf(BOB, 60)), WithdrawalOf(CAROL, 40)), WithdrawalOf(BOB, 40));
            Books(m, NEGATIVE) && NoMoreDeposited(l, m)
  {
    hide After, Books, WithdrawalOf;
    BooksWithdraw(l, OVERDRAWN, BOB, 60, 60);
    var l1, f1 := After(l, WithdrawalOf(BOB, 60)), Move(OVERDRAWN, BOB, -60, 60);
    BooksWithdraw(l1, f1, CAROL, 40, 40);
    var l2, f2 := After(l1, WithdrawalOf(CAROL, 40)), Move(f1, CAROL, -40, 40);
    BooksWithdraw(l2, f2, BOB, 40, 0);
    assert Move(f2, BOB, -40, 0) == NEGATIVE;
  }

  lemma CarolDeposits(l: Ledger)
    requires Books(l, NEGATIVE) && Get(l.userDeposit, CAROL) <= 100
    ensures var m := After(l, DepositOf(CAROL, 10));
            Books(m, RESTARTED) && Books(After(m, DepositOf(CAROL, 5)), TAKEN)
  {
    assert 0 <= Get(l.userDeposit, CAROL);
    hide After, Books, DepositOf;
    BooksDeposit(l, NEGATIVE, CAROL, 10, 10);
    var m := After(l, DepositOf(CAROL, 10));
    assert Move(NEGATIVE, CAROL, 10, -10) == RESTARTED;
    assert AssetsToShares(5, -30, 10) == Done(-15);
    BooksDeposit(m, RESTARTED, CAROL, 5, -15);
    assert Move(RESTARTED, CAROL, -15, -5) == TAKEN;
  }

  lemma LongerRunUnfolds(l: Ledger, txs: seq<Tx>)
    requires txs == LongerRun()
    ensures var b := After(After(After(At(l, txs, 9), txs[9]), txs[10]), txs[11]);
            At(l, txs, 13) == After(b, txs[12]) && At(l, txs, 14) == After(After(b, txs[12]), txs[13])
  {
    RunStep(l, txs, 9);
    RunStep(l, txs, 10);
    RunStep(l, txs, 11);
    RunStep(l, txs, 12);
    RunStep(l, txs, 13);
    hide After, At;
  }

  /** Once the supply is negative a deposit can take shares away: Carol's second
      deposit costs her 15 of the 70 shares she had. */
  lemma DepositTakesShares(txs: seq<Tx>)
    requires txs == LongerRun()
    ensures var l, m := At(Initial(ADMIN, PURSES, 0), txs, 13), At(Initial(ADMIN, PURSES, 0), txs, 14);
            && txs[13] == DepositOf(CAROL, 5) && BalanceOf(l, CAROL) == 70 && BalanceOf(m, CAROL) == 55
            && Get(m.tokens, CAROL) == Get(l.tokens, CAROL) - 5
  {
    var l := Initial(ADMIN, PURSES, 0);
    WholeRun(txs);
    LongerRunUnfolds(l, txs);
    assert txs[9] == WithdrawalOf(BOB, 60) && txs[10] == WithdrawalOf(CAROL, 40) && txs[11] == WithdrawalOf(BOB, 40);
    assert txs[12] == DepositOf(CAROL, 10) && txs[13] == DepositOf(CAROL, 5);
    hide After, At, Initial, Run, LongerRun, Covered;
    RedeemTheRest(At(l, txs, 9));
    CarolDeposits(After(After(After(At(l, txs, 9), txs[9]), txs[10]), txs[11]));
    assert AccountOf(RESTARTED, CAROL) == Account(70, 30) && AccountOf(TAKEN, CAROL) == Account(55, 25);
  }

  // ---- A round trip that gains on a negative supply ----

  const WITH_STRATEGY: Config := Defaults(ADMIN).(strategy := Some(STRATEGY))

  /** Again the same run up to the negative supply; then a strategy is configured,
      and Dave deposits and redeems at once. */
  function DavesRun(): seq<Tx> {
    Run() + [ WithdrawalOf(BOB, 60), WithdrawalOf(CAROL, 40), WithdrawalOf(BOB, 40),
              Tx({ADMIN}, CallConfigure(WITH_STRATEGY)), DepositOf(DAVE, 50), WithdrawalOf(DAVE, 50) ]
  }

  lemma DavesRunUnfolds(l: Ledger, txs: seq<Tx>)
    requires txs == DavesRun()
    ensures var b := After(After(After(At(l, txs, 9), txs[9]), txs[10]), txs[11]);
            && At(l, txs, 12) == b && At(l, txs, 13) == After(b, txs[12])
            && At(l, txs, 15) == After(After(After(b, txs[12]), txs[13]), txs[14])
  {
    RunStep(l, txs, 9);
    RunStep(l, txs, 10);
    RunStep(l, txs, 11);
    RunStep(l, txs, 12);
    RunStep(l, txs, 13);
    RunStep(l, txs, 14);
    hide After, At;
  }

  lemma StrategyConfigured(l: Ledger)
    requires Books(l, NEGATIVE)
    ensures After(l, Tx({ADMIN}, CallConfigure(WITH_STRATEGY))) == l.(config := WITH_STRATEGY)
  {
    Configuring(l, WITH_STRATEGY);
    hide After;
  }

  lemma DaveDeposits(l: Ledger)
    requires l.config == WITH_STRATEGY
             && Books(l.(config := Defaults(ADMIN).(largeWithdrawalThreshold := 60)), NEGATIVE)
    ensures var m := After(l, DepositOf(DAVE, 50));
            && m.state == VaultState(10, 50, false) && m.idleAssets == 50 && VaultTokens(m) == 50
            && BalanceOf(m, DAVE) == 50 && Get(m.tokens, DAVE) == 0 && Get(m.tokens, STRATEGY) == 200
            && m.config == WITH_STRATEGY && 0 <= Get(m.userDeposit, DAVE) <= 1000 && m.watermark == l.watermark
  {
    assert Perform(l, DepositOf(DAVE, 50)) == Deposit(l, {DAVE}, DAVE, 50);
    assert AssetsToShares(50, -40, 0) == Done(50);
    TransferGoesThrough(l.tokens, DAVE, VAULT, 50);
    hide Perform, AssetsToShares, Transfer;
  }

  lemma DaveRedeems(l: Ledger)
    requires l.state == VaultState(10, 50, false) && l.idleAssets == 50 && VaultTokens(l) == 50
    requires BalanceOf(l, DAVE) == 50 && Get(l.tokens, DAVE) == 0 && Get(l.tokens, STRATEGY) == 200
    requires l.config == WITH_STRATEGY && 0 <= Get(l.userDeposit, DAVE) <= 1000 && l.watermark == map[]
    ensures var m := After(l, WithdrawalOf(DAVE, 50));
            BalanceOf(m, DAVE) == 0 && Get(m.tokens, DAVE) == 250
  {
    assert Perform(l, WithdrawalOf(DAVE, 50)) == Withdraw(l, {DAVE}, DAVE, 50);
    assert SharesToAssets(50, 10, 50) == Done(250);
    TransferGoesThrough(l.tokens, STRATEGY, VAULT, 200);
    assert CoverFromStrategy(l, 250).Done?;
    var c := CoverFromStrategy(l, 250).value.0;
    assert VaultTokens(c) == 250 && Get(c.tokens, DAVE) == 0;
    CoveringLeavesShares(l, 250);
    assert c.idleAssets == 250;
    TransferGoesThrough(c.tokens, VAULT, DAVE, 250);
    assert PayOut(c, DAVE, 50, 250).Done?;
    hide Perform, SharesToAssets, CoverFromStrategy, Transfer;
  }

  /** Round trips can gain on a negative supply as well: Dave enters with 50 tokens
      and no shares, and leaves with 250 and no shares. */
  lemma NegativeSupplyPays(txs: seq<Tx>)
    requires txs == DavesRun()
    ensures var l, m := At(Initial(ADMIN, PURSES, 0), txs, 13), At(Initial(ADMIN, PURSES, 0), txs, 15);
            && l.state == VaultState(-40, 0, false) && BalanceOf(l, DAVE) == 0 && Get(l.tokens, DAVE) == 50
            && BalanceOf(m, DAVE) == 0 && Get(m.tokens, DAVE) == 250
  {
    var l := Initial(ADMIN, PURSES, 0);
    WholeRun(txs);
    DavesRunUnfolds(l, txs);
    assert txs[9] == WithdrawalOf(BOB, 60) && txs[10] == WithdrawalOf(CAROL, 40) && txs[11] == WithdrawalOf(BOB, 40);
    assert txs[12] == Tx({ADMIN}, CallConfigure(WITH_STRATEGY));
    assert txs[13] == DepositOf(DAVE, 50) && txs[14] == WithdrawalOf(DAVE, 50);
    hide *;
    RedeemTheRest(At(l, txs, 9));
    DaveGoesThrough(At(l, txs, 12));
  }

  lemma DaveGoesThrough(l: Ledger)
    requires Books(l, NEGATIVE)
    ensures var c := After(l, Tx({ADMIN}, CallConfigure(WITH_STRATEGY)));
            var m := After(After(c, DepositOf(DAVE, 50)), WithdrawalOf(DAVE, 50));
            && c.state == VaultState(-40, 0, false) && BalanceOf(c, DAVE) == 0 && Get(c.tokens, DAVE) == 50
            && BalanceOf(m, DAVE) == 0 && Get(m.tokens, DAVE) == 250
  {
    StrategyConfigured(l);
    var c := l.(config := WITH_STRATEGY);
    assert c.(config := l.config) == l;
    hide After;
    DaveDeposits(c);
    DaveRedeems(After(c, DepositOf(DAVE, 50)));
  }

  // ---- Yield nobody holds shares of ----

  function GainingRun(): seq<Tx> {
    [ Tx({ADMIN}, CallAccrueYield(40)), DepositOf(ALICE, 10), WithdrawalOf(ALICE, 10) ]
  }

  const YIELD_PURSES: Balances := map[ADMIN := 40, ALICE := 10]

  lemma AccruingFirst(l: Ledger)
    requires l == Initial(ADMIN, YIELD_PURSES, 0)
    ensures var m := After(l, Tx({ADMIN}, CallAccrueYield(40)));
            m == l.(tokens := m.tokens, idleAssets := 40, state := VaultState(0, 40, false))
            && VaultTokens(m) == 40 && Get(m.tokens, ALICE) == 10
  {
    assert Perform(l, Tx({ADMIN}, CallAccrueYield(40))) == AccrueYield(l, {ADMIN}, 40);
    hide Perform;
  }

  /** Yield booked while nobody holds shares goes to the next depositor: Alice
      enters with 10 tokens and no shares, and leaves with 50 and no shares. */
  lemma AccountCanGain(txs: seq<Tx>)
    requires txs == GainingRun()
    ensures var l, m := Initial(ADMIN, YIELD_PURSES, 0), At(Initial(ADMIN, YIELD_PURSES, 0), txs, 3);
            && BalanceOf(At(l, txs, 1), ALICE) == 0 == BalanceOf(m, ALICE)
            && Get(At(l, txs, 1).tokens, ALICE) == 10 && Get(m.tokens, ALICE) == 50
  {
    var l := Initial(ADMIN, YIELD_PURSES, 0);
    RunStep(l, txs, 0);
    RunStep(l, txs, 1);
    RunStep(l, txs, 2);
    AccruingFirst(l);
    AliceGains(At(l, txs, 1));
    hide After, At;
  }

  lemma AliceGains(l: Ledger)
    requires l.config == Defaults(ADMIN) && l.state == VaultState(0, 40, false) && l.idleAssets == 40 && l.now == 0
    requires VaultTokens(l) == 40 && Get(l.tokens, ALICE) == 10 && l.shareBalance == map[] && l.userDeposit == map[]
    ensures var m := After(After(l, DepositOf(ALICE, 10)), WithdrawalOf(ALICE, 10));
            BalanceOf(m, ALICE) == 0 && Get(m.tokens, ALICE) == 50
  {
    assert Perform(l, DepositOf(ALICE, 10)) == Deposit(l, {ALICE}, ALICE, 10);
    var m := After(l, DepositOf(ALICE, 10));
    assert m.state == VaultState(10, 50, false) && BalanceOf(m, ALICE) == 10 && Get(m.tokens, ALICE) == 0;
    assert m.idleAssets == 50 && VaultTokens(m) == 50 && m.config == Defaults(ADMIN) && Get(m.userDeposit, ALICE) == 10;
    assert Perform(m, WithdrawalOf(ALICE, 10)) == Withdraw(m, {ALICE}, ALICE, 10);
    hide Perform;
    assert SharesToAssets(10, 10, 50) == Done(50);
  }
}
