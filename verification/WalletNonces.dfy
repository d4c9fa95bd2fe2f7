/** Single-use wallet nonces on the in-memory store: `backend/src/walletNonce.ts`,
    lines 112-160 and 253-359.

    The cache returns the stored objects themselves, so a nonce looked up twice is
    one object; entries are kept apart from the nonces that map to them. Each
    async function runs in segments between its awaits, and segments interleave.
 */
module WalletNonces {
  import opened Checked
  import opened Sets

  type Nonce = nat
  type Wallet = nat
  type Ref = nat
  type Pid = nat

  datatype Action = Login | Deposit | Withdrawal

  datatype Entry = Entry(wallet: Wallet, action: Action, expiresAt: int, used: bool)

  /** A cache slot: the entry object and when the cache forgets it. */
  datatype Slot = Slot(entry: Ref, deadline: int)

  datatype Store = Store(entries: map<Ref, Entry>, byNonce: map<Nonce, Slot>, walletIndex: map<Wallet, set<Nonce>>)

  ghost predicate Valid(s: Store) {
    forall n <- s.byNonce.Keys :: s.byNonce[n].entry in s.entries
  }

  /** Milliseconds a nonce lives. */
  const TTL: int := 300_000

  predicate Live(s: Store, clock: int, n: Nonce) {
    n in s.byNonce && s.byNonce[n].deadline >= clock
  }

  /** The cache's `get`: an expired slot is forgotten. */
  function Load(s: Store, clock: int, n: Nonce): (Store, Option<Ref>) {
    if Live(s, clock, n) then (s, Some(s.byNonce[n].entry))
    else (s.(byNonce := s.byNonce - {n}), None)
  }

  function IndexOf(s: Store, w: Wallet): set<Nonce> {
    if w in s.walletIndex then s.walletIndex[w] else {}
  }

  function Save(s: Store, clock: int, n: Nonce, r: Ref, e: Entry): Store {
    s.(entries := s.entries[r := e],
       byNonce := s.byNonce[n := Slot(r, clock + TTL)],
       walletIndex := s.walletIndex[e.wallet := IndexOf(s, e.wallet) + {n}])
  }

  /** The check and the mark, in one segment. Writing the entry back restarts the
      cache's lifetime for it. */
  function MarkUsed(s: Store, clock: int, n: Nonce): (Store, bool)
    requires Valid(s)
  {
    var (s, found) := Load(s, clock, n);
    if found.None? || s.entries[found.value].used then (s, false)
    else
      var r := found.value;
      (s.(entries := s.entries[r := s.entries[r].(used := true)], byNonce := s.byNonce[n := Slot(r, clock + TTL)]),
       true)
  }

  /** Unused nonces of the wallet, by a scan of the whole cache. */
  function Active(s: Store, clock: int, w: Wallet): set<Nonce>
    requires Valid(s)
  {
    set n | n in s.byNonce && Live(s, clock, n) && s.entries[s.byNonce[n].entry].wallet == w
            && !s.entries[s.byNonce[n].entry].used
  }

  /** Unused nonces found through the wallet index, which is what gets counted. */
  function Indexed(s: Store, clock: int, w: Wallet): set<Nonce>
    requires Valid(s)
  {
    set n | n in IndexOf(s, w) && Live(s, clock, n) && !s.entries[s.byNonce[n].entry].used
  }

  // ---- Calls in progress ----

  datatype Refusal = NotFound | WalletMismatch | ActionMismatch | Expired | Replay

  datatype Call =
    // issue
    | Counted(wallet: Wallet, action: Action, active: nat)
    | TooMany
    | Issued(wallet: Wallet, action: Action, nonce: Nonce)
    // consume
    | Loaded(wallet: Wallet, action: Action, nonce: Nonce, found: Option<Ref>)
    | Validated(wallet: Wallet, action: Action, nonce: Nonce, entry: Ref, at: int)
    | Consumed(wallet: Wallet, action: Action, nonce: Nonce, entry: Ref, at: int)
    | Refused(why: Refusal)

  datatype Service = Service(cap: nat, clock: int, store: Store, calls: map<Pid, Call>, home: map<Ref, Nonce>)

  function Start(cap: nat): Service {
    Service(cap, 0, Store(map[], map[], map[]), map[], map[])
  }

  datatype Step =
    | Issue(pid: Pid, wallet: Wallet, action: Action)
    | Consume(pid: Pid, wallet: Wallet, action: Action, nonce: Nonce)
    | Resume(pid: Pid, freshNonce: Nonce, freshEntry: Ref)
    | Tick(clock: int)

  predicate Fresh(s: Service, n: Nonce, r: Ref) {
    n !in s.home.Values && n !in s.store.byNonce && r !in s.home && r !in s.store.entries
  }

  /** `validateForUse`, once the entry is loaded. */
  function Validate(s: Service, c: Call): Call
    requires c.Loaded? && (c.found.Some? ==> c.found.value in s.store.entries)
  {
    if c.found.None? then Refused(NotFound)
    else
      var e := s.store.entries[c.found.value];
      if e.wallet != c.wallet then Refused(WalletMismatch)
      else if e.action != c.action then Refused(ActionMismatch)
      else if e.expiresAt < s.clock then Refused(Expired)
      else if e.used then Refused(Replay)
      else Validated(c.wallet, c.action, c.nonce, c.found.value, s.clock)
  }

  function Continue(s: Service, pid: Pid, n': Nonce, r': Ref): Service
    requires Valid(s.store) && EntriesKnown(s) && pid in s.calls
  {
    match s.calls[pid]
    case Counted(w, a, active) =>
      if active >= s.cap then s.(calls := s.calls[pid := TooMany])
      else if Fresh(s, n', r') then
        s.(store := Save(s.store, s.clock, n', r', Entry(w, a, s.clock + TTL, false)),
           home := s.home[r' := n'],
           calls := s.calls[pid := Issued(w, a, n')])
      else s
    case Loaded(_, _, _, _) => s.(calls := s.calls[pid := Validate(s, s.calls[pid])])
    case Validated(w, a, n, r, at) =>
      var (store, marked) := MarkUsed(s.store, s.clock, n);
      s.(store := store, calls := s.calls[pid := if marked then Consumed(w, a, n, r, at) else Refused(Replay)])
    case _ => s
  }

  /** A step that is not enabled changes nothing. Counting forgets the expired
      slots it meets, which no later look-up can tell. */
  function Next(s: Service, step: Step): Service
    requires Valid(s.store) && EntriesKnown(s)
  {
    match step
    case Issue(pid, w, a) =>
      if pid in s.calls then s
      else
        s.(store := s.store.(byNonce := s.store.byNonce - Stale(s.store, s.clock, w)),
           calls := s.calls[pid := Counted(w, a, |Indexed(s.store, s.clock, w)|)])
    case Consume(pid, w, a, n) =>
      if pid in s.calls then s
      else
        var (store, found) := Load(s.store, s.clock, n);
        s.(store := store, calls := s.calls[pid := Loaded(w, a, n, found)])
    case Resume(pid, n, r) => if pid in s.calls then Continue(s, pid, n, r) else s
    case Tick(clock) => if clock >= s.clock then s.(clock := clock) else s
  }

  /** The indexed nonces of a wallet that have expired. */
  function Stale(s: Store, clock: int, w: Wallet): set<Nonce> {
    set n | n in IndexOf(s, w) && !Live(s, clock, n)
  }

  // ---- The invariant ----

  function Held(c: Call): Option<Ref> {
    match c
    case Loaded(_, _, _, found) => found
    case Validated(_, _, _, r, _) => Some(r)
    case Consumed(_, _, _, r, _) => Some(r)
    case _ => None
  }

  ghost predicate EntriesKnown(s: Service) {
    forall p <- s.calls.Keys :: Held(s.calls[p]).Some? ==> Held(s.calls[p]).value in s.store.entries
  }

  /** One object per nonce, shared by the cache and all calls. */
  ghost predicate References(s: Service) {
    && s.home.Keys == s.store.entries.Keys
    && (forall r1 <- s.home.Keys, r2 <- s.home.Keys :: s.home[r1] == s.home[r2] ==> r1 == r2)
    && (forall n <- s.store.byNonce.Keys :: s.store.byNonce[n].entry in s.home && s.home[s.store.byNonce[n].entry] == n)
    && (forall p <- s.calls.Keys :: Held(s.calls[p]).Some? ==>
          Held(s.calls[p]).value in s.home && s.home[Held(s.calls[p]).value] == s.calls[p].nonce)
  }

  /** What was validated matched, and what was consumed is used up by one call. */
  ghost predicate Consumptions(s: Service)
    requires EntriesKnown(s)
  {
    && (forall p <- s.calls.Keys :: s.calls[p].Validated? || s.calls[p].Consumed? ==>
          var e := s.store.entries[s.calls[p].entry];
          e.wallet == s.calls[p].wallet && e.action == s.calls[p].action && s.calls[p].at <= e.expiresAt)
    && (forall p <- s.calls.Keys :: s.calls[p].Consumed? ==> s.store.entries[s.calls[p].entry].used)
    && (forall p <- s.calls.Keys, q <- s.calls.Keys ::
          p != q && s.calls[p].Consumed? && s.calls[q].Consumed? ==> s.calls[p].entry != s.calls[q].entry)
  }

  /** The wallet index misses no cached nonce and mixes up no wallets. */
  ghost predicate IndexIsRight(s: Store)
    requires Valid(s)
  {
    && (forall n <- s.byNonce.Keys :: n in IndexOf(s, s.entries[s.byNonce[n].entry].wallet))
    && (forall w <- s.walletIndex.Keys, n <- s.byNonce.Keys ::
          n in s.walletIndex[w] ==> s.entries[s.byNonce[n].entry].wallet == w)
  }

  ghost predicate IndexedAreKnown(s: Service) {
    forall w <- s.store.walletIndex.Keys :: s.store.walletIndex[w] <= s.home.Values
  }

  ghost predicate Inv(s: Service) {
    Valid(s.store) && EntriesKnown(s) && References(s) && Consumptions(s) && IndexIsRight(s.store) && IndexedAreKnown(s)
  }

  lemma TickKeepsInv(s: Service, step: Step)
    requires Inv(s) && step.Tick?
    ensures Inv(Next(s, step))
  {
  }

  lemma IssueKeepsInv(s: Service, step: Step)
    requires Inv(s) && step.Issue?
    ensures Inv(Next(s, step))
  {
    hide Indexed, Stale;
    if step.pid !in s.calls {
      DroppingKeepsInv(s, Stale(s.store, s.clock, step.wallet), step.pid,
                       Counted(step.wallet, step.action, |Indexed(s.store, s.clock, step.wallet)|));
      hide Inv;
    }
  }

  /** Forgetting slots and starting a call that holds no entry. */
  lemma DroppingKeepsInv(s: Service, dropped: set<Nonce>, pid: Pid, c: Call)
    requires Inv(s) && pid !in s.calls && c.Counted?
    ensures Inv(s.(store := s.store.(byNonce := s.store.byNonce - dropped), calls := s.calls[pid := c]))
  {
    DroppingKeepsIndex(s.store, dropped);
    hide IndexIsRight;
  }

  lemma DroppingKeepsIndex(s: Store, dropped: set<Nonce>)
    requires Valid(s) && IndexIsRight(s)
    ensures var t := s.(byNonce := s.byNonce - dropped); Valid(t) && IndexIsRight(t)
  {
  }

  lemma ConsumeKeepsInv(s: Service, step: Step)
    requires Inv(s) && step.Consume?
    ensures Inv(Next(s, step))
  {
  }

  lemma SaveKeepsReferences(s: Service, pid: Pid, n: Nonce, r: Ref)
    requires Inv(s) && pid in s.calls && s.calls[pid].Counted?
    ensures var t := Continue(s, pid, n, r); References(t)
  {
    hide Consumptions, IndexIsRight, IndexedAreKnown;
  }

  lemma SaveKeepsConsumptions(s: Service, pid: Pid, n: Nonce, r: Ref)
    requires Inv(s) && pid in s.calls && s.calls[pid].Counted?
    ensures var t := Continue(s, pid, n, r); EntriesKnown(t) && Consumptions(t)
  {
    hide IndexIsRight, IndexedAreKnown;
  }

  lemma SaveKeepsIndex(s: Service, pid: Pid, n: Nonce, r: Ref)
    requires Inv(s) && pid in s.calls && s.calls[pid].Counted?
    ensures var t := Continue(s, pid, n, r); Valid(t.store) && IndexIsRight(t.store) && IndexedAreKnown(t)
  {
    hide Consumptions;
    if s.calls[pid].active < s.cap && Fresh(s, n, r) {
      ValuesGrow(s.home, r, n);
    }
  }

  lemma ValuesGrow(m: map<Ref, Nonce>, r: Ref, n: Nonce)
    requires r !in m
    ensures m[r := n].Values == m.Values + {n}
  {
    assert m[r := n][r] == n;
    forall v | v in m.Values
      ensures v in m[r := n].Values
    {
      var x :| x in m && m[x] == v;
      assert m[r := n][x] == v;
    }
  }

  lemma SaveKeepsInv(s: Service, pid: Pid, n: Nonce, r: Ref)
    requires Inv(s) && pid in s.calls && s.calls[pid].Counted?
    ensures Inv(Continue(s, pid, n, r))
  {
    hide Continue, References, Consumptions, IndexIsRight, IndexedAreKnown;
    SaveKeepsReferences(s, pid, n, r);
    SaveKeepsConsumptions(s, pid, n, r);
    SaveKeepsIndex(s, pid, n, r);
  }

  lemma ValidateKeepsInv(s: Service, pid: Pid, n: Nonce, r: Ref)
    requires Inv(s) && pid in s.calls && s.calls[pid].Loaded?
    ensures Inv(Continue(s, pid, n, r))
  {
  }

  lemma MarkKeepsReferences(s: Service, pid: Pid, n: Nonce, r: Ref)
    requires Inv(s) && pid in s.calls && s.calls[pid].Validated?
    ensures var t := Continue(s, pid, n, r); References(t)
  {
    hide Consumptions, IndexIsRight, IndexedAreKnown;
  }

  lemma MarkKeepsConsumptions(s: Service, pid: Pid, n: Nonce, r: Ref)
    requires Inv(s) && pid in s.calls && s.calls[pid].Validated?
    ensures var t := Continue(s, pid, n, r); EntriesKnown(t) && Consumptions(t)
  {
    hide IndexIsRight, IndexedAreKnown;
  }

  lemma MarkKeepsIndex(s: Service, pid: Pid, n: Nonce, r: Ref)
    requires Inv(s) && pid in s.calls && s.calls[pid].Validated?
    ensures var t := Continue(s, pid, n, r); Valid(t.store) && IndexIsRight(t.store) && IndexedAreKnown(t)
  {
    hide Consumptions;
  }

  lemma MarkKeepsInv(s: Service, pid: Pid, n: Nonce, r: Ref)
    requires Inv(s) && pid in s.calls && s.calls[pid].Validated?
    ensures Inv(Continue(s, pid, n, r))
  {
    hide Continue, References, Consumptions, IndexIsRight, IndexedAreKnown;
    MarkKeepsReferences(s, pid, n, r);
    MarkKeepsConsumptions(s, pid, n, r);
    MarkKeepsIndex(s, pid, n, r);
  }

  lemma NextKeepsInv(s: Service, step: Step)
    requires Inv(s)
    ensures Inv(Next(s, step))
  {
    hide Inv, Continue, Next;
    match step
    case Issue(_, _, _) => IssueKeepsInv(s, step);
    case Consume(_, _, _, _) => ConsumeKeepsInv(s, step);
    case Tick(_) => TickKeepsInv(s, step);
    case Resume(pid, n, r) => ResumeKeepsInv(s, step);
  }

  lemma ResumeKeepsInv(s: Service, step: Step)
    requires Inv(s) && step.Resume?
    ensures Inv(Next(s, step))
  {
    hide References, Consumptions, IndexIsRight, IndexedAreKnown, Save, Validate, MarkUsed, Fresh;
    if step.pid in s.calls {
      match s.calls[step.pid]
      case Counted(_, _, _) => SaveKeepsInv(s, step.pid, step.freshNonce, step.freshEntry);
      case Loaded(_, _, _, _) => ValidateKeepsInv(s, step.pid, step.freshNonce, step.freshEntry);
      case Validated(_, _, _, _, _) => MarkKeepsInv(s, step.pid, step.freshNonce, step.freshEntry);
      case _ =>
    }
  }

  // ---- Runs: any interleaving of any number of calls ----

  ghost function ServiceAt(cap: nat, steps: seq<Step>, i: nat): (s: Service)
    requires i <= |steps|
    ensures Inv(s)
  {
    if i == 0 then Start(cap)
    else
      var s := ServiceAt(cap, steps, i - 1);
      NextKeepsInv(s, steps[i - 1]);
      Next(s, steps[i - 1])
  }

  /** Each nonce is consumed at most once, whatever interleaves. */
  lemma ConsumedAtMostOnce(cap: nat, steps: seq<Step>, i: nat)
    requires i <= |steps|
    ensures var calls := ServiceAt(cap, steps, i).calls;
            forall p <- calls.Keys, q <- calls.Keys ::
              calls[p].Consumed? && calls[q].Consumed? && calls[p].nonce == calls[q].nonce ==> p == q
  {
    hide Next, IndexIsRight, IndexedAreKnown;
    var s := ServiceAt(cap, steps, i);
    forall p, q | p in s.calls && q in s.calls && s.calls[p].Consumed? && s.calls[q].Consumed?
                  && s.calls[p].nonce == s.calls[q].nonce
      ensures p == q
    {
      var x, y := s.calls[p].entry, s.calls[q].entry;
      assert Held(s.calls[p]) == Some(x) && Held(s.calls[q]) == Some(y);
      assert s.home[x] == s.home[y];
    }
  }

  /** A nonce is consumed only for the wallet and action it was issued to, by a
      call that validated it before it expired. */
  lemma ConsumedAsIssued(cap: nat, steps: seq<Step>, i: nat)
    requires i <= |steps|
    ensures var s := ServiceAt(cap, steps, i);
            forall p <- s.calls.Keys :: s.calls[p].Consumed? ==>
              var c := s.calls[p];
              && c.entry in s.store.entries && c.entry in s.home && s.home[c.entry] == c.nonce
              && s.store.entries[c.entry].wallet == c.wallet
              && s.store.entries[c.entry].action == c.action
              && c.at <= s.store.entries[c.entry].expiresAt
              && s.store.entries[c.entry].used
  {
    hide Next, IndexIsRight, IndexedAreKnown;
    var s := ServiceAt(cap, steps, i);
    assert forall p <- s.calls.Keys :: s.calls[p].Consumed? ==> Held(s.calls[p]) == Some(s.calls[p].entry);
  }

  /** Counting through the wallet index counts exactly the wallet's unused nonces. */
  lemma IndexCountsActive(s: Service, w: Wallet)
    requires Inv(s)
    ensures Indexed(s.store, s.clock, w) == Active(s.store, s.clock, w)
  {
    hide References, Consumptions, IndexedAreKnown;
  }

  // ---- The cap ----

  /** The wallet's calls that have counted and will store a nonce. */
  function Issuing(s: Service, w: Wallet): set<Pid> {
    set p | p in s.calls && s.calls[p].Counted? && s.calls[p].wallet == w && s.calls[p].active < s.cap
  }

  function ActiveNow(s: Service, w: Wallet): set<Nonce>
    requires Valid(s.store)
  {
    Active(s.store, s.clock, w)
  }

  /** What a step does to the two sets whose sizes the cap is about. */
  lemma StepMovesSeats(s: Service, step: Step, w: Wallet)
    requires Inv(s)
    ensures var t := Next(s, step);
            && Valid(t.store)
            && (// a call counts, and will store
                (&& step.Issue? && step.wallet == w && step.pid !in s.calls && |ActiveNow(s, w)| < s.cap
                 && ActiveNow(t, w) <= ActiveNow(s, w) && Issuing(t, w) == Issuing(s, w) + {step.pid})
                // a call stores its nonce
                || (&& step.Resume? && step.pid in Issuing(s, w)
                    && ActiveNow(t, w) <= ActiveNow(s, w) + {step.freshNonce}
                    && Issuing(t, w) == Issuing(s, w) - {step.pid})
                // nothing is added
                || (ActiveNow(t, w) <= ActiveNow(s, w) && Issuing(t, w) <= Issuing(s, w)))
  {
    NextKeepsInv(s, step);
    match step
    case Issue(pid, v, _) =>
      IndexCountsActive(s, v);
      CountingMovesSeats(s, step, w);
    case Consume(_, _, _, _) => LookingMovesSeats(s, step, w);
    case Tick(_) => LookingMovesSeats(s, step, w);
    case Resume(pid, n, r) =>
      if pid in s.calls {
        if s.calls[pid].Counted? {
          SavingMovesSeats(s, step, w);
        } else {
          UsingMovesSeats(s, step, w);
        }
      }
  }

  lemma CountingMovesSeats(s: Service, step: Step, w: Wallet)
    requires Inv(s) && step.Issue? && Inv(Next(s, step))
    requires Indexed(s.store, s.clock, step.wallet) == Active(s.store, s.clock, step.wallet)
    ensures var t := Next(s, step);
            && ActiveNow(t, w) <= ActiveNow(s, w)
            && (if step.wallet == w && step.pid !in s.calls && |ActiveNow(s, w)| < s.cap
                then Issuing(t, w) == Issuing(s, w) + {step.pid}
                else Issuing(t, w) <= Issuing(s, w))
  {
    hide References, Consumptions, IndexIsRight, IndexedAreKnown, Stale, Indexed;
  }

  lemma LookingMovesSeats(s: Service, step: Step, w: Wallet)
    requires Inv(s) && (step.Consume? || step.Tick?) && Inv(Next(s, step))
    ensures ActiveNow(Next(s, step), w) <= ActiveNow(s, w) && Issuing(Next(s, step), w) <= Issuing(s, w)
  {
    hide References, Consumptions, IndexIsRight, IndexedAreKnown;
  }

  lemma UsingMovesSeats(s: Service, step: Step, w: Wallet)
    requires Inv(s) && step.Resume? && step.pid in s.calls && !s.calls[step.pid].Counted? && Inv(Next(s, step))
    ensures ActiveNow(Next(s, step), w) <= ActiveNow(s, w) && Issuing(Next(s, step), w) <= Issuing(s, w)
  {
    hide Consumptions, IndexIsRight, IndexedAreKnown, Fresh, Save;
    if s.calls[step.pid].Validated? {
      MarkingUsesUp(s.store, s.clock, s.calls[step.pid].nonce, w);
      hide MarkUsed, Active;
    } else {
      hide MarkUsed;
    }
  }

  lemma MarkingUsesUp(s: Store, clock: int, n: Nonce, w: Wallet)
    requires Valid(s)
    ensures Valid(MarkUsed(s, clock, n).0)
    ensures Active(MarkUsed(s, clock, n).0, clock, w) <= Active(s, clock, w)
  {
  }

  lemma SavingMovesSeats(s: Service, step: Step, w: Wallet)
    requires Inv(s) && step.Resume? && step.pid in s.calls && s.calls[step.pid].Counted? && Inv(Next(s, step))
    ensures var t := Next(s, step);
            || (step.pid in Issuing(s, w) && ActiveNow(t, w) <= ActiveNow(s, w) + {step.freshNonce}
                && Issuing(t, w) == Issuing(s, w) - {step.pid})
            || (ActiveNow(t, w) <= ActiveNow(s, w) && Issuing(t, w) <= Issuing(s, w))
  {
    hide Consumptions, IndexIsRight, IndexedAreKnown;
  }

  /** Active nonces and pending issues together stay below cap + width. */
  ghost predicate WithinCap(s: Service, w: Wallet, width: nat)
    requires Valid(s.store)
  {
    |ActiveNow(s, w)| + |Issuing(s, w)| < s.cap + width
  }

  lemma StepStaysWithinCap(s: Service, step: Step, w: Wallet, width: nat)
    requires Inv(s) && WithinCap(s, w, width)
    requires |Issuing(Next(s, step), w)| <= width
    ensures Inv(Next(s, step)) && Next(s, step).cap == s.cap && WithinCap(Next(s, step), w, width)
  {
    NextKeepsInv(s, step);
    CapIsConstant(s, step);
    StepMovesSeats(s, step, w);
    hide Inv, Next, Active, Issuing;
    var t := Next(s, step);
    if ActiveNow(t, w) <= ActiveNow(s, w) {
      SubsetSize(ActiveNow(t, w), ActiveNow(s, w));
      if Issuing(t, w) <= Issuing(s, w) {
        SubsetSize(Issuing(t, w), Issuing(s, w));
      }
    } else {
      SubsetSize(ActiveNow(t, w), ActiveNow(s, w) + {step.freshNonce});
    }
  }

  lemma CapIsConstant(s: Service, step: Step)
    requires Inv(s)
    ensures Next(s, step).cap == s.cap
  {
    hide Inv, Save, MarkUsed, Validate, Fresh, Load, Stale, Indexed;
    assert Valid(s.store) && EntriesKnown(s) by { InvIsValid(s); }
  }

  lemma InvIsValid(s: Service)
    requires Inv(s)
    ensures Valid(s.store) && EntriesKnown(s)
  {
  }

  lemma StartIsWithinCap(cap: nat, w: Wallet, width: nat)
    requires width > 0
    ensures Inv(Start(cap)) && Start(cap).cap == cap && WithinCap(Start(cap), w, width)
  {
    assert ActiveNow(Start(cap), w) == {};
    assert Issuing(Start(cap), w) == {};
  }

  /** If at no time more than `width` issues of a wallet are between counting and
      storing, it never has more than cap + width - 1 unused nonces; without
      overlapping issues (width 1) the cap itself holds. */
  lemma {:induction false} ActiveNoncesWithinCap(cap: nat, steps: seq<Step>, i: nat, w: Wallet, width: nat)
    requires i <= |steps| && width > 0
    requires forall k :: 0 <= k <= i ==> |Issuing(ServiceAt(cap, steps, k), w)| <= width
    ensures ServiceAt(cap, steps, i).cap == cap
    ensures WithinCap(ServiceAt(cap, steps, i), w, width)
    ensures |ActiveNow(ServiceAt(cap, steps, i), w)| <= cap + width - 1
  {
    hide Inv, Next, Active, Issuing, Start;
    if i == 0 {
      StartIsWithinCap(cap, w, width);
    } else {
      assert |Issuing(ServiceAt(cap, steps, i), w)| <= width;
      ActiveNoncesWithinCap(cap, steps, i - 1, w, width);
      StepStaysWithinCap(ServiceAt(cap, steps, i - 1), steps[i - 1], w, width);
    }
  }

  /** An issue that counted below the cap and stores adds one unused nonce. */
  lemma SavingAddsOne(s: Service, pid: Pid, n: Nonce, r: Ref)
    requires Inv(s) && pid in s.calls && s.calls[pid].Counted? && s.calls[pid].active < s.cap && Fresh(s, n, r)
    ensures var t, c := Continue(s, pid, n, r), s.calls[pid];
            && Inv(t) && ActiveNow(t, c.wallet) == ActiveNow(s, c.wallet) + {n}
            && t.calls == s.calls[pid := Issued(c.wallet, c.action, n)]
            && t.home == s.home[r := n] && t.cap == s.cap
            && t.store.byNonce.Keys == s.store.byNonce.Keys + {n} && t.store.entries.Keys == s.store.entries.Keys + {r}
  {
    SaveKeepsInv(s, pid, n, r);
    hide References, Consumptions, IndexIsRight, IndexedAreKnown, MarkUsed, Load, Validate;
  }

  lemma ResumeContinues(s: Service, step: Step)
    requires Inv(s) && step.Resume? && step.pid in s.calls
    ensures Next(s, step) == Continue(s, step.pid, step.freshNonce, step.freshEntry)
  {
    hide References, Consumptions, IndexIsRight, IndexedAreKnown, Continue;
  }

  // ---- The bound is sharp ----

  /** Numbers from `c` on have not been used for anything. */
  ghost predicate Unused(s: Service, c: nat) {
    && (forall p <- s.calls.Keys :: p < c)
    && (forall n <- s.store.byNonce.Keys :: n < c)
    && (forall r <- s.store.entries.Keys :: r < c)
    && (forall r <- s.home.Keys :: r < c && s.home[r] < c)
  }

  /** At no time are more than `width` issues of the wallet between counting and
      storing. */
  ghost predicate OverlapsAtMost(cap: nat, steps: seq<Step>, w: Wallet, width: nat) {
    forall k :: 0 <= k <= |steps| ==> |Issuing(ServiceAt(cap, steps, k), w)| <= width
  }

  /** The service is at its cap, with so many active nonces and issues in between. */
  ghost predicate Stands(s: Service, cap: nat, w: Wallet, active: nat, pending: nat, c: nat)
    requires Valid(s.store)
  {
    s.cap == cap && Unused(s, c) && |ActiveNow(s, w)| == active && |Issuing(s, w)| == pending
  }

  ghost predicate Ends(cap: nat, steps: seq<Step>, w: Wallet, active: nat, pending: nat, width: nat, c: nat) {
    Stands(ServiceAt(cap, steps, |steps|), cap, w, active, pending, c) && OverlapsAtMost(cap, steps, w, width)
  }

  lemma {:induction false} RunPrefix(cap: nat, steps: seq<Step>, x: Step, k: nat)
    requires k <= |steps|
    ensures ServiceAt(cap, steps + [x], k) == ServiceAt(cap, steps, k)
  {
    hide *;
    if k == 0 {
      RunStarts(cap, steps);
      RunStarts(cap, steps + [x]);
    } else {
      RunExtends(cap, steps, k - 1);
      RunExtends(cap, steps + [x], k - 1);
      RunPrefix(cap, steps, x, k - 1);
      assert (steps + [x])[k - 1] == steps[k - 1];
    }
  }

  lemma RunStarts(cap: nat, steps: seq<Step>)
    ensures ServiceAt(cap, steps, 0) == Start(cap)
  {
    hide Start, Inv, Next;
  }

  lemma RunExtends(cap: nat, steps: seq<Step>, i: nat)
    requires i < |steps|
    ensures Inv(ServiceAt(cap, steps, i)) && Valid(ServiceAt(cap, steps, i).store)
            && EntriesKnown(ServiceAt(cap, steps, i))
    ensures ServiceAt(cap, steps, i + 1) == Next(ServiceAt(cap, steps, i), steps[i])
  {
    InvIsValid(ServiceAt(cap, steps, i));
    hide Inv, Next, Start;
  }

  lemma OneStepMore(cap: nat, steps: seq<Step>, x: Step, w: Wallet, width: nat)
    requires OverlapsAtMost(cap, steps, w, width)
    ensures Inv(ServiceAt(cap, steps, |steps|))
    ensures ServiceAt(cap, steps + [x], |steps + [x]|) == Next(ServiceAt(cap, steps, |steps|), x)
    ensures |Issuing(Next(ServiceAt(cap, steps, |steps|), x), w)| <= width ==>
              OverlapsAtMost(cap, steps + [x], w, width)
  {
    hide *;
    RunExtends(cap, steps + [x], |steps|);
    RunPrefix(cap, steps, x, |steps|);
    if |Issuing(Next(ServiceAt(cap, steps, |steps|), x), w)| <= width {
      OverlapsExtend(cap, steps, x, w, width);
    }
  }

  lemma OverlapsExtend(cap: nat, steps: seq<Step>, x: Step, w: Wallet, width: nat)
    requires OverlapsAtMost(cap, steps, w, width)
    requires |Issuing(ServiceAt(cap, steps + [x], |steps + [x]|), w)| <= width
    ensures OverlapsAtMost(cap, steps + [x], w, width)
  {
    hide ServiceAt, Issuing, Inv, Next;
    forall k | 0 <= k <= |steps|
      ensures |Issuing(ServiceAt(cap, steps + [x], k), w)| <= width
    {
      RunPrefix(cap, steps, x, k);
    }
  }

  lemma CountingKeepsActive(s: Service, pid: Pid, w: Wallet, a: Action)
    requires Inv(s) && pid !in s.calls
    ensures var t := Next(s, Issue(pid, w, a));
            && Inv(t) && ActiveNow(t, w) == ActiveNow(s, w) && t.cap == s.cap
            && t.calls == s.calls[pid := Counted(w, a, |ActiveNow(s, w)|)]
            && t.home == s.home && t.store.entries == s.store.entries && t.store.byNonce.Keys <= s.store.byNonce.Keys
  {
    NextKeepsInv(s, Issue(pid, w, a));
    IndexCountsActive(s, w);
    hide Inv, Indexed, Continue;
    assert Valid(s.store) && EntriesKnown(s) by { InvIsValid(s); }
  }

  lemma IssuingGrows(s: Service, t: Service, pid: Pid, w: Wallet, a: Action, active: nat)
    requires pid !in s.calls && t.cap == s.cap && active < s.cap && t.calls == s.calls[pid := Counted(w, a, active)]
    ensures Issuing(t, w) == Issuing(s, w) + {pid} && pid !in Issuing(s, w)
  {
  }

  lemma IssuingShrinks(s: Service, t: Service, pid: Pid, w: Wallet, c: Call)
    requires pid in Issuing(s, w) && t.cap == s.cap && t.calls == s.calls[pid := c] && !c.Counted?
    ensures Issuing(t, w) == Issuing(s, w) - {pid}
  {
  }

  lemma CountingStands(s: Service, cap: nat, w: Wallet, active: nat, pending: nat, c: nat)
    requires Inv(s) && Stands(s, cap, w, active, pending, c) && active < cap
    ensures var t := Next(s, Issue(c, w, Login));
            Inv(t) && Stands(t, cap, w, active, pending + 1, c + 1) && |Issuing(t, w)| == pending + 1
  {
    hide *;
    InvIsValid(s);
    StandsUnused(s, cap, w, active, pending, c);
    var t := Next(s, Issue(c, w, Login));
    CountingKeepsActive(s, c, w, Login);
    InvIsValid(t);
    IssuingGrows(s, t, c, w, Login, active);
    CountingUses(s, t, c, Counted(w, Login, active));
    NowStands(t, cap, w, active, pending + 1, c + 1);
  }

  lemma StandsUnused(s: Service, cap: nat, w: Wallet, active: nat, pending: nat, c: nat)
    requires Valid(s.store) && Stands(s, cap, w, active, pending, c)
    ensures s.cap == cap && Unused(s, c) && |ActiveNow(s, w)| == active && |Issuing(s, w)| == pending && c !in s.calls
  {
    hide ActiveNow, Issuing;
  }

  lemma NowStands(s: Service, cap: nat, w: Wallet, active: nat, pending: nat, c: nat)
    requires Valid(s.store) && s.cap == cap && Unused(s, c) && |ActiveNow(s, w)| == active && |Issuing(s, w)| == pending
    ensures Stands(s, cap, w, active, pending, c)
  {
    hide ActiveNow, Issuing, Unused;
  }

  lemma CountingUses(s: Service, t: Service, c: nat, call: Call)
    requires Unused(s, c) && t.calls == s.calls[c := call] && t.home == s.home && t.store.entries == s.store.entries
    requires t.store.byNonce.Keys <= s.store.byNonce.Keys
    ensures Unused(t, c + 1)
  {
  }

  lemma StoringUses(s: Service, t: Service, c: nat, p: Pid, call: Call)
    requires Unused(s, c) && p in s.calls && t.calls == s.calls[p := call] && t.home == s.home[c := c]
    requires t.store.byNonce.Keys == s.store.byNonce.Keys + {c} && t.store.entries.Keys == s.store.entries.Keys + {c}
    ensures Unused(t, c + 1)
  {
  }

  lemma IssuingMeans(s: Service, w: Wallet, p: Pid)
    requires p in Issuing(s, w)
    ensures p in s.calls && s.calls[p].Counted? && s.calls[p].wallet == w && s.calls[p].active < s.cap
  {
  }

  /** One more issue counts. */
  lemma CountOneMore(cap: nat, steps: seq<Step>, w: Wallet, active: nat, pending: nat, width: nat, c: nat)
    returns (longer: seq<Step>)
    requires Ends(cap, steps, w, active, pending, width, c) && active < cap && pending < width
    ensures Ends(cap, longer, w, active, pending + 1, width, c + 1)
  {
    longer := steps + [Issue(c, w, Login)];
    hide ServiceAt, Inv, Next, OverlapsAtMost, Stands, Issuing;
    OneStepMore(cap, steps, Issue(c, w, Login), w, width);
    CountingStands(ServiceAt(cap, steps, |steps|), cap, w, active, pending, c);
  }

  lemma ActiveIsCached(s: Service, w: Wallet)
    requires Valid(s.store)
    ensures ActiveNow(s, w) <= s.store.byNonce.Keys
  {
  }

  lemma ActiveGrows(s: Service, t: Service, w: Wallet, n: Nonce, c: nat)
    requires Valid(s.store) && Valid(t.store) && Unused(s, c) && n >= c && ActiveNow(t, w) == ActiveNow(s, w) + {n}
    ensures |ActiveNow(t, w)| == |ActiveNow(s, w)| + 1
  {
    ActiveIsCached(s, w);
    hide ActiveNow;
    assert n !in ActiveNow(s, w);
  }

  lemma StoringStands(s: Service, cap: nat, w: Wallet, active: nat, pending: nat, c: nat, p: Pid)
    requires Inv(s) && Stands(s, cap, w, active, pending, c) && p in Issuing(s, w)
    ensures var t := Next(s, Resume(p, c, c));
            Inv(t) && Stands(t, cap, w, active + 1, pending - 1, c + 1) && |Issuing(t, w)| == pending - 1
  {
    hide *;
    InvIsValid(s);
    StandsUnused(s, cap, w, active, pending, c);
    IssuingMeans(s, w, p);
    UnusedIsFresh(s, c);
    var t := Next(s, Resume(p, c, c));
    ResumeContinues(s, Resume(p, c, c));
    SavingAddsOne(s, p, c, c);
    InvIsValid(t);
    ActiveGrows(s, t, w, c, c);
    IssuingShrinks(s, t, p, w, t.calls[p]);
    StoringUses(s, t, c, p, t.calls[p]);
    NowStands(t, cap, w, active + 1, pending - 1, c + 1);
  }

  /** One of the issues that counted stores its nonce. */
  lemma StoreOneMore(cap: nat, steps: seq<Step>, w: Wallet, active: nat, pending: nat, width: nat, c: nat)
    returns (longer: seq<Step>)
    requires Ends(cap, steps, w, active, pending, width, c) && 0 < pending <= width
    ensures Ends(cap, longer, w, active + 1, pending - 1, width, c + 1)
  {
    hide ServiceAt, Inv, Next, OverlapsAtMost, Issuing, Unused, ActiveNow;
    var p :| p in Issuing(ServiceAt(cap, steps, |steps|), w);
    longer := steps + [Resume(p, c, c)];
    OneStepMore(cap, steps, Resume(p, c, c), w, width);
    StoringStands(ServiceAt(cap, steps, |steps|), cap, w, active, pending, c, p);
  }

  lemma UnusedIsFresh(s: Service, c: nat)
    requires Unused(s, c)
    ensures Fresh(s, c, c)
  {
  }

  lemma StartEnds(cap: nat, w: Wallet, width: nat)
    ensures Ends(cap, [], w, 0, 0, width, 0)
  {
    assert ActiveNow(Start(cap), w) == {} && Issuing(Start(cap), w) == {};
    hide Inv, Next;
  }

  /** Issuing one nonce after the other fills the cap. */
  lemma {:induction false} FillUp(cap: nat, w: Wallet, active: nat, width: nat) returns (steps: seq<Step>, c: nat)
    requires active <= cap && 0 < width
    ensures Ends(cap, steps, w, active, 0, width, c)
    decreases active
  {
    hide *;
    if active == 0 {
      StartEnds(cap, w, width);
      steps, c := [], 0;
    } else {
      var shorter, c' := FillUp(cap, w, active - 1, width);
      var counted := CountOneMore(cap, shorter, w, active - 1, 0, width, c');
      steps := StoreOneMore(cap, counted, w, active - 1, 1, width, c' + 1);
      c := c' + 2;
    }
  }

  /** With one place left, any number of issues may count. */
  lemma {:induction false} CountTogether(cap: nat, w: Wallet, pending: nat, width: nat)
    returns (steps: seq<Step>, c: nat)
    requires 0 < cap && pending <= width && 0 < width
    ensures Ends(cap, steps, w, cap - 1, pending, width, c)
    decreases pending
  {
    hide Ends;
    if pending == 0 {
      steps, c := FillUp(cap, w, cap - 1, width);
    } else {
      var shorter, c' := CountTogether(cap, w, pending - 1, width);
      steps := CountOneMore(cap, shorter, w, cap - 1, pending - 1, width, c');
      c := c' + 1;
    }
  }

  /** ... and all of them store. */
  lemma {:induction false} StoreTogether(cap: nat, w: Wallet, stored: nat, width: nat)
    returns (steps: seq<Step>, c: nat)
    requires 0 < cap && stored <= width && 0 < width
    ensures Ends(cap, steps, w, cap - 1 + stored, width - stored, width, c)
    decreases stored
  {
    hide Ends;
    if stored == 0 {
      steps, c := CountTogether(cap, w, width, width);
    } else {
      var shorter, c' := StoreTogether(cap, w, stored - 1, width);
      steps := StoreOneMore(cap, shorter, w, cap - 1 + (stored - 1), width - (stored - 1), width, c');
      c := c' + 1;
    }
  }

  /** The bound is reached for every cap and every width: some run in which at most
      `width` issues overlap ends with cap + width - 1 active nonces. */
  lemma OverlapReachesBound(cap: nat, w: Wallet, width: nat) returns (steps: seq<Step>)
    requires 0 < cap && 0 < width
    ensures OverlapsAtMost(cap, steps, w, width)
    ensures |ActiveNow(ServiceAt(cap, steps, |steps|), w)| == cap + width - 1
  {
    var c;
    steps, c := StoreTogether(cap, w, width, width);
    hide ServiceAt, OverlapsAtMost;
  }

  /** No run with at most `width` overlapping issues exceeds the cap. */
  ghost predicate CapHolds(cap: nat, w: Wallet, width: nat) {
    forall steps: seq<Step> :: OverlapsAtMost(cap, steps, w, width) ==>
        |ActiveNow(ServiceAt(cap, steps, |steps|), w)| <= cap
  }

  /** The cap is kept exactly when issues of a wallet never overlap. */
  lemma CapHoldsIff(cap: nat, w: Wallet, width: nat)
    requires 0 < cap
    ensures CapHolds(cap, w, width) <==> width <= 1
  {
    hide ServiceAt, ActiveNow, Issuing;
    if width <= 1 {
      forall steps: seq<Step> | OverlapsAtMost(cap, steps, w, width)
        ensures |ActiveNow(ServiceAt(cap, steps, |steps|), w)| <= cap
      {
        ActiveNoncesWithinCap(cap, steps, |steps|, w, 1);
      }
    } else {
      var steps := OverlapReachesBound(cap, w, width);
    }
  }

  lemma IndexedWithinIndex(s: Store, clock: int, w: Wallet)
    requires Valid(s)
    ensures Indexed(s, clock, w) <= IndexOf(s, w) && Stale(s, clock, w) <= IndexOf(s, w)
  {
  }

  lemma IndexedOrStale(s: Store, clock: int, w: Wallet, n: Nonce)
    requires Valid(s) && n in IndexOf(s, w)
    ensures n in Stale(s, clock, w) <==> !Live(s, clock, n)
    ensures n in Indexed(s, clock, w) <==> Live(s, clock, n) && !s.entries[s.byNonce[n].entry].used
  {
  }

  /** How far a count has come: all of the index but `pending` is done. */
  ghost predicate CountedSoFar(s: Store, clock: int, w: Wallet, pending: set<Nonce>, count: nat, left: map<Nonce, Slot>)
    requires Valid(s)
  {
    && pending <= IndexOf(s, w)
    && count == |Indexed(s, clock, w) - pending|
    && left == s.byNonce - (Stale(s, clock, w) - pending)
  }

  lemma CountStarts(s: Store, clock: int, w: Wallet)
    requires Valid(s)
    ensures CountedSoFar(s, clock, w, IndexOf(s, w), 0, s.byNonce)
  {
    IndexedWithinIndex(s, clock, w);
    assert Indexed(s, clock, w) - IndexOf(s, w) == {} && Stale(s, clock, w) - IndexOf(s, w) == {};
  }

  lemma CountEnds(s: Store, clock: int, w: Wallet, count: nat, left: map<Nonce, Slot>)
    requires Valid(s) && CountedSoFar(s, clock, w, {}, count, left)
    ensures count == |Indexed(s, clock, w)| && left == s.byNonce - Stale(s, clock, w)
  {
    assert Indexed(s, clock, w) - {} == Indexed(s, clock, w) && Stale(s, clock, w) - {} == Stale(s, clock, w);
  }

  lemma CountStep(s: Store, clock: int, w: Wallet, pending: set<Nonce>, count: nat, left: map<Nonce, Slot>, n: Nonce)
    requires Valid(s) && CountedSoFar(s, clock, w, pending, count, left) && n in pending
    ensures n in left <==> n in s.byNonce
    ensures n in left ==> left[n] == s.byNonce[n]
    ensures var active := n in Indexed(s, clock, w);
            && (active <==> Live(s, clock, n) && !s.entries[s.byNonce[n].entry].used)
            && CountedSoFar(s, clock, w, pending - {n}, count + if active then 1 else 0,
                            if Live(s, clock, n) then left else left - {n})
  {
    IndexedOrStale(s, clock, w, n);
    PendingShrinks(Indexed(s, clock, w), pending, n);
    PendingShrinks(Stale(s, clock, w), pending, n);
    hide Indexed, Stale, Live, IndexOf;
    DropOneMore(s.byNonce, Stale(s, clock, w) - pending, n);
  }

  lemma PendingShrinks(nonces: set<Nonce>, pending: set<Nonce>, n: Nonce)
    requires n in pending
    ensures nonces - (pending - {n}) == if n in nonces then nonces - pending + {n} else nonces - pending
    ensures |nonces - (pending - {n})| == |nonces - pending| + if n in nonces then 1 else 0
  {
    assert nonces - (pending - {n}) == if n in nonces then nonces - pending + {n} else nonces - pending;
  }

  lemma DropOneMore(slots: map<Nonce, Slot>, dropped: set<Nonce>, n: Nonce)
    ensures slots - dropped - {n} == slots - (dropped + {n})
  {
  }

  // ---- The store as it is updated in place ----

  class InMemoryNonceStore {
    var entries: map<Ref, Entry>
    var byNonce: map<Nonce, Slot>
    var walletIndex: map<Wallet, set<Nonce>>

    function Contents(): Store
      reads this
    {
      Store(entries, byNonce, walletIndex)
    }

    constructor ()
      ensures Contents() == Start(0).store && Valid(Contents())
    {
      entries, byNonce, walletIndex := map[], map[], map[];
    }

    method SaveEntry(clock: int, nonce: Nonce, ref: Ref, entry: Entry)
      requires Valid(Contents())
      modifies this
      ensures Contents() == Save(old(Contents()), clock, nonce, ref, entry) && Valid(Contents())
    {
      entries := entries[ref := entry];
      byNonce := byNonce[nonce := Slot(ref, clock + TTL)];
      var nonces := if entry.wallet in walletIndex then walletIndex[entry.wallet] else {};
      nonces := nonces + {nonce};
      walletIndex := walletIndex[entry.wallet := nonces];
    }

    method LookUp(clock: int, nonce: Nonce) returns (found: Option<Ref>)
      requires Valid(Contents())
      modifies this`byNonce
      ensures (Contents(), found) == Load(old(Contents()), clock, nonce) && Valid(Contents())
    {
      if nonce in byNonce && byNonce[nonce].deadline >= clock {
        return Some(byNonce[nonce].entry);
      }
      byNonce := byNonce - {nonce};
      return None;
    }

    method Mark(clock: int, nonce: Nonce) returns (marked: bool)
      requires Valid(Contents())
      modifies this
      ensures (Contents(), marked) == MarkUsed(old(Contents()), clock, nonce) && Valid(Contents())
    {
      var entry := LookUp(clock, nonce);
      if entry.None? || entries[entry.value].used {
        return false;
      }
      entries := entries[entry.value := entries[entry.value].(used := true)];
      byNonce := byNonce[nonce := Slot(entry.value, clock + TTL)];
      return true;
    }

    /** Walks the wallet's index, forgetting expired slots on the way. */
    method CountActiveForWallet(clock: int, wallet: Wallet) returns (count: nat)
      requires Valid(Contents())
      modifies this`byNonce
      ensures count == |Indexed(old(Contents()), clock, wallet)|
      ensures byNonce == old(byNonce) - Stale(old(Contents()), clock, wallet)
    {
      if wallet !in walletIndex {
        assert Indexed(Contents(), clock, wallet) == {};
        assert Stale(Contents(), clock, wallet) == {};
        return 0;
      }
      count := CountAmong(clock, wallet, walletIndex[wallet]);
    }

    /** The loop of the count, over the nonces of the wallet's index. */
    method CountAmong(clock: int, wallet: Wallet, nonces: set<Nonce>) returns (count: nat)
      requires Valid(Contents()) && nonces == IndexOf(Contents(), wallet)
      modifies this`byNonce
      ensures count == |Indexed(old(Contents()), clock, wallet)|
      ensures byNonce == old(byNonce) - Stale(old(Contents()), clock, wallet)
    {
      ghost var before := Contents();
      CountStarts(before, clock, wallet);
      count := 0;
      var pending := nonces;
      while pending != {}
        invariant entries == before.entries
        invariant CountedSoFar(before, clock, wallet, pending, count, byNonce)
        decreases pending
      {
        hide CountedSoFar, Indexed, Stale;
        var n :| n in pending;
        CountStep(before, clock, wallet, pending, count, byNonce, n);
        if n in byNonce && byNonce[n].deadline >= clock {
          if !entries[byNonce[n].entry].used {
            count := count + 1;
          }
        } else {
          byNonce := byNonce - {n};
        }
        pending := pending - {n};
      }
      CountEnds(before, clock, wallet, count, byNonce);
    }
  }
}
