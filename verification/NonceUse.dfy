/** What the holder of a wallet nonce can count on: a good one is accepted, and a
    call is refused only for a reason that holds (`backend/src/walletNonce.ts`,
    lines 112-160 and 253-359). */
module NonceUse {
  import opened Checked
  import opened WalletNonces

  // ---- The decision ----

  /** The entry is the caller's: its wallet, its action, and still unused. */
  predicate Good(e: Entry, c: Call)
    requires c.Loaded?
  {
    e.wallet == c.wallet && e.action == c.action && !e.used
  }

  /** A call that has loaded an entry is validated by its next segment if and only
      if the entry is its own, unexpired and unused; every refusal names a reason
      that holds, a mismatch coming before expiry and expiry before replay. */
  lemma ValidatedIff(s: Service, pid: Pid, n: Nonce, r: Ref)
    requires Inv(s) && pid in s.calls && s.calls[pid].Loaded?
    ensures var c, c' := s.calls[pid], Next(s, Resume(pid, n, r)).calls[pid];
            && (c'.Validated? || c'.Refused?)
            && (c'.Refused? && c'.why == NotFound <==> c.found.None?)
            && (c.found.Some? ==>
                  var e := s.store.entries[c.found.value];
                  && (c'.Validated? <==> Good(e, c) && s.clock <= e.expiresAt)
                  && (c'.Validated? ==> c' == Validated(c.wallet, c.action, c.nonce, c.found.value, s.clock))
                  && (c'.Refused? && c'.why == WalletMismatch <==> e.wallet != c.wallet)
                  && (c'.Refused? && c'.why == ActionMismatch <==> e.wallet == c.wallet && e.action != c.action)
                  && (c'.Refused? && c'.why == Expired
                      <==> e.wallet == c.wallet && e.action == c.action && e.expiresAt < s.clock)
                  && (c'.Refused? && c'.why == Replay
                      <==> e.wallet == c.wallet && e.action == c.action && s.clock <= e.expiresAt && e.used))
  {
    hide References, Consumptions, IndexIsRight, IndexedAreKnown;
  }

  // ---- What the store keeps ----

  /** An entry is stored until it expires, a lifetime after its issue at most. */
  ghost predicate KeptUntilExpiry(s: Service)
    requires s.home.Keys == s.store.entries.Keys
  {
    forall r <- s.home.Keys ::
      var n := s.home[r];
      && s.store.entries[r].expiresAt <= s.clock + TTL
      && (s.clock <= s.store.entries[r].expiresAt ==>
        && n in s.store.byNonce && s.store.byNonce[n].entry == r
        && s.store.byNonce[n].deadline >= s.store.entries[r].expiresAt)
  }

  /** A used entry was consumed by some call. */
  ghost predicate UsedByCall(s: Service) {
    forall r <- s.store.entries.Keys ::
      s.store.entries[r].used ==> exists q :: q in s.calls && s.calls[q].Consumed? && s.calls[q].entry == r
  }

  /** `r` is the object of nonce `n`, issued to the wallet for the action. */
  ghost predicate EntryOf(s: Service, r: Ref, w: Wallet, a: Action, n: Nonce) {
    && r in s.home && s.home[r] == n && r in s.store.entries
    && s.store.entries[r].wallet == w && s.store.entries[r].action == a
  }

  /** Entries keep all but their mark, and a slot is dropped only once expired. */
  ghost predicate EntriesLast(s: Service, s': Service) {
    && (forall r <- s.home.Keys :: r in s'.home && s'.home[r] == s.home[r])
    && (forall r <- s.store.entries.Keys ::
          && r in s'.store.entries
          && s'.store.entries[r].(used := true) == s.store.entries[r].(used := true)
          && (s.store.entries[r].used ==> s'.store.entries[r].used))
    && s.clock <= s'.clock
  }

  /** Forgetting slots that have expired. */
  ghost predicate Forgets(s: Store, s': Store, clock: int) {
    && s'.entries == s.entries
    && (forall n <- s.byNonce.Keys :: Live(s, clock, n) ==> n in s'.byNonce && s'.byNonce[n] == s.byNonce[n])
  }

  lemma ForgettingKeeps(s: Service, s': Service)
    requires References(s) && KeptUntilExpiry(s)
    requires Forgets(s.store, s'.store, s.clock) && s'.home == s.home && s'.clock >= s.clock
    ensures s'.home.Keys == s'.store.entries.Keys && KeptUntilExpiry(s') && EntriesLast(s, s')
  {
  }

  lemma LookingForgets(s: Service, step: Step)
    requires Inv(s) && (step.Issue? || step.Consume? || step.Tick?)
    ensures Forgets(s.store, Next(s, step).store, s.clock)
    ensures Next(s, step).home == s.home && Next(s, step).clock >= s.clock
  {
    hide References, Consumptions, IndexIsRight, IndexedAreKnown, Indexed;
  }

  /** Whether the call may save and what it then stores. */
  lemma SavingStores(s: Service, pid: Pid, n: Nonce, r: Ref)
    requires Valid(s.store) && EntriesKnown(s) && pid in s.calls && s.calls[pid].Counted?
    ensures var t, c := Continue(s, pid, n, r), s.calls[pid];
            && t.clock == s.clock && pid in t.calls
            && (t.calls[pid].Issued? ==>
                  && t.calls[pid] == Issued(c.wallet, c.action, n) && Fresh(s, n, r)
                  && t.store.entries == s.store.entries[r := Entry(c.wallet, c.action, s.clock + TTL, false)]
                  && t.home == s.home[r := n]
                  && t.store.byNonce == s.store.byNonce[n := Slot(r, s.clock + TTL)])
            && (!t.calls[pid].Issued? ==> t.store == s.store && t.home == s.home)
  {
    hide Valid, EntriesKnown, Fresh;
  }

  /** Saving stores one new object. */
  lemma SavingKeeps(s: Service, pid: Pid, n: Nonce, r: Ref)
    requires Valid(s.store) && EntriesKnown(s) && References(s) && KeptUntilExpiry(s)
    requires pid in s.calls && s.calls[pid].Counted?
    ensures var t := Continue(s, pid, n, r);
            && t.home.Keys == t.store.entries.Keys && KeptUntilExpiry(t) && EntriesLast(s, t)
            && pid in t.calls
            && (t.calls[pid].Issued? ==>
                  && t.calls[pid] == Issued(s.calls[pid].wallet, s.calls[pid].action, n)
                  && EntryOf(t, r, s.calls[pid].wallet, s.calls[pid].action, n)
                  && t.store.entries[r].expiresAt == s.clock + TTL)
  {
    hide *;
    var c, t := s.calls[pid], Continue(s, pid, n, r);
    SavingStores(s, pid, n, r);
    if t.calls[pid].Issued? {
      HomesMatch(s);
      NewObjectKeeps(s, t, n, r, Entry(c.wallet, c.action, s.clock + TTL, false));
      NewEntry(t, r, n);
    } else {
      StoreForgetsNothing(s.store, s.clock);
      ForgettingKeeps(s, t);
    }
  }

  lemma StoreForgetsNothing(s: Store, clock: int)
    ensures Forgets(s, s, clock)
  {
  }

  lemma HomesMatch(s: Service)
    requires References(s)
    ensures s.home.Keys == s.store.entries.Keys
  {
  }

  lemma NewEntry(t: Service, r: Ref, n: Nonce)
    requires r in t.home && t.home[r] == n && r in t.store.entries
    ensures EntryOf(t, r, t.store.entries[r].wallet, t.store.entries[r].action, n)
  {
  }

  lemma NewObjectKeeps(s: Service, t: Service, n: Nonce, r: Ref, e: Entry)
    requires s.home.Keys == s.store.entries.Keys && KeptUntilExpiry(s) && Fresh(s, n, r)
    requires e.expiresAt == s.clock + TTL && t.clock == s.clock
    requires t.store.entries == s.store.entries[r := e] && t.home == s.home[r := n]
    requires t.store.byNonce == s.store.byNonce[n := Slot(r, s.clock + TTL)]
    ensures t.home.Keys == t.store.entries.Keys && KeptUntilExpiry(t) && EntriesLast(s, t)
  {
    assert forall x <- s.home.Keys :: s.home[x] in s.home.Values;
  }

  lemma MarkingKeeps(s: Service, pid: Pid, n: Nonce, r: Ref)
    requires Inv(s) && KeptUntilExpiry(s) && pid in s.calls && s.calls[pid].Validated?
    ensures var t := Continue(s, pid, n, r);
            t.home.Keys == t.store.entries.Keys && KeptUntilExpiry(t) && EntriesLast(s, t)
  {
    hide Consumptions, IndexIsRight, IndexedAreKnown;
    MarkingMarks(s.store, s.clock, s.calls[pid].nonce);
    hide MarkUsed;
  }

  /** Marking sets one mark and at most prolongs the slot of its nonce. */
  lemma MarkingMarks(s: Store, clock: int, n: Nonce)
    requires Valid(s)
    ensures var (s', marked) := MarkUsed(s, clock, n);
            && (marked <==> Live(s, clock, n) && !s.entries[s.byNonce[n].entry].used)
            && (marked ==>
                  && s'.entries == s.entries[s.byNonce[n].entry := s.entries[s.byNonce[n].entry].(used := true)]
                  && s'.byNonce == s.byNonce[n := Slot(s.byNonce[n].entry, clock + TTL)])
            && (!marked ==> Forgets(s, s', clock))
  {
  }

  lemma ValidatingKeeps(s: Service, pid: Pid, n: Nonce, r: Ref)
    requires Inv(s) && pid in s.calls && !s.calls[pid].Counted? && !s.calls[pid].Validated?
    ensures var t := Continue(s, pid, n, r); t.store == s.store && t.home == s.home && t.clock == s.clock
  {
    hide References, Consumptions, IndexIsRight, IndexedAreKnown, Validate;
  }

  lemma StepKeepsEntries(s: Service, step: Step)
    requires Inv(s) && References(s) && KeptUntilExpiry(s)
    ensures References(Next(s, step)) && KeptUntilExpiry(Next(s, step)) && EntriesLast(s, Next(s, step))
  {
    NextKeepsInv(s, step);
    if step.Resume? {
      ResumeKeepsEntries(s, step);
    } else {
      LookingForgets(s, step);
      hide Next;
      ForgettingKeeps(s, Next(s, step));
    }
    hide KeptUntilExpiry, EntriesLast;
  }

  lemma ResumeKeepsEntries(s: Service, step: Step)
    requires Inv(s) && References(s) && KeptUntilExpiry(s) && step.Resume?
    ensures Next(s, step).home.Keys == Next(s, step).store.entries.Keys
    ensures KeptUntilExpiry(Next(s, step)) && EntriesLast(s, Next(s, step))
  {
    var pid, n, r := step.pid, step.freshNonce, step.freshEntry;
    InvIsValid(s);
    if pid !in s.calls {
      ForgettingKeeps(s, s);
    } else {
      ResumeContinues(s, step);
      hide Next, Continue, Inv;
      if s.calls[pid].Counted? {
        SavingKeeps(s, pid, n, r);
      } else if s.calls[pid].Validated? {
        MarkingKeeps(s, pid, n, r);
      } else {
        ValidatingKeeps(s, pid, n, r);
        ForgettingKeeps(s, Continue(s, pid, n, r));
      }
    }
  }

  lemma StepKeepsUsed(s: Service, step: Step)
    requires Inv(s) && UsedByCall(s)
    ensures UsedByCall(Next(s, step))
  {
    hide Consumptions, IndexIsRight, IndexedAreKnown;
    var t := Next(s, step);
    forall r | r in t.store.entries && t.store.entries[r].used
      ensures exists q :: q in t.calls && t.calls[q].Consumed? && t.calls[q].entry == r
    {
      if r in s.store.entries && s.store.entries[r].used {
        var q :| q in s.calls && s.calls[q].Consumed? && s.calls[q].entry == r;
        assert q in t.calls && t.calls[q] == s.calls[q];
      } else {
        assert t.calls[step.pid].Consumed? && t.calls[step.pid].entry == r;
      }
    }
  }

  // ---- Runs ----

  lemma {:induction false} RunKeepsEntries(cap: nat, steps: seq<Step>, i: nat)
    requires i <= |steps|
    ensures var s := ServiceAt(cap, steps, i);
            Inv(s) && References(s) && KeptUntilExpiry(s) && UsedByCall(s)
  {
    if i == 0 {
      hide Inv, Next;
    } else {
      hide *;
      RunKeepsEntries(cap, steps, i - 1);
      RunExtends(cap, steps, i - 1);
      StepKeepsEntries(ServiceAt(cap, steps, i - 1), steps[i - 1]);
      NextKeepsInv(ServiceAt(cap, steps, i - 1), steps[i - 1]);
      StepKeepsUsed(ServiceAt(cap, steps, i - 1), steps[i - 1]);
    }
  }

  lemma {:induction false} EntriesLastOverRuns(cap: nat, steps: seq<Step>, i: nat, j: nat)
    requires i <= j <= |steps|
    ensures EntriesLast(ServiceAt(cap, steps, i), ServiceAt(cap, steps, j))
    decreases j
  {
    hide *;
    if i == j {
      NothingLost(ServiceAt(cap, steps, i));
    } else {
      EntriesLastOverRuns(cap, steps, i, j - 1);
      RunKeepsEntries(cap, steps, j - 1);
      RunExtends(cap, steps, j - 1);
      StepKeepsEntries(ServiceAt(cap, steps, j - 1), steps[j - 1]);
      NothingLostSince(ServiceAt(cap, steps, i), ServiceAt(cap, steps, j - 1), ServiceAt(cap, steps, j));
    }
  }

  lemma NothingLost(s: Service)
    ensures EntriesLast(s, s)
  {
  }

  lemma NothingLostSince(s: Service, s': Service, s'': Service)
    requires EntriesLast(s, s') && EntriesLast(s', s'')
    ensures EntriesLast(s, s'')
  {
  }

  lemma EntryLasts(s: Service, s': Service, r: Ref, w: Wallet, a: Action, n: Nonce)
    requires EntriesLast(s, s') && EntryOf(s, r, w, a, n)
    ensures EntryOf(s', r, w, a, n) && s'.store.entries[r].expiresAt == s.store.entries[r].expiresAt
    ensures s.clock <= s'.clock
  {
  }

  // ---- A good nonce is consumed ----

  predicate TakenByOther(s: Service, pid: Pid, r: Ref) {
    exists q :: q in s.calls && q != pid && s.calls[q].Consumed? && s.calls[q].entry == r
  }

  /** How a consume of a good nonce goes on: refused only once another call has
      consumed it. */
  ghost predicate Consuming(s: Service, pid: Pid, r: Ref, w: Wallet, a: Action, n: Nonce) {
    && EntryOf(s, r, w, a, n) && pid in s.calls
    && match s.calls[pid]
       case Loaded(w', a', n', found) => w' == w && a' == a && n' == n && found == Some(r)
       case Validated(w', a', n', r', _) => w' == w && a' == a && n' == n && r' == r
       case Consumed(w', a', n', r', _) => w' == w && a' == a && n' == n && r' == r
       case Refused(why) => why == Replay && TakenByOther(s, pid, r)
       case _ => false
  }

  /** Segments a call has behind it. */
  function Stage(c: Call): nat {
    if c.Loaded? then 0 else if c.Validated? then 1 else 2
  }

  lemma OthersKeepConsuming(s: Service, step: Step, pid: Pid, r: Ref, w: Wallet, a: Action, n: Nonce)
    requires Inv(s) && Consuming(s, pid, r, w, a, n) && !(step.Resume? && step.pid == pid)
    requires EntryOf(Next(s, step), r, w, a, n)
    ensures Consuming(Next(s, step), pid, r, w, a, n) && Next(s, step).calls[pid] == s.calls[pid]
  {
    CallsGoOn(s, step);
    hide Next, Inv, EntryOf;
    var t := Next(s, step);
    assert pid in t.calls && t.calls[pid] == s.calls[pid];
    if s.calls[pid].Refused? {
      TakenForEver(s, t, pid, r);
    }
  }

  /** A step moves its own call only, and ended calls stay as they are. */
  lemma CallsGoOn(s: Service, step: Step)
    requires Inv(s)
    ensures forall q <- s.calls.Keys :: q in Next(s, step).calls
              && (!(step.Resume? && step.pid == q) || s.calls[q].Consumed? || s.calls[q].Refused? ==>
                    Next(s, step).calls[q] == s.calls[q])
  {
    hide References, Consumptions, IndexIsRight, IndexedAreKnown, Validate, MarkUsed, Save, Fresh, Indexed, Stale;
  }

  lemma TakenForEver(s: Service, t: Service, pid: Pid, r: Ref)
    requires TakenByOther(s, pid, r)
    requires forall q <- s.calls.Keys :: s.calls[q].Consumed? ==> q in t.calls && t.calls[q] == s.calls[q]
    ensures TakenByOther(t, pid, r)
  {
    var q :| q in s.calls && q != pid && s.calls[q].Consumed? && s.calls[q].entry == r;
    assert t.calls[q] == s.calls[q];
  }

  lemma UsedIsTaken(s: Service, pid: Pid, r: Ref)
    requires UsedByCall(s) && r in s.store.entries && s.store.entries[r].used
    requires pid in s.calls && !s.calls[pid].Consumed?
    ensures TakenByOther(s, pid, r)
  {
    var q :| q in s.calls && s.calls[q].Consumed? && s.calls[q].entry == r;
    assert q != pid;
  }

  lemma ResumeKeepsConsuming(s: Service, step: Step, pid: Pid, r: Ref, w: Wallet, a: Action, n: Nonce)
    requires Inv(s) && References(s) && KeptUntilExpiry(s) && UsedByCall(s) && Consuming(s, pid, r, w, a, n)
    requires step.Resume? && step.pid == pid && s.clock <= s.store.entries[r].expiresAt
    requires EntryOf(Next(s, step), r, w, a, n)
    ensures Consuming(Next(s, step), pid, r, w, a, n)
    ensures Stage(s.calls[pid]) < 2 ==> Stage(Next(s, step).calls[pid]) > Stage(s.calls[pid])
    ensures Stage(Next(s, step).calls[pid]) >= Stage(s.calls[pid])
  {
    CallsGoOn(s, step);
    var t := Next(s, step);
    if s.store.entries[r].used && !s.calls[pid].Consumed? {
      UsedIsTaken(s, pid, r);
      TakenForEver(s, t, pid, r);
    }
    ResumeContinues(s, step);
    MarkingMarks(s.store, s.clock, n);
    assert Live(s.store, s.clock, n) && s.store.byNonce[n].entry == r;
    hide Next, Inv, MarkUsed, Save, KeptUntilExpiry, UsedByCall, References, TakenByOther;
  }

  lemma StepKeepsConsuming(s: Service, step: Step, pid: Pid, r: Ref, w: Wallet, a: Action, n: Nonce)
    requires Inv(s) && References(s) && KeptUntilExpiry(s) && UsedByCall(s) && Consuming(s, pid, r, w, a, n)
    requires s.clock <= s.store.entries[r].expiresAt
    ensures Consuming(Next(s, step), pid, r, w, a, n)
    ensures Stage(Next(s, step).calls[pid]) >= Stage(s.calls[pid])
    ensures step.Resume? && step.pid == pid && Stage(s.calls[pid]) < 2 ==>
              Stage(Next(s, step).calls[pid]) > Stage(s.calls[pid])
  {
    StepKeepsEntries(s, step);
    EntryLasts(s, Next(s, step), r, w, a, n) by { hide EntriesLast, EntryOf; }
    hide Next, Inv, References, KeptUntilExpiry, UsedByCall, Stage;
    if step.Resume? && step.pid == pid {
      ResumeKeepsConsuming(s, step, pid, r, w, a, n);
    } else {
      OthersKeepConsuming(s, step, pid, r, w, a, n);
    }
  }

  lemma {:induction false} RunKeepsConsuming(cap: nat, steps: seq<Step>, i: nat, j: nat, pid: Pid, r: Ref, w: Wallet,
                                             a: Action, n: Nonce)
    requires i <= j <= |steps| && Consuming(ServiceAt(cap, steps, i), pid, r, w, a, n)
    requires ServiceAt(cap, steps, j).clock <= ServiceAt(cap, steps, i).store.entries[r].expiresAt
    ensures Consuming(ServiceAt(cap, steps, j), pid, r, w, a, n)
    ensures Stage(ServiceAt(cap, steps, j).calls[pid]) >= Stage(ServiceAt(cap, steps, i).calls[pid])
    decreases j
  {
    hide *;
    if i < j {
      RunExtends(cap, steps, j - 1);
      RunKeepsEntries(cap, steps, j - 1);
      EntriesLastOverRuns(cap, steps, i, j - 1);
      EntriesLastOverRuns(cap, steps, j - 1, j);
      var s, before := ServiceAt(cap, steps, i), ServiceAt(cap, steps, j - 1);
      ConsumingMeans(s, pid, r, w, a, n);
      EntryLasts(s, before, r, w, a, n);
      ClockMoves(before, ServiceAt(cap, steps, j));
      RunKeepsConsuming(cap, steps, i, j - 1, pid, r, w, a, n);
      StepKeepsConsuming(before, steps[j - 1], pid, r, w, a, n);
    }
  }

  lemma ConsumingMeans(s: Service, pid: Pid, r: Ref, w: Wallet, a: Action, n: Nonce)
    requires Consuming(s, pid, r, w, a, n)
    ensures EntryOf(s, r, w, a, n) && pid in s.calls && r in s.store.entries
  {
  }

  lemma ClockMoves(s: Service, s': Service)
    requires EntriesLast(s, s')
    ensures s.clock <= s'.clock
  {
  }

  /** The issue at step `i` left the nonce's entry. */
  lemma IssueLeavesEntry(s: Service, step: Step, w: Wallet, a: Action, n: Nonce)
    requires Inv(s) && KeptUntilExpiry(s) && step.Resume? && step.pid in s.calls && s.calls[step.pid].Counted?
    requires Next(s, step).calls[step.pid] == Issued(w, a, n)
    ensures EntryOf(Next(s, step), step.freshEntry, w, a, n)
    ensures Next(s, step).store.entries[step.freshEntry].expiresAt == s.clock + TTL
  {
    ResumeContinues(s, step);
    InvIsValid(s);
    SavingKeeps(s, step.pid, step.freshNonce, step.freshEntry);
    hide Inv, Next, Continue, KeptUntilExpiry;
  }

  lemma ConsumeLoads(s: Service, pid: Pid, r: Ref, w: Wallet, a: Action, n: Nonce)
    requires Inv(s) && KeptUntilExpiry(s) && EntryOf(s, r, w, a, n) && s.clock <= s.store.entries[r].expiresAt
    requires pid !in s.calls
    ensures Consuming(Next(s, Consume(pid, w, a, n)), pid, r, w, a, n)
  {
    hide Consumptions, IndexIsRight, IndexedAreKnown, Indexed, Stale, Continue;
    assert Live(s.store, s.clock, n);
  }

  lemma EndedIsConsumedIff(s: Service, pid: Pid, r: Ref, w: Wallet, a: Action, n: Nonce)
    requires Inv(s) && Consuming(s, pid, r, w, a, n) && Stage(s.calls[pid]) == 2
    ensures s.calls[pid].Consumed? <==> !TakenByOther(s, pid, r)
    ensures s.calls[pid].Consumed? || s.calls[pid] == Refused(Replay)
    ensures forall q <- s.calls.Keys :: s.calls[q].Consumed? ==> (s.calls[q].nonce == n <==> s.calls[q].entry == r)
  {
    hide IndexIsRight, IndexedAreKnown;
    forall q | q in s.calls && s.calls[q].Consumed?
      ensures s.calls[q].nonce == n <==> s.calls[q].entry == r
    {
      assert Held(s.calls[q]) == Some(s.calls[q].entry);
    }
  }

  /** A consume by the wallet and for the action the nonce was issued to, given both
      its segments within a lifetime of the issue, has ended: with success if and
      only if no other call consumed the nonce, and otherwise refused as a replay. */
  lemma GoodNonceIsConsumed(cap: nat, steps: seq<Step>, i: nat, k: nat, first: nat, second: nat, j: nat, pid: Pid,
                            w: Wallet, a: Action, n: Nonce)
    requires i < k < first < second < j <= |steps|
    requires steps[i].Resume? && steps[i].pid in ServiceAt(cap, steps, i).calls
             && ServiceAt(cap, steps, i).calls[steps[i].pid].Counted?
    requires steps[i].pid in ServiceAt(cap, steps, i + 1).calls
             && ServiceAt(cap, steps, i + 1).calls[steps[i].pid] == Issued(w, a, n)
    requires steps[k] == Consume(pid, w, a, n) && pid !in ServiceAt(cap, steps, k).calls
    requires steps[first].Resume? && steps[first].pid == pid && steps[second].Resume? && steps[second].pid == pid
    requires ServiceAt(cap, steps, j).clock <= ServiceAt(cap, steps, i).clock + TTL
    ensures var calls := ServiceAt(cap, steps, j).calls;
            && pid in calls && (calls[pid].Consumed? || calls[pid] == Refused(Replay))
            && (calls[pid].Consumed?
                <==> forall q <- calls.Keys :: q != pid && calls[q].Consumed? ==> calls[q].nonce != n)
  {
    hide *;
    var r := steps[i].freshEntry;
    RunExtends(cap, steps, i);
    RunKeepsEntries(cap, steps, i);
    IssueLeavesEntry(ServiceAt(cap, steps, i), steps[i], w, a, n);
    EntriesLastOverRuns(cap, steps, i + 1, k);
    EntryLasts(ServiceAt(cap, steps, i + 1), ServiceAt(cap, steps, k), r, w, a, n);
    EntriesLastOverRuns(cap, steps, k, k + 1);
    EntryLasts(ServiceAt(cap, steps, k), ServiceAt(cap, steps, k + 1), r, w, a, n);
    EntriesLastOverRuns(cap, steps, k + 1, j);
    EntryLasts(ServiceAt(cap, steps, k + 1), ServiceAt(cap, steps, j), r, w, a, n);
    RunExtends(cap, steps, k);
    RunKeepsEntries(cap, steps, k);
    ConsumeLoads(ServiceAt(cap, steps, k), pid, r, w, a, n);
    GoesThrough(cap, steps, k + 1, first, second, j, pid, r, w, a, n);
    RunKeepsEntries(cap, steps, j);
    EndedIsConsumedIff(ServiceAt(cap, steps, j), pid, r, w, a, n);
    TakenMeans(ServiceAt(cap, steps, j), pid, r, n);
  }

  lemma TakenMeans(s: Service, pid: Pid, r: Ref, n: Nonce)
    requires forall q <- s.calls.Keys :: s.calls[q].Consumed? ==> (s.calls[q].nonce == n <==> s.calls[q].entry == r)
    ensures !TakenByOther(s, pid, r)
            <==> forall q <- s.calls.Keys :: q != pid && s.calls[q].Consumed? ==> s.calls[q].nonce != n
  {
  }

  /** Two segments of its own take a consume to its end. */
  lemma GoesThrough(cap: nat, steps: seq<Step>, i: nat, first: nat, second: nat, j: nat, pid: Pid, r: Ref, w: Wallet,
                    a: Action, n: Nonce)
    requires i <= first < second < j <= |steps| && Consuming(ServiceAt(cap, steps, i), pid, r, w, a, n)
    requires steps[first].Resume? && steps[first].pid == pid && steps[second].Resume? && steps[second].pid == pid
    requires r in ServiceAt(cap, steps, i).store.entries
    requires ServiceAt(cap, steps, j).clock <= ServiceAt(cap, steps, i).store.entries[r].expiresAt
    ensures Consuming(ServiceAt(cap, steps, j), pid, r, w, a, n)
    ensures pid in ServiceAt(cap, steps, j).calls && Stage(ServiceAt(cap, steps, j).calls[pid]) == 2
  {
    hide *;
    OnwardTo(cap, steps, i, first, j, pid, r, w, a, n);
    OneSegment(cap, steps, first, j, pid, r, w, a, n);
    OnwardTo(cap, steps, first + 1, second, j, pid, r, w, a, n);
    OneSegment(cap, steps, second, j, pid, r, w, a, n);
    OnwardTo(cap, steps, second + 1, j, j, pid, r, w, a, n);
    StageIsAtMostTwo(ServiceAt(cap, steps, j).calls[pid]);
  }

  lemma StageIsAtMostTwo(c: Call)
    ensures Stage(c) <= 2
  {
  }

  lemma OnwardTo(cap: nat, steps: seq<Step>, i: nat, k: nat, j: nat, pid: Pid, r: Ref, w: Wallet, a: Action, n: Nonce)
    requires i <= k <= j <= |steps| && Consuming(ServiceAt(cap, steps, i), pid, r, w, a, n)
    requires r in ServiceAt(cap, steps, i).store.entries
    requires ServiceAt(cap, steps, j).clock <= ServiceAt(cap, steps, i).store.entries[r].expiresAt
    ensures Consuming(ServiceAt(cap, steps, k), pid, r, w, a, n)
    ensures pid in ServiceAt(cap, steps, i).calls && pid in ServiceAt(cap, steps, k).calls
    ensures Stage(ServiceAt(cap, steps, k).calls[pid]) >= Stage(ServiceAt(cap, steps, i).calls[pid])
    ensures r in ServiceAt(cap, steps, k).store.entries
    ensures ServiceAt(cap, steps, j).clock <= ServiceAt(cap, steps, k).store.entries[r].expiresAt
  {
    hide *;
    var s, s' := ServiceAt(cap, steps, i), ServiceAt(cap, steps, k);
    EntriesLastOverRuns(cap, steps, i, k);
    EntriesLastOverRuns(cap, steps, k, j);
    ConsumingMeans(s, pid, r, w, a, n);
    EntryLasts(s, s', r, w, a, n);
    ClockMoves(s', ServiceAt(cap, steps, j));
    RunKeepsConsuming(cap, steps, i, k, pid, r, w, a, n);
    ConsumingMeans(s', pid, r, w, a, n);
  }

  lemma OneSegment(cap: nat, steps: seq<Step>, k: nat, j: nat, pid: Pid, r: Ref, w: Wallet, a: Action, n: Nonce)
    requires k < j <= |steps| && Consuming(ServiceAt(cap, steps, k), pid, r, w, a, n)
    requires steps[k].Resume? && steps[k].pid == pid && r in ServiceAt(cap, steps, k).store.entries
    requires ServiceAt(cap, steps, j).clock <= ServiceAt(cap, steps, k).store.entries[r].expiresAt
    ensures Consuming(ServiceAt(cap, steps, k + 1), pid, r, w, a, n)
    ensures pid in ServiceAt(cap, steps, k).calls && pid in ServiceAt(cap, steps, k + 1).calls
    ensures Stage(ServiceAt(cap, steps, k).calls[pid]) < 2 ==>
              Stage(ServiceAt(cap, steps, k + 1).calls[pid]) > Stage(ServiceAt(cap, steps, k).calls[pid])
    ensures Stage(ServiceAt(cap, steps, k + 1).calls[pid]) >= Stage(ServiceAt(cap, steps, k).calls[pid])
    ensures r in ServiceAt(cap, steps, k + 1).store.entries
    ensures ServiceAt(cap, steps, j).clock <= ServiceAt(cap, steps, k + 1).store.entries[r].expiresAt
  {
    hide *;
    OnwardTo(cap, steps, k, k + 1, j, pid, r, w, a, n);
    RunExtends(cap, steps, k);
    RunKeepsEntries(cap, steps, k);
    EntriesLastOverRuns(cap, steps, k, j);
    ClockMoves(ServiceAt(cap, steps, k), ServiceAt(cap, steps, j));
    StepKeepsConsuming(ServiceAt(cap, steps, k), steps[k], pid, r, w, a, n);
  }
}
