/** What a client with a refresh token can count on (`backend/src/auth.ts`, lines
    187-222, 355-438 and 485-525): logging out ends the session, a family is
    revoked only for a reason, and a rotation that nothing interferes with goes
    through. */
module Sessions {
  import opened Checked
  import opened RefreshTokens

  // ---- A look-up ----

  /** The token is stored and has not expired. */
  predicate Usable(s: Server, t: Token)
    requires Valid(s.store)
  {
    t in s.store.tokens && s.clock <= s.store.entries[s.store.tokens[t]].expiresAt
  }

  /** A new call finds the token's entry if and only if the token is stored and has
      not expired; an expired one is forgotten, and nothing else changes. */
  lemma FoundIff(s: Server, step: Step)
    requires Inv(s) && (step.Present? || step.Logout?) && step.pid !in s.calls
    ensures var s' := Next(s, step);
            var found := if Usable(s, step.token) then Some(s.store.tokens[step.token]) else None;
            && s'.calls == s.calls[step.pid := if step.Logout? then LogoutFound(step.token, found)
                                               else Presented(step.token, found)]
            && s'.store == s.store.(tokens := if found.Some? then s.store.tokens else s.store.tokens - {step.token})
            && s'.home == s.home && s'.clock == s.clock
  {
    hide References, Exchanges, OneSeat, Revocations;
  }

  // ---- Logging out ----

  /** No token of the family is stored. */
  ghost predicate Forgotten(s: Store, f: Family) {
    forall t <- s.tokens.Keys :: s.tokens[t] in s.entries && s.entries[s.tokens[t]].family != f
  }

  predicate Cleared(c: Call) {
    c.LogoutCleared? || c.LoggedOut?
  }

  /** A logout that found the entry `r` of token `t`: from its second segment on
      the family is revoked. */
  ghost predicate LoggingOut(s: Server, pid: Pid, t: Token, r: Ref) {
    && pid in s.calls && r in s.store.entries
    && match s.calls[pid]
       case LogoutFound(t', found) => t' == t && found == Some(r)
       case LogoutRevoked(t', r') => t' == t && r' == r && s.store.entries[r].family in s.store.revokedFamilies
       case LogoutCleared(t', r') => t' == t && r' == r && s.store.entries[r].family in s.store.revokedFamilies
       case LoggedOut => s.store.entries[r].family in s.store.revokedFamilies
       case _ => false
  }

  lemma StepKeepsLoggingOut(s: Server, step: Step, pid: Pid, t: Token, r: Ref)
    requires Inv(s) && LoggingOut(s, pid, t, r)
    ensures LoggingOut(Next(s, step), pid, t, r)
    ensures Cleared(Next(s, step).calls[pid]) && !Cleared(s.calls[pid]) ==>
              Forgotten(Next(s, step).store, s.store.entries[r].family)
    ensures Next(s, step).calls[pid].LoggedOut? && !s.calls[pid].LoggedOut? ==> t !in Next(s, step).store.tokens
  {
    if (step.Present? || step.Logout? || step.Resume?) && step.pid == pid {
      hide Next, Inv, LoggingOut, Forgotten;
      OwnSegmentLogsOut(s, step, pid, t, r);
    } else {
      NextKeepsInv(s, step);
      OtherCallsAreUntouched(s, step, pid);
      hide Next, Inv, Forgotten;
    }
  }

  lemma OwnSegmentLogsOut(s: Server, step: Step, pid: Pid, t: Token, r: Ref)
    requires Inv(s) && LoggingOut(s, pid, t, r)
    requires (step.Present? || step.Logout? || step.Resume?) && step.pid == pid
    ensures LoggingOut(Next(s, step), pid, t, r)
    ensures Cleared(Next(s, step).calls[pid]) && !Cleared(s.calls[pid]) ==>
              Forgotten(Next(s, step).store, s.store.entries[r].family)
    ensures Next(s, step).calls[pid].LoggedOut? && !s.calls[pid].LoggedOut? ==> t !in Next(s, step).store.tokens
  {
    hide References, Exchanges, OneSeat, Revocations;
  }

  lemma {:induction false} RunKeepsLoggingOut(steps: seq<Step>, i: nat, j: nat, pid: Pid, t: Token, r: Ref)
    requires i <= j <= |steps| && LoggingOut(ServerAt(steps, i), pid, t, r)
    ensures LoggingOut(ServerAt(steps, j), pid, t, r)
    decreases j
  {
    hide *;
    if i < j {
      RunKeepsLoggingOut(steps, i, j - 1, pid, t, r);
      ServerAfter(steps, j - 1);
      StepKeepsLoggingOut(ServerAt(steps, j - 1), steps[j - 1], pid, t, r);
    }
  }

  /** Where something about a call becomes true. */
  lemma {:induction false} TurnsAt(steps: seq<Step>, i: nat, j: nat, pid: Pid, turned: Call -> bool) returns (k: nat)
    requires i <= j <= |steps|
    requires pid in ServerAt(steps, i).calls && !turned(ServerAt(steps, i).calls[pid])
    requires pid in ServerAt(steps, j).calls && turned(ServerAt(steps, j).calls[pid])
    ensures i <= k < j && pid in ServerAt(steps, k).calls && pid in ServerAt(steps, k + 1).calls
    ensures !turned(ServerAt(steps, k).calls[pid]) && turned(ServerAt(steps, k + 1).calls[pid])
    decreases j
  {
    hide *;
    ServerAfter(steps, j - 1);
    CallsStay(steps, i, j - 1, pid);
    if turned(ServerAt(steps, j - 1).calls[pid]) {
      k := TurnsAt(steps, i, j - 1, pid, turned);
    } else {
      k := j - 1;
    }
  }

  lemma {:induction false} CallsStay(steps: seq<Step>, i: nat, j: nat, pid: Pid)
    requires i <= j <= |steps| && pid in ServerAt(steps, i).calls
    ensures pid in ServerAt(steps, j).calls
    decreases j
  {
    hide *;
    if i < j {
      CallsStay(steps, i, j - 1, pid);
      ServerAfter(steps, j - 1);
      CallStays(ServerAt(steps, j - 1), steps[j - 1], pid);
    }
  }

  lemma CallStays(s: Server, step: Step, pid: Pid)
    requires Inv(s) && pid in s.calls
    ensures pid in Next(s, step).calls
  {
    if !((step.Present? || step.Logout? || step.Resume?) && step.pid == pid) {
      OtherCallsAreUntouched(s, step, pid);
      hide Next, Inv;
    } else {
      hide References, Exchanges, OneSeat, Revocations;
    }
  }

  lemma LogoutStarts(s: Server, pid: Pid, t: Token)
    requires Inv(s) && pid !in s.calls && Usable(s, t)
    ensures t in s.store.tokens && s.store.tokens[t] in s.store.entries
    ensures LoggingOut(Next(s, Logout(pid, t)), pid, t, s.store.tokens[t])
  {
    FoundIff(s, Logout(pid, t));
    hide Next, References, Exchanges, OneSeat, Revocations;
  }

  lemma LoggedOutMeans(s: Server, pid: Pid, t: Token, r: Ref)
    requires LoggingOut(s, pid, t, r)
    ensures pid in s.calls && r in s.store.entries
    ensures s.calls[pid].LoggedOut? ==> s.store.entries[r].family in s.store.revokedFamilies
  {
  }

  lemma FamilyLasts(s: Server, s': Server, r: Ref)
    requires Grows(s, s') && r in s.store.entries
    ensures r in s'.store.entries && s'.store.entries[r].family == s.store.entries[r].family
  {
  }

  /** The call ends here, and its token is not stored then. */
  predicate EndsWithout(s: Server, s': Server, pid: Pid, t: Token) {
    && pid in s.calls && !s.calls[pid].LoggedOut?
    && pid in s'.calls && s'.calls[pid].LoggedOut?
    && t !in s'.store.tokens
  }

  /** The call's segment here leaves no token of the family stored. */
  ghost predicate Clears(s: Server, s': Server, pid: Pid, f: Family) {
    && pid in s.calls && !Cleared(s.calls[pid]) && pid in s'.calls && Cleared(s'.calls[pid])
    && Forgotten(s'.store, f)
  }

  lemma ClearsMeans(s: Server, s': Server, pid: Pid, f: Family)
    requires pid in s.calls && !Cleared(s.calls[pid]) && pid in s'.calls && Cleared(s'.calls[pid])
    requires Forgotten(s'.store, f)
    ensures Clears(s, s', pid, f)
  {
  }

  lemma ClearedMeans(s: Server, pid: Pid, t: Token)
    ensures forall found :: !Cleared(LogoutFound(t, found))
    ensures Cleared(LoggedOut)
  {
  }

  lemma EndsWithoutMeans(s: Server, s': Server, pid: Pid, t: Token)
    requires pid in s.calls && !s.calls[pid].LoggedOut?
    requires pid in s'.calls && s'.calls[pid].LoggedOut? && t !in s'.store.tokens
    ensures EndsWithout(s, s', pid, t)
  {
  }

  /** The call has not exchanged a token of the family. */
  predicate ExchangesNone(s: Server, q: Pid, f: Family) {
    q in s.calls && Exchanged(s.calls[q]) ==>
      s.calls[q].entry in s.store.entries && s.store.entries[s.calls[q].entry].family != f
  }

  lemma NoneExchanged(steps: seq<Step>, j: nat, m: nat, q: Pid, f: Family)
    requires j <= m <= |steps| && f in ServerAt(steps, j).store.revokedFamilies && q !in ServerAt(steps, j).calls
    ensures ExchangesNone(ServerAt(steps, m), q, f)
  {
    hide ServerAt, Inv, Next;
    var s := ServerAt(steps, m);
    if q in s.calls && Exchanged(s.calls[q]) {
      ServerIsSound(steps, m);
      ExchangedIsKnown(s, q);
      NoExchangeAfterRevocation(steps, j, m, q, f);
    }
  }

  /** Logging out with a stored, unexpired token ends the session: once the call has
      ended the token's family is revoked, one of its segments left no token of the
      family stored and its last one not the token itself, and no rotation begun
      later exchanges a token of the family. */
  lemma LogoutEndsSession(steps: seq<Step>, i: nat, j: nat, pid: Pid, t: Token)
    requires i < j <= |steps| && steps[i] == Logout(pid, t)
    requires pid !in ServerAt(steps, i).calls && Usable(ServerAt(steps, i), t)
    requires pid in ServerAt(steps, j).calls && ServerAt(steps, j).calls[pid].LoggedOut?
    ensures var s := ServerAt(steps, i).store;
            var f := s.entries[s.tokens[t]].family;
            && f in ServerAt(steps, j).store.revokedFamilies
            && (exists k :: i < k < j && Clears(ServerAt(steps, k), ServerAt(steps, k + 1), pid, f))
            && (exists k :: i < k < j && EndsWithout(ServerAt(steps, k), ServerAt(steps, k + 1), pid, t))
            && (forall q, m :: j <= m <= |steps| && q !in ServerAt(steps, j).calls ==>
                  ExchangesNone(ServerAt(steps, m), q, f))
  {
    hide *;
    var s := ServerAt(steps, i);
    ServerAfter(steps, i);
    LogoutStarts(s, pid, t);
    var r := s.store.tokens[t];
    var f := s.store.entries[r].family;
    RunKeepsLoggingOut(steps, i + 1, j, pid, t, r);
    LoggedOutMeans(ServerAt(steps, j), pid, t, r);
    RunGrows(steps, i, j);
    FamilyLasts(s, ServerAt(steps, j), r);
    FoundIff(s, steps[i]);
    LoggedOutMeans(ServerAt(steps, i + 1), pid, t, r);
    var k := TurnsAt(steps, i + 1, j, pid, (c: Call) => c.LoggedOut?);
    RunKeepsLoggingOut(steps, i + 1, k, pid, t, r);
    ServerAfter(steps, k);
    StepKeepsLoggingOut(ServerAt(steps, k), steps[k], pid, t, r);
    EndsWithoutMeans(ServerAt(steps, k), ServerAt(steps, k + 1), pid, t);
    ClearedMeans(s, pid, t);
    var m := TurnsAt(steps, i + 1, j, pid, (c: Call) => Cleared(c));
    RunKeepsLoggingOut(steps, i + 1, m, pid, t, r);
    LoggedOutMeans(ServerAt(steps, m), pid, t, r);
    ServerAfter(steps, m);
    StepKeepsLoggingOut(ServerAt(steps, m), steps[m], pid, t, r);
    RunGrows(steps, i, m);
    FamilyLasts(s, ServerAt(steps, m), r);
    ClearsMeans(ServerAt(steps, m), ServerAt(steps, m + 1), pid, f);
    forall q, m | j <= m <= |steps| && q !in ServerAt(steps, j).calls
      ensures ExchangesNone(ServerAt(steps, m), q, f)
    {
      NoneExchanged(steps, j, m, q, f);
    }
  }

  // ---- Why a family is revoked ----

  /** A revoked entry was exchanged by some call. */
  ghost predicate RevokedByExchange(s: Server) {
    forall r <- s.store.entries.Keys :: s.store.entries[r].revoked ==> ExchangedBySome(s, r)
  }

  predicate ExchangedBySome(s: Server, r: Ref) {
    exists q :: q in s.calls && Exchanged(s.calls[q]) && s.calls[q].entry == r
  }

  lemma StepKeepsRevokedByExchange(s: Server, step: Step)
    requires Inv(s) && RevokedByExchange(s)
    ensures RevokedByExchange(Next(s, step))
  {
    hide References, OneSeat, Revocations, Exchanges;
    var s' := Next(s, step);
    forall r | r in s'.store.entries && s'.store.entries[r].revoked
      ensures ExchangedBySome(s', r)
    {
      if r in s.store.entries && s.store.entries[r].revoked {
        var q :| q in s.calls && Exchanged(s.calls[q]) && s.calls[q].entry == r;
        assert q in s'.calls && Exchanged(s'.calls[q]) && s'.calls[q].entry == r;
      } else {
        assert Exchanged(s'.calls[step.pid]) && s'.calls[step.pid].entry == r;
      }
    }
  }

  lemma {:induction false} RevokedAreExchanged(steps: seq<Step>, i: nat)
    requires i <= |steps|
    ensures RevokedByExchange(ServerAt(steps, i))
  {
    if i == 0 {
      hide Inv, Next;
    } else {
      hide *;
      RevokedAreExchanged(steps, i - 1);
      ServerAfter(steps, i - 1);
      StepKeepsRevokedByExchange(ServerAt(steps, i - 1), steps[i - 1]);
    }
  }

  /** The step logs the family out, alone or with all its wallet's, or is the check
      of a rotation whose token another rotation has exchanged. */
  ghost predicate Revokes(s: Server, step: Step, f: Family)
    requires Valid(s.store) && EntriesKnown(s)
  {
    || (step.LogoutAll? && f in FamiliesOf(s.store, step.wallet))
    || (step.Resume? && step.pid in s.calls && LogsOut(s, s.calls[step.pid], f))
    || (step.Resume? && step.pid in s.calls && s.calls[step.pid].Checked? && Replays(s, step.pid, f))
  }

  predicate LogsOut(s: Server, c: Call, f: Family)
    requires Held(c).Some? ==> Held(c).value in s.store.entries
  {
    c.LogoutFound? && c.found.Some? && s.store.entries[c.found.value].family == f
  }

  /** Two calls presented one token of the family, and the other one exchanged it. */
  predicate Replays(s: Server, pid: Pid, f: Family)
    requires pid in s.calls && s.calls[pid].Checked?
  {
    && s.calls[pid].entry in s.store.entries && s.store.entries[s.calls[pid].entry].family == f
    && exists q :: q in s.calls && q != pid && Exchanged(s.calls[q]) && s.calls[q].token == s.calls[pid].token
  }

  lemma NewRevocation(s: Server, step: Step, f: Family)
    requires Inv(s) && RevokedByExchange(s)
    requires f in Next(s, step).store.revokedFamilies && f !in s.store.revokedFamilies
    ensures Revokes(s, step, f)
  {
    hide Exchanges, OneSeat, Revocations;
    if step.Resume? && step.pid in s.calls && s.calls[step.pid].Checked? {
      var c := s.calls[step.pid];
      assert s.store.entries[c.entry].revoked && s.store.entries[c.entry].family == f;
      var q :| q in s.calls && Exchanged(s.calls[q]) && s.calls[q].entry == c.entry;
      assert Held(s.calls[q]) == Some(c.entry) && Held(c) == Some(c.entry);
      assert s.calls[q].token == c.token && q != step.pid;
    }
  }

  /** A family is revoked only by a log-out of one of its tokens, by its wallet
      logging out everywhere, or because a token of it was presented by two calls of
      which one exchanged it. */
  lemma {:induction false} RevokedOnlyFor(steps: seq<Step>, n: nat, f: Family)
    requires n <= |steps| && f in ServerAt(steps, n).store.revokedFamilies
    ensures exists k :: 0 <= k < n && RevokesAt(steps, k, f)
  {
    hide *;
    NoneRevokedYet(steps);
    if f in ServerAt(steps, n - 1).store.revokedFamilies {
      RevokedOnlyFor(steps, n - 1, f);
    } else {
      ServerAfter(steps, n - 1);
      RevokedAreExchanged(steps, n - 1);
      NewRevocation(ServerAt(steps, n - 1), steps[n - 1], f);
      RevokesHere(steps, n - 1, f);
    }
  }

  lemma NoneRevokedYet(steps: seq<Step>)
    ensures ServerAt(steps, 0).store.revokedFamilies == {}
  {
    hide Inv, Next;
  }

  ghost predicate RevokesAt(steps: seq<Step>, k: nat, f: Family)
    requires k < |steps|
  {
    InvIsValid(ServerAt(steps, k));
    Revokes(ServerAt(steps, k), steps[k], f)
  }

  lemma RevokesHere(steps: seq<Step>, k: nat, f: Family)
    requires k < |steps| && Valid(ServerAt(steps, k).store) && EntriesKnown(ServerAt(steps, k))
    requires Revokes(ServerAt(steps, k), steps[k], f)
    ensures RevokesAt(steps, k, f)
  {
    hide Revokes, Inv, Next;
  }

  // ---- A rotation that nothing interferes with ----

  /** A rotation that found the entry `r` of token `t`: rejected only once the
      family is revoked, invalid only once the entry has expired. */
  ghost predicate Rotating(s: Server, pid: Pid, t: Token, r: Ref) {
    && pid in s.calls && r in s.store.entries
    && match s.calls[pid]
       case Presented(t', found) => t' == t && found == Some(r)
       case Checked(t', r', now, _) => t' == t && r' == r && now <= s.clock
       case Marked(t', r') => t' == t && r' == r
       case Rotated(t', r', _) => t' == t && r' == r
       case Replayed(t', r') => t' == t && r' == r && s.store.entries[r].family in s.store.revokedFamilies
       case Rejected(t', r') => t' == t && r' == r && s.store.entries[r].family in s.store.revokedFamilies
       case Invalid(t') => t' == t && s.store.entries[r].expiresAt < s.clock
       case _ => false
  }

  /** The successor of an entry is stored: same wallet and family, unrevoked, with a
      full lifetime ahead. */
  predicate StoresSuccessor(s: Server, e: Entry, t: Token, clock: int) {
    && t in s.store.tokens && s.store.tokens[t] in s.store.entries
    && s.store.entries[s.store.tokens[t]] == Entry(e.wallet, e.family, clock + TTL, false)
  }

  lemma OwnSegmentRotates(s: Server, step: Step, pid: Pid, t: Token, r: Ref)
    requires Inv(s) && Rotating(s, pid, t, r) && Grows(s, Next(s, step))
    requires (step.Present? || step.Logout? || step.Resume?) && step.pid == pid
    ensures Rotating(Next(s, step), pid, t, r)
  {
    hide Exchanges, OneSeat;
  }

  lemma OwnSegmentIssues(s: Server, step: Step, pid: Pid, t: Token, r: Ref)
    requires Inv(s) && Rotating(s, pid, t, r)
    requires (step.Present? || step.Logout? || step.Resume?) && step.pid == pid
    ensures pid in Next(s, step).calls
    ensures Next(s, step).calls[pid].Rotated? && !s.calls[pid].Rotated? ==>
              StoresSuccessor(Next(s, step), s.store.entries[r], Next(s, step).calls[pid].issued, s.clock)
  {
    hide References, Exchanges, OneSeat, Revocations;
  }

  /** The rotation has ended without issuing. */
  predicate TurnedDown(c: Call) {
    c.Rejected? || c.Invalid?
  }

  lemma OwnSegmentForgets(s: Server, step: Step, pid: Pid, t: Token, r: Ref)
    requires Inv(s) && Rotating(s, pid, t, r)
    requires (step.Present? || step.Logout? || step.Resume?) && step.pid == pid
    ensures pid in Next(s, step).calls
    ensures TurnedDown(Next(s, step).calls[pid]) && !TurnedDown(s.calls[pid]) ==> t !in Next(s, step).store.tokens
    ensures TurnedDown(Next(s, step).calls[pid]) && s.calls[pid].Replayed? ==>
              Forgotten(Next(s, step).store, s.store.entries[r].family)
  {
    hide Exchanges, OneSeat, Revocations, Fresh;
  }

  /** Entries keep all but their mark, and the clock does not run back. */
  ghost predicate EntriesLast(s: Server, s': Server) {
    && (forall r <- s.store.entries.Keys ::
          r in s'.store.entries && s'.store.entries[r].(revoked := true) == s.store.entries[r].(revoked := true))
    && s.store.revokedFamilies <= s'.store.revokedFamilies
    && s.clock <= s'.clock
  }

  lemma StepKeepsEntries(s: Server, step: Step)
    requires Inv(s)
    ensures EntriesLast(s, Next(s, step))
  {
    hide References, Exchanges, OneSeat, Revocations, TokensOf, FamiliesAmong;
  }

  lemma {:induction false} RunKeepsEntries(steps: seq<Step>, i: nat, j: nat)
    requires i <= j <= |steps|
    ensures EntriesLast(ServerAt(steps, i), ServerAt(steps, j))
    decreases j
  {
    hide Inv, Next, ServerAt;
    if i < j {
      RunKeepsEntries(steps, i, j - 1);
      ServerAfter(steps, j - 1);
      StepKeepsEntries(ServerAt(steps, j - 1), steps[j - 1]);
    }
  }

  lemma EntryLasts(s: Server, s': Server, r: Ref)
    requires EntriesLast(s, s') && r in s.store.entries
    ensures r in s'.store.entries && s'.store.entries[r].family == s.store.entries[r].family
    ensures s'.store.entries[r].wallet == s.store.entries[r].wallet
    ensures s'.store.entries[r].expiresAt == s.store.entries[r].expiresAt
  {
  }

  lemma StepKeepsRotating(s: Server, step: Step, pid: Pid, t: Token, r: Ref)
    requires Inv(s) && Rotating(s, pid, t, r)
    ensures Rotating(Next(s, step), pid, t, r)
  {
    if (step.Present? || step.Logout? || step.Resume?) && step.pid == pid {
      NextKeepsInv(s, step);
      hide Next, Rotating, Inv;
      OwnSegmentRotates(s, step, pid, t, r);
    } else {
      OtherCallsAreUntouched(s, step, pid);
      StepKeepsEntries(s, step);
      hide Next, Inv;
    }
  }

  lemma {:induction false} RunKeepsRotating(steps: seq<Step>, i: nat, j: nat, pid: Pid, t: Token, r: Ref)
    requires i <= j <= |steps| && Rotating(ServerAt(steps, i), pid, t, r)
    ensures Rotating(ServerAt(steps, j), pid, t, r)
    decreases j
  {
    hide *;
    if i < j {
      RunKeepsRotating(steps, i, j - 1, pid, t, r);
      ServerAfter(steps, j - 1);
      StepKeepsRotating(ServerAt(steps, j - 1), steps[j - 1], pid, t, r);
    }
  }

  lemma RotationStarts(s: Server, pid: Pid, t: Token)
    requires Inv(s) && pid !in s.calls && Usable(s, t)
    ensures t in s.store.tokens && s.store.tokens[t] in s.store.entries
    ensures Rotating(Next(s, Present(pid, t)), pid, t, s.store.tokens[t])
    ensures Next(s, Present(pid, t)).calls[pid] == Presented(t, Some(s.store.tokens[t]))
  {
    FoundIff(s, Present(pid, t));
    hide Next, References, Exchanges, OneSeat, Revocations;
  }

  lemma RotatingMeans(s: Server, pid: Pid, t: Token, r: Ref)
    requires Rotating(s, pid, t, r)
    ensures pid in s.calls && r in s.store.entries
    ensures s.calls[pid].Rejected? ==> s.store.entries[r].family in s.store.revokedFamilies
    ensures s.calls[pid].Invalid? ==> s.store.entries[r].expiresAt < s.clock
    ensures s.calls[pid].Rotated? ==> s.calls[pid].entry == r
  {
  }

  /** The rotation ends here by issuing a successor of the entry. */
  predicate EndsIssuing(s: Server, s': Server, pid: Pid, e: Entry) {
    && pid in s.calls && !s.calls[pid].Rotated?
    && pid in s'.calls && s'.calls[pid].Rotated?
    && StoresSuccessor(s', e, s'.calls[pid].issued, s.clock)
  }

  lemma RotatesByIssuing(steps: seq<Step>, i: nat, j: nat, pid: Pid, t: Token, r: Ref) returns (k: nat)
    requires i <= j <= |steps| && Rotating(ServerAt(steps, i), pid, t, r)
    requires pid in ServerAt(steps, i).calls && !ServerAt(steps, i).calls[pid].Rotated?
    requires pid in ServerAt(steps, j).calls && ServerAt(steps, j).calls[pid].Rotated?
    requires r in ServerAt(steps, i).store.entries
    ensures i <= k < j && r in ServerAt(steps, k).store.entries
    ensures EndsIssuing(ServerAt(steps, k), ServerAt(steps, k + 1), pid, ServerAt(steps, i).store.entries[r])
  {
    hide *;
    k := TurnsAt(steps, i, j, pid, (c: Call) => c.Rotated?);
    RunKeepsRotating(steps, i, k, pid, t, r);
    RunKeepsEntries(steps, i, k);
    EntryLasts(ServerAt(steps, i), ServerAt(steps, k), r);
    ServerAfter(steps, k);
    var s := ServerAt(steps, k);
    if !((steps[k].Present? || steps[k].Logout? || steps[k].Resume?) && steps[k].pid == pid) {
      OtherCallsAreUntouched(s, steps[k], pid);
    }
    OwnSegmentIssues(s, steps[k], pid, t, r);
    IssuingEnds(s, Next(s, steps[k]), pid, s.store.entries[r], ServerAt(steps, i).store.entries[r]);
  }

  lemma IssuingEnds(s: Server, s': Server, pid: Pid, e: Entry, e0: Entry)
    requires pid in s.calls && !s.calls[pid].Rotated? && pid in s'.calls && s'.calls[pid].Rotated?
    requires StoresSuccessor(s', e, s'.calls[pid].issued, s.clock) && e.wallet == e0.wallet && e.family == e0.family
    ensures EndsIssuing(s, s', pid, e0)
  {
  }

  /** The rotation ends here refused: its token is not stored any more, and after a
      replay no token of the family is. */
  ghost predicate EndsForgetting(s: Server, s': Server, pid: Pid, t: Token, f: Family) {
    && pid in s.calls && !TurnedDown(s.calls[pid]) && pid in s'.calls && TurnedDown(s'.calls[pid])
    && t !in s'.store.tokens
    && (s.calls[pid].Replayed? ==> Forgotten(s'.store, f))
  }

  /** A rotation of a stored, unexpired token that was turned down has left it forgotten. */
  lemma TurnedDownIsForgotten(steps: seq<Step>, i: nat, j: nat, pid: Pid, t: Token)
    requires i < j <= |steps| && steps[i] == Present(pid, t)
    requires pid !in ServerAt(steps, i).calls && Usable(ServerAt(steps, i), t)
    requires pid in ServerAt(steps, j).calls && TurnedDown(ServerAt(steps, j).calls[pid])
    ensures var f := ServerAt(steps, i).store.entries[ServerAt(steps, i).store.tokens[t]].family;
            exists k :: i < k < j && EndsForgetting(ServerAt(steps, k), ServerAt(steps, k + 1), pid, t, f)
  {
    hide *;
    var s := ServerAt(steps, i);
    ServerAfter(steps, i);
    RotationStarts(s, pid, t);
    var r := s.store.tokens[t];
    RotatingMeans(ServerAt(steps, i + 1), pid, t, r);
    NotTurnedDown(t, Some(r));
    var k := TurnsAt(steps, i + 1, j, pid, (c: Call) => TurnedDown(c));
    RunKeepsRotating(steps, i + 1, k, pid, t, r);
    RotatingMeans(ServerAt(steps, k), pid, t, r);
    RunKeepsEntries(steps, i, k);
    EntryLasts(s, ServerAt(steps, k), r);
    ServerAfter(steps, k);
    RefusalForgets(ServerAt(steps, k), steps[k], pid, t, r);
  }

  lemma NotTurnedDown(t: Token, found: Option<Ref>)
    ensures !TurnedDown(Presented(t, found))
  {
  }

  lemma RefusalForgets(s: Server, step: Step, pid: Pid, t: Token, r: Ref)
    requires Inv(s) && Rotating(s, pid, t, r) && !TurnedDown(s.calls[pid])
    requires pid in Next(s, step).calls && TurnedDown(Next(s, step).calls[pid])
    ensures r in s.store.entries && EndsForgetting(s, Next(s, step), pid, t, s.store.entries[r].family)
  {
    if !((step.Present? || step.Logout? || step.Resume?) && step.pid == pid) {
      OtherCallsAreUntouched(s, step, pid);
    }
    hide Next, Inv, Forgotten, StoresSuccessor;
    OwnSegmentForgets(s, step, pid, t, r);
  }

  /** A rotation of a stored, unexpired token that has ended has issued the token's
      successor, unless its family was revoked or the token expired meanwhile. */
  lemma RotationSucceedsUnless(steps: seq<Step>, i: nat, j: nat, pid: Pid, t: Token)
    requires i < j <= |steps| && steps[i] == Present(pid, t)
    requires pid !in ServerAt(steps, i).calls && Usable(ServerAt(steps, i), t)
    requires pid in ServerAt(steps, j).calls
             && (ServerAt(steps, j).calls[pid].Rotated? || ServerAt(steps, j).calls[pid].Rejected?
                 || ServerAt(steps, j).calls[pid].Invalid?)
    ensures var e := ServerAt(steps, i).store.entries[ServerAt(steps, i).store.tokens[t]];
            || e.family in ServerAt(steps, j).store.revokedFamilies
            || e.expiresAt < ServerAt(steps, j).clock
            || exists k :: i < k < j && EndsIssuing(ServerAt(steps, k), ServerAt(steps, k + 1), pid, e)
  {
    hide *;
    var s := ServerAt(steps, i);
    ServerAfter(steps, i);
    RotationStarts(s, pid, t);
    var r := s.store.tokens[t];
    RunKeepsEntries(steps, i, i + 1);
    EntryLasts(s, ServerAt(steps, i + 1), r);
    RunKeepsEntries(steps, i, j);
    EntryLasts(s, ServerAt(steps, j), r);
    RunKeepsRotating(steps, i + 1, j, pid, t, r);
    RotatingMeans(ServerAt(steps, j), pid, t, r);
    RotatingMeans(ServerAt(steps, i + 1), pid, t, r);
    if ServerAt(steps, j).calls[pid].Rotated? {
      var k := RotatesByIssuing(steps, i + 1, j, pid, t, r);
      SameOwnerSameSuccessor(ServerAt(steps, k), ServerAt(steps, k + 1), pid,
                             ServerAt(steps, i + 1).store.entries[r], s.store.entries[r]);
    }
  }

  lemma SameOwnerSameSuccessor(s: Server, s': Server, pid: Pid, e: Entry, e0: Entry)
    requires EndsIssuing(s, s', pid, e) && e.wallet == e0.wallet && e.family == e0.family
    ensures EndsIssuing(s, s', pid, e0)
  {
  }

  // ---- A rotation that should not go through ----

  /** What the second segment saw, once it has run. */
  ghost predicate PastSight(s: Server, pid: Pid, r: Ref, now: int, familyRevoked: bool) {
    && pid in s.calls && r in s.store.entries && Held(s.calls[pid]) in {None, Some(r)}
    && !s.calls[pid].Presented?
    && (s.calls[pid].Checked? ==> s.calls[pid].now == now && s.calls[pid].familyRevoked == familyRevoked)
    && (Exchanged(s.calls[pid]) ==> now <= s.store.entries[r].expiresAt && !familyRevoked)
  }

  lemma StepKeepsSight(s: Server, step: Step, pid: Pid, r: Ref, now: int, familyRevoked: bool)
    requires Inv(s) && PastSight(s, pid, r, now, familyRevoked)
    ensures PastSight(Next(s, step), pid, r, now, familyRevoked)
  {
    StepKeepsEntries(s, step);
    EntryLasts(s, Next(s, step), r);
    if (step.Present? || step.Logout? || step.Resume?) && step.pid == pid {
      hide Next, Inv, PastSight, EntriesLast;
      OwnSegmentKeepsSight(s, step, pid, r, now, familyRevoked);
    } else {
      OtherCallsAreUntouched(s, step, pid);
      hide Next, Inv, EntriesLast;
    }
  }

  lemma OwnSegmentKeepsSight(s: Server, step: Step, pid: Pid, r: Ref, now: int, familyRevoked: bool)
    requires Inv(s) && PastSight(s, pid, r, now, familyRevoked)
    requires (step.Present? || step.Logout? || step.Resume?) && step.pid == pid
    requires r in Next(s, step).store.entries
             && Next(s, step).store.entries[r].expiresAt == s.store.entries[r].expiresAt
    ensures PastSight(Next(s, step), pid, r, now, familyRevoked)
  {
    hide References, Exchanges, OneSeat, Revocations;
  }

  lemma {:induction false} RunKeepsSight(steps: seq<Step>, i: nat, j: nat, pid: Pid, r: Ref, now: int,
                                         familyRevoked: bool)
    requires i <= j <= |steps| && PastSight(ServerAt(steps, i), pid, r, now, familyRevoked)
    ensures PastSight(ServerAt(steps, j), pid, r, now, familyRevoked)
    decreases j
  {
    hide *;
    if i < j {
      RunKeepsSight(steps, i, j - 1, pid, r, now, familyRevoked);
      ServerAfter(steps, j - 1);
      StepKeepsSight(ServerAt(steps, j - 1), steps[j - 1], pid, r, now, familyRevoked);
    }
  }

  lemma SightIsTaken(s: Server, step: Step, pid: Pid, t: Token, r: Ref)
    requires Inv(s) && Rotating(s, pid, t, r) && s.calls[pid].Presented?
    requires pid in Next(s, step).calls && !Next(s, step).calls[pid].Presented?
    ensures PastSight(Next(s, step), pid, r, s.clock, s.store.entries[r].family in s.store.revokedFamilies)
  {
    if !((step.Present? || step.Logout? || step.Resume?) && step.pid == pid) {
      OtherCallsAreUntouched(s, step, pid);
    }
    hide References, Exchanges, OneSeat, Revocations;
  }

  /** At this time the token could be exchanged: its family unrevoked, itself
      unexpired. */
  predicate Exchangeable(s: Server, e: Entry) {
    e.family !in s.store.revokedFamilies && s.clock <= e.expiresAt
  }

  /** A rotation that exchanged its token found it stored and unexpired when it
      began, and unexpired in an unrevoked family when its second segment ran. */
  lemma ExchangedWasExchangeable(steps: seq<Step>, i: nat, j: nat, pid: Pid, t: Token)
    requires i < j <= |steps| && steps[i] == Present(pid, t) && pid !in ServerAt(steps, i).calls
    requires pid in ServerAt(steps, j).calls && Exchanged(ServerAt(steps, j).calls[pid])
    ensures Usable(ServerAt(steps, i), t)
    ensures var e := ServerAt(steps, i).store.entries[ServerAt(steps, i).store.tokens[t]];
            exists k :: i < k < j && Exchangeable(ServerAt(steps, k), e)
  {
    hide *;
    var s := ServerAt(steps, i);
    ServerAfter(steps, i);
    if !Usable(s, t) {
      UnusableNeverExchanges(steps, i, j, pid, t);
    } else {
      RotationStarts(s, pid, t);
      var r := s.store.tokens[t];
      RotatingMeans(ServerAt(steps, i + 1), pid, t, r);
      ExchangedIsPast(ServerAt(steps, j).calls[pid]);
      var k := TurnsAt(steps, i + 1, j, pid, (c: Call) => !c.Presented?);
      RunKeepsRotating(steps, i + 1, k, pid, t, r);
      RotatingMeans(ServerAt(steps, k), pid, t, r);
      ServerAfter(steps, k);
      SightIsTaken(ServerAt(steps, k), steps[k], pid, t, r);
      RunKeepsEntries(steps, i, k);
      EntryLasts(s, ServerAt(steps, k), r);
      RunKeepsEntries(steps, i, j);
      EntryLasts(s, ServerAt(steps, j), r);
      RunKeepsSight(steps, k + 1, j, pid, r, ServerAt(steps, k).clock,
                    ServerAt(steps, k).store.entries[r].family in ServerAt(steps, k).store.revokedFamilies);
      SightMeans(ServerAt(steps, j), pid, r, ServerAt(steps, k).clock,
                 ServerAt(steps, k).store.entries[r].family in ServerAt(steps, k).store.revokedFamilies);
      ExchangeableMeans(ServerAt(steps, k), s.store.entries[r]);
    }
  }

  lemma ExchangeableMeans(s: Server, e: Entry)
    requires e.family !in s.store.revokedFamilies && s.clock <= e.expiresAt
    ensures Exchangeable(s, e)
  {
  }

  lemma ExchangedIsPast(c: Call)
    requires Exchanged(c)
    ensures !c.Presented? && !c.Invalid?
  {
  }

  lemma SightMeans(s: Server, pid: Pid, r: Ref, now: int, familyRevoked: bool)
    requires PastSight(s, pid, r, now, familyRevoked)
    ensures pid in s.calls && r in s.store.entries
    ensures Exchanged(s.calls[pid]) ==> now <= s.store.entries[r].expiresAt && !familyRevoked
  {
  }

  /** A rotation of a token that is not stored, or has expired, is invalid. */
  lemma {:induction false} UnusableNeverExchanges(steps: seq<Step>, i: nat, j: nat, pid: Pid, t: Token)
    requires i < j <= |steps| && steps[i] == Present(pid, t)
    requires pid !in ServerAt(steps, i).calls && !Usable(ServerAt(steps, i), t)
    ensures pid in ServerAt(steps, j).calls
            && (ServerAt(steps, j).calls[pid] == Presented(t, None) || ServerAt(steps, j).calls[pid] == Invalid(t))
    ensures !Exchanged(ServerAt(steps, j).calls[pid])
    decreases j
  {
    hide *;
    ServerAfter(steps, j - 1);
    if j == i + 1 {
      FoundIff(ServerAt(steps, i), steps[i]);
    } else {
      UnusableNeverExchanges(steps, i, j - 1, pid, t);
      InvalidStays(ServerAt(steps, j - 1), steps[j - 1], pid, t);
    }
    NotExchanged(t);
  }

  lemma NotExchanged(t: Token)
    ensures !Exchanged(Presented(t, None)) && !Exchanged(Invalid(t))
  {
  }

  lemma InvalidStays(s: Server, step: Step, pid: Pid, t: Token)
    requires Inv(s) && pid in s.calls && (s.calls[pid] == Presented(t, None) || s.calls[pid] == Invalid(t))
    ensures pid in Next(s, step).calls
    ensures Next(s, step).calls[pid] == Presented(t, None) || Next(s, step).calls[pid] == Invalid(t)
  {
    if !((step.Present? || step.Logout? || step.Resume?) && step.pid == pid) {
      OtherCallsAreUntouched(s, step, pid);
      hide Next, Inv;
    } else {
      hide References, Exchanges, OneSeat, Revocations;
    }
  }

  // ---- Calls end ----

  /** Segments a call has behind it. */
  function Stage(c: Call): nat {
    match c
    case Presented(_, _) => 0
    case LogoutFound(_, _) => 0
    case Checked(_, _, _, _) => 1
    case LogoutRevoked(_, _) => 1
    case Replayed(_, _) => 2
    case Marked(_, _) => 2
    case LogoutCleared(_, _) => 2
    case _ => 3
  }

  /** Every segment brings a call closer to its end, and no other step sets it back. */
  lemma SegmentsAdvance(s: Server, step: Step, pid: Pid)
    requires Inv(s) && pid in s.calls
    ensures pid in Next(s, step).calls && Stage(Next(s, step).calls[pid]) >= Stage(s.calls[pid])
    ensures step.Resume? && step.pid == pid && Stage(s.calls[pid]) < 3
            && (s.calls[pid].Marked? ==> Fresh(s, step.freshToken, step.freshEntry)) ==>
              Stage(Next(s, step).calls[pid]) > Stage(s.calls[pid])
  {
    if (step.Present? || step.Logout? || step.Resume?) && step.pid == pid {
      InvIsValid(s);
      hide Next, Inv, Valid, EntriesKnown, Stage, Fresh;
      OwnSegmentAdvances(s, step, pid);
    } else {
      OtherCallsAreUntouched(s, step, pid);
      hide Next, Inv;
    }
  }

  lemma OwnSegmentAdvances(s: Server, step: Step, pid: Pid)
    requires Valid(s.store) && EntriesKnown(s) && pid in s.calls
    requires (step.Present? || step.Logout? || step.Resume?) && step.pid == pid
    ensures pid in Next(s, step).calls && Stage(Next(s, step).calls[pid]) >= Stage(s.calls[pid])
    ensures step.Resume? && Stage(s.calls[pid]) < 3
            && (s.calls[pid].Marked? ==> Fresh(s, step.freshToken, step.freshEntry)) ==>
              Stage(Next(s, step).calls[pid]) > Stage(s.calls[pid])
  {
    hide Valid, EntriesKnown, Fresh, Issue, DeleteFamily, MarkRevoked, RevokeFamily, Delete;
  }
}
