/** Refresh-token rotation with replay detection on the in-memory store:
    `backend/src/auth.ts`, lines 187-222, 355-438 and 485-525 (the scheme of
    section 10.4 of RFC 6749).

    Each async function runs in segments between its awaits, and segments of any
    number of calls interleave. The store hands out references to its entry
    objects, so an entry looked up in one segment is still the stored object in
    a later one; entries are therefore kept apart from the tokens that map to
    them.
 */
module RefreshTokens {
  import opened Checked

  type Token = nat
  type Family = nat
  type Wallet = nat
  /** The identity of an entry object. */
  type Ref = nat
  /** One call of an async function. */
  type Pid = nat

  datatype Entry = Entry(wallet: Wallet, family: Family, expiresAt: int, revoked: bool)

  datatype Store = Store(entries: map<Ref, Entry>, tokens: map<Token, Ref>, revokedFamilies: set<Family>)

  ghost predicate Valid(s: Store) {
    forall t <- s.tokens.Keys :: s.tokens[t] in s.entries
  }

  // ---- The store's operations ----

  /** `get`: an expired entry is forgotten. */
  function Get(s: Store, clock: int, t: Token): (Store, Option<Ref>)
    requires Valid(s)
  {
    if t !in s.tokens then (s, None)
    else if s.entries[s.tokens[t]].expiresAt < clock then (s.(tokens := s.tokens - {t}), None)
    else (s, Some(s.tokens[t]))
  }

  function Delete(s: Store, t: Token): Store {
    s.(tokens := s.tokens - {t})
  }

  function RevokeFamily(s: Store, f: Family): Store {
    s.(revokedFamilies := s.revokedFamilies + {f})
  }

  function DeleteFamily(s: Store, f: Family): Store
    requires Valid(s)
  {
    s.(tokens := map t | t in s.tokens && s.entries[s.tokens[t]].family != f :: s.tokens[t])
  }

  /** Tokens of the wallet. */
  function TokensOf(s: Store, w: Wallet): set<Token>
    requires Valid(s)
  {
    set t | t in s.tokens && s.entries[s.tokens[t]].wallet == w
  }

  function FamiliesAmong(s: Store, ts: set<Token>): set<Family>
    requires Valid(s) && ts <= s.tokens.Keys
  {
    set t | t in ts :: s.entries[s.tokens[t]].family
  }

  lemma OneMoreFamily(s: Store, ts: set<Token>, t: Token)
    requires Valid(s) && ts <= s.tokens.Keys && t in s.tokens
    ensures FamiliesAmong(s, ts + {t}) == FamiliesAmong(s, ts) + {s.entries[s.tokens[t]].family}
  {
    assert t in ts + {t};
    forall f | f in FamiliesAmong(s, ts)
      ensures f in FamiliesAmong(s, ts + {t})
    {
      var u :| u in ts && s.entries[s.tokens[u]].family == f;
      assert u in ts + {t};
    }
  }

  function FamiliesOf(s: Store, w: Wallet): set<Family>
    requires Valid(s)
  {
    FamiliesAmong(s, TokensOf(s, w))
  }

  function RevokeAll(s: Store, w: Wallet): Store
    requires Valid(s)
  {
    s.(tokens := s.tokens - TokensOf(s, w), revokedFamilies := s.revokedFamilies + FamiliesOf(s, w))
  }

  /** Marks the entry revoked through its reference and stores it again. */
  function MarkRevoked(s: Store, t: Token, r: Ref): Store
    requires r in s.entries
  {
    s.(entries := s.entries[r := s.entries[r].(revoked := true)], tokens := s.tokens[t := r])
  }

  // ---- Calls in progress ----

  datatype Call =
    // rotateRefreshToken, after each of its segments
    | Presented(token: Token, found: Option<Ref>)
    | Checked(token: Token, entry: Ref, now: int, familyRevoked: bool)
    | Replayed(token: Token, entry: Ref)
    | Marked(token: Token, entry: Ref)
    | Rotated(token: Token, entry: Ref, issued: Token)
    | Rejected(token: Token, entry: Ref)
    | Invalid(token: Token)
    // revokeCurrentSession, after each of its segments
    | LogoutFound(token: Token, found: Option<Ref>)
    | LogoutRevoked(token: Token, entry: Ref)
    | LogoutCleared(token: Token, entry: Ref)
    | LoggedOut

  /** The server: its store, its clock, every call ever made, and for each entry
      object the token it was issued under. */
  datatype Server = Server(store: Store, clock: int, calls: map<Pid, Call>, home: map<Ref, Token>)

  const START := Server(Store(map[], map[], {}), 0, map[], map[])

  datatype Step =
    | Login(wallet: Wallet, token: Token, family: Family, entry: Ref)
    | Present(pid: Pid, token: Token)
    | Logout(pid: Pid, token: Token)
    | Resume(pid: Pid, freshToken: Token, freshEntry: Ref)
    | LogoutAll(wallet: Wallet)
    | Tick(clock: int)

  const TTL: int := 604_800

  /** Tokens, families and objects are never issued twice. */
  predicate Fresh(s: Server, t: Token, r: Ref) {
    t !in s.home.Values && r !in s.home && r !in s.store.entries
  }

  predicate FreshFamily(s: Server, f: Family) {
    forall r <- s.store.entries.Keys :: s.store.entries[r].family != f
  }

  /** `issueTokenPair`: stores a new unrevoked entry. */
  function Issue(s: Server, w: Wallet, f: Family, t: Token, r: Ref): Server {
    s.(store := s.store.(entries := s.store.entries[r := Entry(w, f, s.clock + TTL, false)],
                         tokens := s.store.tokens[t := r]),
       home := s.home[r := t])
  }

  /** The next segment of a call; a finished call has none. */
  function Continue(s: Server, pid: Pid, t': Token, r': Ref): Server
    requires Valid(s.store) && pid in s.calls && EntriesKnown(s)
  {
    match s.calls[pid]
    case Presented(t, None) => s.(calls := s.calls[pid := Invalid(t)])
    case Presented(t, Some(r)) =>
      s.(calls := s.calls[pid := Checked(t, r, s.clock, s.store.entries[r].family in s.store.revokedFamilies)])
    case Checked(t, r, now, familyRevoked) =>
      if familyRevoked then
        s.(store := Delete(s.store, t), calls := s.calls[pid := Rejected(t, r)])
      else if s.store.entries[r].revoked then
        s.(store := RevokeFamily(s.store, s.store.entries[r].family), calls := s.calls[pid := Replayed(t, r)])
      else if s.store.entries[r].expiresAt < now then
        s.(store := Delete(s.store, t), calls := s.calls[pid := Invalid(t)])
      else
        s.(store := MarkRevoked(s.store, t, r), calls := s.calls[pid := Marked(t, r)])
    case Replayed(t, r) =>
      s.(store := DeleteFamily(s.store, s.store.entries[r].family), calls := s.calls[pid := Rejected(t, r)])
    case Marked(t, r) =>
      if Fresh(s, t', r') then
        var e := s.store.entries[r];
        Issue(s, e.wallet, e.family, t', r').(calls := s.calls[pid := Rotated(t, r, t')])
      else s
    case LogoutFound(t, None) => s.(calls := s.calls[pid := LoggedOut])
    case LogoutFound(t, Some(r)) =>
      s.(store := RevokeFamily(s.store, s.store.entries[r].family), calls := s.calls[pid := LogoutRevoked(t, r)])
    case LogoutRevoked(t, r) =>
      s.(store := DeleteFamily(s.store, s.store.entries[r].family), calls := s.calls[pid := LogoutCleared(t, r)])
    case LogoutCleared(t, r) =>
      s.(store := Delete(s.store, t), calls := s.calls[pid := LoggedOut])
    case _ => s
  }

  /** A step that is not enabled changes nothing. */
  function Next(s: Server, step: Step): Server
    requires Valid(s.store) && EntriesKnown(s)
  {
    match step
    case Login(w, t, f, r) => if Fresh(s, t, r) && FreshFamily(s, f) then Issue(s, w, f, t, r) else s
    case Present(pid, t) =>
      if pid in s.calls then s
      else
        var (store, found) := Get(s.store, s.clock, t);
        s.(store := store, calls := s.calls[pid := Presented(t, found)])
    case Logout(pid, t) =>
      if pid in s.calls then s
      else
        var (store, found) := Get(s.store, s.clock, t);
        s.(store := store, calls := s.calls[pid := LogoutFound(t, found)])
    case Resume(pid, t, r) => if pid in s.calls then Continue(s, pid, t, r) else s
    case LogoutAll(w) => s.(store := RevokeAll(s.store, w))
    case Tick(clock) => if clock >= s.clock then s.(clock := clock) else s
  }

  // ---- The invariant ----

  /** The entry object a call holds, if any. */
  function Held(c: Call): Option<Ref> {
    match c
    case Presented(_, found) => found
    case Checked(_, r, _, _) => Some(r)
    case Replayed(_, r) => Some(r)
    case Marked(_, r) => Some(r)
    case Rotated(_, r, _) => Some(r)
    case Rejected(_, r) => Some(r)
    case Invalid(_) => None
    case LogoutFound(_, found) => found
    case LogoutRevoked(_, r) => Some(r)
    case LogoutCleared(_, r) => Some(r)
    case LoggedOut => None
  }

  ghost predicate EntriesKnown(s: Server) {
    forall p <- s.calls.Keys :: Held(s.calls[p]).Some? ==> Held(s.calls[p]).value in s.store.entries
  }

  /** A rotation that went past the point of marking its token. */
  predicate Exchanged(c: Call) {
    c.Marked? || c.Rotated?
  }

  /** Every token has one entry object for ever, shared by the store and by all
      calls that looked the token up. */
  ghost predicate References(s: Server) {
    && s.home.Keys == s.store.entries.Keys
    && (forall r1 <- s.home.Keys, r2 <- s.home.Keys :: s.home[r1] == s.home[r2] ==> r1 == r2)
    && (forall t <- s.store.tokens.Keys :: s.store.tokens[t] in s.home && s.home[s.store.tokens[t]] == t)
    && (forall p <- s.calls.Keys :: Held(s.calls[p]).Some? ==>
          Held(s.calls[p]).value in s.home && s.home[Held(s.calls[p]).value] == s.calls[p].token)
  }

  /** Exchanged entries are revoked, each by one call only. */
  ghost predicate Exchanges(s: Server)
    requires EntriesKnown(s)
  {
    && (forall p <- s.calls.Keys :: Exchanged(s.calls[p]) ==> s.store.entries[s.calls[p].entry].revoked)
    && (forall p <- s.calls.Keys, q <- s.calls.Keys ::
          p != q && Exchanged(s.calls[p]) && Exchanged(s.calls[q]) ==> s.calls[p].entry != s.calls[q].entry)
  }

  /** A family has one seat, held by its unrevoked entry or by the rotation about
      to issue the next one. */
  ghost predicate OneSeat(s: Server)
    requires EntriesKnown(s)
  {
    && (forall r1 <- s.store.entries.Keys, r2 <- s.store.entries.Keys ::
          r1 != r2 && !s.store.entries[r1].revoked && !s.store.entries[r2].revoked ==>
            s.store.entries[r1].family != s.store.entries[r2].family)
    && (forall r <- s.store.entries.Keys, p <- s.calls.Keys ::
          !s.store.entries[r].revoked && s.calls[p].Marked? ==>
            s.store.entries[r].family != s.store.entries[s.calls[p].entry].family)
    && (forall p <- s.calls.Keys, q <- s.calls.Keys ::
          p != q && s.calls[p].Marked? && s.calls[q].Marked? ==>
            s.store.entries[s.calls[p].entry].family != s.store.entries[s.calls[q].entry].family)
  }

  /** Calls that saw or caused a revocation belong to revoked families. */
  ghost predicate Revocations(s: Server)
    requires EntriesKnown(s)
  {
    forall p <- s.calls.Keys ::
      var c := s.calls[p];
      (c.Checked? && c.familyRevoked) || c.Replayed? || c.Rejected? || c.LogoutRevoked? || c.LogoutCleared? ==>
        s.store.entries[c.entry].family in s.store.revokedFamilies
  }

  ghost predicate Inv(s: Server) {
    Valid(s.store) && EntriesKnown(s) && References(s) && Exchanges(s) && OneSeat(s) && Revocations(s)
  }

  /** What no step undoes: families of entries, their revocation, and revoked families. */
  ghost predicate Grows(s: Server, s': Server) {
    && (forall r <- s.store.entries.Keys ::
          && r in s'.store.entries
          && s'.store.entries[r].family == s.store.entries[r].family
          && (s.store.entries[r].revoked ==> s'.store.entries[r].revoked))
    && s.store.revokedFamilies <= s'.store.revokedFamilies
  }

  lemma IssueKeepsInv(s: Server, w: Wallet, f: Family, t: Token, r: Ref)
    requires Inv(s) && Fresh(s, t, r)
    requires forall x <- s.store.entries.Keys :: !s.store.entries[x].revoked ==> s.store.entries[x].family != f
    requires forall p <- s.calls.Keys :: s.calls[p].Marked? ==> s.store.entries[s.calls[p].entry].family != f
    ensures Inv(Issue(s, w, f, t, r)) && Grows(s, Issue(s, w, f, t, r))
  {
    IssueKeepsReferences(s, w, f, t, r);
    IssueKeepsSeats(s, w, f, t, r);
    IssueKeepsRevocations(s, w, f, t, r);
    hide References, OneSeat, Revocations;
  }

  lemma IssueKeepsRevocations(s: Server, w: Wallet, f: Family, t: Token, r: Ref)
    requires EntriesKnown(s) && Revocations(s) && Fresh(s, t, r)
    ensures EntriesKnown(Issue(s, w, f, t, r)) && Revocations(Issue(s, w, f, t, r))
  {
  }

  lemma IssueKeepsReferences(s: Server, w: Wallet, f: Family, t: Token, r: Ref)
    requires Valid(s.store) && EntriesKnown(s) && References(s) && Fresh(s, t, r)
    ensures References(Issue(s, w, f, t, r))
  {
  }

  lemma IssueKeepsSeats(s: Server, w: Wallet, f: Family, t: Token, r: Ref)
    requires EntriesKnown(s) && OneSeat(s) && Fresh(s, t, r)
    requires forall x <- s.store.entries.Keys :: !s.store.entries[x].revoked ==> s.store.entries[x].family != f
    requires forall p <- s.calls.Keys :: s.calls[p].Marked? ==> s.store.entries[s.calls[p].entry].family != f
    ensures EntriesKnown(Issue(s, w, f, t, r)) && OneSeat(Issue(s, w, f, t, r))
  {
  }

  /** A segment that exchanges nothing: entries stay, tokens may be dropped and
      families revoked, and one call moves on. */
  ghost predicate Passive(s: Server, s': Server, pid: Pid, c: Call)
    requires EntriesKnown(s)
  {
    && s'.store.entries == s.store.entries && s'.home == s.home
    && (forall t <- s'.store.tokens.Keys :: t in s.store.tokens && s'.store.tokens[t] == s.store.tokens[t])
    && s.store.revokedFamilies <= s'.store.revokedFamilies
    && s'.calls == s.calls[pid := c]
    && !Exchanged(c) && (pid in s.calls ==> !Exchanged(s.calls[pid]))
    && (Held(c).Some? ==> Held(c).value in s.home && s.home[Held(c).value] == c.token)
    && ((c.Checked? && c.familyRevoked) || c.Replayed? || c.Rejected? || c.LogoutRevoked? || c.LogoutCleared? ==>
          c.entry in s.store.entries && s.store.entries[c.entry].family in s'.store.revokedFamilies)
  }

  lemma PassiveKeepsInv(s: Server, s': Server, pid: Pid, c: Call)
    requires Inv(s) && Passive(s, s', pid, c)
    ensures Inv(s') && Grows(s, s')
  {
  }

  /** Marking finds the entry unrevoked, so no other call has exchanged it and
      its family's seat passes to this one. */
  lemma MarkKeepsInv(s: Server, pid: Pid, t: Token, r: Ref)
    requires Inv(s) && pid in s.calls
    requires s.calls[pid].Checked? && s.calls[pid].token == t && s.calls[pid].entry == r && !s.store.entries[r].revoked
    ensures var s' := s.(store := MarkRevoked(s.store, t, r), calls := s.calls[pid := Marked(t, r)]);
            Inv(s') && Grows(s, s')
  {
    MarkKeepsReferences(s, pid, t, r);
    MarkKeepsExchanges(s, pid, t, r);
    MarkKeepsOneSeat(s, pid, t, r);
    hide References, Exchanges, OneSeat;
  }

  lemma MarkKeepsReferences(s: Server, pid: Pid, t: Token, r: Ref)
    requires Inv(s) && pid in s.calls && s.calls[pid].Checked? && s.calls[pid].token == t && s.calls[pid].entry == r
    ensures References(s.(store := MarkRevoked(s.store, t, r), calls := s.calls[pid := Marked(t, r)]))
  {
    hide Exchanges, OneSeat, Revocations;
    assert Held(s.calls[pid]) == Some(r) && s.home[r] == t;
  }

  lemma MarkKeepsExchanges(s: Server, pid: Pid, t: Token, r: Ref)
    requires EntriesKnown(s) && Exchanges(s) && pid in s.calls && s.calls[pid].Checked?
    requires r in s.store.entries && !s.store.entries[r].revoked
    ensures var s' := s.(store := MarkRevoked(s.store, t, r), calls := s.calls[pid := Marked(t, r)]);
            EntriesKnown(s') && Exchanges(s')
  {
    var s' := s.(store := MarkRevoked(s.store, t, r), calls := s.calls[pid := Marked(t, r)]);
    forall p <- s'.calls.Keys, q <- s'.calls.Keys | p != q && Exchanged(s'.calls[p]) && Exchanged(s'.calls[q])
      ensures s'.calls[p].entry != s'.calls[q].entry
    {
      if p != pid && q != pid {
        assert Exchanged(s.calls[p]) && Exchanged(s.calls[q]);
      }
    }
  }

  lemma MarkKeepsOneSeat(s: Server, pid: Pid, t: Token, r: Ref)
    requires EntriesKnown(s) && OneSeat(s) && pid in s.calls && s.calls[pid].Checked?
    requires r in s.store.entries && !s.store.entries[r].revoked
    ensures var s' := s.(store := MarkRevoked(s.store, t, r), calls := s.calls[pid := Marked(t, r)]);
            EntriesKnown(s') && OneSeat(s')
  {
    hide References, Exchanges, Revocations;
  }

  /** Issuing hands the seat to the new entry. */
  lemma RotationKeepsInv(s: Server, pid: Pid, t': Token, r': Ref)
    requires Inv(s) && pid in s.calls && s.calls[pid].Marked? && Fresh(s, t', r')
    ensures Inv(Continue(s, pid, t', r')) && Grows(s, Continue(s, pid, t', r'))
  {
    var c := s.calls[pid];
    var e := s.store.entries[c.entry];
    var between := s.(calls := s.calls[pid := Rotated(c.token, c.entry, t')]);
    assert Inv(between) by { StandDown(s, pid, t'); }
    forall p <- between.calls.Keys | between.calls[p].Marked?
      ensures s.store.entries[between.calls[p].entry].family != e.family
    {
      assert p != pid && s.calls[p] == between.calls[p];
    }
    IssueKeepsInv(between, e.wallet, e.family, t', r');
    assert Continue(s, pid, t', r') == Issue(between, e.wallet, e.family, t', r');
  }

  lemma StandDown(s: Server, pid: Pid, t': Token)
    requires Inv(s) && pid in s.calls && s.calls[pid].Marked?
    ensures Inv(s.(calls := s.calls[pid := Rotated(s.calls[pid].token, s.calls[pid].entry, t')]))
  {
    StandDownKeepsReferences(s, pid, t');
    StandDownKeepsSeats(s, pid, t');
    hide References, OneSeat;
    var s' := s.(calls := s.calls[pid := Rotated(s.calls[pid].token, s.calls[pid].entry, t')]);
    assert forall p <- s'.calls.Keys :: Exchanged(s'.calls[p]) == Exchanged(s.calls[p]);
  }

  lemma StandDownKeepsReferences(s: Server, pid: Pid, t': Token)
    requires EntriesKnown(s) && References(s) && pid in s.calls && s.calls[pid].Marked?
    ensures References(s.(calls := s.calls[pid := Rotated(s.calls[pid].token, s.calls[pid].entry, t')]))
  {
  }

  lemma StandDownKeepsSeats(s: Server, pid: Pid, t': Token)
    requires EntriesKnown(s) && OneSeat(s) && pid in s.calls && s.calls[pid].Marked?
    ensures var s' := s.(calls := s.calls[pid := Rotated(s.calls[pid].token, s.calls[pid].entry, t')]);
            EntriesKnown(s') && OneSeat(s')
  {
    var s' := s.(calls := s.calls[pid := Rotated(s.calls[pid].token, s.calls[pid].entry, t')]);
    assert forall p <- s'.calls.Keys :: Held(s'.calls[p]) == Held(s.calls[p]);
    assert forall p <- s'.calls.Keys :: s'.calls[p].Marked? ==> s'.calls[p] == s.calls[p];
  }

  lemma LookupIsPassive(s: Server, pid: Pid, t: Token, logout: bool)
    requires Inv(s) && pid !in s.calls
    ensures var (store, found) := Get(s.store, s.clock, t);
            var c := if logout then LogoutFound(t, found) else Presented(t, found);
            Passive(s, s.(store := store, calls := s.calls[pid := c]), pid, c)
  {
  }

  lemma ContinueKeepsInv(s: Server, pid: Pid, t': Token, r': Ref)
    requires Inv(s) && pid in s.calls
    ensures Inv(Continue(s, pid, t', r')) && Grows(s, Continue(s, pid, t', r'))
  {
    var s', c := Continue(s, pid, t', r'), s.calls[pid];
    if c.Checked? && !c.familyRevoked && !s.store.entries[c.entry].revoked
      && s.store.entries[c.entry].expiresAt >= c.now {
      MarkKeepsInv(s, pid, c.token, c.entry);
    } else if c.Marked? {
      if Fresh(s, t', r') {
        RotationKeepsInv(s, pid, t', r');
      }
    } else if !c.Rotated? {
      assert Passive(s, s', pid, s'.calls[pid]) by { ContinueIsPassive(s, pid, t', r'); }
      PassiveKeepsInv(s, s', pid, s'.calls[pid]);
    }
  }

  lemma RotationIsPassive(s: Server, pid: Pid, t': Token, r': Ref)
    requires Inv(s) && pid in s.calls && (s.calls[pid].Presented? || s.calls[pid].Checked? || s.calls[pid].Replayed?)
    requires !(s.calls[pid].Checked? && !s.calls[pid].familyRevoked && !s.store.entries[s.calls[pid].entry].revoked
               && s.store.entries[s.calls[pid].entry].expiresAt >= s.calls[pid].now)
    ensures pid in Continue(s, pid, t', r').calls
    ensures Passive(s, Continue(s, pid, t', r'), pid, Continue(s, pid, t', r').calls[pid])
  {
    hide OneSeat, Exchanges;
    assert s.calls == s.calls[pid := s.calls[pid]];
  }

  lemma LogoutIsPassive(s: Server, pid: Pid, t': Token, r': Ref)
    requires Inv(s) && pid in s.calls
             && (s.calls[pid].LogoutFound? || s.calls[pid].LogoutRevoked? || s.calls[pid].LogoutCleared?)
    ensures pid in Continue(s, pid, t', r').calls
    ensures Passive(s, Continue(s, pid, t', r'), pid, Continue(s, pid, t', r').calls[pid])
  {
    hide OneSeat, Exchanges;
    assert s.calls == s.calls[pid := s.calls[pid]];
  }

  lemma FinishedIsPassive(s: Server, pid: Pid, t': Token, r': Ref)
    requires Inv(s) && pid in s.calls && (s.calls[pid].Rejected? || s.calls[pid].Invalid? || s.calls[pid].LoggedOut?)
    ensures pid in Continue(s, pid, t', r').calls
    ensures Passive(s, Continue(s, pid, t', r'), pid, Continue(s, pid, t', r').calls[pid])
  {
    hide OneSeat, Exchanges;
    assert s.calls == s.calls[pid := s.calls[pid]];
  }

  lemma ContinueIsPassive(s: Server, pid: Pid, t': Token, r': Ref)
    requires Inv(s) && pid in s.calls && !Exchanged(s.calls[pid])
    requires !(s.calls[pid].Checked? && !s.calls[pid].familyRevoked && !s.store.entries[s.calls[pid].entry].revoked
               && s.store.entries[s.calls[pid].entry].expiresAt >= s.calls[pid].now)
    ensures pid in Continue(s, pid, t', r').calls
    ensures Passive(s, Continue(s, pid, t', r'), pid, Continue(s, pid, t', r').calls[pid])
  {
    hide OneSeat, Exchanges, References, Revocations;
    match s.calls[pid]
    case Presented(_, _) => RotationIsPassive(s, pid, t', r');
    case Checked(_, _, _, _) => RotationIsPassive(s, pid, t', r');
    case Replayed(_, _) => RotationIsPassive(s, pid, t', r');
    case Rejected(_, _) => FinishedIsPassive(s, pid, t', r');
    case Invalid(_) => FinishedIsPassive(s, pid, t', r');
    case LoggedOut => FinishedIsPassive(s, pid, t', r');
    case _ => LogoutIsPassive(s, pid, t', r');
  }

  lemma StoreShrinkKeepsInv(s: Server, s': Server)
    requires Inv(s) && s'.calls == s.calls && s'.home == s.home && s'.store.entries == s.store.entries
    requires forall t <- s'.store.tokens.Keys :: t in s.store.tokens && s'.store.tokens[t] == s.store.tokens[t]
    requires s.store.revokedFamilies <= s'.store.revokedFamilies
    ensures Inv(s') && Grows(s, s')
  {
  }

  lemma NextKeepsInv(s: Server, step: Step)
    requires Inv(s)
    ensures Inv(Next(s, step)) && Grows(s, Next(s, step))
  {
    match step
    case Login(w, t, f, r) =>
      if Fresh(s, t, r) && FreshFamily(s, f) {
        IssueKeepsInv(s, w, f, t, r);
      }
    case Present(pid, t) =>
      if pid !in s.calls {
        LookupIsPassive(s, pid, t, false);
        PassiveKeepsInv(s, Next(s, step), pid, Next(s, step).calls[pid]);
      }
    case Logout(pid, t) =>
      if pid !in s.calls {
        LookupIsPassive(s, pid, t, true);
        PassiveKeepsInv(s, Next(s, step), pid, Next(s, step).calls[pid]);
      }
    case Resume(pid, t, r) =>
      if pid in s.calls {
        ContinueKeepsInv(s, pid, t, r);
      }
    case LogoutAll(w) => StoreShrinkKeepsInv(s, Next(s, step));
    case Tick(_) => StoreShrinkKeepsInv(s, Next(s, step));
  }

  // ---- Runs: any interleaving of any number of calls ----

  ghost function ServerAt(steps: seq<Step>, i: nat): (s: Server)
    requires i <= |steps|
    ensures Inv(s)
  {
    if i == 0 then START
    else
      var s := ServerAt(steps, i - 1);
      NextKeepsInv(s, steps[i - 1]);
      Next(s, steps[i - 1])
  }

  lemma {:induction false} RunGrows(steps: seq<Step>, i: nat, j: nat)
    requires i <= j <= |steps|
    ensures Grows(ServerAt(steps, i), ServerAt(steps, j))
    decreases j
  {
    hide Inv, Next;
    if i < j {
      RunGrows(steps, i, j - 1);
      NextKeepsInv(ServerAt(steps, j - 1), steps[j - 1]);
    }
  }

  /** Each refresh token is exchanged at most once, whatever interleaves. */
  lemma ExchangedAtMostOnce(steps: seq<Step>, i: nat)
    requires i <= |steps|
    ensures var calls := ServerAt(steps, i).calls;
            forall p <- calls.Keys, q <- calls.Keys ::
              Exchanged(calls[p]) && Exchanged(calls[q]) && calls[p].token == calls[q].token ==> p == q
  {
    hide Next, OneSeat, Revocations;
    var s := ServerAt(steps, i);
    forall p, q | p in s.calls && q in s.calls && Exchanged(s.calls[p]) && Exchanged(s.calls[q])
                  && s.calls[p].token == s.calls[q].token
      ensures p == q
    {
      var x, y := s.calls[p].entry, s.calls[q].entry;
      assert Held(s.calls[p]) == Some(x) && Held(s.calls[q]) == Some(y);
      assert s.home[x] == s.home[y];
    }
  }

  /** A family never has two stored tokens that could still be exchanged. */
  lemma OneLiveTokenPerFamily(steps: seq<Step>, i: nat)
    requires i <= |steps|
    ensures var s := ServerAt(steps, i).store;
            forall t1 <- s.tokens.Keys, t2 <- s.tokens.Keys ::
              (&& !s.entries[s.tokens[t1]].revoked && !s.entries[s.tokens[t2]].revoked
               && s.entries[s.tokens[t1]].family == s.entries[s.tokens[t2]].family)
              ==> t1 == t2
  {
    hide Next, Exchanges, Revocations;
  }

  /** A rotation that found its token already exchanged. */
  ghost predicate Doomed(s: Server, pid: Pid, r: Ref) {
    && pid in s.calls && Held(s.calls[pid]) == Some(r)
    && (s.calls[pid].Presented? || s.calls[pid].Checked? || s.calls[pid].Replayed? || s.calls[pid].Rejected?)
    && r in s.store.entries && s.store.entries[r].revoked
  }

  lemma DoomIsFinal(s: Server, step: Step, pid: Pid, r: Ref)
    requires Inv(s) && Doomed(s, pid, r)
    ensures Doomed(Next(s, step), pid, r)
  {
    hide References, Exchanges, OneSeat, Revocations;
  }

  lemma {:induction false} DoomedForEver(steps: seq<Step>, i: nat, j: nat, pid: Pid, r: Ref)
    requires i <= j <= |steps| && Doomed(ServerAt(steps, i), pid, r)
    ensures Doomed(ServerAt(steps, j), pid, r)
    decreases j
  {
    hide Inv, Next, Doomed;
    if i < j {
      DoomedForEver(steps, i, j - 1, pid, r);
      DoomIsFinal(ServerAt(steps, j - 1), steps[j - 1], pid, r);
    }
  }

  /** Presenting a stored token that was already exchanged never issues a new
      pair, and once that call has ended its family is revoked for good. */
  lemma ReplayRevokesFamily(steps: seq<Step>, i: nat, j: nat, pid: Pid, t: Token)
    requires i < j <= |steps| && steps[i] == Present(pid, t)
    requires var s := ServerAt(steps, i);
             && pid !in s.calls && t in s.store.tokens
             && s.store.entries[s.store.tokens[t]].expiresAt >= s.clock
             && s.store.entries[s.store.tokens[t]].revoked
    ensures var s', r := ServerAt(steps, j), ServerAt(steps, i).store.tokens[t];
            && pid in s'.calls && !Exchanged(s'.calls[pid]) && !s'.calls[pid].Invalid?
            && r in s'.store.entries
            && (s'.calls[pid].Rejected? ==> s'.store.entries[r].family in s'.store.revokedFamilies)
  {
    hide References, Exchanges, OneSeat;
    var r := ServerAt(steps, i).store.tokens[t];
    assert Doomed(ServerAt(steps, i + 1), pid, r);
    DoomedForEver(steps, i + 1, j, pid, r);
  }

  /** A rotation begun after its family was revoked. */
  ghost predicate Barred(s: Server, pid: Pid, f: Family)
    requires EntriesKnown(s)
  {
    && f in s.store.revokedFamilies
    && (pid in s.calls && Held(s.calls[pid]).Some? && s.store.entries[Held(s.calls[pid]).value].family == f ==>
          && !Exchanged(s.calls[pid]) && !s.calls[pid].Replayed?
          && (s.calls[pid].Checked? ==> s.calls[pid].familyRevoked))
  }

  lemma OtherCallsAreUntouched(s: Server, step: Step, pid: Pid)
    requires Inv(s)
    requires !((step.Present? || step.Logout? || step.Resume?) && step.pid == pid)
    ensures pid in Next(s, step).calls <==> pid in s.calls
    ensures pid in s.calls ==> Next(s, step).calls[pid] == s.calls[pid]
  {
    hide Inv;
    assert Valid(s.store) && EntriesKnown(s) by { InvIsValid(s); }
    hide Valid, EntriesKnown;
  }

  lemma InvIsValid(s: Server)
    requires Inv(s)
    ensures Valid(s.store) && EntriesKnown(s)
  {
  }

  lemma OwnSegmentStaysBarred(s: Server, step: Step, pid: Pid, f: Family)
    requires Inv(s) && Barred(s, pid, f)
    requires (step.Present? || step.Logout? || step.Resume?) && step.pid == pid
    requires EntriesKnown(Next(s, step)) && Grows(s, Next(s, step))
    ensures Barred(Next(s, step), pid, f)
  {
    hide References, Exchanges, OneSeat, Revocations;
  }

  lemma BarredStays(s: Server, step: Step, pid: Pid, f: Family)
    requires Inv(s) && Barred(s, pid, f)
    ensures Inv(Next(s, step)) && Barred(Next(s, step), pid, f)
  {
    NextKeepsInv(s, step);
    if (step.Present? || step.Logout? || step.Resume?) && step.pid == pid {
      assert EntriesKnown(Next(s, step)) by { InvIsValid(Next(s, step)); }
      OwnSegmentStaysBarred(s, step, pid, f);
    } else {
      hide Next, References, Exchanges, OneSeat, Revocations;
      OtherCallsAreUntouched(s, step, pid);
    }
  }

  lemma {:induction false} BarredForEver(steps: seq<Step>, i: nat, j: nat, pid: Pid, f: Family)
    requires i <= j <= |steps|
    requires EntriesKnown(ServerAt(steps, i)) && Barred(ServerAt(steps, i), pid, f)
    ensures EntriesKnown(ServerAt(steps, j)) && Barred(ServerAt(steps, j), pid, f)
    decreases j
  {
    hide Next, Barred, Inv, EntriesKnown;
    if i < j {
      BarredForEver(steps, i, j - 1, pid, f);
      BarredStays(ServerAt(steps, j - 1), steps[j - 1], pid, f);
      InvIsValid(ServerAt(steps, j));
    }
  }

  /** No rotation begun after a family is revoked ever exchanges a token of it. */
  lemma NoExchangeAfterRevocation(steps: seq<Step>, i: nat, j: nat, pid: Pid, f: Family)
    requires i <= j <= |steps|
    requires f in ServerAt(steps, i).store.revokedFamilies && pid !in ServerAt(steps, i).calls
    requires pid in ServerAt(steps, j).calls && Exchanged(ServerAt(steps, j).calls[pid])
    ensures ServerAt(steps, j).store.entries[ServerAt(steps, j).calls[pid].entry].family != f
  {
    InvIsValid(ServerAt(steps, i));
    hide Next, Inv, EntriesKnown, ServerAt;
    BarredForEver(steps, i, j, pid, f);
    HeldByExchanged(ServerAt(steps, j).calls[pid]);
  }

  lemma HeldByExchanged(c: Call)
    requires Exchanged(c)
    ensures Held(c) == Some(c.entry)
  {
  }

  // ---- Whose tokens they are ----

  /** All entries of a family carry one wallet. */
  ghost predicate OneWallet(s: Server) {
    forall r1 <- s.store.entries.Keys, r2 <- s.store.entries.Keys ::
      s.store.entries[r1].family == s.store.entries[r2].family ==>
          s.store.entries[r1].wallet == s.store.entries[r2].wallet
  }

  /** Entries keep their owner, and a new one belongs to a new family or to the
      wallet of an entry of its family. */
  ghost predicate OwnersKept(s: Server, s': Server) {
    && (forall r <- s.store.entries.Keys :: r in s'.store.entries
          && s'.store.entries[r].wallet == s.store.entries[r].wallet
          && s'.store.entries[r].family == s.store.entries[r].family)
    && (forall r <- s'.store.entries.Keys :: r !in s.store.entries ==>
          && (FreshFamily(s, s'.store.entries[r].family)
              || exists x :: x in s.store.entries && SameOwner(s.store.entries[x], s'.store.entries[r]))
          && (forall x <- s'.store.entries.Keys :: x !in s.store.entries ==> x == r))
  }

  predicate SameOwner(e: Entry, e': Entry) {
    e.wallet == e'.wallet && e.family == e'.family
  }

  lemma StepKeepsOwners(s: Server, step: Step)
    requires Inv(s)
    ensures OwnersKept(s, Next(s, step))
  {
    hide References, Exchanges, OneSeat, Revocations, TokensOf, FamiliesAmong;
    if step.Resume? && step.pid in s.calls && s.calls[step.pid].Marked? && Fresh(s, step.freshToken, step.freshEntry) {
      var x := s.calls[step.pid].entry;
      assert Held(s.calls[step.pid]) == Some(x);
      assert SameOwner(s.store.entries[x], Next(s, step).store.entries[step.freshEntry]);
    }
  }

  lemma OwnersKeptMeansOneWallet(s: Server, s': Server)
    requires OneWallet(s) && OwnersKept(s, s')
    ensures OneWallet(s')
  {
    forall r1, r2 | r1 in s'.store.entries && r2 in s'.store.entries
      && s'.store.entries[r1].family == s'.store.entries[r2].family
      ensures s'.store.entries[r1].wallet == s'.store.entries[r2].wallet
    {
      OlderOwner(s, s', r1);
      OlderOwner(s, s', r2);
    }
  }

  /** A new entry's family is new, or has its owner's wallet throughout. */
  lemma OlderOwner(s: Server, s': Server, r: Ref)
    requires OneWallet(s) && OwnersKept(s, s') && r in s'.store.entries
    ensures forall x <- s.store.entries.Keys ::
              s.store.entries[x].family == s'.store.entries[r].family ==>
                  s.store.entries[x].wallet == s'.store.entries[r].wallet
  {
    if r !in s.store.entries && !FreshFamily(s, s'.store.entries[r].family) {
      var x :| x in s.store.entries && SameOwner(s.store.entries[x], s'.store.entries[r]);
    }
  }

  /** In every reachable state all tokens of a family belong to one wallet: a
      rotation never hands a session to somebody else. */
  lemma {:induction false} OneWalletPerFamily(steps: seq<Step>, i: nat)
    requires i <= |steps|
    ensures OneWallet(ServerAt(steps, i))
  {
    if i == 0 {
      hide Inv, Next;
    } else {
      hide *;
      OneWalletPerFamily(steps, i - 1);
      ServerAfter(steps, i - 1);
      StepKeepsOwners(ServerAt(steps, i - 1), steps[i - 1]);
      OwnersKeptMeansOneWallet(ServerAt(steps, i - 1), ServerAt(steps, i));
    }
  }

  lemma ServerAfter(steps: seq<Step>, i: nat)
    requires i < |steps|
    ensures Inv(ServerAt(steps, i)) && Valid(ServerAt(steps, i).store) && EntriesKnown(ServerAt(steps, i))
    ensures ServerAt(steps, i + 1) == Next(ServerAt(steps, i), steps[i])
  {
    InvIsValid(ServerAt(steps, i));
    hide Next, Inv;
  }

  // ---- Logging out everywhere ----

  /** The step leaves the wallet no stored token, and revokes exactly the families
      it had stored tokens of: a family whose tokens had all been forgotten is not
      among them. */
  lemma LogoutAllRevokesStoredFamilies(s: Server, w: Wallet)
    requires Inv(s)
    ensures var s' := Next(s, LogoutAll(w));
            && (forall t <- s'.store.tokens.Keys :: s'.store.entries[s'.store.tokens[t]].wallet != w)
            && (forall f :: f in s'.store.revokedFamilies <==>
                f in s.store.revokedFamilies || f in FamiliesOf(s.store, w))
            && s'.calls == s.calls && s'.store.entries == s.store.entries && s'.home == s.home
  {
    hide References, Exchanges, OneSeat, Revocations, FamiliesAmong;
  }

  ghost predicate HomesKept(s: Server, s': Server) {
    forall r <- s.home.Keys :: r in s'.home && s'.home[r] == s.home[r]
  }

  lemma StepKeepsHomes(s: Server, step: Step)
    requires Inv(s)
    ensures HomesKept(s, Next(s, step))
  {
    hide References, Exchanges, OneSeat, Revocations, TokensOf, FamiliesAmong;
  }

  lemma {:induction false} RunKeepsHomes(steps: seq<Step>, i: nat, j: nat)
    requires i <= j <= |steps|
    ensures HomesKept(ServerAt(steps, i), ServerAt(steps, j))
    decreases j
  {
    hide Inv, Next;
    if i < j {
      RunKeepsHomes(steps, i, j - 1);
      StepKeepsHomes(ServerAt(steps, j - 1), steps[j - 1]);
    }
  }

  /** One entry object per token, from when it is stored to when it is exchanged. */
  lemma ExchangedEntry(s: Server, s': Server, t: Token, pid: Pid)
    requires Inv(s) && Inv(s') && HomesKept(s, s') && Grows(s, s')
    requires t in s.store.tokens && pid in s'.calls && Exchanged(s'.calls[pid]) && s'.calls[pid].token == t
    ensures s.store.tokens[t] in s.store.entries
    ensures s'.calls[pid].entry in s'.store.entries
    ensures s'.store.entries[s'.calls[pid].entry].family == s.store.entries[s.store.tokens[t]].family
  {
    hide Exchanges, OneSeat, Revocations;
    var r, r' := s.store.tokens[t], s'.calls[pid].entry;
    assert Held(s'.calls[pid]) == Some(r');
    assert s.home[r] == t && s'.home[r] == t && s'.home[r'] == t;
    assert r == r';
  }

  /** After a wallet has logged out everywhere, no rotation begun later exchanges a
      token that was stored for it, nor any other token of those families. */
  lemma LogoutAllStopsStoredTokens(steps: seq<Step>, i: nat, j: nat, w: Wallet, pid: Pid)
    requires i < j <= |steps| && steps[i] == LogoutAll(w)
    requires pid !in ServerAt(steps, i).calls
    requires pid in ServerAt(steps, j).calls && Exchanged(ServerAt(steps, j).calls[pid])
    ensures var s, s' := ServerAt(steps, i).store, ServerAt(steps, j);
            && s'.store.entries[s'.calls[pid].entry].family !in FamiliesOf(s, w)
            && s'.calls[pid].token !in TokensOf(s, w)
  {
    hide *;
    ServerAfter(steps, i);
    var s, s1, s' := ServerAt(steps, i), ServerAt(steps, i + 1), ServerAt(steps, j);
    LogoutAllRevokesStoredFamilies(s, w);
    RunGrows(steps, i, j);
    RunKeepsHomes(steps, i, j);
    ServerIsSound(steps, j);
    ExchangedIsKnown(s', pid);
    var t := s'.calls[pid].token;
    if t in TokensOf(s.store, w) {
      TokenHasFamily(s.store, w, t);
      ExchangedEntry(s, s', t, pid);
    }
    forall f | f in FamiliesOf(s.store, w)
      ensures s'.store.entries[s'.calls[pid].entry].family != f
    {
      NoExchangeAfterRevocation(steps, i + 1, j, pid, f);
    }
  }

  lemma ServerIsSound(steps: seq<Step>, i: nat)
    requires i <= |steps|
    ensures Inv(ServerAt(steps, i)) && Valid(ServerAt(steps, i).store) && EntriesKnown(ServerAt(steps, i))
  {
    hide Next;
  }

  lemma ExchangedIsKnown(s: Server, pid: Pid)
    requires EntriesKnown(s) && pid in s.calls && Exchanged(s.calls[pid])
    ensures s.calls[pid].Marked? || s.calls[pid].Rotated?
    ensures s.calls[pid].entry in s.store.entries
  {
    assert Held(s.calls[pid]) == Some(s.calls[pid].entry);
  }

  lemma TokenHasFamily(s: Store, w: Wallet, t: Token)
    requires Valid(s) && t in TokensOf(s, w)
    ensures t in s.tokens && s.tokens[t] in s.entries
    ensures s.entries[s.tokens[t]].family in FamiliesOf(s, w)
  {
  }

  // ---- A session that outlives logging out everywhere ----

  /** A token is presented and checked in time; it expires, and another look-up
      makes the store forget it; its wallet logs out everywhere; and then the
      rotation goes on. */
  function ForgottenTokenRun(): seq<Step> {
    [ Login(7, 1, 5, 10), Present(1, 1), Resume(1, 2, 11), Tick(TTL + 1), Present(2, 1),
      LogoutAll(7), Resume(1, 2, 11), Resume(1, 2, 11) ]
  }

  const OLD_ENTRY: Entry := Entry(7, 5, TTL, false)

  lemma LogsIn(s: Server)
    requires s == START && Inv(s)
    ensures Next(s, Login(7, 1, 5, 10)) == Server(Store(map[10 := OLD_ENTRY], map[1 := 10], {}), 0, map[], map[10 := 1])
  {
    hide Inv;
    assert Valid(s.store) && EntriesKnown(s);
  }

  lemma IsPresentedAndChecked(s: Server)
    requires s == Server(Store(map[10 := OLD_ENTRY], map[1 := 10], {}), 0, map[], map[10 := 1])
    requires Inv(s) && Inv(Next(s, Present(1, 1)))
    ensures Next(Next(s, Present(1, 1)), Resume(1, 2, 11)) == s.(calls := map[1 := Checked(1, 10, 0, false)])
  {
    assert Next(s, Present(1, 1)) == s.(calls := map[1 := Presented(1, Some(10))]);
    hide Inv;
  }

  lemma IsForgotten(s: Server)
    requires s == Server(Store(map[10 := OLD_ENTRY], map[1 := 10], {}), TTL + 1, map[1 := Checked(1, 10, 0, false)],
                         map[10 := 1])
    requires Inv(s)
    ensures Next(s, Present(2, 1)).store == Store(map[10 := OLD_ENTRY], map[], {})
    ensures Next(s, Present(2, 1)).calls == map[1 := Checked(1, 10, 0, false), 2 := Presented(1, None)]
    ensures Next(s, Present(2, 1)).home == s.home && Next(s, Present(2, 1)).clock == s.clock
  {
    assert Valid(s.store) && EntriesKnown(s);
    hide Inv;
  }

  lemma LogsOutOfNothing(s: Server)
    requires s.store == Store(map[10 := OLD_ENTRY], map[], {}) && Inv(s)
    ensures Next(s, LogoutAll(7)) == s
  {
    assert TokensOf(s.store, 7) == {} && FamiliesOf(s.store, 7) == {};
    assert Valid(s.store) && EntriesKnown(s);
    hide Inv;
  }

  lemma RotationGoesOn(s: Server)
    requires s.store == Store(map[10 := OLD_ENTRY], map[], {}) && s.home == map[10 := 1] && s.clock == TTL + 1
    requires s.calls == map[1 := Checked(1, 10, 0, false), 2 := Presented(1, None)]
    requires Inv(s) && Inv(Next(s, Resume(1, 2, 11)))
    ensures var t := Next(Next(s, Resume(1, 2, 11)), Resume(1, 2, 11));
            && t.store.revokedFamilies == {} && 2 in t.store.tokens && t.store.tokens[2] == 11 && 11 in t.store.entries
            && t.store.entries[11] == Entry(7, 5, TTL + 1 + TTL, false)
  {
    assert Valid(s.store) && EntriesKnown(s);
    var m := Next(s, Resume(1, 2, 11));
    assert m.calls[1] == Marked(1, 10) && m.home == map[10 := 1]
           && m.store.entries == map[10 := OLD_ENTRY.(revoked := true)];
    assert m.store.revokedFamilies == {} && m.clock == TTL + 1;
    hide Inv;
    assert Fresh(m, 2, 11);
  }

  /** After logging out everywhere a wallet can still be issued a live token, in a
      family that is not revoked: its rotation was under way when the store had
      already forgotten the token. */
  lemma LogoutAllCanMissASession(steps: seq<Step>)
    requires steps == ForgottenTokenRun()
    ensures steps[5] == LogoutAll(7)
    ensures var s := ServerAt(steps, 8).store;
            && 2 in s.tokens && s.tokens[2] in s.entries && s.entries[s.tokens[2]].wallet == 7
            && !s.entries[s.tokens[2]].revoked && s.entries[s.tokens[2]].family !in s.revokedFamilies
  {
    hide Next, Inv, ServerAt;
    ServerStarts(steps);
    ServerAfter(steps, 0);
    ServerAfter(steps, 1);
    ServerAfter(steps, 2);
    ServerAfter(steps, 3);
    ServerAfter(steps, 4);
    ServerAfter(steps, 5);
    ServerAfter(steps, 6);
    ServerAfter(steps, 7);
    LogsIn(ServerAt(steps, 0));
    IsPresentedAndChecked(ServerAt(steps, 1));
    TimePasses(ServerAt(steps, 3), TTL + 1);
    IsForgotten(ServerAt(steps, 4));
    LogsOutOfNothing(ServerAt(steps, 5));
    RotationGoesOn(ServerAt(steps, 6));
  }

  lemma ServerStarts(steps: seq<Step>)
    ensures ServerAt(steps, 0) == START
  {
    hide Inv, Next;
  }

  lemma TimePasses(s: Server, clock: int)
    requires Inv(s) && clock >= s.clock
    ensures Next(s, Tick(clock)) == s.(clock := clock)
  {
    hide References, Exchanges, OneSeat, Revocations;
  }

  /** How far dropping a wallet's tokens has come: all but `pending` are done. */
  ghost predicate DroppedSoFar(s: Store, w: Wallet, pending: set<Token>, left: map<Token, Ref>, families: set<Family>,
                               count: nat)
    requires Valid(s)
  {
    var dropped := TokensOf(s, w) - pending;
    && pending <= s.tokens.Keys
    && left == s.tokens - dropped
    && families == FamiliesAmong(s, dropped)
    && count == |dropped|
  }

  lemma DroppingStarts(s: Store, w: Wallet)
    requires Valid(s)
    ensures DroppedSoFar(s, w, s.tokens.Keys, s.tokens, {}, 0)
  {
    assert TokensOf(s, w) - s.tokens.Keys == {};
  }

  lemma DroppingEnds(s: Store, w: Wallet, left: map<Token, Ref>, families: set<Family>, count: nat)
    requires Valid(s) && DroppedSoFar(s, w, {}, left, families, count)
    ensures left == s.tokens - TokensOf(s, w) && families == FamiliesOf(s, w) && count == |TokensOf(s, w)|
  {
    assert TokensOf(s, w) - {} == TokensOf(s, w);
  }

  lemma DroppingStep(s: Store, w: Wallet, pending: set<Token>, left: map<Token, Ref>, families: set<Family>, count: nat,
                     t: Token)
    requires Valid(s) && DroppedSoFar(s, w, pending, left, families, count) && t in pending
    ensures t in left && left[t] == s.tokens[t] && left[t] in s.entries
    ensures var e := s.entries[s.tokens[t]];
            if e.wallet == w
            then DroppedSoFar(s, w, pending - {t}, left - {t}, families + {e.family}, count + 1)
            else DroppedSoFar(s, w, pending - {t}, left, families, count)
  {
    var dropped := TokensOf(s, w) - pending;
    if s.entries[s.tokens[t]].wallet == w {
      OneMoreFamily(s, dropped, t);
      assert TokensOf(s, w) - (pending - {t}) == dropped + {t};
      assert left - {t} == s.tokens - (dropped + {t});
    } else {
      assert TokensOf(s, w) - (pending - {t}) == dropped;
    }
    hide TokensOf, FamiliesAmong;
  }

  // ---- The store as it is updated in place ----

  class InMemoryRefreshTokenStore {
    var entries: map<Ref, Entry>
    var tokens: map<Token, Ref>
    var revokedFamilies: set<Family>

    function Contents(): Store
      reads this
    {
      Store(entries, tokens, revokedFamilies)
    }

    constructor ()
      ensures Contents() == START.store && Valid(Contents())
    {
      entries, tokens, revokedFamilies := map[], map[], {};
    }

    method LookUp(clock: int, token: Token) returns (found: Option<Ref>)
      requires Valid(Contents())
      modifies this`tokens
      ensures (Contents(), found) == Get(old(Contents()), clock, token) && Valid(Contents())
    {
      if token !in tokens {
        return None;
      }
      var entry := tokens[token];
      if entries[entry].expiresAt < clock {
        tokens := tokens - {token};
        return None;
      }
      return Some(entry);
    }

    /** The check and the mark of a rotation, in one segment: true when the token
        was exchanged. */
    method Exchange(token: Token, entry: Ref, now: int, familyRevoked: bool) returns (next: Call)
      requires Valid(Contents()) && entry in entries
      modifies this
      ensures Valid(Contents())
      ensures var s := Server(old(Contents()), 0, map[0 := Checked(token, entry, now, familyRevoked)], map[]);
              var s' := Continue(s, 0, 0, 0);
              Contents() == s'.store && next == s'.calls[0]
    {
      if familyRevoked {
        tokens := tokens - {token};
        return Rejected(token, entry);
      }
      if entries[entry].revoked {
        revokedFamilies := revokedFamilies + {entries[entry].family};
        return Replayed(token, entry);
      }
      if entries[entry].expiresAt < now {
        tokens := tokens - {token};
        return Invalid(token);
      }
      entries := entries[entry := entries[entry].(revoked := true)];
      tokens := tokens[token := entry];
      return Marked(token, entry);
    }

    /** Deletes, one by one, the tokens of a family. */
    method ForgetFamily(family: Family)
      requires Valid(Contents())
      modifies this`tokens
      ensures Contents() == DeleteFamily(old(Contents()), family) && Valid(Contents())
    {
      var pending := tokens.Keys;
      while pending != {}
        invariant pending <= tokens.Keys
        invariant tokens.Keys == pending + (DeleteFamily(old(Contents()), family).tokens.Keys - pending)
        invariant forall t <- tokens.Keys :: t in old(tokens) && tokens[t] == old(tokens)[t]
        decreases pending
      {
        var t :| t in pending;
        if entries[tokens[t]].family == family {
          tokens := tokens - {t};
        }
        pending := pending - {t};
      }
    }

    /** Logout everywhere: drops the wallet's tokens and revokes their families. */
    method RevokeAllSessions(wallet: Wallet) returns (revokedCount: nat)
      requires Valid(Contents())
      modifies this`tokens, this`revokedFamilies
      ensures Contents() == RevokeAll(old(Contents()), wallet) && Valid(Contents())
      ensures revokedCount == |TokensOf(old(Contents()), wallet)|
    {
      var familiesToRevoke;
      familiesToRevoke, revokedCount := DropTokensOf(wallet);
      RevokeFamilies(familiesToRevoke);
    }

    /** The loop over the tokens of the cache. */
    method DropTokensOf(wallet: Wallet) returns (families: set<Family>, count: nat)
      requires Valid(Contents())
      modifies this`tokens
      ensures tokens == old(tokens) - TokensOf(old(Contents()), wallet)
      ensures families == FamiliesOf(old(Contents()), wallet)
      ensures count == |TokensOf(old(Contents()), wallet)|
    {
      ghost var before := Contents();
      DroppingStarts(before, wallet);
      families, count := {}, 0;
      var pending := tokens.Keys;
      while pending != {}
        invariant entries == before.entries
        invariant DroppedSoFar(before, wallet, pending, tokens, families, count)
        decreases pending
      {
        hide DroppedSoFar, FamiliesAmong, TokensOf;
        var t :| t in pending;
        DroppingStep(before, wallet, pending, tokens, families, count, t);
        if entries[tokens[t]].wallet == wallet {
          families := families + {entries[tokens[t]].family};
          tokens := tokens - {t};
          count := count + 1;
        }
        pending := pending - {t};
      }
      DroppingEnds(before, wallet, tokens, families, count);
    }

    method RevokeFamilies(families: set<Family>)
      modifies this`revokedFamilies
      ensures revokedFamilies == old(revokedFamilies) + families
    {
      var pending := families;
      while pending != {}
        invariant pending <= families
        invariant revokedFamilies == old(revokedFamilies) + (families - pending)
        decreases pending
      {
        var f :| f in pending;
        revokedFamilies := revokedFamilies + {f};
        pending := pending - {f};
      }
    }
  }
}
