/** The governance state told from the requests alone: what was proposed, who
    voted how, what was executed and which threshold is in force, and with it
    exactly which requests are accepted (`contracts/vault/src/lib.rs`, lines
    810-916). */
module GovernanceHistory {
  import opened Checked
  import opened Sums
  import opened Token
  import opened Governance

  // ---- What the accepted requests say ----

  predicate AcceptedAt(rs: seq<Request>, k: nat)
    requires k < |rs|
  {
    Accepted(DaoAt(rs, k), rs[k])
  }

  /** The strategies proposed, in order; proposal `id` is the id-th of them. */
  function Proposed(rs: seq<Request>, i: nat): seq<Address>
    requires i <= |rs|
  {
    if i == 0 then []
    else if rs[i - 1].action.CreateProposal? && AcceptedAt(rs, i - 1)
    then Proposed(rs, i - 1) + [rs[i - 1].action.strategy]
    else Proposed(rs, i - 1)
  }

  /** The threshold in force: the last one set, or the default. */
  function Threshold(rs: seq<Request>, i: nat): int
    requires i <= |rs|
  {
    if i == 0 then 1
    else if rs[i - 1].action.SetThreshold? && AcceptedAt(rs, i - 1) then rs[i - 1].action.threshold
    else Threshold(rs, i - 1)
  }

  predicate ExecutesAt(rs: seq<Request>, k: nat, id: nat)
    requires k < |rs|
  {
    rs[k].action == Execute(id) && AcceptedAt(rs, k)
  }

  predicate ExecutedBefore(rs: seq<Request>, i: nat, id: nat)
    requires i <= |rs|
  {
    exists k :: 0 <= k < i && ExecutesAt(rs, k, id)
  }

  /** The proposal executed last. */
  function LastExecuted(rs: seq<Request>, i: nat): Option<nat>
    requires i <= |rs|
  {
    if i == 0 then None
    else if rs[i - 1].action.Execute? && AcceptedAt(rs, i - 1) then Some(rs[i - 1].action.id)
    else LastExecuted(rs, i - 1)
  }

  predicate Exists(rs: seq<Request>, i: nat, id: nat)
    requires i <= |rs|
  {
    1 <= id <= |Proposed(rs, i)|
  }

  ghost function Yes(rs: seq<Request>, i: nat, id: nat): int
    requires i <= |rs|
  {
    Sum(Ballots(rs, i, id, true))
  }

  ghost function No(rs: seq<Request>, i: nat, id: nat): int
    requires i <= |rs|
  {
    Sum(Ballots(rs, i, id, false))
  }

  /** Enough votes, and more for than against. */
  ghost predicate Carried(rs: seq<Request>, i: nat, id: nat)
    requires i <= |rs|
  {
    Yes(rs, i, id) >= Threshold(rs, i) && Yes(rs, i, id) > No(rs, i, id)
  }

  /** The state holds what the history says. */
  ghost predicate Told(d: Dao, rs: seq<Request>, i: nat)
    requires i <= |rs|
  {
    && d.nonce == |Proposed(rs, i)| && d.threshold == Threshold(rs, i)
    && (forall id :: id in d.proposals <==> Exists(rs, i, id))
    && (forall id <- d.proposals.Keys ::
          && d.proposals[id].strategy == Proposed(rs, i)[id - 1]
          && (d.proposals[id].executed <==> ExecutedBefore(rs, i, id)))
    && (forall id :: ExecutedBefore(rs, i, id) ==> Exists(rs, i, id))
    && match LastExecuted(rs, i)
       case None => d.benjiStrategy == None
       case Some(id) => ExecutedBefore(rs, i, id) && d.benjiStrategy == Some(Proposed(rs, i)[id - 1])
  }

  lemma ExecutedSoFar(rs: seq<Request>, i: nat, id: nat)
    requires 0 < i <= |rs|
    ensures ExecutedBefore(rs, i, id) <==> ExecutedBefore(rs, i - 1, id) || ExecutesAt(rs, i - 1, id)
  {
    hide ExecutesAt;
  }

  /** A request that is refused, or votes, leaves all of this alone. */
  lemma OtherRequestIsTold(rs: seq<Request>, i: nat)
    requires 0 < i <= |rs| && Told(DaoAt(rs, i - 1), rs, i - 1)
    requires !AcceptedAt(rs, i - 1) || rs[i - 1].action.Vote? || rs[i - 1].action.SetThreshold?
    ensures Told(DaoAt(rs, i), rs, i)
  {
    forall id
      ensures ExecutedBefore(rs, i, id) <==> ExecutedBefore(rs, i - 1, id)
    {
      ExecutedSoFar(rs, i, id);
    }
    hide ExecutedBefore;
  }

  lemma CreationIsTold(rs: seq<Request>, i: nat)
    requires 0 < i <= |rs| && Told(DaoAt(rs, i - 1), rs, i - 1)
    requires AcceptedAt(rs, i - 1) && rs[i - 1].action.CreateProposal?
    ensures Told(DaoAt(rs, i), rs, i)
  {
    forall id
      ensures ExecutedBefore(rs, i, id) <==> ExecutedBefore(rs, i - 1, id)
    {
      ExecutedSoFar(rs, i, id);
    }
    hide ExecutedBefore;
  }

  lemma ExecutionIsTold(rs: seq<Request>, i: nat)
    requires 0 < i <= |rs| && Told(DaoAt(rs, i - 1), rs, i - 1)
    requires AcceptedAt(rs, i - 1) && rs[i - 1].action.Execute?
    ensures Told(DaoAt(rs, i), rs, i)
  {
    forall id
      ensures ExecutedBefore(rs, i, id) <==> ExecutedBefore(rs, i - 1, id) || id == rs[i - 1].action.id
    {
      ExecutedSoFar(rs, i, id);
    }
    hide ExecutedBefore;
  }

  /** In every reachable state: the proposals are those created, numbered in order
      and naming the strategy asked for; exactly the executed ones are marked so; the
      threshold is the last one set; and the strategy that may report yield is that
      of the proposal executed last. */
  lemma {:induction false} DaoIsItsHistory(rs: seq<Request>, i: nat)
    requires i <= |rs|
    ensures Told(DaoAt(rs, i), rs, i)
  {
    if i > 0 {
      DaoIsItsHistory(rs, i - 1);
      hide Told, DaoAt, ExecutedBefore, Proposed, Threshold, LastExecuted, AcceptedAt;
      if !AcceptedAt(rs, i - 1) {
        OtherRequestIsTold(rs, i);
      } else {
        match rs[i - 1].action
        case CreateProposal(_, _) => CreationIsTold(rs, i);
        case Execute(_) => ExecutionIsTold(rs, i);
        case _ => OtherRequestIsTold(rs, i);
      }
    }
  }

  // ---- Which requests are accepted ----

  /** May this request be made after the first `i`? Told from the history. */
  ghost predicate Allowed(rs: seq<Request>, i: nat, r: Request)
    requires i <= |rs|
  {
    match r.action
    case CreateProposal(proposer, _) => proposer in r.signers && |Proposed(rs, i)| < U32_MAX
    case Vote(voter, id, support, weight) =>
      && voter in r.signers && weight > 0
      && Exists(rs, i, id) && !ExecutedBefore(rs, i, id)
      && voter !in Ballots(rs, i, id, true) && voter !in Ballots(rs, i, id, false)
      && (if support then Yes(rs, i, id) else No(rs, i, id)) + weight <= I128_MAX
    case Execute(id) => Exists(rs, i, id) && !ExecutedBefore(rs, i, id) && Carried(rs, i, id)
    case SetThreshold(threshold) => r.admin in r.signers && threshold > 0
  }

  ghost predicate AllPositive(m: map<Address, int>) {
    forall v <- m.Keys :: m[v] > 0
  }

  lemma {:induction false} BallotsArePositive(rs: seq<Request>, i: nat, id: nat, support: bool)
    requires i <= |rs|
    ensures AllPositive(Ballots(rs, i, id, support))
  {
    hide DaoAt;
    if i > 0 {
      BallotsArePositive(rs, i - 1, id, support);
    }
  }

  lemma SumIsNotNegative(m: map<Address, int>)
    requires AllPositive(m)
    ensures Sum(m) >= 0
  {
    SumBoundsEntry(m, 0);
  }

  lemma VoteAcceptedIff(d: Dao, rs: seq<Request>, i: nat, r: Request)
    requires i <= |rs| && r.action.Vote? && Told(d, rs, i)
    requires Tallied(d, r.action.id, Ballots(rs, i, r.action.id, true), Ballots(rs, i, r.action.id, false))
    requires Yes(rs, i, r.action.id) >= 0 && No(rs, i, r.action.id) >= 0
    ensures Accepted(d, r) <==> Allowed(rs, i, r)
  {
    hide Proposed, Threshold, LastExecuted, ExecutedBefore, Ballots, DaoAt, Sum;
  }

  lemma ExecuteAcceptedIff(d: Dao, rs: seq<Request>, i: nat, r: Request)
    requires i <= |rs| && r.action.Execute? && Told(d, rs, i)
    requires Tallied(d, r.action.id, Ballots(rs, i, r.action.id, true), Ballots(rs, i, r.action.id, false))
    ensures Accepted(d, r) <==> Allowed(rs, i, r)
  {
    hide Proposed, Threshold, LastExecuted, ExecutedBefore, Ballots, DaoAt, Sum;
  }

  /** A request is accepted if and only if the history allows it: a vote must be its
      voter's first on a proposal that exists and is not executed, an execution needs
      the quorum in force and a majority, and each needs its signature. */
  lemma AcceptedIff(rs: seq<Request>, i: nat, r: Request)
    requires i <= |rs|
    ensures Accepted(DaoAt(rs, i), r) <==> Allowed(rs, i, r)
  {
    DaoIsItsHistory(rs, i);
    match r.action {
      case Vote(_, id, _, _) =>
        TalliesAreBallots(rs, i, id);
        BallotsArePositive(rs, i, id, true);
        BallotsArePositive(rs, i, id, false);
        SumIsNotNegative(Ballots(rs, i, id, true));
        SumIsNotNegative(Ballots(rs, i, id, false));
        hide Told, Tallied, Allowed, DaoAt, Ballots, Accepted;
        VoteAcceptedIff(DaoAt(rs, i), rs, i, r);
      case Execute(id) =>
        TalliesAreBallots(rs, i, id);
        hide Told, Tallied, Allowed, DaoAt, Ballots, Accepted;
        ExecuteAcceptedIff(DaoAt(rs, i), rs, i, r);
      case _ => hide DaoAt, Proposed, ExecutedBefore, LastExecuted, Threshold;
    }
  }

  /** A new proposal is numbered next. */
  lemma CreationNumbers(rs: seq<Request>, i: nat, r: Request)
    requires i <= |rs| && r.action.CreateProposal? && Accepted(DaoAt(rs, i), r)
    ensures Perform(DaoAt(rs, i), r.signers, r.admin, r.action).value.1 == |Proposed(rs, i)| + 1
  {
    DaoIsItsHistory(rs, i);
    hide DaoAt, Proposed, ExecutedBefore, LastExecuted, Threshold;
  }

  // ---- Who may report yield ----

  lemma {:induction false} LastIsExecuted(rs: seq<Request>, i: nat) returns (k: nat)
    requires i <= |rs| && LastExecuted(rs, i).Some?
    ensures k < i && ExecutesAt(rs, k, LastExecuted(rs, i).value)
    ensures forall m :: k < m < i ==> !(rs[m].action.Execute? && AcceptedAt(rs, m))
  {
    hide AcceptedAt;
    if rs[i - 1].action.Execute? && AcceptedAt(rs, i - 1) {
      k := i - 1;
    } else {
      k := LastIsExecuted(rs, i - 1);
    }
  }

  lemma {:induction false} ProposedGrows(rs: seq<Request>, i: nat, j: nat)
    requires i <= j <= |rs|
    ensures Proposed(rs, i) <= Proposed(rs, j)
    decreases j
  {
    hide AcceptedAt;
    if i < j {
      ProposedGrows(rs, i, j - 1);
    }
  }

  /** At request `k` the proposal was executed, with its quorum and majority, and its
      creator had named the strategy. */
  ghost predicate VotedIn(rs: seq<Request>, k: nat, id: nat, strategy: Address)
    requires k < |rs|
  {
    && ExecutesAt(rs, k, id) && Exists(rs, k, id) && Proposed(rs, k)[id - 1] == strategy && Carried(rs, k, id)
  }

  /** The strategy in office was voted in by the last accepted execution. */
  lemma OfficeIsVotedIn(rs: seq<Request>, i: nat, strategy: Address)
    requires i <= |rs| && DaoAt(rs, i).benjiStrategy == Some(strategy)
    ensures exists k, id :: 0 <= k < i && VotedIn(rs, k, id, strategy)
                         && forall m :: k < m < i ==> !(rs[m].action.Execute? && AcceptedAt(rs, m))
  {
    DaoIsItsHistory(rs, i);
    var id := LastExecuted(rs, i).value;
    var k := LastIsExecuted(rs, i);
    AcceptedIff(rs, k, rs[k]);
    ProposedGrows(rs, k, i);
    hide DaoAt, Proposed, ExecutedBefore, LastExecuted, Threshold, Carried;
    assert VotedIn(rs, k, id, strategy);
  }
}
