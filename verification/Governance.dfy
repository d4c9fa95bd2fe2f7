/** Strategy proposals and votes: `contracts/vault/src/lib.rs`, lines 810-916.

    Votes carry weights chosen by the voter; an executed proposal names the
    strategy that may report yield.
 */
module Governance {
  import opened Checked
  import opened Sums
  import opened Token

  const U32_MAX: int := 0xffff_ffff

  datatype Proposal = Proposal(strategy: Address, yesVotes: int, noVotes: int, executed: bool)

  datatype Dao = Dao(
    threshold: int,
    nonce: nat,
    proposals: map<nat, Proposal>,
    votes: set<(nat, Address)>,
    benjiStrategy: Option<Address>
  )

  datatype Action =
    | CreateProposal(proposer: Address, strategy: Address)
    | Vote(voter: Address, id: nat, support: bool, weight: int)
    | Execute(id: nat)
    | SetThreshold(threshold: int)

  const INITIAL := Dao(1, 0, map[], {}, None)

  function CreateStrategyProposal(d: Dao, signers: set<Address>, proposer: Address, strategy: Address)
    : Outcome<(Dao, int)>
  {
    if proposer !in signers then Panic else
    var id := d.nonce + 1;
    :- Insist(id <= U32_MAX);
    Done((d.(nonce := id, proposals := d.proposals[id := Proposal(strategy, 0, 0, false)]), id))
  }

  function VoteOnProposal(d: Dao, signers: set<Address>, voter: Address, id: nat, support: bool, weight: int)
    : Outcome<(Dao, int)>
  {
    if voter !in signers then Panic else
    :- Insist(weight > 0);
    :- Insist((id, voter) !in d.votes);
    :- Insist(id in d.proposals);
    var p := d.proposals[id];
    :- Insist(!p.executed);
    var tally :- Add(if support then p.yesVotes else p.noVotes, weight);
    var counted := if support then p.(yesVotes := tally) else p.(noVotes := tally);
    Done((d.(proposals := d.proposals[id := counted], votes := d.votes + {(id, voter)}), 0))
  }

  function ExecuteStrategyProposal(d: Dao, id: nat): Outcome<(Dao, int)> {
    if id !in d.proposals then Panic else
    var p := d.proposals[id];
    :- Insist(!p.executed);
    :- Insist(p.yesVotes >= d.threshold);
    :- Insist(p.yesVotes > p.noVotes);
    Done((d.(benjiStrategy := Some(p.strategy), proposals := d.proposals[id := p.(executed := true)]), 0))
  }

  function SetDaoThreshold(d: Dao, signers: set<Address>, admin: Address, threshold: int): Outcome<(Dao, int)> {
    if admin !in signers then Panic else
    :- Insist(threshold > 0);
    Done((d.(threshold := threshold), 0))
  }

  function Perform(d: Dao, signers: set<Address>, admin: Address, a: Action): Outcome<(Dao, int)> {
    match a
    case CreateProposal(proposer, strategy) => CreateStrategyProposal(d, signers, proposer, strategy)
    case Vote(voter, id, support, weight) => VoteOnProposal(d, signers, voter, id, support, weight)
    case Execute(id) => ExecuteStrategyProposal(d, id)
    case SetThreshold(threshold) => SetDaoThreshold(d, signers, admin, threshold)
  }

  // ---- Runs ----

  datatype Request = Request(signers: set<Address>, admin: Address, action: Action)

  predicate Accepted(d: Dao, r: Request) {
    Perform(d, r.signers, r.admin, r.action).Done?
  }

  /** A refused request leaves the state as it was. */
  function After(d: Dao, r: Request): Dao {
    var o := Perform(d, r.signers, r.admin, r.action);
    if o.Done? then o.value.0 else d
  }

  function DaoAt(rs: seq<Request>, i: nat): Dao
    requires i <= |rs|
  {
    if i == 0 then INITIAL else After(DaoAt(rs, i - 1), rs[i - 1])
  }

  /** The weights each voter cast for `id` with the given support, from the run's
      accepted votes. A second vote by the same voter would overwrite an entry,
      but an accepted vote is its voter's first (`VaultGovernance.VotesCountOnce`). */
  function Ballots(rs: seq<Request>, i: nat, id: nat, support: bool): map<Address, int>
    requires i <= |rs|
  {
    if i == 0 then map[]
    else
      var earlier := Ballots(rs, i - 1, id, support);
      var r := rs[i - 1];
      if r.action.Vote? && r.action.id == id && r.action.support == support && Accepted(DaoAt(rs, i - 1), r)
      then earlier[r.action.voter := r.action.weight]
      else earlier
  }

  ghost predicate Consistent(d: Dao) {
    && (forall id <- d.proposals :: 1 <= id <= d.nonce)
    && (forall v <- d.votes :: v.0 in d.proposals)
    && (forall id <- d.proposals :: d.proposals[id].executed ==> d.proposals[id].yesVotes > d.proposals[id].noVotes)
    && (d.benjiStrategy.Some? ==>
          exists id :: id in d.proposals && d.proposals[id].executed
            && d.proposals[id].strategy == d.benjiStrategy.value)
  }

  lemma StepKeepsConsistent(d: Dao, signers: set<Address>, admin: Address, a: Action)
    requires Consistent(d) && Perform(d, signers, admin, a).Done?
    ensures Consistent(Perform(d, signers, admin, a).value.0)
  {
    var d' := Perform(d, signers, admin, a).value.0;
    if a.Execute? {
      assert a.id in d'.proposals && d'.proposals[a.id].executed;
    } else if d.benjiStrategy.Some? {
      var id :| id in d.proposals && d.proposals[id].executed && d.proposals[id].strategy == d.benjiStrategy.value;
      assert id in d'.proposals && d'.proposals[id] == d.proposals[id];
    }
  }

  lemma {:induction false} RunsStayConsistent(rs: seq<Request>, i: nat)
    requires i <= |rs|
    ensures Consistent(DaoAt(rs, i))
  {
    if i > 0 {
      RunsStayConsistent(rs, i - 1);
      if Accepted(DaoAt(rs, i - 1), rs[i - 1]) {
        StepKeepsConsistent(DaoAt(rs, i - 1), rs[i - 1].signers, rs[i - 1].admin, rs[i - 1].action);
      }
    }
  }

  /** The tallies of proposal `id` are the sums of its ballots; each voter has
      cast one ballot, on one side. */
  ghost predicate Tallied(d: Dao, id: nat, yes: map<Address, int>, no: map<Address, int>) {
    && yes.Keys !! no.Keys
    && (forall v :: v in yes || v in no <==> (id, v) in d.votes)
    && (id in d.proposals ==> d.proposals[id].yesVotes == Sum(yes) && d.proposals[id].noVotes == Sum(no))
    && (id !in d.proposals ==> yes == map[] && no == map[])
  }

  lemma VoteIsTallied(d: Dao, r: Request, yes: map<Address, int>, no: map<Address, int>)
    requires Consistent(d) && r.action.Vote? && Accepted(d, r) && Tallied(d, r.action.id, yes, no)
    ensures r.action.support ==> Tallied(After(d, r), r.action.id, yes[r.action.voter := r.action.weight], no)
    ensures !r.action.support ==> Tallied(After(d, r), r.action.id, yes, no[r.action.voter := r.action.weight])
  {
    assert r.action.voter !in yes && r.action.voter !in no;
    SumUpdate(yes, r.action.voter, r.action.weight);
    SumUpdate(no, r.action.voter, r.action.weight);
  }

  lemma OtherStepsKeepTallies(d: Dao, r: Request, id: nat, yes: map<Address, int>, no: map<Address, int>)
    requires Consistent(d) && Tallied(d, id, yes, no)
    requires !(r.action.Vote? && r.action.id == id && Accepted(d, r))
    ensures Tallied(After(d, r), id, yes, no)
  {
    if r.action.CreateProposal? && Accepted(d, r) && d.nonce + 1 == id {
      assert id !in d.proposals;
      assert yes == map[] && no == map[];
    }
  }

  /** In every reachable state the tallies of a proposal are the sums of the
      weights of its distinct voters, and each voter is on one side only. */
  lemma {:induction false} TalliesAreBallots(rs: seq<Request>, i: nat, id: nat)
    requires i <= |rs|
    ensures Tallied(DaoAt(rs, i), id, Ballots(rs, i, id, true), Ballots(rs, i, id, false))
  {
    if i > 0 {
      TalliesAreBallots(rs, i - 1, id);
      RunsStayConsistent(rs, i - 1);
      var d, r := DaoAt(rs, i - 1), rs[i - 1];
      var yes, no := Ballots(rs, i - 1, id, true), Ballots(rs, i - 1, id, false);
      if r.action.Vote? && r.action.id == id && Accepted(d, r) {
        VoteIsTallied(d, r, yes, no);
      } else {
        OtherStepsKeepTallies(d, r, id, yes, no);
      }
    }
  }

  /** Once executed, a proposal never changes again, and its yes votes exceed
      its no votes for ever. */
  lemma {:induction false} ExecutedIsFrozen(rs: seq<Request>, i: nat, j: nat, id: nat)
    requires i <= j <= |rs|
    requires id in DaoAt(rs, i).proposals && DaoAt(rs, i).proposals[id].executed
    ensures id in DaoAt(rs, j).proposals && DaoAt(rs, j).proposals[id] == DaoAt(rs, i).proposals[id]
    ensures DaoAt(rs, j).proposals[id].yesVotes > DaoAt(rs, j).proposals[id].noVotes
    decreases j
  {
    RunsStayConsistent(rs, i);
    if i < j {
      ExecutedIsFrozen(rs, i, j - 1, id);
      RunsStayConsistent(rs, j - 1);
    }
  }
}
