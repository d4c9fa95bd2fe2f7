/** Governance inside runs of the whole vault: the governance state of a run is
    that of the requests made in it, so what holds of requests holds of runs. */
module VaultGovernance {
  import opened Checked
  import opened Token
  import opened VaultLedger
  import opened ShareAccounting
  import Governance
  import GovernanceHistory
  import Timelock

  /** The governance requests among the first `n` transactions, each with the
      administrator of its time. */
  function Requests(l: Ledger, txs: seq<Tx>, n: nat): seq<Governance.Request>
    requires n <= |txs|
  {
    if n == 0 then []
    else if txs[n - 1].call.CallGovernance? then
      Requests(l, txs, n - 1)
      + [Governance.Request(txs[n - 1].signers, At(l, txs, n - 1).config.admin, txs[n - 1].call.action)]
    else Requests(l, txs, n - 1)
  }

  lemma {:induction false} PrefixOfRequests(rs: seq<Governance.Request>, more: seq<Governance.Request>, i: nat)
    requires i <= |rs|
    ensures Governance.DaoAt(rs + more, i) == Governance.DaoAt(rs, i)
  {
    hide Governance.After;
    if i > 0 {
      PrefixOfRequests(rs, more, i - 1);
    }
  }

  lemma GovernanceStep(l: Ledger, tx: Tx)
    requires tx.call.CallGovernance?
    ensures After(l, tx).dao == Governance.After(l.dao, Governance.Request(tx.signers, l.config.admin, tx.call.action))
    ensures Accepted(l, tx) <==>
              Governance.Accepted(l.dao, Governance.Request(tx.signers, l.config.admin, tx.call.action))
  {
    assert Perform(l, tx) == Govern(l, tx.signers, tx.call.action);
    hide Perform, Governance.Perform;
  }

  lemma OtherStep(l: Ledger, tx: Tx)
    requires CountersAgree(l) && !tx.call.CallGovernance?
    ensures After(l, tx).dao == l.dao
  {
    if tx.call.AdvanceTime? {
      assert Perform(l, tx) == PassTime(l, tx.call.timestamp);
      hide Perform;
    } else {
      Timelock.StepFrame(l, tx);
      hide After;
    }
  }

  /** The governance state of a run is that of its requests. */
  lemma {:induction false} DaoOfRun(admin: Address, tokens: Balances, now: nat, txs: seq<Tx>, n: nat)
    requires n <= |txs|
    ensures var l := Initial(admin, tokens, now);
            At(l, txs, n).dao == Governance.DaoAt(Requests(l, txs, n), |Requests(l, txs, n)|)
  {
    hide Perform, Governance.After, CountersAgree;
    if n > 0 {
      var l := Initial(admin, tokens, now);
      var before, tx, rs := At(l, txs, n - 1), txs[n - 1], Requests(l, txs, n - 1);
      hide Initial;
      DaoOfRun(admin, tokens, now, txs, n - 1);
      CountersAlwaysAgree(admin, tokens, now, txs, n - 1);
      if tx.call.CallGovernance? {
        GovernanceStep(before, tx);
        PrefixOfRequests(rs, [Governance.Request(tx.signers, before.config.admin, tx.call.action)], |rs|);
      } else {
        OtherStep(before, tx);
      }
    }
  }

  lemma {:induction false} RequestsGrow(l: Ledger, txs: seq<Tx>, i: nat, j: nat)
    requires i <= j <= |txs|
    ensures Requests(l, txs, i) <= Requests(l, txs, j)
    decreases j
  {
    hide At;
    if i < j {
      RequestsGrow(l, txs, i, j - 1);
    }
  }

  lemma DaoOfPrefix(rs: seq<Governance.Request>, longer: seq<Governance.Request>)
    requires rs <= longer
    ensures Governance.DaoAt(longer, |rs|) == Governance.DaoAt(rs, |rs|)
  {
    hide Governance.DaoAt;
    PrefixOfRequests(rs, longer[|rs|..], |rs|);
    assert rs + longer[|rs|..] == longer;
  }

  /** In every state of every run of the vault, a proposal's tallies are the sums
      of the weights of its distinct voters, each on one side. */
  lemma TalliesAreBallots(admin: Address, tokens: Balances, now: nat, txs: seq<Tx>, n: nat, id: nat)
    requires n <= |txs|
    ensures var l := Initial(admin, tokens, now);
            var rs := Requests(l, txs, n);
            Governance.Tallied(At(l, txs, n).dao, id,
                               Governance.Ballots(rs, |rs|, id, true), Governance.Ballots(rs, |rs|, id, false))
  {
    hide *;
    DaoOfRun(admin, tokens, now, txs, n);
    var rs := Requests(Initial(admin, tokens, now), txs, n);
    Governance.TalliesAreBallots(rs, |rs|, id);
  }

  /** An accepted vote is the voter's first on that proposal in the whole run. */
  lemma VotesCountOnce(admin: Address, tokens: Balances, now: nat, txs: seq<Tx>, n: nat)
    requires n < |txs| && txs[n].call.CallGovernance? && txs[n].call.action.Vote?
    requires Accepted(At(Initial(admin, tokens, now), txs, n), txs[n])
    ensures var rs, vote := Requests(Initial(admin, tokens, now), txs, n), txs[n].call.action;
            && vote.voter !in Governance.Ballots(rs, |rs|, vote.id, true)
            && vote.voter !in Governance.Ballots(rs, |rs|, vote.id, false)
  {
    var l := Initial(admin, tokens, now);
    var before, vote := At(l, txs, n), txs[n].call.action;
    TalliesAreBallots(admin, tokens, now, txs, n, vote.id);
    GovernanceStep(before, txs[n]);
    hide At, Initial, Requests, Governance.Ballots, Perform;
  }

  lemma ExecutedStays(rs: seq<Governance.Request>, longer: seq<Governance.Request>, id: nat)
    requires rs <= longer
    requires var d := Governance.DaoAt(rs, |rs|); id in d.proposals && d.proposals[id].executed
    ensures var d, d' := Governance.DaoAt(rs, |rs|), Governance.DaoAt(longer, |longer|);
            && id in d'.proposals && d'.proposals[id] == d.proposals[id]
            && d'.proposals[id].yesVotes > d'.proposals[id].noVotes
  {
    hide Governance.DaoAt;
    DaoOfPrefix(rs, longer);
    Governance.ExecutedIsFrozen(longer, |rs|, |longer|, id);
  }

  /** Once executed, a proposal stays as it is in every later state of the run,
      with more yes than no votes. */
  lemma ExecutedIsFrozen(admin: Address, tokens: Balances, now: nat, txs: seq<Tx>, i: nat, j: nat, id: nat)
    requires i <= j <= |txs|
    requires var d := At(Initial(admin, tokens, now), txs, i).dao; id in d.proposals && d.proposals[id].executed
    ensures var d, d' := At(Initial(admin, tokens, now), txs, i).dao, At(Initial(admin, tokens, now), txs, j).dao;
            && id in d'.proposals && d'.proposals[id] == d.proposals[id]
            && d'.proposals[id].yesVotes > d'.proposals[id].noVotes
  {
    hide *;
    var l := Initial(admin, tokens, now);
    DaoOfRun(admin, tokens, now, txs, i);
    DaoOfRun(admin, tokens, now, txs, j);
    RequestsGrow(l, txs, i, j);
    ExecutedStays(Requests(l, txs, i), Requests(l, txs, j), id);
  }

  lemma ExecutionExecutes(l: Ledger, tx: Tx)
    requires tx.call.CallGovernance? && tx.call.action.Execute? && Accepted(l, tx)
    ensures var id := tx.call.action.id;
            && id in l.dao.proposals && !l.dao.proposals[id].executed
            && id in After(l, tx).dao.proposals && After(l, tx).dao.proposals[id].executed
  {
    assert Perform(l, tx) == Govern(l, tx.signers, tx.call.action);
    hide Perform;
  }

  /** No run of the vault executes a proposal twice. */
  lemma ExecutesOnce(admin: Address, tokens: Balances, now: nat, txs: seq<Tx>, i: nat, j: nat)
    requires i < j < |txs|
    requires txs[i].call.CallGovernance? && txs[i].call.action.Execute? && txs[j].call == txs[i].call
    requires Accepted(At(Initial(admin, tokens, now), txs, i), txs[i])
    ensures !Accepted(At(Initial(admin, tokens, now), txs, j), txs[j])
  {
    var l := Initial(admin, tokens, now);
    ExecutionExecutes(At(l, txs, i), txs[i]);
    assert At(l, txs, i + 1) == After(At(l, txs, i), txs[i]);
    hide Perform, Initial, After;
    ExecutedIsFrozen(admin, tokens, now, txs, i + 1, j, txs[i].call.action.id);
    if Accepted(At(l, txs, j), txs[j]) {
      ExecutionExecutes(At(l, txs, j), txs[j]);
    }
  }

  // ---- Acceptance told from the run ----

  /** A governance call of a run is accepted if and only if the requests made before
      allow it: an execution exactly when its proposal was created and not executed,
      has the quorum in force then and more yes than no votes. */
  lemma RequestAcceptedIff(admin: Address, tokens: Balances, now: nat, txs: seq<Tx>, n: nat)
    requires n < |txs| && txs[n].call.CallGovernance?
    ensures var l := Initial(admin, tokens, now);
            var rs := Requests(l, txs, n);
            Accepted(At(l, txs, n), txs[n]) <==>
              GovernanceHistory.Allowed(rs, |rs|, Governance.Request(txs[n].signers, At(l, txs, n).config.admin,
                                                                     txs[n].call.action))
  {
    hide *;
    var l := Initial(admin, tokens, now);
    var rs, before := Requests(l, txs, n), At(l, txs, n);
    DaoOfRun(admin, tokens, now, txs, n);
    GovernanceStep(before, txs[n]);
    GovernanceHistory.AcceptedIff(rs, |rs|,
                                  Governance.Request(txs[n].signers, before.config.admin, txs[n].call.action));
  }

  lemma ReporterIsInOffice(l: Ledger, tx: Tx)
    requires tx.call.CallReportBenjiYield? && Accepted(l, tx)
    ensures tx.call.strategy in tx.signers && l.dao.benjiStrategy == Some(tx.call.strategy)
  {
    assert Perform(l, tx) == ReportBenjiYield(l, tx.signers, tx.call.strategy, tx.call.amount);
    hide Perform, Transfer, RaisedWatermark;
  }

  /** Whoever reports yield signed for it and was voted in by the last execution
      before: a proposal naming it, with the quorum in force then and a majority. */
  lemma ReporterWasVotedIn(admin: Address, tokens: Balances, now: nat, txs: seq<Tx>, n: nat)
    requires n < |txs| && txs[n].call.CallReportBenjiYield?
    requires Accepted(At(Initial(admin, tokens, now), txs, n), txs[n])
    ensures txs[n].call.strategy in txs[n].signers
    ensures var rs := Requests(Initial(admin, tokens, now), txs, n);
            exists k, id :: 0 <= k < |rs| && GovernanceHistory.VotedIn(rs, k, id, txs[n].call.strategy)
                         && forall m :: k < m < |rs| ==>
                              !(rs[m].action.Execute? && GovernanceHistory.AcceptedAt(rs, m))
  {
    hide *;
    var l := Initial(admin, tokens, now);
    var rs := Requests(l, txs, n);
    DaoOfRun(admin, tokens, now, txs, n);
    ReporterIsInOffice(At(l, txs, n), txs[n]);
    GovernanceHistory.OfficeIsVotedIn(rs, |rs|, txs[n].call.strategy);
  }
}
