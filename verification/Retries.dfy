/** What callers of the idempotency store can count on: which calls start an
    operation, that a failed one frees its key, and that everybody who owns or
    joined an operation learns how it ended (`backend/src/idempotency.ts`, lines
    100-177). */
module Retries {
  import opened Idempotency

  // ---- Who holds a key ----

  /** Some caller still owns an operation of the key. */
  ghost predicate OwnedBy(w: World, key: Key, o: OpId) {
    && o in w.operations && w.operations[o].key == key
    && exists p :: p in w.callers && w.callers[p] == Owns(o)
  }

  ghost predicate Owned(w: World, key: Key) {
    exists o :: OwnedBy(w, key, o)
  }

  /** Pending entries have owners, and an operation that has not succeeded found
      no stored response. */
  ghost predicate PendingIsOwned(w: World) {
    && (forall k <- w.tables.pending.Keys :: OwnedBy(w, k, w.tables.pending[k].op))
    && (forall k <- w.tables.pending.Keys ::
          k in w.tables.completed && w.tables.pending[k].op in w.operations ==>
            w.operations[w.tables.pending[k].op].status.Succeeded?)
  }

  /** What the first segment does to what is pending and who owns it. */
  lemma ExecuteMoves(w: World, step: Step)
    requires step.Execute? && step.pid !in w.callers && step.freshOp !in w.operations
    ensures var w', entry := Next(w, step), Pending(step.freshOp, step.fingerprint);
            && (forall p <- w.callers.Keys :: p in w'.callers && w'.callers[p] == w.callers[p])
            && (forall o <- w.operations.Keys :: o in w'.operations && w'.operations[o] == w.operations[o])
            && (forall k <- w'.tables.completed.Keys :: k in w.tables.completed)
            && (|| w'.tables.pending == w.tables.pending
                || (&& w'.tables.pending == w.tables.pending[step.key := entry]
                    && step.key !in w'.tables.completed && step.pid in w'.callers
                    && w'.callers[step.pid] == Owns(step.freshOp) && step.freshOp in w'.operations
                    && w'.operations[step.freshOp].key == step.key))
  {
    hide StandardTtl;
  }

  lemma ExecuteKeepsOwned(w: World, step: Step)
    requires PendingIsOwned(w) && step.Execute?
    ensures PendingIsOwned(Next(w, step))
  {
    if step.pid !in w.callers && step.freshOp !in w.operations {
      ExecuteMoves(w, step);
      hide Next;
      OwnersStay(w, Next(w, step), step);
    }
  }

  lemma OwnersStay(w: World, w': World, step: Step)
    requires PendingIsOwned(w) && step.Execute?
    requires forall p <- w.callers.Keys :: p in w'.callers && w'.callers[p] == w.callers[p]
    requires forall o <- w.operations.Keys :: o in w'.operations && w'.operations[o] == w.operations[o]
    requires forall k <- w'.tables.completed.Keys :: k in w.tables.completed
    requires || w'.tables.pending == w.tables.pending
             || (&& w'.tables.pending == w.tables.pending[step.key := Pending(step.freshOp, step.fingerprint)]
                 && step.key !in w'.tables.completed && step.pid in w'.callers
                 && w'.callers[step.pid] == Owns(step.freshOp) && step.freshOp in w'.operations
                 && w'.operations[step.freshOp].key == step.key)
    ensures PendingIsOwned(w')
  {
    forall k | k in w'.tables.pending
      ensures OwnedBy(w', k, w'.tables.pending[k].op)
    {
      if k in w.tables.pending && w.tables.pending[k] == w'.tables.pending[k] {
        var p :| p in w.callers && w.callers[p] == Owns(w.tables.pending[k].op);
        assert w'.callers[p] == Owns(w'.tables.pending[k].op);
      } else {
        assert w'.callers[step.pid] == Owns(step.freshOp);
      }
    }
  }

  lemma SettlingKeepsOwned(w: World, step: Step)
    requires PendingIsHeld(w) && PendingIsOwned(w) && (step.Succeed? || step.Fail? || step.Tick?)
    ensures PendingIsOwned(Next(w, step))
  {
    var w' := Next(w, step);
    forall k | k in w'.tables.pending
      ensures OwnedBy(w', k, w'.tables.pending[k].op)
    {
      var p :| p in w.callers && w.callers[p] == Owns(w.tables.pending[k].op);
      assert w'.callers[p] == Owns(w'.tables.pending[k].op);
    }
  }

  lemma FinishKeepsOwned(w: World, step: Step)
    requires PendingIsHeld(w) && PendingIsOwned(w) && step.Finish?
    ensures PendingIsOwned(Next(w, step))
  {
    var w' := Next(w, step);
    forall k | k in w'.tables.pending
      ensures OwnedBy(w', k, w'.tables.pending[k].op)
    {
      var p :| p in w.callers && w.callers[p] == Owns(w.tables.pending[k].op);
      assert w'.callers[p] == Owns(w'.tables.pending[k].op);
    }
  }

  lemma {:induction false} PendingAlwaysOwned(ttl: nat, steps: seq<Step>, i: nat)
    requires i <= |steps|
    ensures PendingIsHeld(WorldAt(ttl, steps, i)) && PendingIsOwned(WorldAt(ttl, steps, i))
  {
    hide *;
    PendingHeldAt(ttl, steps, i);
    if i == 0 {
      StartIsOwned(ttl, steps);
    } else {
      PendingAlwaysOwned(ttl, steps, i - 1);
      WorldAfter(ttl, steps, i - 1);
      var w, step := WorldAt(ttl, steps, i - 1), steps[i - 1];
      match step
      case Execute(_, _, _, _) => ExecuteKeepsOwned(w, step);
      case Finish(_) => FinishKeepsOwned(w, step);
      case _ => SettlingKeepsOwned(w, step);
    }
  }

  lemma StartIsOwned(ttl: nat, steps: seq<Step>)
    ensures PendingIsOwned(WorldAt(ttl, steps, 0))
  {
  }

  lemma PendingHeldAt(ttl: nat, steps: seq<Step>, i: nat)
    requires i <= |steps|
    ensures PendingIsHeld(WorldAt(ttl, steps, i))
  {
    InvAlways(ttl, steps, i);
    hide WorldAt, PendingIsHeld, CompletedIsTrue, CallersAreServed, SuccessesAreKept, SuccessesAreApart;
  }

  lemma PendingIffOwned(w: World, key: Key)
    requires PendingIsHeld(w) && PendingIsOwned(w)
    ensures key in w.tables.pending <==> Owned(w, key)
    ensures forall o :: OwnedBy(w, key, o) ==> key in w.tables.pending && w.tables.pending[key].op == o
  {
    if key in w.tables.pending {
      assert OwnedBy(w, key, w.tables.pending[key].op);
    }
  }

  /** In every reachable state a new call starts an operation if and only if no
      response is stored for its key and nobody owns an operation of it. If somebody
      does, it waits for that operation exactly when the fingerprints agree; and it
      is refused exactly when what it meets was asked for with another one. */
  lemma CallDecides(ttl: nat, steps: seq<Step>, i: nat, pid: Pid, key: Key, fp: Fingerprint, op: OpId)
    requires i < |steps| && steps[i] == Execute(pid, key, fp, op)
    requires pid !in WorldAt(ttl, steps, i).callers && op !in WorldAt(ttl, steps, i).operations
    ensures var w, w' := WorldAt(ttl, steps, i), WorldAt(ttl, steps, i + 1);
            var stored := Live(w.tables, w.clock, key);
            && pid in w'.callers
            && (op in w'.operations <==> !stored && !Owned(w, key))
            && (w'.callers[pid] == Owns(op) <==> !stored && !Owned(w, key))
            && (forall o :: w'.callers[pid] == Waits(key, fp, o)
                  <==> !stored && OwnedBy(w, key, o) && w.operations[o].fingerprint == fp)
            && (w'.callers[pid] == Refused(key, fp)
                <==> || (stored && w.tables.completed[key].fingerprint != fp)
                     || (!stored && exists o :: OwnedBy(w, key, o) && w.operations[o].fingerprint != fp))
  {
    PendingAlwaysOwned(ttl, steps, i);
    WorldAfter(ttl, steps, i);
    hide WorldAt;
    var w := WorldAt(ttl, steps, i);
    PendingIffOwned(w, key);
    hide StandardTtl, OwnedBy, PendingIsOwned;
  }

  // ---- A failure frees the key ----

  /** Nothing is stored or pending for the key. */
  predicate Free(w: World, key: Key) {
    key !in w.tables.pending && key !in w.tables.completed
  }

  lemma FreeUntilAsked(w: World, step: Step, key: Key)
    requires PendingIsHeld(w) && Free(w, key) && !Asks(w, step, key)
    ensures Free(Next(w, step), key)
  {
    hide StandardTtl;
  }

  lemma {:induction false} StaysFree(ttl: nat, steps: seq<Step>, i: nat, j: nat, key: Key)
    requires i <= j <= |steps| && Free(WorldAt(ttl, steps, i), key)
    requires forall k :: i <= k < j ==> !Asks(WorldAt(ttl, steps, k), steps[k], key)
    ensures Free(WorldAt(ttl, steps, j), key)
    decreases j
  {
    hide Next, Free, Asks;
    if i < j {
      StaysFree(ttl, steps, i, j - 1, key);
      InvAlways(ttl, steps, j - 1);
      FreeUntilAsked(WorldAt(ttl, steps, j - 1), steps[j - 1], key);
    }
  }

  lemma FailureFrees(w: World, pid: Pid, o: OpId)
    requires PendingIsHeld(w) && PendingIsOwned(w)
    requires pid in w.callers && w.callers[pid] == Owns(o) && o in w.operations && w.operations[o].status.Failed?
    ensures Free(Next(w, Finish(pid)), w.operations[o].key)
  {
  }

  /** Once the caller of a failed operation has ended, the next call with the key
      runs the operation anew. */
  lemma FailedKeyIsRetried(ttl: nat, steps: seq<Step>, i: nat, j: nat, o: OpId)
    requires i < j < |steps| && steps[i].Finish?
    requires var w, pid := WorldAt(ttl, steps, i), steps[i].pid;
             pid in w.callers && w.callers[pid] == Owns(o) && o in w.operations && w.operations[o].status.Failed?
    requires var key := WorldAt(ttl, steps, i).operations[o].key;
             && (forall k :: i < k < j ==> !Asks(WorldAt(ttl, steps, k), steps[k], key))
             && Asks(WorldAt(ttl, steps, j), steps[j], key)
    ensures steps[j].Execute?
    ensures var w' := WorldAt(ttl, steps, j + 1);
            && steps[j].freshOp in w'.operations && w'.operations[steps[j].freshOp].status.Running?
            && steps[j].pid in w'.callers && w'.callers[steps[j].pid] == Owns(steps[j].freshOp)
  {
    hide *;
    var w := WorldAt(ttl, steps, i);
    PendingAlwaysOwned(ttl, steps, i);
    FailureFrees(w, steps[i].pid, o);
    WorldAfter(ttl, steps, i);
    StaysFree(ttl, steps, i + 1, j, w.operations[o].key);
    WorldAfter(ttl, steps, j);
    FreeKeyRuns(WorldAt(ttl, steps, j), steps[j], w.operations[o].key);
  }

  lemma FreeKeyRuns(w: World, step: Step, key: Key)
    requires Free(w, key) && Asks(w, step, key)
    ensures step.Execute?
    ensures var w' := Next(w, step);
            && step.freshOp in w'.operations && w'.operations[step.freshOp].status.Running?
            && step.pid in w'.callers && w'.callers[step.pid] == Owns(step.freshOp)
  {
    hide StandardTtl;
  }

  /** The shortest such run, for any key, fingerprint and lifetime: the caller of
      the failed operation gets its error and the retry runs. */
  lemma RetryRuns(ttl: nat, p: Pid, q: Pid, key: Key, fp: Fingerprint, o: OpId, o': OpId)
    requires p != q && o != o'
    ensures var w := WorldAt(ttl, [Execute(p, key, fp, o), Fail(o), Finish(p), Execute(q, key, fp, o')], 4);
            && w.callers == map[p := Threw(key, fp), q := Owns(o')]
            && o' in w.operations && w.operations[o'].status.Running?
  {
    var steps := [Execute(p, key, fp, o), Fail(o), Finish(p), Execute(q, key, fp, o')];
    assert WorldAt(ttl, steps, 0) == Start(ttl);
    WorldAfter(ttl, steps, 0);
    WorldAfter(ttl, steps, 1);
    WorldAfter(ttl, steps, 2);
    WorldAfter(ttl, steps, 3);
    hide WorldAt, StandardTtl;
    var first := Tables(map[], map[key := Pending(o, fp)], 0, 0);
    assert Begin(Start(ttl).tables, ttl, 0, key, fp, o) == (first, Run(o)) by {
      assert Start(ttl).tables.completed - {key} == Start(ttl).tables.completed;
    }
    hide Begin;
    assert WorldAt(ttl, steps, 1)
        == World(ttl, 0, first, map[o := Operation(key, fp, 0, Running)], map[p := Owns(o)]);
    assert WorldAt(ttl, steps, 2)
        == World(ttl, 0, first, map[o := Operation(key, fp, 0, Failed)], map[p := Owns(o)]);
    assert WorldAt(ttl, steps, 3)
        == World(ttl, 0, Tables(map[], map[], 0, 0), map[o := Operation(key, fp, 0, Failed)],
                 map[p := Threw(key, fp)]);
    FreeKeyRuns(WorldAt(ttl, steps, 3), steps[3], key);
    OnlyTheCallerMoves(WorldAt(ttl, steps, 3), steps[3]);
  }

  lemma OnlyTheCallerMoves(w: World, step: Step)
    requires step.Execute? && step.pid !in w.callers && step.freshOp !in w.operations
    ensures step.pid in Next(w, step).callers
    ensures Next(w, step).callers == w.callers[step.pid := Next(w, step).callers[step.pid]]
  {
    hide Begin;
  }

  // ---- Everybody learns how the operation ended ----

  /** What the holder of an operation is told once it is settled. */
  function Told(c: Caller, o: Operation): Caller
    requires (c.Owns? || c.Waits?) && !o.status.Running?
  {
    if o.status.Succeeded? then Received(o.key, o.fingerprint, c.op, o.status.result, c.Waits?)
    else Threw(o.key, o.fingerprint)
  }

  /** The caller holds its operation still, or was told how it ended. */
  ghost predicate Follows(w: World, pid: Pid, c: Caller)
    requires c.Owns? || c.Waits?
  {
    && pid in w.callers && c.op in w.operations
    && (c.Waits? ==> w.operations[c.op].key == c.key && w.operations[c.op].fingerprint == c.fingerprint)
    && (w.callers[pid] == c
        || (!w.operations[c.op].status.Running? && w.callers[pid] == Told(c, w.operations[c.op])))
  }

  lemma StepFollows(w: World, step: Step, pid: Pid, c: Caller)
    requires (c.Owns? || c.Waits?) && Follows(w, pid, c)
    ensures Follows(Next(w, step), pid, c)
    ensures step == Finish(pid) && !w.operations[c.op].status.Running? ==> Next(w, step).callers[pid] != c
    ensures w.callers[pid] != c ==> Next(w, step).callers[pid] != c
  {
    hide StandardTtl;
  }

  lemma {:induction false} RunFollows(ttl: nat, steps: seq<Step>, i: nat, j: nat, pid: Pid, c: Caller)
    requires i <= j <= |steps| && (c.Owns? || c.Waits?) && Follows(WorldAt(ttl, steps, i), pid, c)
    ensures Follows(WorldAt(ttl, steps, j), pid, c)
    ensures WorldAt(ttl, steps, i).callers[pid] != c ==> WorldAt(ttl, steps, j).callers[pid] != c
    decreases j
  {
    hide Next, Follows;
    if i < j {
      RunFollows(ttl, steps, i, j - 1, pid, c);
      StepFollows(WorldAt(ttl, steps, j - 1), steps[j - 1], pid, c);
    }
  }

  /** Whoever started or joined an operation and continues after it is settled has
      ended by then with its result if it succeeded and with its error if it
      failed, and with nothing else before. */
  lemma CallersLearnTheOutcome(ttl: nat, steps: seq<Step>, i: nat, j: nat, pid: Pid, c: Caller)
    requires i <= j <= |steps| && (c.Owns? || c.Waits?)
    requires pid in WorldAt(ttl, steps, i).callers && WorldAt(ttl, steps, i).callers[pid] == c
    ensures Follows(WorldAt(ttl, steps, j), pid, c)
    ensures (exists k :: i <= k < j && steps[k] == Finish(pid) && c.op in WorldAt(ttl, steps, k).operations
                      && !WorldAt(ttl, steps, k).operations[c.op].status.Running?) ==>
              WorldAt(ttl, steps, j).callers[pid] != c
  {
    hide *;
    HolderFollows(ttl, steps, i, pid, c);
    RunFollows(ttl, steps, i, j, pid, c);
    if k :| i <= k < j && steps[k] == Finish(pid) && c.op in WorldAt(ttl, steps, k).operations
            && !WorldAt(ttl, steps, k).operations[c.op].status.Running? {
      RunFollows(ttl, steps, i, k, pid, c);
      StepFollows(WorldAt(ttl, steps, k), steps[k], pid, c);
      WorldAfter(ttl, steps, k);
      RunFollows(ttl, steps, k + 1, j, pid, c);
    }
  }

  lemma HolderFollows(ttl: nat, steps: seq<Step>, i: nat, pid: Pid, c: Caller)
    requires i <= |steps| && (c.Owns? || c.Waits?)
    requires pid in WorldAt(ttl, steps, i).callers && WorldAt(ttl, steps, i).callers[pid] == c
    ensures Follows(WorldAt(ttl, steps, i), pid, c)
  {
    InvAlways(ttl, steps, i);
    hide WorldAt, CompletedIsTrue, SuccessesAreKept, SuccessesAreApart;
  }

  // ---- Every call is counted once ----

  function RefusedIn(w: World): set<Pid> {
    set p | p in w.callers && w.callers[p].Refused?
  }

  ghost predicate Counted(w: World) {
    && |w.callers| == w.tables.hits + w.tables.conflicts + |w.operations|
    && |RefusedIn(w)| == w.tables.conflicts
  }

  lemma StepCounts(w: World, step: Step)
    requires Counted(w)
    ensures Counted(Next(w, step))
  {
    if step.Execute? {
      if step.pid !in w.callers && step.freshOp !in w.operations {
        ExecuteCounts(w, step);
      }
    } else {
      OthersCount(w, step);
      hide Next;
    }
  }

  lemma ExecuteCounts(w: World, step: Step)
    requires Counted(w) && step.Execute? && step.pid !in w.callers && step.freshOp !in w.operations
    ensures Counted(Next(w, step))
  {
    OnlyTheCallerMoves(w, step);
    BranchCounts(w, step);
    hide *;
    var w' := Next(w, step);
    CallersGrow(w, w', step.pid, w'.callers[step.pid]);
    CountedMeans(w);
    CountedMeans(w');
  }

  lemma CountedMeans(w: World)
    ensures Counted(w) <==> |w.callers| == w.tables.hits + w.tables.conflicts + |w.operations|
                            && |RefusedIn(w)| == w.tables.conflicts
  {
    hide RefusedIn;
  }

  /** The first segment raises one of the three counts. */
  lemma BranchCounts(w: World, step: Step)
    requires step.Execute? && step.pid !in w.callers && step.freshOp !in w.operations
    ensures var w' := Next(w, step);
            var refused := step.pid in w'.callers && w'.callers[step.pid].Refused?;
            && w'.tables.hits + w'.tables.conflicts + |w'.operations|
               == w.tables.hits + w.tables.conflicts + |w.operations| + 1
            && w'.tables.conflicts == w.tables.conflicts + if refused then 1 else 0
  {
    BeginCounts(w.tables, w.ttl, w.clock, step.key, step.fingerprint, step.freshOp);
    var (tables, branch) := Begin(w.tables, w.ttl, w.clock, step.key, step.fingerprint, step.freshOp);
    hide Begin;
    if branch.Run? {
      OneOperationMore(w.operations, step.freshOp, Operation(step.key, step.fingerprint, w.clock, Running));
    }
  }

  lemma BeginCounts(t: Tables, ttl: nat, clock: int, key: Key, fp: Fingerprint, op: OpId)
    ensures var (t', branch) := Begin(t, ttl, clock, key, fp, op);
            && t'.hits == t.hits + (if branch.Replay? || branch.Join? then 1 else 0)
            && t'.conflicts == t.conflicts + (if branch.Conflict? then 1 else 0)
            && (branch.Run? ==> branch == Run(op))
  {
    hide StandardTtl;
  }

  lemma OneOperationMore(operations: map<OpId, Operation>, op: OpId, o: Operation)
    requires op !in operations
    ensures |operations[op := o]| == |operations| + 1
  {
  }

  lemma CallersGrow(w: World, w': World, pid: Pid, c: Caller)
    requires pid !in w.callers && w'.callers == w.callers[pid := c]
    ensures |w'.callers| == |w.callers| + 1
    ensures |RefusedIn(w')| == |RefusedIn(w)| + if c.Refused? then 1 else 0
  {
    assert RefusedIn(w') == if c.Refused? then RefusedIn(w) + {pid} else RefusedIn(w);
    assert pid !in RefusedIn(w);
  }

  lemma OthersCount(w: World, step: Step)
    requires !step.Execute?
    ensures var w' := Next(w, step);
            && RefusedIn(w') == RefusedIn(w) && w'.callers.Keys == w.callers.Keys
            && w'.operations.Keys == w.operations.Keys
            && w'.tables.hits == w.tables.hits && w'.tables.conflicts == w.tables.conflicts
            && |w'.callers| == |w.callers| && |w'.operations| == |w.operations|
  {
    var w' := Next(w, step);
    assert w'.callers.Keys == w.callers.Keys && w'.operations.Keys == w.operations.Keys;
    assert |w'.callers| == |w'.callers.Keys| && |w.callers| == |w.callers.Keys|;
    assert |w'.operations| == |w'.operations.Keys| && |w.operations| == |w.operations.Keys|;
  }

  /** In every reachable state every call was a hit, a conflict or an operation of
      its own, and the conflicts are the refused calls. */
  lemma {:induction false} CallsAreCounted(ttl: nat, steps: seq<Step>, i: nat)
    requires i <= |steps|
    ensures Counted(WorldAt(ttl, steps, i))
  {
    hide *;
    if i == 0 {
      NoneCounted(ttl, steps);
    } else {
      CallsAreCounted(ttl, steps, i - 1);
      WorldAfter(ttl, steps, i - 1);
      StepCounts(WorldAt(ttl, steps, i - 1), steps[i - 1]);
    }
  }

  lemma NoneCounted(ttl: nat, steps: seq<Step>)
    ensures Counted(WorldAt(ttl, steps, 0))
  {
    assert WorldAt(ttl, steps, 0) == Start(ttl);
    assert RefusedIn(Start(ttl)) == {};
  }
}
