/** The idempotency store: `backend/src/idempotency.ts`, lines 76-177.

    `execute` runs in segments between its awaits: it begins by looking at the
    completed and the pending table, the operation settles some time later, and
    only then does the caller that started it clear the pending entry. Segments of
    any number of callers interleave, and the operation may fail.

    The completed table is a cache with expiry. Replaying a response writes it
    back without a lifetime, which gives it the cache's standard one from then on:
    replays extend a response's life.
 */
module Idempotency {

  type Key = nat
  type Fingerprint = nat
  type Result = nat
  type OpId = nat
  type Pid = nat

  datatype Stored = Stored(op: OpId, fingerprint: Fingerprint, result: Result, expiresAt: int)

  datatype Pending = Pending(op: OpId, fingerprint: Fingerprint)

  /** The store's own fields. */
  datatype Tables = Tables(completed: map<Key, Stored>, pending: map<Key, Pending>, hits: nat, conflicts: nat)

  /** How `execute` proceeds after its first segment. */
  datatype Branch =
    | Replay(op: OpId, result: Result)
    | Conflict
    | Join(op: OpId)
    | Run(op: OpId)

  /** The standard lifetime of the cache, from the configured one, in milliseconds. */
  function StandardTtl(ttl: nat): nat {
    var seconds := (ttl + 999) / 1000;
    1000 * (if seconds < 1 then 1 else seconds)
  }

  lemma StandardTtlCoversTtl(ttl: nat)
    ensures StandardTtl(ttl) >= ttl
  {
  }

  predicate Live(t: Tables, clock: int, key: Key) {
    key in t.completed && t.completed[key].expiresAt >= clock
  }

  /** The first segment of `execute`; `op` would be the new operation. */
  function Begin(t: Tables, ttl: nat, clock: int, key: Key, fp: Fingerprint, op: OpId): (Tables, Branch) {
    if Live(t, clock, key) then
      var c := t.completed[key];
      if c.fingerprint != fp then
        (t.(conflicts := t.conflicts + 1), Conflict)
      else
        (t.(hits := t.hits + 1, completed := t.completed[key := c.(expiresAt := clock + StandardTtl(ttl))]),
         Replay(c.op, c.result))
    else
      var t := t.(completed := t.completed - {key});
      if key in t.pending then
        if t.pending[key].fingerprint != fp then
          (t.(conflicts := t.conflicts + 1), Conflict)
        else
          (t.(hits := t.hits + 1), Join(t.pending[key].op))
      else
        (t.(pending := t.pending[key := Pending(op, fp)]), Run(op))
  }

  function StoreResult(t: Tables, ttl: nat, clock: int, key: Key, fp: Fingerprint, op: OpId, result: Result): Tables {
    t.(completed := t.completed[key := Stored(op, fp, result, clock + ttl)])
  }

  function ClearPending(t: Tables, key: Key): Tables {
    t.(pending := t.pending - {key})
  }

  // ---- Callers and operations ----

  datatype Status = Running | Succeeded(result: Result, at: int) | Failed

  datatype Operation = Operation(key: Key, fingerprint: Fingerprint, startedAt: int, status: Status)

  datatype Caller =
    | Owns(op: OpId)
    | Waits(key: Key, fingerprint: Fingerprint, op: OpId)
    | Received(key: Key, fingerprint: Fingerprint, op: OpId, result: Result, replayed: bool)
    | Refused(key: Key, fingerprint: Fingerprint)
    | Threw(key: Key, fingerprint: Fingerprint)

  datatype World = World(
    ttl: nat,
    clock: int,
    tables: Tables,
    operations: map<OpId, Operation>,
    callers: map<Pid, Caller>
  )

  function Start(ttl: nat): World {
    World(ttl, 0, Tables(map[], map[], 0, 0), map[], map[])
  }

  datatype Step =
    | Execute(pid: Pid, key: Key, fingerprint: Fingerprint, freshOp: OpId)
    | Succeed(op: OpId, result: Result)
    | Fail(op: OpId)
    | Finish(pid: Pid)
    | Tick(clock: int)

  function ExecuteStep(w: World, pid: Pid, key: Key, fp: Fingerprint, op: OpId): World
    requires pid !in w.callers && op !in w.operations
  {
    var (tables, branch) := Begin(w.tables, w.ttl, w.clock, key, fp, op);
    var w := w.(tables := tables);
    match branch
    case Replay(o, result) => w.(callers := w.callers[pid := Received(key, fp, o, result, true)])
    case Conflict => w.(callers := w.callers[pid := Refused(key, fp)])
    case Join(o) => w.(callers := w.callers[pid := Waits(key, fp, o)])
    case Run(o) =>
      w.(callers := w.callers[pid := Owns(o)], operations := w.operations[o := Operation(key, fp, w.clock, Running)])
  }

  /** A step that is not enabled changes nothing. */
  function Next(w: World, step: Step): World {
    match step
    case Execute(pid, key, fp, op) =>
      if pid in w.callers || op in w.operations then w else ExecuteStep(w, pid, key, fp, op)
    case Succeed(op, result) =>
      if op !in w.operations || !w.operations[op].status.Running? then w
      else
        var o := w.operations[op];
        w.(tables := StoreResult(w.tables, w.ttl, w.clock, o.key, o.fingerprint, op, result),
           operations := w.operations[op := o.(status := Succeeded(result, w.clock))])
    case Fail(op) =>
      if op !in w.operations || !w.operations[op].status.Running? then w
      else w.(operations := w.operations[op := w.operations[op].(status := Failed)])
    case Finish(pid) =>
      if pid !in w.callers then w
      else
        (match w.callers[pid]
         case Owns(op) =>
           if op !in w.operations || w.operations[op].status.Running? then w
           else
             var o := w.operations[op];
             var ended := if o.status.Succeeded? then Received(o.key, o.fingerprint, op, o.status.result, false)
                          else Threw(o.key, o.fingerprint);
             w.(tables := ClearPending(w.tables, o.key), callers := w.callers[pid := ended])
         case Waits(key, fp, op) =>
           if op !in w.operations || w.operations[op].status.Running? then w
           else
             var o := w.operations[op];
             var ended := if o.status.Succeeded? then Received(key, fp, op, o.status.result, true)
                          else Threw(key, fp);
             w.(callers := w.callers[pid := ended])
         case _ => w)
    case Tick(clock) => if clock >= w.clock then w.(clock := clock) else w
  }

  // ---- The invariant ----

  /** A running operation, or one whose caller has not cleared it, holds its key's
      pending entry; so a key has at most one. */
  ghost predicate PendingIsHeld(w: World) {
    && (forall k <- w.tables.pending.Keys ::
          var p := w.tables.pending[k];
          p.op in w.operations && w.operations[p.op].key == k && w.operations[p.op].fingerprint == p.fingerprint)
    && (forall o <- w.operations.Keys :: w.operations[o].status.Running? ==>
          w.operations[o].key in w.tables.pending && w.tables.pending[w.operations[o].key].op == o)
    && (forall p <- w.callers.Keys :: w.callers[p].Owns? ==>
          var o := w.callers[p].op;
          o in w.operations && w.operations[o].key in w.tables.pending
          && w.tables.pending[w.operations[o].key].op == o)
    && (forall p <- w.callers.Keys, q <- w.callers.Keys ::
          p != q && w.callers[p].Owns? && w.callers[q].Owns? ==> w.callers[p].op != w.callers[q].op)
  }

  /** Stored responses are results of operations with their key and fingerprint. */
  ghost predicate CompletedIsTrue(w: World) {
    forall k <- w.tables.completed.Keys ::
      var c := w.tables.completed[k];
      && c.op in w.operations
      && w.operations[c.op].key == k && w.operations[c.op].fingerprint == c.fingerprint
      && w.operations[c.op].status.Succeeded? && w.operations[c.op].status.result == c.result
  }

  /** Whoever waits for or received a result asked for that operation. */
  ghost predicate CallersAreServed(w: World) {
    && (forall p <- w.callers.Keys :: w.callers[p].Waits? ==>
          var c := w.callers[p];
          c.op in w.operations && w.operations[c.op].key == c.key && w.operations[c.op].fingerprint == c.fingerprint)
    && (forall p <- w.callers.Keys :: w.callers[p].Received? ==>
          var c := w.callers[p];
          && c.op in w.operations && w.operations[c.op].key == c.key && w.operations[c.op].fingerprint == c.fingerprint
          && w.operations[c.op].status.Succeeded? && w.operations[c.op].status.result == c.result)
  }

  /** The lifetime of an operation's success is still running at `clock`. */
  predicate Protected(w: World, o: OpId)
    requires o in w.operations && w.operations[o].status.Succeeded?
  {
    w.clock <= w.operations[o].status.at + w.ttl
  }

  /** A success stays the key's stored response for at least its lifetime. */
  ghost predicate SuccessesAreKept(w: World) {
    forall o <- w.operations.Keys :: w.operations[o].status.Succeeded? ==>
      && w.operations[o].status.at <= w.clock
      && (Protected(w, o) ==>
            && w.operations[o].key in w.tables.completed
            && w.tables.completed[w.operations[o].key].op == o
            && w.tables.completed[w.operations[o].key].expiresAt >= w.operations[o].status.at + w.ttl)
  }

  /** `p` started after the lifetime of `o`'s success. */
  predicate StartedAfter(w: World, p: OpId, o: OpId)
    requires p in w.operations && o in w.operations && w.operations[o].status.Succeeded?
  {
    w.operations[p].startedAt > w.operations[o].status.at + w.ttl
  }

  ghost predicate SuccessesAreApart(w: World) {
    && (forall o <- w.operations.Keys :: w.operations[o].startedAt <= w.clock)
    && (forall o <- w.operations.Keys, p <- w.operations.Keys ::
          o != p && w.operations[o].key == w.operations[p].key && w.operations[o].status.Succeeded?
          && (w.operations[p].status.Running? || w.operations[p].status.Succeeded?) ==>
            StartedAfter(w, p, o) || (w.operations[p].status.Succeeded? && StartedAfter(w, o, p)))
  }

  ghost predicate Inv(w: World) {
    PendingIsHeld(w) && CompletedIsTrue(w) && CallersAreServed(w) && SuccessesAreKept(w) && SuccessesAreApart(w)
  }

  lemma ExecuteKeepsPending(w: World, step: Step)
    requires PendingIsHeld(w) && step.Execute?
    ensures PendingIsHeld(Next(w, step))
  {
    hide StandardTtl;
  }

  lemma ExecuteKeepsCompleted(w: World, step: Step)
    requires CompletedIsTrue(w) && step.Execute?
    ensures CompletedIsTrue(Next(w, step))
  {
    hide StandardTtl;
  }

  lemma ExecuteKeepsCallers(w: World, step: Step)
    requires CallersAreServed(w) && PendingIsHeld(w) && CompletedIsTrue(w) && step.Execute?
    ensures CallersAreServed(Next(w, step))
  {
    hide StandardTtl;
  }

  lemma ExecuteKeepsKept(w: World, step: Step)
    requires SuccessesAreKept(w) && step.Execute?
    ensures SuccessesAreKept(Next(w, step))
  {
    StandardTtlCoversTtl(w.ttl);
    hide StandardTtl;
  }

  lemma ExecuteKeepsApart(w: World, step: Step)
    requires SuccessesAreApart(w) && SuccessesAreKept(w) && PendingIsHeld(w) && step.Execute?
    ensures SuccessesAreApart(Next(w, step))
  {
    hide StandardTtl;
  }

  lemma SucceedKeepsPending(w: World, step: Step)
    requires PendingIsHeld(w) && step.Succeed?
    ensures PendingIsHeld(Next(w, step))
  {
  }

  lemma SucceedKeepsCompleted(w: World, step: Step)
    requires CompletedIsTrue(w) && step.Succeed?
    ensures CompletedIsTrue(Next(w, step))
  {
  }

  lemma SucceedKeepsCallers(w: World, step: Step)
    requires CallersAreServed(w) && PendingIsHeld(w) && CompletedIsTrue(w) && step.Succeed?
    ensures CallersAreServed(Next(w, step))
  {
  }

  lemma SucceedKeepsKept(w: World, step: Step)
    requires SuccessesAreKept(w) && SuccessesAreApart(w) && PendingIsHeld(w) && step.Succeed?
    ensures SuccessesAreKept(Next(w, step))
  {
  }

  lemma SucceedKeepsApart(w: World, step: Step)
    requires SuccessesAreApart(w) && SuccessesAreKept(w) && PendingIsHeld(w) && step.Succeed?
    ensures SuccessesAreApart(Next(w, step))
  {
  }

  lemma FailOrFinishKeepsPending(w: World, step: Step)
    requires PendingIsHeld(w) && (step.Fail? || step.Finish? || step.Tick?)
    ensures PendingIsHeld(Next(w, step))
  {
  }

  lemma FailOrFinishKeepsCompleted(w: World, step: Step)
    requires CompletedIsTrue(w) && (step.Fail? || step.Finish? || step.Tick?)
    ensures CompletedIsTrue(Next(w, step))
  {
  }

  lemma FailOrFinishKeepsCallers(w: World, step: Step)
    requires CallersAreServed(w) && PendingIsHeld(w) && CompletedIsTrue(w) && (step.Fail? || step.Finish? || step.Tick?)
    ensures CallersAreServed(Next(w, step))
  {
  }

  lemma FailOrFinishKeepsKept(w: World, step: Step)
    requires SuccessesAreKept(w) && (step.Fail? || step.Finish? || step.Tick?)
    ensures SuccessesAreKept(Next(w, step))
  {
  }

  lemma FailOrFinishKeepsApart(w: World, step: Step)
    requires SuccessesAreApart(w) && (step.Fail? || step.Finish? || step.Tick?)
    ensures SuccessesAreApart(Next(w, step))
  {
  }

  lemma NextKeepsInv(w: World, step: Step)
    requires Inv(w)
    ensures Inv(Next(w, step))
  {
    hide Next, PendingIsHeld, CompletedIsTrue, CallersAreServed, SuccessesAreKept, SuccessesAreApart;
    if step.Execute? {
      ExecuteKeepsPending(w, step);
      ExecuteKeepsCompleted(w, step);
      ExecuteKeepsCallers(w, step);
      ExecuteKeepsKept(w, step);
      ExecuteKeepsApart(w, step);
    } else if step.Succeed? {
      SucceedKeepsPending(w, step);
      SucceedKeepsCompleted(w, step);
      SucceedKeepsCallers(w, step);
      SucceedKeepsKept(w, step);
      SucceedKeepsApart(w, step);
    } else {
      FailOrFinishKeepsPending(w, step);
      FailOrFinishKeepsCompleted(w, step);
      FailOrFinishKeepsCallers(w, step);
      FailOrFinishKeepsKept(w, step);
      FailOrFinishKeepsApart(w, step);
    }
  }

  // ---- Runs: any interleaving of any number of callers ----

  function WorldAt(ttl: nat, steps: seq<Step>, i: nat): World
    requires i <= |steps|
  {
    if i == 0 then Start(ttl) else Next(WorldAt(ttl, steps, i - 1), steps[i - 1])
  }

  lemma {:induction false} InvAlways(ttl: nat, steps: seq<Step>, i: nat)
    requires i <= |steps|
    ensures Inv(WorldAt(ttl, steps, i))
  {
    hide Next;
    if i > 0 {
      InvAlways(ttl, steps, i - 1);
      NextKeepsInv(WorldAt(ttl, steps, i - 1), steps[i - 1]);
    }
  }

  /** At most one operation per key is in flight. */
  lemma OneInFlightPerKey(ttl: nat, steps: seq<Step>, i: nat, o: OpId, p: OpId)
    requires i <= |steps|
    requires var w := WorldAt(ttl, steps, i);
             && o in w.operations && p in w.operations
             && w.operations[o].status.Running? && w.operations[p].status.Running?
             && w.operations[o].key == w.operations[p].key
    ensures o == p
  {
    hide Next, SuccessesAreApart, SuccessesAreKept, CallersAreServed, CompletedIsTrue;
    InvAlways(ttl, steps, i);
  }

  /** Of two operations that succeeded for one key, the later was started only
      after the earlier one's response had been kept for its whole lifetime. */
  lemma OneSuccessPerLifetime(ttl: nat, steps: seq<Step>, i: nat, o: OpId, p: OpId)
    requires i <= |steps|
    requires var w := WorldAt(ttl, steps, i);
             && o in w.operations && p in w.operations && o != p
             && w.operations[o].status.Succeeded? && w.operations[p].status.Succeeded?
             && w.operations[o].key == w.operations[p].key
    ensures var w := WorldAt(ttl, steps, i);
            StartedAfter(w, p, o) || StartedAfter(w, o, p)
  {
    hide Next, PendingIsHeld, SuccessesAreKept, CallersAreServed, CompletedIsTrue;
    InvAlways(ttl, steps, i);
  }

  /** Whatever a caller receives, first or replayed, is what the one operation
      behind it produced, and that operation was started for the caller's own key
      and fingerprint. */
  lemma ReceivedIsTheResult(ttl: nat, steps: seq<Step>, i: nat, pid: Pid)
    requires i <= |steps|
    requires pid in WorldAt(ttl, steps, i).callers && WorldAt(ttl, steps, i).callers[pid].Received?
    ensures var w := WorldAt(ttl, steps, i);
            var c := w.callers[pid];
            && c.op in w.operations
            && w.operations[c.op].status.Succeeded? && w.operations[c.op].status.result == c.result
            && w.operations[c.op].key == c.key && w.operations[c.op].fingerprint == c.fingerprint
  {
    hide Next, PendingIsHeld, SuccessesAreKept, SuccessesAreApart, CompletedIsTrue;
    InvAlways(ttl, steps, i);
  }

  /** While a success's lifetime lasts, a call with the same key ends at once: with
      that very result if its fingerprint is the same, refused otherwise. */
  lemma CallsDuringLifetimeReplay(ttl: nat, steps: seq<Step>, i: nat, o: OpId, pid: Pid, key: Key, fp: Fingerprint,
                                  op: OpId)
    requires i < |steps| && steps[i] == Execute(pid, key, fp, op)
    requires var w := WorldAt(ttl, steps, i);
             && pid !in w.callers && op !in w.operations
             && o in w.operations && w.operations[o].key == key
             && w.operations[o].status.Succeeded? && Protected(w, o)
    ensures var w, w' := WorldAt(ttl, steps, i), WorldAt(ttl, steps, i + 1);
            && w'.operations == w.operations
            && w'.callers == w.callers[pid :=
                 if fp == w.operations[o].fingerprint
                 then Received(key, fp, o, w.operations[o].status.result, true)
                 else Refused(key, fp)]
  {
    hide PendingIsHeld, SuccessesAreApart, CallersAreServed, StandardTtl;
    InvAlways(ttl, steps, i);
  }

  // ---- Replays extend a response's life ----

  /** A replay restarts the standard lifetime: the stored expiry stays what it was
      exactly when the call comes a standard lifetime before it. */
  lemma ReplayKeepsExpiryIff(t: Tables, ttl: nat, clock: int, key: Key, fp: Fingerprint, op: OpId)
    requires Live(t, clock, key) && t.completed[key].fingerprint == fp
    ensures var t' := Begin(t, ttl, clock, key, fp, op).0;
            && key in t'.completed
            && (t'.completed[key].expiresAt == t.completed[key].expiresAt
                <==> clock + StandardTtl(ttl) == t.completed[key].expiresAt)
  {
    hide StandardTtl;
  }

  /** A call with the key that has yet to begin. */
  predicate Asks(w: World, step: Step, key: Key) {
    step.Execute? && step.pid !in w.callers && step.freshOp !in w.operations && step.key == key
  }

  predicate Renews(w: World, step: Step, key: Key, fp: Fingerprint) {
    Asks(w, step, key) && step.fingerprint == fp
  }

  /** The response of operation `o` is what is stored for the key, until the
      deadline, and no other operation could replace it. */
  ghost predicate Served(w: World, key: Key, fp: Fingerprint, o: OpId, result: Result, deadline: int) {
    && o in w.operations && w.operations[o].key == key && w.operations[o].fingerprint == fp
    && w.operations[o].status.Succeeded? && w.operations[o].status.result == result
    && key in w.tables.completed && w.tables.completed[key] == Stored(o, fp, result, deadline)
    && forall p <- w.operations.Keys :: w.operations[p].key == key ==> !w.operations[p].status.Running?
  }

  /** What a call with the key gets while the response is stored. */
  function Answer(key: Key, fp: Fingerprint, o: OpId, result: Result, asked: Fingerprint): Caller {
    if asked == fp then Received(key, asked, o, result, true) else Refused(key, asked)
  }

  /** If the step is a call with the key, it is answered. */
  ghost predicate Answered(w: World, step: Step, w': World, key: Key, fp: Fingerprint, o: OpId, result: Result) {
    Asks(w, step, key) ==>
      step.pid in w'.callers && w'.callers[step.pid] == Answer(key, fp, o, result, step.fingerprint)
  }

  /** No operation of the key was started. */
  ghost predicate NoneStarted(w: World, w': World, key: Key) {
    forall p <- w'.operations.Keys :: w'.operations[p].key == key ==> p in w.operations && w.operations[p].key == key
  }

  lemma CallIsAnswered(w: World, step: Step, key: Key, fp: Fingerprint, o: OpId, result: Result, deadline: int)
    requires Served(w, key, fp, o, result, deadline) && Asks(w, step, key) && w.clock <= deadline
    ensures var w' := Next(w, step);
            && w'.operations == w.operations
            && w'.callers == w.callers[step.pid := Answer(key, fp, o, result, step.fingerprint)]
            && Served(w', key, fp, o, result, if step.fingerprint == fp then w.clock + StandardTtl(w.ttl) else deadline)
  {
    hide StandardTtl;
  }

  lemma OtherStepsServe(w: World, step: Step, key: Key, fp: Fingerprint, o: OpId, result: Result, deadline: int)
    requires Served(w, key, fp, o, result, deadline) && !Asks(w, step, key)
    ensures Served(Next(w, step), key, fp, o, result, deadline) && NoneStarted(w, Next(w, step), key)
  {
    hide StandardTtl;
  }

  /** In a served state with nothing pending, a call with the same fingerprint gets
      the stored result if and only if it comes by the deadline; a later one starts
      a second operation. */
  lemma CallIsServedIff(w: World, step: Step, key: Key, fp: Fingerprint, o: OpId, result: Result, deadline: int)
    requires Served(w, key, fp, o, result, deadline) && Renews(w, step, key, fp) && key !in w.tables.pending
    ensures Next(w, step).callers[step.pid] == Received(key, fp, o, result, true) <==> w.clock <= deadline
    ensures step.freshOp in Next(w, step).operations <==> w.clock > deadline
  {
    hide StandardTtl;
  }

  /** When the stored response expires: first as the operation left it, then a
      standard lifetime after the latest replay. */
  ghost function Deadline(ttl: nat, steps: seq<Step>, i: nat, j: nat, key: Key, fp: Fingerprint, first: int): int
    requires i <= j <= |steps|
    decreases j
  {
    if i == j then first
    else if Renews(WorldAt(ttl, steps, j - 1), steps[j - 1], key, fp)
    then WorldAt(ttl, steps, j - 1).clock + StandardTtl(ttl)
    else Deadline(ttl, steps, i, j - 1, key, fp, first)
  }

  /** Every call with the key comes by the deadline of its time. */
  ghost predicate InTime(ttl: nat, steps: seq<Step>, i: nat, j: nat, key: Key, fp: Fingerprint, first: int)
    requires i <= j <= |steps|
  {
    forall k :: i <= k < j && Asks(WorldAt(ttl, steps, k), steps[k], key) ==>
      WorldAt(ttl, steps, k).clock <= Deadline(ttl, steps, i, k, key, fp, first)
  }

  lemma SuccessServes(w: World, o: OpId, result: Result)
    requires Inv(w) && o in w.operations && w.operations[o].status.Running?
    ensures Served(Next(w, Succeed(o, result)), w.operations[o].key, w.operations[o].fingerprint, o, result,
                   w.clock + w.ttl)
  {
    hide CompletedIsTrue, CallersAreServed, SuccessesAreKept, SuccessesAreApart;
  }

  lemma TtlIsConstant(ttl: nat, steps: seq<Step>, i: nat)
    requires i <= |steps|
    ensures WorldAt(ttl, steps, i).ttl == ttl
  {
    hide Begin;
    if i > 0 {
      TtlIsConstant(ttl, steps, i - 1);
    }
  }

  lemma {:induction false} StaysServed(ttl: nat, steps: seq<Step>, i: nat, j: nat, key: Key, fp: Fingerprint, o: OpId,
                                       result: Result, first: int)
    requires i <= j <= |steps| && Served(WorldAt(ttl, steps, i), key, fp, o, result, first)
    requires InTime(ttl, steps, i, j, key, fp, first)
    ensures Served(WorldAt(ttl, steps, j), key, fp, o, result, Deadline(ttl, steps, i, j, key, fp, first))
    ensures NoneStarted(WorldAt(ttl, steps, i), WorldAt(ttl, steps, j), key)
    decreases j
  {
    hide Next, Served, Asks, NoneStarted;
    if i == j {
      NoneStartedYet(WorldAt(ttl, steps, i), key);
    } else {
      StaysServed(ttl, steps, i, j - 1, key, fp, o, result, first);
      var w, step, deadline := WorldAt(ttl, steps, j - 1), steps[j - 1], Deadline(ttl, steps, i, j - 1, key, fp, first);
      TtlIsConstant(ttl, steps, j - 1);
      if Asks(w, step, key) {
        CallIsAnswered(w, step, key, fp, o, result, deadline);
        SameOperations(w, Next(w, step), key);
      } else {
        OtherStepsServe(w, step, key, fp, o, result, deadline);
      }
      NoneStartedSince(WorldAt(ttl, steps, i), w, Next(w, step), key);
    }
  }

  lemma NoneStartedYet(w: World, key: Key)
    ensures NoneStarted(w, w, key)
  {
  }

  lemma SameOperations(w: World, w': World, key: Key)
    requires w.operations == w'.operations
    ensures NoneStarted(w, w', key)
  {
  }

  lemma NoneStartedSince(w: World, w': World, w'': World, key: Key)
    requires NoneStarted(w, w', key) && NoneStarted(w', w'', key)
    ensures NoneStarted(w, w'', key)
  {
  }

  lemma AllAnswered(ttl: nat, steps: seq<Step>, i: nat, j: nat, key: Key, fp: Fingerprint, o: OpId, result: Result,
                    first: int)
    requires i <= j <= |steps| && Served(WorldAt(ttl, steps, i), key, fp, o, result, first)
    requires InTime(ttl, steps, i, j, key, fp, first)
    ensures forall k :: i <= k < j ==>
              Answered(WorldAt(ttl, steps, k), steps[k], WorldAt(ttl, steps, k + 1), key, fp, o, result)
  {
    hide *;
    forall k | i <= k < j
      ensures Answered(WorldAt(ttl, steps, k), steps[k], WorldAt(ttl, steps, k + 1), key, fp, o, result)
    {
      EarlierInTime(ttl, steps, i, k, j, key, fp, first);
      StaysServed(ttl, steps, i, k, key, fp, o, result, first);
      WorldAfter(ttl, steps, k);
      var w, deadline := WorldAt(ttl, steps, k), Deadline(ttl, steps, i, k, key, fp, first);
      if Asks(w, steps[k], key) {
        CallIsAnswered(w, steps[k], key, fp, o, result, deadline);
      }
      AnsweredMeans(w, steps[k], WorldAt(ttl, steps, k + 1), key, fp, o, result);
    }
  }

  lemma AnsweredMeans(w: World, step: Step, w': World, key: Key, fp: Fingerprint, o: OpId, result: Result)
    requires Asks(w, step, key) ==> w'.callers == w.callers[step.pid := Answer(key, fp, o, result, step.fingerprint)]
    ensures Answered(w, step, w', key, fp, o, result)
  {
  }

  lemma WorldAfter(ttl: nat, steps: seq<Step>, i: nat)
    requires i < |steps|
    ensures WorldAt(ttl, steps, i + 1) == Next(WorldAt(ttl, steps, i), steps[i])
  {
    hide Next;
  }

  /** After an operation succeeds, as long as calls with its key keep coming within
      a standard lifetime of the latest replay, each gets its result (or is refused
      for another fingerprint), and no second operation of the key is started: a
      response can outlive its own lifetime for ever. */
  lemma RepliesLast(ttl: nat, steps: seq<Step>, i: nat, j: nat, o: OpId, result: Result)
    requires i < j <= |steps| && steps[i] == Succeed(o, result)
    requires o in WorldAt(ttl, steps, i).operations && WorldAt(ttl, steps, i).operations[o].status.Running?
    requires var w := WorldAt(ttl, steps, i);
             InTime(ttl, steps, i + 1, j, w.operations[o].key, w.operations[o].fingerprint, w.clock + ttl)
    ensures var key, fp := WorldAt(ttl, steps, i).operations[o].key, WorldAt(ttl, steps, i).operations[o].fingerprint;
            && NoneStarted(WorldAt(ttl, steps, i + 1), WorldAt(ttl, steps, j), key)
            && forall k :: i < k < j ==>
                 Answered(WorldAt(ttl, steps, k), steps[k], WorldAt(ttl, steps, k + 1), key, fp, o, result)
  {
    hide *;
    var w := WorldAt(ttl, steps, i);
    var key, fp, first := w.operations[o].key, w.operations[o].fingerprint, w.clock + ttl;
    InvAlways(ttl, steps, i);
    TtlIsConstant(ttl, steps, i);
    SuccessServes(w, o, result);
    WorldAfter(ttl, steps, i);
    StaysServed(ttl, steps, i + 1, j, key, fp, o, result, first);
    AllAnswered(ttl, steps, i + 1, j, key, fp, o, result, first);
  }

  lemma EarlierInTime(ttl: nat, steps: seq<Step>, i: nat, k: nat, j: nat, key: Key, fp: Fingerprint, first: int)
    requires i <= k <= j <= |steps| && InTime(ttl, steps, i, j, key, fp, first)
    ensures InTime(ttl, steps, i, k, key, fp, first)
    ensures k < j && Asks(WorldAt(ttl, steps, k), steps[k], key) ==>
              WorldAt(ttl, steps, k).clock <= Deadline(ttl, steps, i, k, key, fp, first)
  {
    hide Asks, Deadline, WorldAt;
  }

  // ---- The store as it is updated in place ----

  class IdempotencyStore {
    const ttl: nat
    var completedResponses: map<Key, Stored>
    var pendingResponses: map<Key, Pending>
    var hits: nat
    var conflicts: nat

    function Contents(): Tables
      reads this
    {
      Tables(completedResponses, pendingResponses, hits, conflicts)
    }

    constructor (ttl: nat)
      ensures this.ttl == ttl && Contents() == Start(ttl).tables
    {
      this.ttl := ttl;
      completedResponses, pendingResponses := map[], map[];
      hits, conflicts := 0, 0;
    }

    /** `execute` up to its first await. */
    method BeginExecute(clock: int, key: Key, fp: Fingerprint, freshOp: OpId) returns (branch: Branch)
      modifies this
      ensures (Contents(), branch) == Begin(old(Contents()), ttl, clock, key, fp, freshOp)
    {
      if key in completedResponses && completedResponses[key].expiresAt >= clock {
        var completed := completedResponses[key];
        if completed.fingerprint != fp {
          conflicts := conflicts + 1;
          return Conflict;
        }
        hits := hits + 1;
        completedResponses := completedResponses[key := completed.(expiresAt := clock + StandardTtl(ttl))];
        return Replay(completed.op, completed.result);
      }
      completedResponses := completedResponses - {key};
      if key in pendingResponses {
        var pendingOperation := pendingResponses[key];
        if pendingOperation.fingerprint != fp {
          conflicts := conflicts + 1;
          return Conflict;
        }
        hits := hits + 1;
        return Join(pendingOperation.op);
      }
      pendingResponses := pendingResponses[key := Pending(freshOp, fp)];
      return Run(freshOp);
    }

    /** The operation's own continuation when it succeeds. */
    method Complete(clock: int, key: Key, fp: Fingerprint, op: OpId, result: Result)
      modifies this`completedResponses
      ensures Contents() == StoreResult(old(Contents()), ttl, clock, key, fp, op, result)
    {
      completedResponses := completedResponses[key := Stored(op, fp, result, clock + ttl)];
    }

    /** The `finally` of the caller that started the operation. */
    method Release(key: Key)
      modifies this`pendingResponses
      ensures Contents() == ClearPending(old(Contents()), key)
    {
      pendingResponses := pendingResponses - {key};
    }
  }
}
