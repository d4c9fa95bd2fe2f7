/** One polling or replaying process in the interleaved system
    (`backend/src/eventPollingService.ts`, lines 200-329): run alone it does what
    the sequential loop does, and interleaved with anything else a process that
    completes has recorded all it set out to. */
module EventProcess {
  import opened Checked
  import opened EventReplay

  // ---- Running alone ----

  lemma {:induction false} RunsChain(s: System, first: seq<Step>, rest: seq<Step>, i: nat)
    requires i <= |rest|
    ensures SystemAt(s, first + rest, |first|) == SystemAt(s, first, |first|)
    ensures SystemAt(s, first + rest, |first| + i) == SystemAt(SystemAt(s, first, |first|), rest, i)
  {
    hide Next;
    if i == 0 {
      RunPrefix(s, first, rest, |first|);
    } else {
      RunsChain(s, first, rest, i - 1);
      assert (first + rest)[|first| + i - 1] == rest[i - 1];
    }
  }

  lemma {:induction false} RunPrefix(s: System, first: seq<Step>, rest: seq<Step>, i: nat)
    requires i <= |first|
    ensures SystemAt(s, first + rest, i) == SystemAt(s, first, i)
  {
    hide Next;
    if i > 0 {
      RunPrefix(s, first, rest, i - 1);
    }
  }

  ghost function EndOf(s: System, steps: seq<Step>): System {
    SystemAt(s, steps, |steps|)
  }

  lemma EndOfChain(s: System, first: seq<Step>, rest: seq<Step>)
    ensures EndOf(s, first + rest) == EndOf(EndOf(s, first), rest)
  {
    hide SystemAt;
    RunsChain(s, first, rest, |rest|);
  }

  lemma EndOfOne(s: System, step: Step)
    ensures EndOf(s, [step]) == Next(s, step)
  {
    hide Next;
    assert SystemAt(s, [step], 0) == s;
  }

  lemma EndOfStep(s: System, step: Step, rest: seq<Step>)
    ensures EndOf(s, [step] + rest) == EndOf(Next(s, step), rest)
  {
    hide Next, EndOf;
    EndOfChain(s, [step], rest);
    EndOfOne(s, step);
  }

  /** The process with the rows as they are. */
  function Standing(s: System, pid: Pid, p: Progress, j: Job): System {
    s.(cursor := p.cursor, table := p.table, jobs := s.jobs[pid := j])
  }

  /** The steps that record what was fetched: a check each, and a record if new. */
  function RecordSteps(pid: Pid, table: seq<Event>, pending: seq<Event>): seq<Step>
    decreases |pending|
  {
    if pending == [] then []
    else if HasId(table, pending[0].id) then [Check(pid)] + RecordSteps(pid, table, pending[1..])
    else [Check(pid), Record(pid)] + RecordSteps(pid, Upsert(table, pending[0]), pending[1..])
  }

  lemma {:induction false} RecordingAlone(s: System, pid: Pid, p: Progress, next: int, last: int, size: nat,
                                          pending: seq<Event>)
    ensures EndOf(Standing(s, pid, p, Working(next, last, size, pending)), RecordSteps(pid, p.table, pending))
         == Standing(s, pid, p.(table := RecordAll(p.table, pending)), Working(next, last, size, []))
    decreases |pending|
  {
    if pending == [] {
      assert RecordAll(p.table, pending) == p.table;
    } else {
      var before := Standing(s, pid, p, Working(next, last, size, pending));
      var later := Working(next, last, size, pending[1..]);
      if HasId(p.table, pending[0].id) {
        assert Next(before, Check(pid)) == Standing(s, pid, p, later);
        hide Next, EndOf, HasId;
        EndOfStep(before, Check(pid), RecordSteps(pid, p.table, pending[1..]));
        RecordingAlone(s, pid, p, next, last, size, pending[1..]);
      } else {
        var p' := p.(table := Upsert(p.table, pending[0]));
        var between := Standing(s, pid, p, Saving(next, last, size, pending));
        assert Next(before, Check(pid)) == between;
        assert Next(between, Record(pid)) == Standing(s, pid, p', later);
        hide Next, EndOf, HasId, Upsert;
        var rest := RecordSteps(pid, p'.table, pending[1..]);
        assert [Check(pid), Record(pid)] + rest == [Check(pid)] + ([Record(pid)] + rest);
        EndOfStep(before, Check(pid), [Record(pid)] + rest);
        EndOfStep(between, Record(pid), rest);
        RecordingAlone(s, pid, p', next, last, size, pending[1..]);
      }
    }
  }

  /** All steps of a process from here on, when nothing else happens. */
  function LoopSteps(pid: Pid, p: Progress, node: Node, next: int, last: int, size: nat): seq<Step>
    requires size > 0
    decreases last - next
  {
    if next > last then [Fetch(pid, NoResult)]
    else
      var end := BatchEnd(next, last, size);
      var fetched := Fetched(node(next, end), next, end);
      if fetched.None? then [Fetch(pid, node(next, end))]
      else
        [Fetch(pid, node(next, end))] + RecordSteps(pid, p.table, fetched.value) + [Advance(pid)]
        + LoopSteps(pid, Progress(Some(end), RecordAll(p.table, fetched.value)), node, next + size, last, size)
  }

  function Ending(done: Option<nat>): Job {
    Ended(if done.Some? then Completed else Aborted)
  }

  /** One batch alone: from ready to ready for the next. */
  lemma BatchAlone(s: System, pid: Pid, p: Progress, node: Node, next: int, last: int, size: nat)
    requires size > 0 && next <= last
    requires Fetched(node(next, BatchEnd(next, last, size)), next, BatchEnd(next, last, size)).Some?
    ensures var end := BatchEnd(next, last, size);
            var fetched := Fetched(node(next, end), next, end).value;
            EndOf(Standing(s, pid, p, Ready(next, last, size)),
                  [Fetch(pid, node(next, end))] + RecordSteps(pid, p.table, fetched) + [Advance(pid)])
            == Standing(s, pid, Progress(Some(end), RecordAll(p.table, fetched)), Ready(next + size, last, size))
  {
    var end := BatchEnd(next, last, size);
    var fetched := Fetched(node(next, end), next, end).value;
    var p' := p.(table := RecordAll(p.table, fetched));
    var before := Standing(s, pid, p, Ready(next, last, size));
    var done := Standing(s, pid, p', Working(next, last, size, []));
    assert Next(before, Fetch(pid, node(next, end))) == Standing(s, pid, p, Working(next, last, size, fetched));
    assert Next(done, Advance(pid)) == Standing(s, pid, p'.(cursor := Some(end)), Ready(next + size, last, size));
    hide *;
    hide Next;
    RecordingAlone(s, pid, p, next, last, size, fetched);
    EndOfOne(before, Fetch(pid, node(next, end)));
    EndOfOne(done, Advance(pid));
    EndOfChain(before, [Fetch(pid, node(next, end))], RecordSteps(pid, p.table, fetched));
    EndOfChain(before, [Fetch(pid, node(next, end))] + RecordSteps(pid, p.table, fetched), [Advance(pid)]);
  }

  /** A process that runs alone leaves the rows and the ending of the sequential
      replay. */
  lemma {:induction false} AloneIsReplay(s: System, pid: Pid, p: Progress, node: Node, next: int, last: int, size: nat,
                                         seen: nat)
    requires size > 0
    ensures var (q, done) := Replay(p, node, next, last, size, seen);
            EndOf(Standing(s, pid, p, Ready(next, last, size)), LoopSteps(pid, p, node, next, last, size))
            == Standing(s, pid, q, Ending(done))
    decreases last - next
  {
    hide *;
    var before, end := Standing(s, pid, p, Ready(next, last, size)), BatchEnd(next, last, size);
    ReplayUnfolds(p, node, next, last, size, seen);
    LoopStepsUnfold(pid, p, node, next, last, size);
    if next > last || Fetched(node(next, end), next, end).None? {
      LastStepAlone(s, pid, p, node, next, last, size);
    } else {
      var fetched := Fetched(node(next, end), next, end).value;
      var p' := Progress(Some(end), RecordAll(p.table, fetched));
      BatchAlone(s, pid, p, node, next, last, size);
      EndOfChain(before, [Fetch(pid, node(next, end))] + RecordSteps(pid, p.table, fetched) + [Advance(pid)],
                 LoopSteps(pid, p', node, next + size, last, size));
      AloneIsReplay(s, pid, p', node, next + size, last, size, seen + |fetched|);
    }
  }

  lemma LoopStepsUnfold(pid: Pid, p: Progress, node: Node, next: int, last: int, size: nat)
    requires size > 0
    ensures next > last ==> LoopSteps(pid, p, node, next, last, size) == [Fetch(pid, NoResult)]
    ensures var end := BatchEnd(next, last, size);
            var fetched := Fetched(node(next, end), next, end);
            next <= last ==>
              LoopSteps(pid, p, node, next, last, size) ==
              if fetched.None? then [Fetch(pid, node(next, end))]
              else [Fetch(pid, node(next, end))] + RecordSteps(pid, p.table, fetched.value) + [Advance(pid)]
                   + LoopSteps(pid, Progress(Some(end), RecordAll(p.table, fetched.value)), node, next + size, last,
                               size)
  {
    hide Fetched, BatchEnd, RecordSteps, RecordAll;
  }

  lemma LastStepAlone(s: System, pid: Pid, p: Progress, node: Node, next: int, last: int, size: nat)
    requires size > 0
    ensures next > last ==> EndOf(Standing(s, pid, p, Ready(next, last, size)), [Fetch(pid, NoResult)])
                            == Standing(s, pid, p, Ending(Some(0)))
    ensures next > last ==> forall n: nat :: Ending(Some(n)) == Ending(Some(0))
    ensures var end := BatchEnd(next, last, size);
            next <= last && Fetched(node(next, end), next, end).None? ==>
              EndOf(Standing(s, pid, p, Ready(next, last, size)), [Fetch(pid, node(next, end))])
              == Standing(s, pid, p, Ending(None))
  {
    var before, end := Standing(s, pid, p, Ready(next, last, size)), BatchEnd(next, last, size);
    EndOfOne(before, Fetch(pid, NoResult));
    EndOfOne(before, Fetch(pid, node(next, end)));
    hide EndOf, Fetched;
  }

  /** A poll or a start-up replay alone, from its first step: it looks at the cursor,
      asks for the head, and replays what lies between, a poll in one batch. */
  lemma ProcessAloneIsReplay(s: System, pid: Pid, poll: bool, head: int, node: Node)
    requires pid !in s.jobs && s.size > 0
    ensures var rows, cursor := Progress(s.cursor, s.table), CursorOf(s.cursor);
            var size := if poll && cursor < head then head - cursor else s.size;
            var (q, done) := Replay(rows, node, cursor + 1, head, size, 0);
            var steps := [Begin(pid, poll), Head(pid, head)]
                         + if cursor < head then LoopSteps(pid, rows, node, cursor + 1, head, size) else [];
            EndOf(s, steps) == Standing(s, pid, q, Ending(done))
  {
    var rows, cursor := Progress(s.cursor, s.table), CursorOf(s.cursor);
    var size := if poll && cursor < head then head - cursor else s.size;
    var opening := [Begin(pid, poll), Head(pid, head)];
    var looked := Standing(s, pid, rows, Looked(poll, cursor));
    hide *;
    hide Next;
    OpeningAlone(s, pid, poll, head);
    assert opening == [Begin(pid, poll)] + [Head(pid, head)];
    EndOfStep(s, Begin(pid, poll), [Head(pid, head)]);
    EndOfOne(looked, Head(pid, head));
    if cursor < head {
      EndOfChain(s, opening, LoopSteps(pid, rows, node, cursor + 1, head, size));
      AloneIsReplay(s, pid, rows, node, cursor + 1, head, size, 0);
    } else {
      ReplayUnfolds(rows, node, cursor + 1, head, size, 0);
      EndingMeans();
      assert opening + [] == opening;
    }
  }

  lemma OpeningAlone(s: System, pid: Pid, poll: bool, head: int)
    requires pid !in s.jobs
    ensures var rows, cursor := Progress(s.cursor, s.table), CursorOf(s.cursor);
            var looked := Standing(s, pid, rows, Looked(poll, cursor));
            && Next(s, Begin(pid, poll)) == looked
            && Next(looked, Head(pid, head)) ==
               Standing(s, pid, rows, if head <= cursor then Ended(Completed)
                                      else Ready(cursor + 1, head, if poll then head - cursor else s.size))
  {
    hide CursorOf;
  }

  lemma EndingMeans()
    ensures forall n: nat :: Ending(Some(n)) == Ended(Completed)
    ensures Ending(None) == Ended(Aborted)
  {
  }

  /** The same of a manual replay whose range is accepted; any other is rejected and
      leaves the rows alone. */
  lemma ManualAloneIsReplay(s: System, pid: Pid, first: int, last: int, node: Node)
    requires pid !in s.jobs && s.size > 0
    ensures var rows := Progress(s.cursor, s.table);
            var (q, done) := Replay(rows, node, first, last, s.size, 0);
            var loop := LoopSteps(pid, rows, node, first, last, s.size);
            if first <= last && last - first < s.maxRange
            then EndOf(s, [BeginManual(pid, first, last)] + loop) == Standing(s, pid, q, Ending(done))
            else EndOf(s, [BeginManual(pid, first, last)]) == Standing(s, pid, rows, Ended(Rejected))
  {
    var rows := Progress(s.cursor, s.table);
    EndOfOne(s, BeginManual(pid, first, last));
    if first <= last && last - first < s.maxRange {
      assert Next(s, BeginManual(pid, first, last)) == Standing(s, pid, rows, Ready(first, last, s.size));
      hide *;
      hide Next;
      EndOfStep(s, BeginManual(pid, first, last), LoopSteps(pid, rows, node, first, last, s.size));
      AloneIsReplay(s, pid, rows, node, first, last, s.size, 0);
    } else {
      hide EndOf, Replay, LoopSteps;
    }
  }

  // ---- Interleaved with anything ----

  /** A process on its way to the ledger `goal`, which it has covered if it completed. */
  ghost predicate Heading(s: System, pid: Pid, goal: int) {
    && pid in s.jobs
    && match s.jobs[pid]
       case Looked(_, _) => false
       case Ended(e) => e == Completed ==> Covered(s.chain, s.table, goal) && goal <= s.chain.head
       case j => j.last == goal
  }

  /** Chain and table only grow, and what a process has covered stays covered. */
  lemma CoveredStays(s: System, step: Step, goal: int)
    requires Inv(s) && Covered(s.chain, s.table, goal) && goal <= s.chain.head
    ensures Covered(Next(s, step).chain, Next(s, step).table, goal) && goal <= Next(s, step).chain.head
  {
    hide Inv, HasId, Fetched;
    if step.Close? {
      assert Extends(Next(s, step).chain, s.chain) || Next(s, step) == s;
    } else {
      RecordKeepsRows(s, step);
      hide Upsert;
    }
  }

  lemma OthersKeepHeading(s: System, step: Step, pid: Pid, goal: int)
    requires Inv(s) && Heading(s, pid, goal)
    requires pid in Next(s, step).jobs && Next(s, step).jobs[pid] == s.jobs[pid]
    ensures Heading(Next(s, step), pid, goal)
  {
    if s.jobs[pid].Ended? && s.jobs[pid].ending == Completed {
      CoveredStays(s, step, goal);
    }
    hide Inv, Next, Covered;
  }

  lemma JobsOfOthers(s: System, step: Step, pid: Pid)
    requires pid in s.jobs && (step.Close? || step.pid != pid)
    ensures pid in Next(s, step).jobs && Next(s, step).jobs[pid] == s.jobs[pid]
  {
    hide Extends, Upsert, HasId, Fetched, BatchEnd;
  }

  lemma OwnStepKeepsHeading(s: System, step: Step, pid: Pid, goal: int)
    requires Inv(s) && Heading(s, pid, goal) && !step.Close? && step.pid == pid && !step.Crash?
    requires !(s.jobs[pid].Ended?)
    ensures Heading(Next(s, step), pid, goal)
  {
    hide TableOf, ValidChain, HasId, Upsert, Fetched;
  }

  lemma EndedStays(s: System, step: Step, pid: Pid)
    requires pid in s.jobs && s.jobs[pid].Ended? && step != Crash(pid)
    ensures pid in Next(s, step).jobs && Next(s, step).jobs[pid] == s.jobs[pid]
  {
    hide Extends, Upsert, HasId, Fetched, BatchEnd;
  }

  lemma StepKeepsHeading(s: System, step: Step, pid: Pid, goal: int)
    requires Inv(s) && Heading(s, pid, goal) && step != Crash(pid)
    ensures Heading(Next(s, step), pid, goal)
  {
    hide Inv, Next;
    if step.Close? || step.pid != pid {
      JobsOfOthers(s, step, pid);
      OthersKeepHeading(s, step, pid, goal);
    } else if s.jobs[pid].Ended? {
      EndedStays(s, step, pid);
      OthersKeepHeading(s, step, pid, goal);
    } else {
      OwnStepKeepsHeading(s, step, pid, goal);
    }
  }

  lemma RecordKeepsRows(s: System, step: Step)
    requires !step.Close?
    ensures Next(s, step).chain == s.chain
    ensures forall e <- s.table :: e in Next(s, step).table
  {
  }

  lemma {:induction false} RunKeepsHeading(s0: System, steps: seq<Step>, i: nat, j: nat, pid: Pid, goal: int)
    requires IsStart(s0) && ProperRun(s0, steps) && i <= j <= |steps|
    requires Heading(SystemAt(s0, steps, i), pid, goal)
    requires forall k :: i <= k < j ==> steps[k] != Crash(pid)
    ensures Heading(SystemAt(s0, steps, j), pid, goal)
    decreases j
  {
    hide Next, Proper, Heading;
    if i < j {
      RunKeepsHeading(s0, steps, i, j - 1, pid, goal);
      RunKeepsInv(s0, steps, j - 1);
      StepKeepsHeading(SystemAt(s0, steps, j - 1), steps[j - 1], pid, goal);
    }
  }

  /** The ledger a step sends the process to: the head it observed, or the end of
      its manual range. */
  predicate SetsOut(s: System, step: Step, pid: Pid, goal: int) {
    || (step == Head(pid, goal) && pid in s.jobs && s.jobs[pid].Looked?)
    || (&& step.BeginManual? && step.pid == pid && step.last == goal && pid !in s.jobs
        && RangeAccepted(s.maxRange, step.first, step.last))
  }

  lemma SettingOut(s: System, step: Step, pid: Pid, goal: int)
    requires Inv(s) && Proper(s, step) && SetsOut(s, step, pid, goal)
    ensures Heading(Next(s, step), pid, goal)
  {
    hide TableOf, ValidChain;
  }

  /** In every proper run, whatever polls, replays and crashes of others overlap: a
      process that has completed has recorded every event up to the head it observed,
      or to the end of its manual range. */
  lemma CompletedHasRecorded(s0: System, steps: seq<Step>, i: nat, j: nat, pid: Pid, goal: int, e: Event)
    requires IsStart(s0) && ProperRun(s0, steps) && i < j <= |steps|
    requires SetsOut(SystemAt(s0, steps, i), steps[i], pid, goal)
    requires forall k :: i < k < j ==> steps[k] != Crash(pid)
    requires pid in SystemAt(s0, steps, j).jobs && SystemAt(s0, steps, j).jobs[pid] == Ended(Completed)
    requires e in SystemAt(s0, steps, j).chain.events && e.ledger <= goal
    ensures e in SystemAt(s0, steps, j).table
  {
    hide *;
    RunKeepsInv(s0, steps, i);
    StepOfRun(s0, steps, i);
    SettingOut(SystemAt(s0, steps, i), steps[i], pid, goal);
    RunKeepsHeading(s0, steps, i + 1, j, pid, goal);
    CompletedMeans(SystemAt(s0, steps, j), pid, goal, e);
  }

  lemma StepOfRun(s0: System, steps: seq<Step>, i: nat)
    requires i < |steps| && ProperRun(s0, steps)
    ensures Proper(SystemAt(s0, steps, i), steps[i])
    ensures SystemAt(s0, steps, i + 1) == Next(SystemAt(s0, steps, i), steps[i])
  {
    hide Next, Proper;
  }

  lemma CompletedMeans(s: System, pid: Pid, goal: int, e: Event)
    requires Heading(s, pid, goal) && s.jobs[pid] == Ended(Completed) && e in s.chain.events && e.ledger <= goal
    ensures e in s.table
  {
  }
}
