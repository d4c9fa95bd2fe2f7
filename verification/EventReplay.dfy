/** Polling and replaying contract events behind a stored cursor:
    `backend/src/eventPollingService.ts`, lines 193-427.

    The cursor and the table of processed events are database rows. The node that
    answers `getEvents` and `getLatestLedger` is part of the environment.
 */
module EventReplay {
  import opened Checked

  datatype Event = Event(id: nat, ledger: int, payload: nat)

  /** The chain as the node knows it; ledgers up to `head` are closed. */
  datatype Chain = Chain(head: int, events: seq<Event>)

  ghost predicate DistinctIds(events: seq<Event>) {
    forall i, j :: 0 <= i < j < |events| ==> events[i].id != events[j].id
  }

  ghost predicate ValidChain(c: Chain) {
    0 <= c.head && DistinctIds(c.events) && forall e <- c.events :: 1 <= e.ledger <= c.head
  }

  // ---- Asking the node ----

  /** A reply can lack a result, which reads as no events, or fail to arrive. */
  datatype Reply = Events(events: seq<Event>) | NoResult | Unreachable

  /** Events of one page at most. */
  const PAGE_LIMIT: nat := 1000

  function InRange(events: seq<Event>, first: int, last: int): (r: seq<Event>)
    ensures forall e :: e in r <==> e in events && first <= e.ledger <= last
    ensures |r| <= |events|
  {
    if events == [] then []
    else if first <= events[0].ledger <= last then [events[0]] + InRange(events[1..], first, last)
    else InRange(events[1..], first, last)
  }

  /** What a node that answers returns: the first page of the range. */
  function GetEvents(c: Chain, first: int, last: int): Reply {
    var all := InRange(c.events, first, last);
    Events(if |all| <= PAGE_LIMIT then all else all[..PAGE_LIMIT])
  }

  /** The events taken from a reply; None stands for the exception. */
  function Fetched(reply: Reply, first: int, last: int): Option<seq<Event>> {
    match reply
    case Events(events) => Some(InRange(events, first, last))
    case NoResult => Some([])
    case Unreachable => None
  }

  ghost predicate Complete(c: Chain, fetched: seq<Event>, first: int, last: int) {
    forall e <- c.events :: first <= e.ledger <= last ==> e in fetched
  }

  /** Nothing made up and nothing missing. */
  ghost predicate Honest(c: Chain, reply: Reply, first: int, last: int) {
    var fetched := Fetched(reply, first, last);
    fetched.Some? ==> Complete(c, fetched.value, first, last) && forall e <- fetched.value :: e in c.events
  }

  lemma {:induction false} InRangeKeepsDistinctIds(events: seq<Event>, first: int, last: int)
    requires DistinctIds(events)
    ensures DistinctIds(InRange(events, first, last))
  {
    if events != [] {
      InRangeKeepsDistinctIds(events[1..], first, last);
      assert forall e :: e in events[1..] ==> exists j :: 1 <= j < |events| && events[j] == e;
    }
  }

  lemma {:induction false} InRangeAgain(events: seq<Event>, first: int, last: int)
    requires forall e <- events :: first <= e.ledger <= last
    ensures InRange(events, first, last) == events
  {
    if events != [] {
      InRangeAgain(events[1..], first, last);
    }
  }

  /** The first page is all there is exactly when the range holds at most a page. */
  lemma PageIsCompleteIff(c: Chain, first: int, last: int)
    requires ValidChain(c)
    ensures Honest(c, GetEvents(c, first, last), first, last) <==> |InRange(c.events, first, last)| <= PAGE_LIMIT
  {
    var all := InRange(c.events, first, last);
    InRangeKeepsDistinctIds(c.events, first, last);
    InRangeAgain(GetEvents(c, first, last).events, first, last);
    if |all| > PAGE_LIMIT {
      LaterIsNotEarlier(all, PAGE_LIMIT);
      hide ValidChain, DistinctIds, InRange;
      assert all[PAGE_LIMIT] in all;
    }
  }

  lemma LaterIsNotEarlier(events: seq<Event>, k: nat)
    requires DistinctIds(events) && k < |events|
    ensures events[k] !in events[..k]
  {
  }

  /** A reply without a result passes for a complete one exactly when the range is
      empty. */
  lemma NoResultIsCompleteIff(c: Chain, first: int, last: int)
    ensures Honest(c, NoResult, first, last) <==> InRange(c.events, first, last) == []
  {
    var all := InRange(c.events, first, last);
    if all != [] {
      assert all[0] in all;
    }
  }

  // ---- The database ----

  predicate HasId(table: seq<Event>, id: nat) {
    exists row <- table :: row.id == id
  }

  /** `upsert` with an empty update. */
  function Upsert(table: seq<Event>, e: Event): seq<Event> {
    if HasId(table, e.id) then table else table + [e]
  }

  function RecordAll(table: seq<Event>, events: seq<Event>): seq<Event>
    decreases |events|
  {
    if events == [] then table else RecordAll(Upsert(table, events[0]), events[1..])
  }

  function CursorOf(row: Option<int>): int {
    if row.Some? then row.value else 0
  }

  function BatchEnd(next: int, last: int, size: nat): int {
    if next + size - 1 <= last then next + size - 1 else last
  }

  ghost predicate Covered(c: Chain, table: seq<Event>, ledger: int) {
    forall e <- c.events :: e.ledger <= ledger ==> e in table
  }

  ghost predicate TableOf(c: Chain, table: seq<Event>) {
    DistinctIds(table) && forall row <- table :: row in c.events
  }

  lemma UpsertRecords(c: Chain, table: seq<Event>, e: Event)
    requires ValidChain(c) && TableOf(c, table) && e in c.events
    ensures TableOf(c, Upsert(table, e)) && e in Upsert(table, e) && table <= Upsert(table, e)
  {
    if HasId(table, e.id) {
      SameIdSameEvent(c, table, e);
    }
  }

  lemma SameIdSameEvent(c: Chain, table: seq<Event>, e: Event)
    requires ValidChain(c) && TableOf(c, table) && e in c.events && HasId(table, e.id)
    ensures e in table
  {
    var row :| row in table && row.id == e.id;
    var i :| 0 <= i < |c.events| && c.events[i] == row;
    var j :| 0 <= j < |c.events| && c.events[j] == e;
  }

  lemma UpsertKeepsDistinctIds(table: seq<Event>, e: Event)
    requires DistinctIds(table)
    ensures DistinctIds(Upsert(table, e)) && table <= Upsert(table, e)
  {
    if !HasId(table, e.id) {
      assert forall i :: 0 <= i < |table| ==> table[i] in table;
    }
  }

  lemma {:induction false} RecordAllRecords(c: Chain, table: seq<Event>, events: seq<Event>)
    requires ValidChain(c) && TableOf(c, table) && forall e <- events :: e in c.events
    ensures var t := RecordAll(table, events);
            TableOf(c, t) && table <= t && (forall e :: e in t <==> e in table || e in events)
    decreases |events|
  {
    if events != [] {
      UpsertRecords(c, table, events[0]);
      assert events == [events[0]] + events[1..];
      RecordAllRecords(c, Upsert(table, events[0]), events[1..]);
    }
  }

  // ---- One process on its own ----

  datatype Progress = Progress(cursor: Option<int>, table: seq<Event>)

  datatype Result = Counts(processed: nat, duplicates: nat) | Failed | RangeInverted | RangeTooLarge

  /** The replies of the node to the ranges asked for. */
  type Node = (int, int) -> Reply

  /** The batch loop from `next`: one fetch, the records, the cursor, and on. */
  function Replay(p: Progress, node: Node, next: int, last: int, size: nat, seen: nat): (Progress, Option<nat>)
    requires size > 0
    decreases last - next
  {
    if next > last then (p, Some(seen))
    else
      var end := BatchEnd(next, last, size);
      var fetched := Fetched(node(next, end), next, end);
      if fetched.None? then (p, None)
      else
        Replay(Progress(Some(end), RecordAll(p.table, fetched.value)), node, next + size, last, size,
               seen + |fetched.value|)
  }

  /** The ranges the loop asks for. */
  function Batches(next: int, last: int, size: nat): seq<(int, int)>
    requires size > 0
    decreases last - next
  {
    if next > last then []
    else [(next, BatchEnd(next, last, size))] + Batches(next + size, last, size)
  }

  /** The ranges partition the ledgers: they begin and end with the range, each
      starts just after the one before, none is empty or larger than a batch. */
  lemma {:induction false} BatchesPartition(next: int, last: int, size: nat)
    requires size > 0
    ensures var b := Batches(next, last, size);
            && (b == [] <==> next > last)
            && (b != [] ==> b[0].0 == next && b[|b| - 1].1 == last)
            && (forall i :: 0 <= i < |b| ==> b[i].0 <= b[i].1 < b[i].0 + size)
            && (forall i :: 0 < i < |b| ==> b[i].0 == b[i - 1].1 + 1)
    decreases last - next
  {
    if next <= last {
      BatchesPartition(next + size, last, size);
    }
  }

  lemma {:induction false} BatchOf(next: int, last: int, size: nat, ledger: int) returns (i: nat)
    requires size > 0 && next <= ledger <= last
    ensures i < |Batches(next, last, size)|
    ensures Batches(next, last, size)[i].0 <= ledger <= Batches(next, last, size)[i].1
    decreases last - next
  {
    if ledger < next + size {
      i := 0;
    } else {
      var j := BatchOf(next + size, last, size, ledger);
      i := j + 1;
    }
  }

  lemma {:induction false} BatchesAscend(next: int, last: int, size: nat, i: nat, j: nat)
    requires size > 0 && i < j < |Batches(next, last, size)|
    ensures Batches(next, last, size)[i].1 < Batches(next, last, size)[j].0
    decreases last - next
  {
    if i == 0 {
      LaterBatches(next + size, last, size, j - 1);
    } else {
      BatchesAscend(next + size, last, size, i - 1, j - 1);
    }
  }

  /** Every ledger of the range, and no other, is in exactly one batch. */
  lemma EachLedgerInOneBatch(next: int, last: int, size: nat, ledger: int)
    requires size > 0
    ensures var b := Batches(next, last, size);
            && (next <= ledger <= last <==> exists i :: 0 <= i < |b| && b[i].0 <= ledger <= b[i].1)
            && (forall i, j :: 0 <= i < j < |b| ==> !(b[i].0 <= ledger <= b[i].1 && b[j].0 <= ledger <= b[j].1))
  {
    hide Batches;
    var b := Batches(next, last, size);
    forall i | 0 <= i < |b|
      ensures next <= b[i].0 <= b[i].1 <= last
    {
      LaterBatches(next, last, size, i);
    }
    forall i, j | 0 <= i < j < |b|
      ensures b[i].1 < b[j].0
    {
      BatchesAscend(next, last, size, i, j);
    }
    if next <= ledger <= last {
      var i := BatchOf(next, last, size, ledger);
    }
  }

  lemma {:induction false} LaterBatches(next: int, last: int, size: nat, i: nat)
    requires size > 0 && i < |Batches(next, last, size)|
    ensures next <= Batches(next, last, size)[i].0 <= Batches(next, last, size)[i].1 <= last
    decreases last - next
  {
    if i > 0 {
      LaterBatches(next + size, last, size, i - 1);
    }
  }

  ghost predicate HonestOver(c: Chain, node: Node, first: int, last: int, size: nat)
    requires size > 0
  {
    forall b <- Batches(first, last, size) :: Honest(c, node(b.0, b.1), b.0, b.1)
  }

  predicate Arrives(node: Node, b: (int, int)) {
    Fetched(node(b.0, b.1), b.0, b.1).Some?
  }

  /** The batches fetched before the first one whose fetch fails. */
  function Arrived(node: Node, b: seq<(int, int)>): (a: seq<(int, int)>)
    ensures a <= b && (forall x <- a :: Arrives(node, x))
    ensures a == b || !Arrives(node, b[|a|])
  {
    if b == [] || !Arrives(node, b[0]) then [] else [b[0]] + Arrived(node, b[1..])
  }

  /** Their events, one batch after the other. */
  function Gathered(node: Node, b: seq<(int, int)>): seq<Event>
    requires forall x <- b :: Arrives(node, x)
  {
    if b == [] then []
    else
      assert b[0] in b && Arrives(node, b[0]);
      Fetched(node(b[0].0, b[0].1), b[0].0, b[0].1).value + Gathered(node, b[1..])
  }

  /** A replay records the events of the batches that arrive before the first failed
      fetch, leaves the cursor at the end of the last of them, and ends cleanly if
      and only if none fails. */
  lemma {:induction false} ReplayStopsAtFailure(p: Progress, node: Node, next: int, last: int, size: nat, seen: nat)
    requires size > 0
    ensures var (q, done) := Replay(p, node, next, last, size, seen);
            var b := Batches(next, last, size);
            var a := Arrived(node, b);
            && q.table == RecordAll(p.table, Gathered(node, a))
            && q.cursor == (if a == [] then p.cursor else Some(a[|a| - 1].1))
            && done == (if a == b then Some(seen + |Gathered(node, a)|) else None)
    decreases last - next
  {
    hide *;
    ReplayUnfolds(p, node, next, last, size, seen);
    BatchesUnfold(next, last, size);
    var b := Batches(next, last, size);
    ArrivedUnfolds(node, b);
    if next > last {
      RecordNothing(p.table);
    } else {
      var end, rest := BatchEnd(next, last, size), Batches(next + size, last, size);
      ArrivesIff(node, (next, end));
      if Arrives(node, (next, end)) {
        var fetched := Fetched(node(next, end), next, end).value;
        ReplayStopsAtFailure(Progress(Some(end), RecordAll(p.table, fetched)), node, next + size, last, size,
                             seen + |fetched|);
        RecordAllChains(p.table, fetched, Gathered(node, Arrived(node, rest)));
      } else {
        RecordNothing(p.table);
      }
    }
  }

  lemma BatchesUnfold(next: int, last: int, size: nat)
    requires size > 0
    ensures Batches(next, last, size)
         == if next > last then [] else [(next, BatchEnd(next, last, size))] + Batches(next + size, last, size)
  {
  }

  lemma ArrivedUnfolds(node: Node, b: seq<(int, int)>)
    ensures b == [] ==> Arrived(node, b) == [] && Gathered(node, Arrived(node, b)) == []
    ensures b != [] && !Arrives(node, b[0]) ==> Arrived(node, b) == [] && Gathered(node, Arrived(node, b)) == []
    ensures b != [] && Arrives(node, b[0]) ==>
              var a := Arrived(node, b[1..]);
              && Arrived(node, b) == [b[0]] + a
              && Fetched(node(b[0].0, b[0].1), b[0].0, b[0].1).Some?
              && Gathered(node, Arrived(node, b))
                 == Fetched(node(b[0].0, b[0].1), b[0].0, b[0].1).value + Gathered(node, a)
    ensures b != [] && Arrives(node, b[0]) ==> (Arrived(node, b) == b <==> Arrived(node, b[1..]) == b[1..])
  {
    hide Fetched;
    if b != [] && Arrives(node, b[0]) {
      assert Arrived(node, b)[1..] == Arrived(node, b[1..]);
    }
  }

  lemma ArrivesIff(node: Node, b: (int, int))
    ensures Arrives(node, b) <==> Fetched(node(b.0, b.1), b.0, b.1).Some?
  {
  }

  lemma RecordNothing(table: seq<Event>)
    ensures RecordAll(table, []) == table
  {
  }

  lemma {:induction false} RecordAllChains(table: seq<Event>, first: seq<Event>, later: seq<Event>)
    ensures RecordAll(table, first + later) == RecordAll(RecordAll(table, first), later)
    decreases |first|
  {
    if first == [] {
      assert first + later == later;
    } else {
      assert (first + later)[1..] == first[1..] + later;
      RecordAllChains(Upsert(table, first[0]), first[1..], later);
    }
  }

  /** A replay with honest replies that ends covers everything up to its last
      ledger if what lay below its first was covered; interrupted, it has covered
      everything up to the cursor it left, which is the end of the last batch that
      was fetched. */
  lemma {:induction false} ReplayCovers(c: Chain, p: Progress, node: Node, next: int, last: int, size: nat, seen: nat)
    requires size > 0 && ValidChain(c) && TableOf(c, p.table)
    requires HonestOver(c, node, next, last, size)
    requires Covered(c, p.table, next - 1) && Covered(c, p.table, CursorOf(p.cursor))
    ensures var (q, done) := Replay(p, node, next, last, size, seen);
            && TableOf(c, q.table) && Covered(c, q.table, CursorOf(q.cursor))
            && (done.Some? && next <= last ==> q.cursor == Some(last))
            && (done.Some? ==> done.value >= seen + |q.table| - |p.table|)
            && (var a := Arrived(node, Batches(next, last, size));
                q.cursor == if a == [] then p.cursor else Some(a[|a| - 1].1))
    decreases last - next
  {
    hide *;
    ReplayUnfolds(p, node, next, last, size, seen);
    ReplayStopsAtFailure(p, node, next, last, size, seen);
    if next <= last {
      HonestRest(c, node, next, last, size);
      var end := BatchEnd(next, last, size);
      var fetched := Fetched(node(next, end), next, end);
      if fetched.Some? {
        BatchEnds(next, last, size);
        HonestIsComplete(c, node(next, end), next, end);
        BatchCovers(c, p.table, fetched.value, next, end);
        var p' := Progress(Some(end), RecordAll(p.table, fetched.value));
        CursorIsValue(end);
        if next + size <= last {
          ReplayCovers(c, p', node, next + size, last, size, seen + |fetched.value|);
        } else {
          ReplayUnfolds(p', node, next + size, last, size, seen + |fetched.value|);
        }
      }
    }
  }

  lemma BatchEnds(next: int, last: int, size: nat)
    requires next <= last && size > 0
    ensures next <= BatchEnd(next, last, size) <= last
    ensures BatchEnd(next, last, size) == if next + size <= last then next + size - 1 else last
  {
  }

  lemma HonestIsComplete(c: Chain, reply: Reply, first: int, last: int)
    requires Honest(c, reply, first, last) && Fetched(reply, first, last).Some?
    ensures Complete(c, Fetched(reply, first, last).value, first, last)
    ensures forall e <- Fetched(reply, first, last).value :: e in c.events
  {
  }

  lemma CursorIsValue(ledger: int)
    ensures CursorOf(Some(ledger)) == ledger
  {
  }

  lemma ReplayUnfolds(p: Progress, node: Node, next: int, last: int, size: nat, seen: nat)
    requires size > 0
    ensures next > last ==> Replay(p, node, next, last, size, seen) == (p, Some(seen))
    ensures next <= last ==>
              var end := BatchEnd(next, last, size);
              var fetched := Fetched(node(next, end), next, end);
              Replay(p, node, next, last, size, seen) ==
              if fetched.None? then (p, None)
              else Replay(Progress(Some(end), RecordAll(p.table, fetched.value)), node, next + size, last, size,
                          seen + |fetched.value|)
  {
  }

  lemma HonestRest(c: Chain, node: Node, next: int, last: int, size: nat)
    requires size > 0 && next <= last && HonestOver(c, node, next, last, size)
    ensures Honest(c, node(next, BatchEnd(next, last, size)), next, BatchEnd(next, last, size))
    ensures HonestOver(c, node, next + size, last, size)
  {
    hide Honest;
    var b := Batches(next, last, size);
    assert b == [(next, BatchEnd(next, last, size))] + Batches(next + size, last, size);
    assert b[0] in b;
  }

  lemma BatchCovers(c: Chain, table: seq<Event>, fetched: seq<Event>, next: int, end: int)
    requires ValidChain(c) && TableOf(c, table) && Covered(c, table, next - 1)
    requires Complete(c, fetched, next, end) && forall e <- fetched :: e in c.events
    ensures var t := RecordAll(table, fetched);
            TableOf(c, t) && table <= t && Covered(c, t, end) && |t| <= |table| + |fetched|
  {
    RecordAllRecords(c, table, fetched);
    RecordAllGrowsBy(table, fetched);
  }

  lemma {:induction false} RecordAllGrowsBy(table: seq<Event>, events: seq<Event>)
    ensures |table| <= |RecordAll(table, events)| <= |table| + |events|
    decreases |events|
  {
    if events != [] {
      RecordAllGrowsBy(Upsert(table, events[0]), events[1..]);
    }
  }

  // ---- The service as it updates its rows ----

  /** The checks before a manual replay starts. */
  predicate RangeAccepted(maxRange: int, first: int, last: int) {
    first <= last && last - first + 1 <= maxRange
  }

  lemma {:induction false} RecordAllAppends(table: seq<Event>, events: seq<Event>, e: Event)
    ensures RecordAll(table, events + [e]) == Upsert(RecordAll(table, events), e)
    decreases |events|
  {
    if events == [] {
      assert events + [e] == [e];
    } else {
      assert (events + [e])[1..] == events[1..] + [e];
      RecordAllAppends(Upsert(table, events[0]), events[1..], e);
    }
  }

  /** All events a replay went through, or None when it was cut short. */
  function Total(r: Result): Option<nat> {
    if r.Counts? then Some(r.processed + r.duplicates) else None
  }

  class EventPollingService {
    const batchSize: nat
    const maxRange: int
    var cursorRow: Option<int>
    var processed: seq<Event>

    ghost predicate Valid() {
      batchSize > 0
    }

    function Rows(): Progress
      reads this
    {
      Progress(cursorRow, processed)
    }

    constructor (batchSize: nat, maxRange: int)
      requires batchSize > 0
      ensures Valid() && this.batchSize == batchSize && this.maxRange == maxRange && Rows() == Progress(None, [])
    {
      this.batchSize, this.maxRange, cursorRow, processed := batchSize, maxRange, None, [];
    }

    /** The loop over the events of one fetch. */
    method RecordEvents(events: seq<Event>) returns (processedCount: nat, duplicateCount: nat)
      modifies this`processed
      ensures processed == RecordAll(old(processed), events)
      ensures processedCount == |processed| - |old(processed)|
      ensures processedCount + duplicateCount == |events|
    {
      processedCount, duplicateCount := 0, 0;
      for i := 0 to |events|
        invariant processed == RecordAll(old(processed), events[..i])
        invariant processedCount == |processed| - |old(processed)|
        invariant processedCount + duplicateCount == i
      {
        RecordAllAppends(old(processed), events[..i], events[i]);
        assert events[..i + 1] == events[..i] + [events[i]];
        if !HasId(processed, events[i].id) {
          processed := processed + [events[i]];
          processedCount := processedCount + 1;
        } else {
          duplicateCount := duplicateCount + 1;
        }
      }
      assert events[..|events|] == events;
    }

    /** The batch loop, which a manual replay and a start-up replay share. */
    method ReplayBatches(node: Node, first: int, last: int) returns (r: Result)
      requires Valid()
      modifies this
      ensures (Rows(), Total(r)) == Replay(old(Rows()), node, first, last, batchSize, 0)
      ensures r.Failed? || (r.Counts? && r.processed == |processed| - |old(processed)|)
    {
      hide Replay, RecordAll, Fetched;
      var processedCount, duplicateCount := 0, 0;
      var ledger := first;
      while ledger <= last
        invariant processedCount == |processed| - |old(processed)|
        invariant Replay(Rows(), node, ledger, last, batchSize, processedCount + duplicateCount)
                  == Replay(old(Rows()), node, first, last, batchSize, 0)
        decreases last - ledger
      {
        ReplayUnfolds(Rows(), node, ledger, last, batchSize, processedCount + duplicateCount);
        var endLedger := BatchEnd(ledger, last, batchSize);
        var events := Fetched(node(ledger, endLedger), ledger, endLedger);
        if events.None? {
          return Failed;
        }
        var recorded, repeated := RecordEvents(events.value);
        processedCount, duplicateCount := processedCount + recorded, duplicateCount + repeated;
        cursorRow := Some(endLedger);
        ledger := ledger + batchSize;
      }
      ReplayUnfolds(Rows(), node, ledger, last, batchSize, processedCount + duplicateCount);
      return Counts(processedCount, duplicateCount);
    }

    method ReplayEventsForRange(node: Node, first: int, last: int) returns (r: Result)
      requires Valid()
      modifies this
      ensures r == RangeInverted <==> first > last
      ensures r == RangeTooLarge <==> first <= last && last - first + 1 > maxRange
      ensures if !RangeAccepted(maxRange, first, last) then Rows() == old(Rows())
              else (Rows(), Total(r)) == Replay(old(Rows()), node, first, last, batchSize, 0)
      ensures r.Counts? ==> r.processed == |processed| - |old(processed)|
    {
      if first > last {
        return RangeInverted;
      }
      if last - first + 1 > maxRange {
        return RangeTooLarge;
      }
      r := ReplayBatches(node, first, last);
    }

    /** `head` is the node's latest ledger, 0 when it could not be asked. */
    method ReplayMissedEvents(node: Node, head: int) returns (failed: bool)
      requires Valid()
      modifies this
      ensures var cursor := CursorOf(old(cursorRow));
              var (rows, done) := Replay(old(Rows()), node, cursor + 1, head, batchSize, 0);
              Rows() == rows && failed == done.None?
    {
      var cursor := CursorOf(cursorRow);
      if head <= cursor {
        return false;
      }
      var r := ReplayBatches(node, cursor + 1, head);
      return r.Failed?;
    }

    /** One poll is a replay in a single batch; a failed fetch leaves no trace. */
    method PollEvents(node: Node, head: int)
      requires Valid()
      modifies this
      ensures var cursor := CursorOf(old(cursorRow));
              if head <= cursor then Rows() == old(Rows())
              else Rows() == Replay(old(Rows()), node, cursor + 1, head, head - cursor, 0).0
    {
      var lastLedger := CursorOf(cursorRow);
      if head <= lastLedger {
        return;
      }
      ReplayUnfolds(Rows(), node, lastLedger + 1, head, head - lastLedger, 0);
      var events := Fetched(node(lastLedger + 1, head), lastLedger + 1, head);
      if events.None? {
        return;
      }
      var _, _ := RecordEvents(events.value);
      cursorRow := Some(head);
    }
  }

  // ---- When a manual range is safe ----

  /** A manual range keeps the cursor truthful whatever is on the chain, was
      recorded and is yet to come, exactly when it starts at most one ledger past
      the cursor and ends on a closed ledger. Neither is checked. */
  lemma ManualRangeSafeIff(head: int, cursor: int, first: int, last: int)
    requires 0 <= cursor <= head && first <= last
    ensures (forall c: Chain, table: seq<Event>, later: Chain ::
               c.head == head && ValidChain(c) && TableOf(c, table) && Covered(c, table, cursor) && Extends(later, c)
               ==> Covered(later, RecordAll(table, InRange(c.events, first, last)), last))
            <==> first <= cursor + 1 && last <= head
  {
    if first <= cursor + 1 && last <= head {
      forall c: Chain, table: seq<Event>, later: Chain
        | c.head == head && ValidChain(c) && TableOf(c, table) && Covered(c, table, cursor) && Extends(later, c)
        ensures Covered(later, RecordAll(table, InRange(c.events, first, last)), last)
      {
        RecordAllRecords(c, table, InRange(c.events, first, last));
      }
    } else {
      var missed := Event(0, if cursor < head then cursor + 1 else head + 1, 0);
      if cursor < head && first > cursor + 1 {
        var c := Chain(head, [missed]);
        assert ValidChain(c) && TableOf(c, []) && Covered(c, [], cursor) && Extends(c, c);
        assert InRange(c.events, first, last) == [];
        assert missed in c.events && !Covered(c, RecordAll([], []), last);
      } else {
        missed := Event(0, head + 1, 0);
        var c, later := Chain(head, []), Chain(head + 1, [missed]);
        assert ValidChain(c) && TableOf(c, []) && Covered(c, [], cursor) && Extends(later, c);
        assert InRange(c.events, first, last) == [];
        assert missed in later.events && !Covered(later, RecordAll([], []), last);
      }
    }
  }

  /** Closed ledgers are final. */
  ghost predicate Extends(later: Chain, c: Chain) {
    && ValidChain(later) && c.head <= later.head && c.events <= later.events
    && forall e <- later.events :: e in c.events || e.ledger > c.head
  }

  // ---- Processes that interleave and crash ----

  type Pid = nat

  /** Where a process stands: between two awaits. */
  datatype Job =
    | Looked(poll: bool, cursor: int)
    | Ready(next: int, last: int, size: nat)
    | Working(next: int, last: int, size: nat, pending: seq<Event>)
    | Saving(next: int, last: int, size: nat, pending: seq<Event>)
    | Ended(ending: Ending)

  datatype Ending = Completed | Aborted | Rejected

  datatype System = System(size: nat, maxRange: int, chain: Chain, cursor: Option<int>, table: seq<Event>,
                           jobs: map<Pid, Job>)

  datatype Step =
    | Begin(pid: Pid, poll: bool)
    | BeginManual(pid: Pid, first: int, last: int)
    | Head(pid: Pid, observed: int)
    | Fetch(pid: Pid, reply: Reply)
    | Check(pid: Pid)
    | Record(pid: Pid)
    | Advance(pid: Pid)
    | Crash(pid: Pid)
    | Close(head: int, events: seq<Event>)

  function Put(s: System, pid: Pid, j: Job): System {
    s.(jobs := s.jobs[pid := j])
  }

  function NextOf(s: System, pid: Pid, step: Step): System
    requires pid in s.jobs
  {
    match (s.jobs[pid], step)
    case (Looked(poll, cursor), Head(_, observed)) =>
      if observed <= cursor then Put(s, pid, Ended(Completed))
      else Put(s, pid, Ready(cursor + 1, observed, if poll then observed - cursor else s.size))
    case (Ready(next, last, size), Fetch(_, reply)) =>
      if next > last then Put(s, pid, Ended(Completed))
      else
        var fetched := Fetched(reply, next, BatchEnd(next, last, size));
        if fetched.None? then Put(s, pid, Ended(Aborted)) else Put(s, pid, Working(next, last, size, fetched.value))
    case (Working(next, last, size, pending), Check(_)) =>
      if pending == [] then s
      else if HasId(s.table, pending[0].id) then Put(s, pid, Working(next, last, size, pending[1..]))
      else Put(s, pid, Saving(next, last, size, pending))
    case (Saving(next, last, size, pending), Record(_)) =>
      if pending == [] then s
      else Put(s.(table := Upsert(s.table, pending[0])), pid, Working(next, last, size, pending[1..]))
    case (Working(next, last, size, pending), Advance(_)) =>
      if pending != [] then s
      else Put(s.(cursor := Some(BatchEnd(next, last, size))), pid, Ready(next + size, last, size))
    case (_, _) => s
  }

  /** A step that is not enabled changes nothing. */
  ghost function Next(s: System, step: Step): System {
    match step
    case Begin(pid, poll) => if pid in s.jobs then s else Put(s, pid, Looked(poll, CursorOf(s.cursor)))
    case BeginManual(pid, first, last) =>
      if pid in s.jobs then s
      else if RangeAccepted(s.maxRange, first, last) then Put(s, pid, Ready(first, last, s.size))
      else Put(s, pid, Ended(Rejected))
    case Crash(pid) => s.(jobs := s.jobs - {pid})
    case Close(head, events) =>
      if Extends(Chain(head, s.chain.events + events), s.chain)
      then s.(chain := Chain(head, s.chain.events + events))
      else s
    case _ => if step.pid in s.jobs then NextOf(s, step.pid, step) else s
  }

  /** What is asked of the environment and of whoever orders a manual replay: no
      head ahead of the chain, honest replies, and ranges that start at most one
      ledger past the cursor and end on a closed ledger. */
  ghost predicate Proper(s: System, step: Step) {
    match step
    case BeginManual(_, first, last) => first <= CursorOf(s.cursor) + 1 && last <= s.chain.head
    case Head(_, observed) => observed <= s.chain.head
    case Fetch(pid, reply) =>
      pid in s.jobs && s.jobs[pid].Ready? ==>
        var j := s.jobs[pid];
        Honest(s.chain, reply, j.next, BatchEnd(j.next, j.last, j.size))
    case _ => true
  }

  function Min(a: int, b: int): int {
    if a <= b then a else b
  }

  /** What a process can rely on between its awaits. */
  ghost predicate JobInv(c: Chain, table: seq<Event>, j: Job) {
    match j
    case Looked(_, cursor) => cursor <= c.head && Covered(c, table, cursor)
    case Ready(next, last, size) => size > 0 && last <= c.head && Covered(c, table, Min(next - 1, last))
    case Ended(_) => true
    case _ =>
      && j.size > 0 && j.next <= j.last <= c.head
      && (forall e <- j.pending :: e in c.events)
      && (forall e <- c.events :: e.ledger <= BatchEnd(j.next, j.last, j.size) ==> e in table || e in j.pending)
  }

  ghost predicate Inv(s: System) {
    && s.size > 0 && ValidChain(s.chain) && TableOf(s.chain, s.table)
    && CursorOf(s.cursor) <= s.chain.head && Covered(s.chain, s.table, CursorOf(s.cursor))
    && forall p <- s.jobs.Keys :: JobInv(s.chain, s.table, s.jobs[p])
  }

  /** A job's invariant survives new records and new ledgers. */
  lemma JobInvIsStable(c: Chain, table: seq<Event>, later: Chain, more: seq<Event>, j: Job)
    requires JobInv(c, table, j) && Extends(later, c)
    requires forall e <- table :: e in more
    ensures JobInv(later, more, j)
  {
  }

  lemma BeginningKeepsInv(s: System, step: Step)
    requires Inv(s) && Proper(s, step) && (step.Begin? || step.BeginManual? || step.Crash?)
    ensures Inv(Next(s, step))
  {
    hide TableOf, ValidChain;
  }

  lemma ClosingKeepsInv(s: System, step: Step)
    requires Inv(s) && step.Close?
    ensures Inv(Next(s, step))
  {
    var t := Next(s, step);
    assert Extends(t.chain, s.chain);
    forall p | p in s.jobs.Keys
      ensures JobInv(t.chain, t.table, t.jobs[p])
    {
      JobInvIsStable(s.chain, s.table, t.chain, t.table, s.jobs[p]);
    }
  }

  lemma LookingKeepsInv(s: System, step: Step)
    requires Inv(s) && Proper(s, step) && (step.Head? || step.Fetch? || step.Advance?)
    ensures Inv(Next(s, step))
  {
    hide TableOf, ValidChain, HasId;
  }

  lemma RecordingKeepsInv(s: System, step: Step)
    requires Inv(s) && (step.Check? || step.Record?)
    ensures Inv(Next(s, step))
  {
    if step.pid in s.jobs && (s.jobs[step.pid].Working? || s.jobs[step.pid].Saving?) && s.jobs[step.pid].pending != [] {
      var j := s.jobs[step.pid];
      var e := j.pending[0];
      UpsertRecords(s.chain, s.table, e);
      if HasId(s.table, e.id) {
        SameIdSameEvent(s.chain, s.table, e);
      }
      var more := Upsert(s.table, e);
      forall p | p in s.jobs.Keys
        ensures JobInv(s.chain, more, s.jobs[p])
      {
        JobInvIsStable(s.chain, s.table, s.chain, more, s.jobs[p]);
      }
      assert j.pending == [e] + j.pending[1..];
      hide TableOf, ValidChain, HasId, Upsert;
    }
  }

  lemma NextKeepsInv(s: System, step: Step)
    requires Inv(s) && Proper(s, step)
    ensures Inv(Next(s, step))
  {
    hide Inv, Next, Proper;
    match step
    case Begin(_, _) => BeginningKeepsInv(s, step);
    case BeginManual(_, _, _) => BeginningKeepsInv(s, step);
    case Crash(_) => BeginningKeepsInv(s, step);
    case Close(_, _) => ClosingKeepsInv(s, step);
    case Check(_) => RecordingKeepsInv(s, step);
    case Record(_) => RecordingKeepsInv(s, step);
    case _ => LookingKeepsInv(s, step);
  }

  // ---- Runs ----

  predicate IsStart(s: System) {
    s.size > 0 && s.chain == Chain(0, []) && s.cursor == None && s.table == [] && s.jobs == map[]
  }

  ghost function SystemAt(s0: System, steps: seq<Step>, i: nat): System
    requires i <= |steps|
  {
    if i == 0 then s0 else Next(SystemAt(s0, steps, i - 1), steps[i - 1])
  }

  ghost predicate ProperRun(s0: System, steps: seq<Step>) {
    forall i :: 0 <= i < |steps| ==> Proper(SystemAt(s0, steps, i), steps[i])
  }

  lemma {:induction false} RunKeepsInv(s0: System, steps: seq<Step>, i: nat)
    requires IsStart(s0) && ProperRun(s0, steps) && i <= |steps|
    ensures Inv(SystemAt(s0, steps, i))
  {
    hide Next, Proper;
    if i > 0 {
      RunKeepsInv(s0, steps, i - 1);
      NextKeepsInv(SystemAt(s0, steps, i - 1), steps[i - 1]);
    }
  }

  /** The cursor never points past an event that is not in the table, and such an
      event is there exactly once, whatever polls, replays and crashes overlap. */
  lemma CursorNeverSkips(s0: System, steps: seq<Step>, i: nat, e: Event)
    requires IsStart(s0) && ProperRun(s0, steps) && i <= |steps|
    requires e in SystemAt(s0, steps, i).chain.events && e.ledger <= CursorOf(SystemAt(s0, steps, i).cursor)
    ensures multiset(SystemAt(s0, steps, i).table)[e] == 1
  {
    RunKeepsInv(s0, steps, i);
    hide Next, SystemAt;
    OccursOnce(SystemAt(s0, steps, i).table, e);
  }

  lemma OccursOnce(table: seq<Event>, e: Event)
    requires DistinctIds(table) && e in table
    ensures multiset(table)[e] == 1
  {
    var i :| 0 <= i < |table| && table[i] == e;
    assert table == table[..i] + [e] + table[i + 1..];
    assert e !in table[..i] && e !in table[i + 1..];
  }

  lemma StepKeepsRows(s: System, step: Step)
    requires DistinctIds(s.table)
    ensures DistinctIds(Next(s, step).table) && s.table <= Next(s, step).table
  {
    hide DistinctIds, Upsert, Extends;
    if step.Record? && step.pid in s.jobs && s.jobs[step.pid].Saving? && s.jobs[step.pid].pending != [] {
      UpsertKeepsDistinctIds(s.table, s.jobs[step.pid].pending[0]);
    }
  }

  /** With no hypothesis on the environment at all: no event id is ever recorded
      twice, and a recorded row stays as it was written. */
  lemma {:induction false} RowsAreWrittenOnce(s0: System, steps: seq<Step>, i: nat, j: nat)
    requires IsStart(s0) && i <= j <= |steps|
    ensures DistinctIds(SystemAt(s0, steps, i).table)
    ensures SystemAt(s0, steps, i).table <= SystemAt(s0, steps, j).table
    decreases j
  {
    hide Next;
    if i < j {
      RowsAreWrittenOnce(s0, steps, i, j - 1);
      RowsAreWrittenOnce(s0, steps, j - 1, j - 1);
      StepKeepsRows(SystemAt(s0, steps, j - 1), steps[j - 1]);
    } else if i > 0 {
      RowsAreWrittenOnce(s0, steps, i - 1, i - 1);
      StepKeepsRows(SystemAt(s0, steps, i - 1), steps[i - 1]);
    }
  }
}
