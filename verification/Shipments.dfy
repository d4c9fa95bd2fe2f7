/** The shipment index and its cursor paging: `contracts/vault/src/lib.rs`, lines
    926-1037 and 2282-2336. */
module Shipments {
  import opened Checked
  import opened Sets

  const MAX_PAGE_SIZE: nat := 50

  datatype Status = Pending | InTransit | Delivered | Cancelled

  datatype Page = Page(shipmentIds: seq<nat>, nextCursor: Option<nat>)

  ghost predicate Increasing(ids: seq<nat>) {
    forall i, j :: 0 <= i < j < |ids| ==> ids[i] < ids[j]
  }

  lemma NonEmptyHasElement(y: seq<nat>)
    ensures y != [] ==> exists k :: k in y
  {
    if y != [] {
      assert y[0] in y;
    }
  }

  /** A strictly increasing list is determined by its elements. */
  lemma {:induction false} IncreasingListsAreSets(x: seq<nat>, y: seq<nat>)
    requires Increasing(x) && Increasing(y)
    requires forall k :: k in x <==> k in y
    ensures x == y
    decreases |x|
  {
    if x == [] {
      NonEmptyHasElement(y);
    } else {
      var a := x[|x| - 1];
      assert a in y && y != [];
      var c := y[|y| - 1];
      assert c in x;
      assert a == c;
      var x', y' := x[..|x| - 1], y[..|y| - 1];
      forall k
        ensures k in x' <==> k in y'
      {
        if k in x' {
          assert k < a && k in x && k in y;
        }
        if k in y' {
          assert k < c && k in y && k in x;
        }
      }
      IncreasingListsAreSets(x', y');
    }
  }

  lemma AppendLarger(x: seq<nat>, y: seq<nat>)
    requires Increasing(x) && Increasing(y)
    requires forall j, k :: j in x && k in y ==> j < k
    ensures Increasing(x + y)
  {
    forall i, j | 0 <= i < j < |x + y|
      ensures (x + y)[i] < (x + y)[j]
    {
      if i < |x| <= j {
        assert x[i] in x && y[j - |x|] in y;
      }
    }
  }

  // ---- The index ----

  datatype Index = Index(statusOf: map<nat, Status>, byStatus: map<Status, seq<nat>>)

  const EMPTY := Index(map[], map[])

  function ListOf(ix: Index, s: Status): seq<nat> {
    if s in ix.byStatus then ix.byStatus[s] else []
  }

  /** The list holds, in order, exactly the ids mapped to the status. */
  ghost predicate Lists(ids: seq<nat>, statusOf: map<nat, Status>, s: Status) {
    Increasing(ids) && forall id :: id in ids <==> id in statusOf && statusOf[id] == s
  }

  /** Each status list is strictly increasing and holds exactly the ids mapped to
      that status. */
  ghost predicate Agrees(ix: Index) {
    forall s :: Lists(ListOf(ix, s), ix.statusOf, s)
  }

  /** The list holding the elements of `ids` and `id`, in order. */
  ghost predicate IsInserted(ids: seq<nat>, id: nat, out: seq<nat>) {
    Increasing(out) && forall k :: k in out <==> k in ids || k == id
  }

  ghost predicate IsRemoved(ids: seq<nat>, id: nat, out: seq<nat>) {
    Increasing(out) && forall k :: k in out <==> k in ids && k != id
  }

  method InsertSortedUnique(ids: seq<nat>, shipmentId: nat) returns (out: seq<nat>)
    requires Increasing(ids)
    ensures IsInserted(ids, shipmentId, out)
  {
    out := [];
    var inserted := false;
    var idx := 0;
    while idx < |ids|
      invariant 0 <= idx <= |ids|
      invariant Increasing(out)
      invariant forall k :: k in out <==> k in ids[..idx] || (inserted && k == shipmentId)
      invariant inserted ==> idx > 0 && shipmentId < ids[idx - 1]
      invariant !inserted ==> forall k :: k in ids[..idx] ==> k < shipmentId
    {
      var current := ids[idx];
      if current == shipmentId {
        return ids;
      }
      assert ids[..idx + 1] == ids[..idx] + [current];
      assert forall k :: k in ids[..idx] ==> k < current;
      if !inserted && shipmentId < current {
        AppendLarger(out, [shipmentId]);
        out := out + [shipmentId];
        inserted := true;
      }
      AppendLarger(out, [current]);
      out := out + [current];
      idx := idx + 1;
    }
    assert ids[..|ids|] == ids;
    if !inserted {
      AppendLarger(out, [shipmentId]);
      out := out + [shipmentId];
    }
  }

  method RemoveId(ids: seq<nat>, target: nat) returns (out: seq<nat>)
    requires Increasing(ids)
    ensures IsRemoved(ids, target, out)
  {
    out := [];
    var idx := 0;
    while idx < |ids|
      invariant 0 <= idx <= |ids|
      invariant IsRemoved(ids[..idx], target, out)
    {
      var current := ids[idx];
      assert ids[..idx + 1] == ids[..idx] + [current];
      assert forall k :: k in ids[..idx] ==> k < current;
      if current != target {
        AppendLarger(out, [current]);
        out := out + [current];
      }
      idx := idx + 1;
    }
    assert ids[..|ids|] == ids;
  }

  /** The position of the first id greater than the cursor. */
  method IndexAfterCursor(ids: seq<nat>, cursor: Option<nat>) returns (start: nat)
    ensures start <= |ids|
    ensures cursor.None? ==> start == 0
    ensures cursor.Some? ==> forall i :: 0 <= i < start ==> ids[i] <= cursor.value
    ensures cursor.Some? && start < |ids| ==> ids[start] > cursor.value
  {
    if cursor.None? {
      return 0;
    }
    var idx := 0;
    while idx < |ids|
      invariant 0 <= idx <= |ids|
      invariant forall i :: 0 <= i < idx ==> ids[i] <= cursor.value
    {
      if ids[idx] > cursor.value {
        return idx;
      }
      idx := idx + 1;
    }
    return |ids|;
  }

  class ShipmentIndex {
    var statusOf: map<nat, Status>
    var byStatus: map<Status, seq<nat>>

    function Contents(): Index
      reads this
    {
      Index(statusOf, byStatus)
    }

    constructor ()
      ensures Contents() == EMPTY && Agrees(Contents())
    {
      statusOf, byStatus := map[], map[];
    }

    /** Panics, returning false, when the id is taken. */
    method AddShipment(id: nat, status: Status) returns (ok: bool)
      requires Agrees(Contents())
      modifies this
      ensures Agrees(Contents())
      ensures ok <==> id !in old(statusOf)
      ensures statusOf == if ok then old(statusOf)[id := status] else old(statusOf)
      ensures !ok ==> byStatus == old(byStatus)
    {
      if id in statusOf {
        return false;
      }
      var nextIds := InsertSortedUnique(ListOf(Contents(), status), id);
      byStatus := byStatus[status := nextIds];
      statusOf := statusOf[id := status];
      forall s
        ensures Lists(ListOf(Contents(), s), statusOf, s)
      {
        assert old(Lists(ListOf(Contents(), s), statusOf, s));
        assert s != status ==> ListOf(Contents(), s) == old(ListOf(Contents(), s));
      }
      return true;
    }

    /** Panics, returning false, when the id is unknown. */
    method UpdateShipmentStatus(id: nat, newStatus: Status) returns (ok: bool)
      requires Agrees(Contents())
      modifies this
      ensures Agrees(Contents())
      ensures ok <==> id in old(statusOf)
      ensures statusOf == if ok then old(statusOf)[id := newStatus] else old(statusOf)
      ensures !ok ==> byStatus == old(byStatus)
    {
      if id !in statusOf {
        return false;
      }
      var oldStatus := statusOf[id];
      if oldStatus == newStatus {
        assert statusOf == statusOf[id := newStatus];
        return true;
      }
      var filteredOld := RemoveId(ListOf(Contents(), oldStatus), id);
      var insertedNew := InsertSortedUnique(ListOf(Contents(), newStatus), id);
      byStatus := byStatus[oldStatus := filteredOld];
      byStatus := byStatus[newStatus := insertedNew];
      statusOf := statusOf[id := newStatus];
      forall s
        ensures Lists(ListOf(Contents(), s), statusOf, s)
      {
        assert old(Lists(ListOf(Contents(), s), statusOf, s));
        assert s != oldStatus && s != newStatus ==> ListOf(Contents(), s) == old(ListOf(Contents(), s));
      }
      return true;
    }

    /** One page; a zero page size panics. */
    method ShipmentIdsByStatus(status: Status, cursor: Option<nat>, pageSize: nat) returns (r: Option<Page>)
      requires Agrees(Contents())
      ensures r.None? <==> pageSize == 0
      ensures r.Some? ==> IsPage(ListOf(Contents(), status), cursor, pageSize, r.value)
    {
      if pageSize == 0 {
        return None;
      }
      var boundedSize := if pageSize > MAX_PAGE_SIZE then MAX_PAGE_SIZE else pageSize;
      var ids := ListOf(Contents(), status);
      var start := IndexAfterCursor(ids, cursor);
      var pageIds := [];
      var idx := start;
      while idx < |ids| && |pageIds| < boundedSize
        invariant start <= idx <= |ids|
        invariant pageIds == ids[start..idx] && |pageIds| <= boundedSize
      {
        pageIds := pageIds + [ids[idx]];
        idx := idx + 1;
      }
      var nextCursor := if idx < |ids| then Some(pageIds[|pageIds| - 1]) else None;
      SliceIsPage(ids, cursor, boundedSize, start, idx);
      return Some(Page(pageIds, nextCursor));
    }
  }

  // ---- What a page is, without loops ----

  predicate After(cursor: Option<nat>, id: nat) {
    cursor.Some? ==> cursor.value < id
  }

  /** The ids of the list after the cursor, in order, up to the bounded page size;
      the next cursor is the last of them exactly when more are left. */
  ghost predicate IsPage(ids: seq<nat>, cursor: Option<nat>, pageSize: nat, page: Page) {
    && Increasing(page.shipmentIds)
    && |page.shipmentIds| <= (if pageSize > MAX_PAGE_SIZE then MAX_PAGE_SIZE else pageSize)
    && (forall id :: id in page.shipmentIds ==> id in ids && After(cursor, id))
    && (match page.nextCursor
        case None => forall id :: id in ids && After(cursor, id) ==> id in page.shipmentIds
        case Some(last) =>
          && |page.shipmentIds| == (if pageSize > MAX_PAGE_SIZE then MAX_PAGE_SIZE else pageSize)
          && page.shipmentIds != [] && last == page.shipmentIds[|page.shipmentIds| - 1]
          && (forall id :: id in ids && After(cursor, id) && id <= last ==> id in page.shipmentIds)
          && (exists id :: id in ids && id > last))
  }

  lemma SliceIsPage(ids: seq<nat>, cursor: Option<nat>, size: nat, start: nat, end: nat)
    requires Increasing(ids) && start <= end <= |ids| && 0 < size <= MAX_PAGE_SIZE
    requires cursor.None? ==> start == 0
    requires cursor.Some? ==> forall i :: 0 <= i < start ==> ids[i] <= cursor.value
    requires cursor.Some? && start < |ids| ==> ids[start] > cursor.value
    requires end - start <= size && (end < |ids| ==> end - start == size)
    ensures IsPage(ids, cursor, size, Page(ids[start..end], if end < |ids| then Some(ids[end - 1]) else None))
  {
    var page := ids[start..end];
    forall id | id in page
      ensures id in ids && After(cursor, id)
    {
      var i :| 0 <= i < |page| && page[i] == id;
      assert id == ids[start + i] && ids[start] <= ids[start + i];
    }
    forall id | id in ids && After(cursor, id) && (end < |ids| ==> id <= ids[end - 1])
      ensures id in page
    {
      var i :| 0 <= i < |ids| && ids[i] == id;
      assert start <= i < end;
      assert page[i - start] == id;
    }
    if end < |ids| {
      assert page[|page| - 1] == ids[end - 1];
      assert ids[end] in ids && ids[end] > ids[end - 1];
    }
  }

  /** A list and a cursor determine their page. */
  lemma PageIsUnique(ids: seq<nat>, cursor: Option<nat>, pageSize: nat, p: Page, q: Page)
    requires Increasing(ids) && pageSize > 0
    requires IsPage(ids, cursor, pageSize, p) && IsPage(ids, cursor, pageSize, q)
    ensures p == q
  {
    // Either page's last id bounds what the other may hold.
    PagesAgree(ids, cursor, pageSize, p, q);
    PagesAgree(ids, cursor, pageSize, q, p);
    IncreasingListsAreSets(p.shipmentIds, q.shipmentIds);
  }

  lemma PagesAgree(ids: seq<nat>, cursor: Option<nat>, pageSize: nat, p: Page, q: Page)
    requires Increasing(ids) && pageSize > 0
    requires IsPage(ids, cursor, pageSize, p) && IsPage(ids, cursor, pageSize, q)
    ensures forall id :: id in p.shipmentIds ==> id in q.shipmentIds
    ensures p.nextCursor.None? ==> q.nextCursor.None?
  {
    if q.nextCursor.Some? {
      var last := q.nextCursor.value;
      if p.nextCursor.None? || p.nextCursor.value > last {
        // p would hold all of q and, beyond it, at least one id more
        var more :| more in ids && more > last;
        assert last in q.shipmentIds && After(cursor, last);
        var beyond := if p.nextCursor.None? then more else p.nextCursor.value;
        if p.nextCursor.None? {
          assert After(cursor, more);
        }
        assert beyond in p.shipmentIds && beyond > last;
        LongerPage(q.shipmentIds, p.shipmentIds, beyond);
      }
    }
  }

  /** An increasing list that holds all of `x` and something beyond it is longer. */
  lemma LongerPage(x: seq<nat>, y: seq<nat>, beyond: nat)
    requires Increasing(x) && Increasing(y) && beyond in y
    requires forall k :: k in x ==> k in y && k < beyond
    ensures |x| < |y|
  {
    NoDuplicatesCount(x);
    NoDuplicatesCount(y);
    assert Elements(x) + {beyond} <= Elements(y);
    SubsetSize(Elements(x) + {beyond}, Elements(y));
  }

  ghost function Elements(x: seq<nat>): set<nat> {
    set k | k in x
  }

  lemma {:induction false} NoDuplicatesCount(x: seq<nat>)
    requires Increasing(x)
    ensures |Elements(x)| == |x|
    decreases |x|
  {
    if x != [] {
      var a := x[|x| - 1];
      NoDuplicatesCount(x[..|x| - 1]);
      assert Elements(x) == Elements(x[..|x| - 1]) + {a};
      assert a !in x[..|x| - 1];
    }
  }

  // ---- Walking all pages while the index changes ----

  /** A walk: the status list as it was when each page was asked for, the page
      sizes asked for, and the pages, each asked for with the cursor before it. */
  datatype Walk = Walk(lists: seq<seq<nat>>, sizes: seq<nat>, pages: seq<Page>)

  function CursorBefore(w: Walk, k: nat): Option<nat>
    requires k <= |w.pages|
  {
    if k == 0 then None else w.pages[k - 1].nextCursor
  }

  /** Every page answers its cursor on the list of its time, and the walk goes on
      only while there is a next cursor. */
  ghost predicate IsWalk(w: Walk) {
    && |w.lists| == |w.sizes| == |w.pages|
    && (forall k :: 0 <= k < |w.pages| ==> Increasing(w.lists[k]) && w.sizes[k] > 0)
    && (forall k :: 0 <= k < |w.pages| ==> IsPage(w.lists[k], CursorBefore(w, k), w.sizes[k], w.pages[k]))
    && (forall k :: 0 <= k < |w.pages| - 1 ==> w.pages[k].nextCursor.Some?)
  }

  predicate Finished(w: Walk) {
    |w.pages| > 0 && w.pages[|w.pages| - 1].nextCursor.None?
  }

  function Returned(pages: seq<Page>): seq<nat> {
    if pages == [] then [] else Returned(pages[..|pages| - 1]) + pages[|pages| - 1].shipmentIds
  }

  function Earlier(w: Walk): Walk
    requires |w.lists| == |w.sizes| == |w.pages| > 0
  {
    Walk(w.lists[..|w.lists| - 1], w.sizes[..|w.sizes| - 1], w.pages[..|w.pages| - 1])
  }

  lemma EarlierIsWalk(w: Walk)
    requires IsWalk(w) && |w.pages| > 0
    ensures IsWalk(Earlier(w))
    ensures forall k :: 0 <= k < |w.pages| ==> CursorBefore(Earlier(w), k) == CursorBefore(w, k)
  {
    var v := Earlier(w);
    assert forall k :: 0 <= k < |v.pages| ==> v.pages[k] == w.pages[k] && CursorBefore(v, k) == CursorBefore(w, k);
  }

  /** What a walk up to some page has achieved: nothing was returned twice,
      everything returned is at most the cursor reached, and of the ids in
      `always` all up to that cursor were returned. */
  ghost predicate Achieved(returned: seq<nat>, cursor: Option<nat>, always: iset<nat>) {
    && Increasing(returned)
    && (cursor.Some? ==> forall id :: id in returned ==> id <= cursor.value)
    && (forall id :: id in always && (cursor.Some? ==> id <= cursor.value) ==> id in returned)
  }

  predicate InAll(lists: seq<seq<nat>>, id: nat) {
    forall k :: 0 <= k < |lists| ==> id in lists[k]
  }

  ghost function Always(lists: seq<seq<nat>>): iset<nat> {
    iset id | InAll(lists, id)
  }

  lemma AlwaysShrinks(lists: seq<seq<nat>>)
    requires lists != []
    ensures Always(lists) <= Always(lists[..|lists| - 1])
    ensures forall id :: id in Always(lists) ==> id in lists[|lists| - 1]
  {
    forall id | InAll(lists, id)
      ensures InAll(lists[..|lists| - 1], id) && id in lists[|lists| - 1]
    {
    }
  }

  lemma PageExtends(returned: seq<nat>, cursor: Option<nat>, ids: seq<nat>, size: nat, page: Page,
                    before: iset<nat>, always: iset<nat>)
    requires (cursor.None? ==> returned == []) && (cursor.Some? ==> Achieved(returned, cursor, before))
    requires Increasing(ids) && IsPage(ids, cursor, size, page)
    requires always <= before && forall id :: id in always ==> id in ids
    ensures Achieved(returned + page.shipmentIds, page.nextCursor, always)
  {
    AppendLarger(returned, page.shipmentIds);
    if page.nextCursor.Some? {
      var last := page.nextCursor.value;
      assert last in page.shipmentIds;
      forall id | id in returned + page.shipmentIds
        ensures id <= last
      {
        if id in page.shipmentIds {
          var i :| 0 <= i < |page.shipmentIds| && page.shipmentIds[i] == id;
        }
      }
    }
  }

  /** The parts of the walk before the last page. */
  lemma EarlierParts(w: Walk)
    requires |w.lists| == |w.sizes| == |w.pages| > 0
    ensures Earlier(w).pages == w.pages[..|w.pages| - 1] && Earlier(w).lists == w.lists[..|w.pages| - 1]
    ensures Returned(w.pages) == Returned(Earlier(w).pages) + w.pages[|w.pages| - 1].shipmentIds
  {
  }

  lemma PageOfWalk(w: Walk, k: nat)
    requires IsWalk(w) && k < |w.pages|
    ensures IsPage(w.lists[k], CursorBefore(w, k), w.sizes[k], w.pages[k]) && Increasing(w.lists[k])
    ensures k > 0 ==> w.pages[k - 1].nextCursor.Some?
  {
    hide IsPage, Increasing;
  }

  lemma {:induction false} WalkSoFar(w: Walk)
    requires IsWalk(w) && |w.pages| > 0
    ensures Achieved(Returned(w.pages), w.pages[|w.pages| - 1].nextCursor, Always(w.lists))
    decreases |w.pages|
  {
    hide *;
    WalkParts(w);
    var n, v := |w.pages| - 1, Earlier(w);
    if n > 0 {
      WalkSoFar(v);
    }
    PageExtends(Returned(v.pages), CursorBefore(w, n), w.lists[n], w.sizes[n], w.pages[n], Always(v.lists),
                Always(w.lists));
  }

  /** A walk is an earlier walk and one page more. */
  lemma WalkParts(w: Walk)
    requires IsWalk(w) && |w.pages| > 0
    ensures var n, v := |w.pages| - 1, Earlier(w);
            && |w.lists| == |w.sizes| == |w.pages|
            && IsWalk(v) && |v.pages| == n
            && IsPage(w.lists[n], CursorBefore(w, n), w.sizes[n], w.pages[n]) && Increasing(w.lists[n])
            && Returned(w.pages) == Returned(v.pages) + w.pages[n].shipmentIds
            && (n == 0 ==> CursorBefore(w, n) == None && Returned(v.pages) == [])
            && (n > 0 ==> CursorBefore(w, n) == v.pages[n - 1].nextCursor && CursorBefore(w, n).Some?)
            && Always(w.lists) <= Always(v.lists)
            && (forall id :: id in Always(w.lists) ==> id in w.lists[n])
  {
    PageOfWalk(w, |w.pages| - 1);
    EarlierIsWalk(w);
    EarlierParts(w);
    AlwaysShrinks(w.lists);
    hide IsPage, Always, InAll, Increasing;
  }

  /** Following `next_cursor` to the end while shipments are added and moved
      between pages: nothing is returned twice, and an id that stays in the
      status throughout is returned exactly once. */
  lemma FinishedWalkIsComplete(w: Walk)
    requires IsWalk(w) && Finished(w)
    ensures forall i, j :: 0 <= i < j < |Returned(w.pages)| ==> Returned(w.pages)[i] != Returned(w.pages)[j]
    ensures forall id :: InAll(w.lists, id) ==> id in Returned(w.pages) && multiset(Returned(w.pages))[id] == 1
  {
    WalkSoFar(w);
    forall id | InAll(w.lists, id)
      ensures multiset(Returned(w.pages))[id] == 1
    {
      OncePerList(Returned(w.pages), id);
    }
  }

  /** The same in terms of the index: the walk reads an index that other calls
      change between its pages, and an id mapped to the status each time it is
      read comes back exactly once. */
  lemma StayingShipmentsAreSeenOnce(states: seq<Index>, status: Status, w: Walk, id: nat)
    requires |states| == |w.lists| && IsWalk(w) && Finished(w)
    requires forall k :: 0 <= k < |states| ==> Agrees(states[k]) && w.lists[k] == ListOf(states[k], status)
    requires forall k :: 0 <= k < |states| ==> id in states[k].statusOf && states[k].statusOf[id] == status
    ensures multiset(Returned(w.pages))[id] == 1
  {
    forall k | 0 <= k < |w.lists|
      ensures id in w.lists[k]
    {
      assert Lists(ListOf(states[k], status), states[k].statusOf, status);
    }
    assert InAll(w.lists, id);
    FinishedWalkIsComplete(w);
  }

  lemma {:induction false} OncePerList(x: seq<nat>, id: nat)
    requires Increasing(x)
    ensures multiset(x)[id] == if id in x then 1 else 0
    decreases |x|
  {
    if x != [] {
      var rest := x[..|x| - 1];
      OncePerList(rest, id);
      assert x == rest + [x[|x| - 1]];
    }
  }

  /** The cursors of a walk strictly increase, so a walk over u64 ids that has not
      finished after `n` pages has passed at least `n` ids: it ends. */
  lemma {:induction false} WalkTerminates(w: Walk)
    requires IsWalk(w) && |w.pages| > 0
    requires forall k :: 0 <= k < |w.lists| ==> forall id :: id in w.lists[k] ==> id <= U64_MAX
    ensures w.pages[|w.pages| - 1].nextCursor.Some? ==> w.pages[|w.pages| - 1].nextCursor.value >= |w.pages| - 1
    ensures |w.pages| > U64_MAX + 1 ==> Finished(w)
    decreases |w.pages|
  {
    var n := |w.pages|;
    var last := w.pages[n - 1];
    assert IsPage(w.lists[n - 1], CursorBefore(w, n - 1), w.sizes[n - 1], last);
    if n > 1 {
      EarlierIsWalk(w);
      var v := Earlier(w);
      assert forall k :: 0 <= k < |v.lists| ==> v.lists[k] == w.lists[k];
      WalkTerminates(v);
      assert v.pages[n - 2] == w.pages[n - 2] && w.pages[n - 2].nextCursor.Some?;
    }
    if last.nextCursor.Some? {
      assert last.nextCursor.value in last.shipmentIds;
      assert last.nextCursor.value in w.lists[n - 1];
    }
  }

  lemma FullPages(pages: seq<Page>, size: nat)
    requires pages != [] && forall k :: 0 <= k < |pages| - 1 ==> |pages[k].shipmentIds| >= size
    ensures |Returned(pages)| >= (|pages| - 1) * size
    decreases |pages|
  {
    var n := |pages| - 1;
    if n > 0 {
      var earlier := pages[..n];
      assert |Returned(earlier)| >= (n - 1) * size + |earlier[n - 1].shipmentIds| by { LastPageCounts(earlier, size); }
      assert earlier[n - 1] == pages[n - 1];
      assert (n - 1) * size + size == n * size;
    }
  }

  lemma {:induction false} LastPageCounts(pages: seq<Page>, size: nat)
    requires pages != [] && forall k :: 0 <= k < |pages| ==> |pages[k].shipmentIds| >= size
    ensures |Returned(pages)| >= (|pages| - 1) * size + |pages[|pages| - 1].shipmentIds|
    decreases |pages|
  {
    var n := |pages| - 1;
    if n > 0 {
      LastPageCounts(pages[..n], size);
      assert (n - 1) * size + size == n * size;
    }
  }

  lemma {:induction false} ReturnedWereListed(w: Walk, ids: set<nat>)
    requires IsWalk(w) && forall k :: 0 <= k < |w.lists| ==> forall id <- w.lists[k] :: id in ids
    ensures forall id <- Returned(w.pages) :: id in ids
    decreases |w.pages|
  {
    if |w.pages| > 0 {
      var v, n := Earlier(w), |w.pages| - 1;
      EarlierIsWalk(w);
      EarlierParts(w);
      PageOfWalk(w, n);
      assert forall k :: 0 <= k < |v.lists| ==> v.lists[k] == w.lists[k];
      ReturnedWereListed(v, ids);
    }
  }

  lemma PagesAreFull(w: Walk, size: nat, k: nat)
    requires IsWalk(w) && size <= MAX_PAGE_SIZE && w.sizes != []
    requires forall i :: 0 <= i < |w.sizes| ==> w.sizes[i] >= size
    requires k + 1 < |w.pages|
    ensures |w.pages[k].shipmentIds| >= size
  {
    PageOfWalk(w, k);
    PageOfWalk(w, k + 1);
    hide IsWalk, Increasing;
  }

  /** A walk asking for at least `size` ids a page takes no more pages than it takes
      to list every id that was ever in the status, and one: it ends. */
  lemma WalkLengthBounded(w: Walk, ids: set<nat>, size: nat)
    requires IsWalk(w) && |w.pages| > 0
    requires forall k :: 0 <= k < |w.lists| ==> forall id <- w.lists[k] :: id in ids
    requires 0 < size <= MAX_PAGE_SIZE && forall i :: 0 <= i < |w.sizes| ==> w.sizes[i] >= size
    ensures (|w.pages| - 1) * size <= |ids|
  {
    WalkSoFar(w);
    ReturnedWereListed(w, ids);
    var returned := Returned(w.pages);
    forall k | 0 <= k < |w.pages| - 1
      ensures |w.pages[k].shipmentIds| >= size
    {
      PagesAreFull(w, size, k);
    }
    FullPages(w.pages, size);
    hide IsWalk, Returned;
    NoDuplicatesCount(returned);
    SubsetSize(Elements(returned), ids);
  }
}
