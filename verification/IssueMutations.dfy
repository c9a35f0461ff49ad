/**
 * Optimistic issue mutations: snapshot, write, roll back on failure, invalidate when settled
 * (packages/core/issues/mutations.ts).
 */
module IssueMutations {
  import opened Prelude
  import opened Issues
  import opened BucketCache
  import opened BucketRefinement
  import opened BucketLaws
  import opened QueryCache
  import opened WsUpdaters

  // ----- update -----

  datatype UpdateContext = UpdateContext(
    prevList: Option<ListCache>,
    prevDetail: Option<Issue>,
    prevChildren: Option<seq<Issue>>,
    parentId: Option<Id>,
    id: Id)

  function UpdateSnapshot(c: Cache, id: Id): UpdateContext {
    var parentId := ParentOf(c, id);
    UpdateContext(
      DataOpt(c.list),
      if id in c.detail then Some(c.detail[id].data) else None,
      if Truthy(parentId) && parentId.value in c.children then Some(c.children[parentId.value].data) else None,
      parentId, id)
  }

  function UpdateWrite(c: Cache, id: Id, p: Patch): Cache {
    var parentId := ParentOf(c, id);
    c.(list := PatchList(c.list, id, p, c.resetsOnWrite),
       detail := PatchDetail(c.detail, id, p, c.resetsOnWrite),
       children := if Truthy(parentId) then PatchChildren(c.children, parentId.value, id, p, c.resetsOnWrite)
                   else c.children)
  }

  function UpdateRollback(c: Cache, ctx: UpdateContext): Cache {
    c.(list := if ctx.prevList.Some? then SetOpt(c.list, ctx.prevList.value, c.resetsOnWrite) else c.list,
       detail := if ctx.prevDetail.Some? then SetIn(c.detail, ctx.id, ctx.prevDetail.value, c.resetsOnWrite) else c.detail,
       children := if Truthy(ctx.parentId) && ctx.prevChildren.Some?
                   then SetIn(c.children, ctx.parentId.value, ctx.prevChildren.value, c.resetsOnWrite) else c.children)
  }

  /** The child lists of the old parent and, if it is another one, of the new parent are marked. */
  function SettleChildren(children: Keyed<seq<Issue>>, before: Option<Id>, after: Option<Id>): Keyed<seq<Issue>> {
    var c1 := if Truthy(before) then Mark(children, before.value) else children;
    if Truthy(after) && after != before then Mark(c1, after.value) else c1
  }

  function UpdateSettle(c: Cache, ctx: UpdateContext, newParent: Option<Id>): Cache {
    c.(detail := Mark(c.detail, ctx.id), list := MarkOpt(c.list),
       children := SettleChildren(c.children, ctx.parentId, newParent),
       progress := if Truthy(ctx.parentId) || (Truthy(newParent) && newParent != ctx.parentId)
                   then MarkOpt(c.progress) else c.progress)
  }

  method UpdateIssueOnMutate(qc: QueryClient, id: Id, data: Patch) returns (ctx: UpdateContext)
    modifies qc
    ensures ctx == UpdateSnapshot(old(qc.Value()), id)
    ensures qc.Value() == UpdateWrite(old(qc.Value()), id, data)
  {
    var prevList := DataOpt(qc.list);
    var prevDetail := if id in qc.detail then Some(qc.detail[id].data) else None;
    var parentId := ParentOf(qc.Value(), id);
    var prevChildren :=
      if Truthy(parentId) && parentId.value in qc.children then Some(qc.children[parentId.value].data) else None;
    qc.list := PatchList(qc.list, id, data, qc.resetsOnWrite);
    qc.detail := PatchDetail(qc.detail, id, data, qc.resetsOnWrite);
    if Truthy(parentId) {
      qc.children := PatchChildren(qc.children, parentId.value, id, data, qc.resetsOnWrite);
    }
    ctx := UpdateContext(prevList, prevDetail, prevChildren, parentId, id);
  }

  method UpdateIssueOnError(qc: QueryClient, ctx: UpdateContext)
    modifies qc
    ensures qc.Value() == UpdateRollback(old(qc.Value()), ctx)
  {
    if ctx.prevList.Some? {
      qc.list := SetOpt(qc.list, ctx.prevList.value, qc.resetsOnWrite);
    }
    if ctx.prevDetail.Some? {
      qc.detail := SetIn(qc.detail, ctx.id, ctx.prevDetail.value, qc.resetsOnWrite);
    }
    if Truthy(ctx.parentId) && ctx.prevChildren.Some? {
      qc.children := SetIn(qc.children, ctx.parentId.value, ctx.prevChildren.value, qc.resetsOnWrite);
    }
  }

  method UpdateIssueOnSettled(qc: QueryClient, ctx: UpdateContext, newParent: Option<Id>)
    modifies qc
    ensures qc.Value() == UpdateSettle(old(qc.Value()), ctx, newParent)
  {
    qc.detail := Mark(qc.detail, ctx.id);
    qc.list := MarkOpt(qc.list);
    if Truthy(ctx.parentId) {
      qc.children := Mark(qc.children, ctx.parentId.value);
      qc.progress := MarkOpt(qc.progress);
    }
    if Truthy(newParent) && newParent != ctx.parentId {
      qc.children := Mark(qc.children, newParent.value);
      qc.progress := MarkOpt(qc.progress);
    }
  }

  // ----- delete and batches: only the list is snapshotted -----

  function DeleteWrite(c: Cache, id: Id): Cache {
    c.(list := RemoveFromList(c.list, id, c.resetsOnWrite), detail := c.detail - {id})
  }

  function BatchUpdateWrite(c: Cache, ids: seq<Id>, p: Patch): Cache {
    c.(list := if c.list.None? then None
               else SetOpt(c.list, PatchAll(c.list.value.data, ids, p), c.resetsOnWrite))
  }

  function BatchDeleteWrite(c: Cache, ids: seq<Id>): Cache {
    c.(list := if c.list.None? then None
               else SetOpt(c.list, RemoveAll(c.list.value.data, ids), c.resetsOnWrite))
  }

  function ListRollback(c: Cache, prevList: Option<ListCache>): Cache {
    c.(list := if prevList.Some? then SetOpt(c.list, prevList.value, c.resetsOnWrite) else c.list)
  }

  method DeleteIssueOnMutate(qc: QueryClient, id: Id) returns (prevList: Option<ListCache>, parentIssueId: Option<Id>)
    modifies qc
    ensures prevList == DataOpt(old(qc.list)) && parentIssueId == ListedParent(old(qc.list), id)
    ensures qc.Value() == DeleteWrite(old(qc.Value()), id)
  {
    prevList, parentIssueId := DataOpt(qc.list), ListedParent(qc.list, id);
    qc.list := RemoveFromList(qc.list, id, qc.resetsOnWrite);
    qc.detail := qc.detail - {id};
  }

  method BatchUpdateOnMutate(qc: QueryClient, ids: seq<Id>, updates: Patch) returns (prevList: Option<ListCache>)
    modifies qc
    ensures prevList == DataOpt(old(qc.list))
    ensures qc.Value() == BatchUpdateWrite(old(qc.Value()), ids, updates)
  {
    prevList := DataOpt(qc.list);
    if qc.list.Some? {
      var next := qc.list.value.data;
      for k := 0 to |ids|
        invariant next == PatchAll(qc.list.value.data, ids[..k], updates)
      {
        assert ids[..k + 1][..k] == ids[..k];
        next := PatchIssueInBuckets(next, ids[k], updates);
      }
      assert ids[..|ids|] == ids;
      qc.list := SetOpt(qc.list, next, qc.resetsOnWrite);
    }
  }

  /** The parents whose child lists a batch deletion must refresh. */
  ghost predicate IsParentOfSome(list: Option<Entry<ListCache>>, ids: seq<Id>, q: Id) {
    q != "" && exists k :: 0 <= k < |ids| && ListedParent(list, ids[k]) == Some(q)
  }

  /** The listed parents, one by one. */
  function ParentsOf(list: Option<Entry<ListCache>>, ids: seq<Id>): (r: seq<Option<Id>>)
    ensures |r| == |ids| && forall k :: 0 <= k < |ids| ==> r[k] == ListedParent(list, ids[k])
  {
    seq(|ids|, k requires 0 <= k < |ids| => ListedParent(list, ids[k]))
  }

  method CollectParents(list: Option<Entry<ListCache>>, ids: seq<Id>) returns (parentIssueIds: set<Id>)
    ensures forall q :: q in parentIssueIds <==> IsParentOfSome(list, ids, q)
  {
    ghost var parents := ParentsOf(list, ids);
    parentIssueIds := {};
    for k := 0 to |ids|
      invariant forall q :: q in parentIssueIds <==> q != "" && Some(q) in parents[..k]
    {
      var parent := ListedParent(list, ids[k]);
      assert parents[..k + 1] == parents[..k] + [parent];
      if Truthy(parent) {
        parentIssueIds := parentIssueIds + {parent.value};
      }
    }
    assert parents[..|ids|] == parents;
  }

  method BatchDeleteOnMutate(qc: QueryClient, ids: seq<Id>)
    returns (prevList: Option<ListCache>, parentIssueIds: set<Id>)
    modifies qc
    ensures prevList == DataOpt(old(qc.list))
    ensures forall q :: q in parentIssueIds <==> IsParentOfSome(old(qc.list), ids, q)
    ensures qc.Value() == BatchDeleteWrite(old(qc.Value()), ids)
  {
    prevList := DataOpt(qc.list);
    parentIssueIds := CollectParents(qc.list, ids);
    if qc.list.Some? {
      var next := qc.list.value.data;
      for k := 0 to |ids|
        invariant next == RemoveAll(qc.list.value.data, ids[..k])
      {
        assert ids[..k + 1][..k] == ids[..k];
        next := RemoveIssueFromBuckets(next, ids[k]);
      }
      assert ids[..|ids|] == ids;
      qc.list := SetOpt(qc.list, next, qc.resetsOnWrite);
    }
  }

  method ListOnError(qc: QueryClient, prevList: Option<ListCache>)
    modifies qc
    ensures qc.Value() == ListRollback(old(qc.Value()), prevList)
  {
    if prevList.Some? {
      qc.list := SetOpt(qc.list, prevList.value, qc.resetsOnWrite);
    }
  }

  // ----- what the optimistic writes show -----

  /** The list right after an optimistic update of a visible issue, by its values. */
  lemma UpdateShows(c: Cache, id: Id, p: Patch)
    requires c.list.Some? && Consistent(c.list.value.data) && id in View(c.list.value.data)
    ensures var d := UpdateWrite(c, id, p);
      && d.list.Some? && Consistent(d.list.value.data)
      && ShownPatched(c.list.value.data, d.list.value.data, id, p)
  {
    PatchRefines(c.list.value.data, id, p);
    PatchShows(c.list.value.data, id, p);
  }

  /** The issue's detail and its rows in its parent's child list take the payload; nothing else changes. */
  lemma UpdateWrites(c: Cache, id: Id, p: Patch, k: Id)
    ensures var d := UpdateWrite(c, id, p);
      && (id in c.detail ==> id in d.detail && WrittenOver(c.detail[id].data, p, d.detail[id].data))
      && (k != id ==> MarkedIff(c.detail, d.detail, k, false))
      && (k in d.children <==> k in c.children)
      && (k in c.children ==>
            RowWritten(c.children[k].data, d.children[k].data, id, p, k != "" && ParentOf(c, id) == Some(k)))
      && d == c.(list := d.list, detail := d.detail, children := d.children)
  {
    DetailWritten(c.detail, id, p, c.resetsOnWrite, k);
    var parent := ParentOf(c, id);
    if Truthy(parent) { ChildrenWritten(c.children, parent.value, id, p, c.resetsOnWrite, k); }
  }

  lemma ChildrenWritten(children: Keyed<seq<Issue>>, parent: Id, id: Id, p: Patch, resets: bool, k: Id)
    ensures var d := PatchChildren(children, parent, id, p, resets);
      && (k in d <==> k in children)
      && (k in children ==> RowWritten(children[k].data, d[k].data, id, p, k == parent))
  {
    if k in children { PatchedRows(children[k].data, id, p); }
  }

  /** The server's echo of an optimistic update finds the list and the detail as it would leave them. */
  lemma UpdateThenEcho(c: Cache, id: Id, p: Patch)
    requires c.list.Some? ==> Consistent(c.list.value.data)
    ensures DataOpt(Updated(UpdateWrite(c, id, p), id, p).list) == DataOpt(Updated(c, id, p).list)
    ensures DataOf(Updated(UpdateWrite(c, id, p), id, p).detail) == DataOf(Updated(c, id, p).detail)
  {
    if c.list.Some? { PatchEcho(c.list.value.data, id, p); }
    DetailEcho(c.detail, id, p, c.resetsOnWrite);
  }

  /** An optimistic deletion takes exactly the issue out of list and details, and leaves all else alone. */
  lemma DeleteShows(c: Cache, id: Id, k: Id)
    requires c.list.Some? && Consistent(c.list.value.data)
    ensures var d := DeleteWrite(c, id);
      && d.list.Some? && Consistent(d.list.value.data)
      && View(d.list.value.data) == View(c.list.value.data) - {id}
      && LacksOnly(c.detail, d.detail, id, k)
      && d == c.(list := d.list, detail := d.detail)
  {
    RemoveRefines(c.list.value.data, id);
    LacksRemoved(c.detail, id, k);
  }

  /**
   * An optimistic batch update of the list, row by row: each listed visible issue takes the payload, or is
   * shown no more if that cancels it; every other row stays. Nothing but the list changes.
   */
  lemma BatchUpdateShows(c: Cache, ids: seq<Id>, p: Patch, k: Id)
    requires c.list.Some? && Consistent(c.list.value.data)
    ensures var v := View(c.list.value.data); var d := BatchUpdateWrite(c, ids, p);
      && d.list.Some? && Consistent(d.list.value.data) && d == c.(list := d.list)
      && var w := View(d.list.value.data);
      && (k !in v ==> k !in w)
      && (k in v && k !in ids ==> k in w && w[k] == v[k])
      && (k in v && k in ids && k in w ==> WrittenOver(v[k], p, w[k]) && w[k].status != Cancelled)
      && (k in v && k in ids && k !in w ==> p.status == Some(Cancelled))
  {
    BatchUpdateRefines(c.list.value.data, ids, p);
    ViewMembers(c.list.value.data);
    BatchRow(View(c.list.value.data), ids, p, k);
  }

  lemma BatchRow(v: map<Id, Issue>, ids: seq<Id>, p: Patch, k: Id)
    requires k in v ==> v[k].status != Cancelled
    ensures var w := PlainPatchAll(v, ids, p);
      && (k !in v ==> k !in w) && (k in v && k !in ids ==> k in w && w[k] == v[k])
      && (k in v && k in ids && k in w ==> WrittenOver(v[k], p, w[k]) && w[k].status != Cancelled)
      && (k in v && k in ids && k !in w ==> p.status == Some(Cancelled))
  {
    if k in v { MergeWrites(v[k], p); }
  }

  /** An optimistic batch deletion takes exactly the listed issues out of the list, and only there. */
  lemma BatchDeleteShows(c: Cache, ids: seq<Id>, k: Id)
    requires c.list.Some? && Consistent(c.list.value.data)
    ensures var v := View(c.list.value.data); var d := BatchDeleteWrite(c, ids);
      && d.list.Some? && Consistent(d.list.value.data) && d == c.(list := d.list)
      && var w := View(d.list.value.data);
      (k in w <==> k in v && k !in ids) && (k in w ==> w[k] == v[k])
  {
    BatchDeleteRefines(c.list.value.data, ids);
  }

  // ----- stacks of mutations that all fail, the latest first -----

  datatype Mutation =
    | UpdateIssue(id: Id, patch: Patch)
    | DeleteIssue(id: Id)
    | BatchUpdateIssues(ids: seq<Id>, patch: Patch)
    | BatchDeleteIssues(ids: seq<Id>)

  function Mutate(c: Cache, m: Mutation): Cache {
    match m
    case UpdateIssue(id, p) => UpdateWrite(c, id, p)
    case DeleteIssue(id) => DeleteWrite(c, id)
    case BatchUpdateIssues(ids, p) => BatchUpdateWrite(c, ids, p)
    case BatchDeleteIssues(ids) => BatchDeleteWrite(c, ids)
  }

  /** `before` is the cache the mutation started from, `c` the one its failure finds. */
  function Fail(before: Cache, m: Mutation, c: Cache): Cache {
    if m.UpdateIssue? then UpdateRollback(c, UpdateSnapshot(before, m.id))
    else ListRollback(c, DataOpt(before.list))
  }

  /** Start all of `ms` in order, then let them fail in reverse order. */
  function FailAll(c: Cache, ms: seq<Mutation>): Cache
    decreases |ms|
  {
    if ms == [] then c else Fail(c, ms[0], FailAll(Mutate(c, ms[0]), ms[1..]))
  }

  /** The issues whose first update-or-delete in `ms` is a delete. */
  function FirstDeleted(ms: seq<Mutation>): set<Id> {
    if ms == [] then {}
    else
      var rest := FirstDeleted(ms[1..]);
      match ms[0]
      case UpdateIssue(id, _) => rest - {id}
      case DeleteIssue(id) => rest + {id}
      case _ => rest
  }

  /**
   * Exact account of a failed stack: list and child lists are restored as they were, present or
   * absent; of the details exactly those deleted before any update of them are not restored.
   */
  lemma {:induction false} FailAllExact(c: Cache, ms: seq<Mutation>)
    ensures var d := FailAll(c, ms);
      && DataOpt(d.list) == DataOpt(c.list)
      && DataOf(d.children) == DataOf(c.children)
      && DataOf(d.detail) == DataOf(c.detail) - FirstDeleted(ms)
    decreases |ms|
  {
    if ms != [] {
      var c1 := Mutate(c, ms[0]);
      FailAllExact(c1, ms[1..]);
      FailOne(c, ms[0], FailAll(c1, ms[1..]), FirstDeleted(ms[1..]));
    }
  }

  /** Undoing one mutation on top of a cache that otherwise equals the one it produced. */
  lemma FailOne(c: Cache, m: Mutation, e: Cache, lost: set<Id>)
    requires DataOpt(e.list) == DataOpt(Mutate(c, m).list)
    requires DataOf(e.children) == DataOf(Mutate(c, m).children)
    requires DataOf(e.detail) == DataOf(Mutate(c, m).detail) - lost
    ensures var d := Fail(c, m, e);
      && DataOpt(d.list) == DataOpt(c.list)
      && DataOf(d.children) == DataOf(c.children)
      && DataOf(d.detail)
         == DataOf(c.detail) - (if m.UpdateIssue? then lost - {m.id} else if m.DeleteIssue? then lost + {m.id} else lost)
  {
    var d := Fail(c, m, e);
    if m.UpdateIssue? {
      FailedUpdateDetail(c.detail, e.detail, m.id, m.patch, c.resetsOnWrite, e.resetsOnWrite, lost);
      var q := ParentOf(c, m.id);
      if Truthy(q) {
        FailedUpdateChildren(c.children, e.children, q.value, m.id, m.patch, c.resetsOnWrite, e.resetsOnWrite);
      }
    } else if m.DeleteIssue? {
      assert DataOf(c.detail - {m.id}) == DataOf(c.detail) - {m.id};
      assert DataOf(c.detail) - {m.id} - lost == DataOf(c.detail) - (lost + {m.id});
    }
  }

  lemma FailedUpdateDetail(b: Keyed<Issue>, e: Keyed<Issue>, id: Id, p: Patch, r: bool, s: bool, lost: set<Id>)
    requires DataOf(e) == DataOf(PatchDetail(b, id, p, r)) - lost
    ensures DataOf(if id in b then SetIn(e, id, b[id].data, s) else e) == DataOf(b) - (lost - {id})
  {
    var d := if id in b then SetIn(e, id, b[id].data, s) else e;
    var f := DataOf(PatchDetail(b, id, p, r)) - lost;
    forall k ensures k in d <==> k in b && (k == id || k !in lost) {
      assert k in DataOf(e) <==> k in f;
    }
    forall k | k in d ensures d[k].data == b[k].data {
      if k != id { assert DataOf(e)[k] == f[k]; }
    }
  }

  lemma FailedUpdateChildren(b: Keyed<seq<Issue>>, e: Keyed<seq<Issue>>, q: Id, id: Id, p: Patch, r: bool, s: bool)
    requires DataOf(e) == DataOf(PatchChildren(b, q, id, p, r))
    ensures DataOf(if q in b then SetIn(e, q, b[q].data, s) else e) == DataOf(b)
  {
    var d := if q in b then SetIn(e, q, b[q].data, s) else e;
    var f := DataOf(PatchChildren(b, q, id, p, r));
    forall k ensures k in d <==> k in b {
      assert k in DataOf(e) <==> k in f;
    }
    forall k | k in d ensures d[k].data == b[k].data {
      if k != q { assert DataOf(e)[k] == f[k]; }
    }
  }

  /** Updates alone, in any number and on any mixture of issues, are rolled back without a trace. */
  lemma {:induction false} UpdatesRollBackExactly(c: Cache, ms: seq<Mutation>)
    requires forall k :: 0 <= k < |ms| ==> ms[k].UpdateIssue?
    ensures var d := FailAll(c, ms);
      && DataOpt(d.list) == DataOpt(c.list)
      && DataOf(d.children) == DataOf(c.children)
      && DataOf(d.detail) == DataOf(c.detail)
  {
    FailAllExact(c, ms);
    OnlyUpdates(ms);
    assert DataOf(c.detail) - {} == DataOf(c.detail);
  }

  lemma {:induction false} OnlyUpdates(ms: seq<Mutation>)
    requires forall k :: 0 <= k < |ms| ==> ms[k].UpdateIssue?
    ensures FirstDeleted(ms) == {}
  {
    if ms != [] {
      assert ms[0].UpdateIssue?;
      OnlyUpdates(ms[1..]);
    }
  }

  // ----- settling -----

  /** Whatever an update wrote, its settling marks for refetch: no optimistic value outlives it unmarked. */
  lemma SettledIsMarked(c: Cache, id: Id, p: Patch, newParent: Option<Id>, k: Id)
    ensures var d := UpdateSettle(UpdateWrite(c, id, p), UpdateSnapshot(c, id), newParent);
      && (d.list.Some? ==> d.list.value.invalid)
      && (k in d.detail && (k !in c.detail || d.detail[k] != c.detail[k]) ==> d.detail[k].invalid)
      && (k in d.children && (k !in c.children || d.children[k] != c.children[k]) ==> d.children[k].invalid)
  {
    UpdateWriteTouches(c, id, p, k);
    SettleMarksChildren(UpdateWrite(c, id, p).children, ParentOf(c, id), newParent, k);
  }

  /** The only entries an optimistic update writes: the issue's detail and its parent's child list. */
  lemma UpdateWriteTouches(c: Cache, id: Id, p: Patch, k: Id)
    ensures var w := UpdateWrite(c, id, p); var parent := ParentOf(c, id);
      && (k != id ==> (k in w.detail <==> k in c.detail) && (k in c.detail ==> w.detail[k] == c.detail[k]))
      && (!(Truthy(parent) && k == parent.value) ==>
            (k in w.children <==> k in c.children) && (k in c.children ==> w.children[k] == c.children[k]))
  {
  }

  lemma SettleMarksChildren(children: Keyed<seq<Issue>>, before: Option<Id>, after: Option<Id>, k: Id)
    ensures var d := SettleChildren(children, before, after);
      k in d ==> d[k].invalid || (k in children && d[k] == children[k] && !(Truthy(before) && k == before.value))
  {
  }

  /** Settling an update, exactly: which entries are marked, and that no data changes. */
  lemma SettledExact(c: Cache, ctx: UpdateContext, newParent: Option<Id>, k: Id)
    ensures var d := UpdateSettle(c, ctx, newParent);
      && MarkedOptIff(c.list, d.list, true) && MarkedIff(c.detail, d.detail, k, k == ctx.id)
      && MarkedIff(c.children, d.children, k, k != "" && (ctx.parentId == Some(k) || newParent == Some(k)))
      && MarkedOptIff(c.progress, d.progress, Truthy(ctx.parentId) || Truthy(newParent))
      && d == c.(list := d.list, detail := d.detail, children := d.children, progress := d.progress)
  {
  }

  /** Settling a deletion or a batch: `parents` are the ones whose child lists have lost an issue. */
  method ListOnSettled(qc: QueryClient, parents: set<Id>)
    modifies qc
    ensures forall k :: MarkedIff(old(qc.children), qc.children, k, k in parents)
    ensures MarkedOptIff(old(qc.list), qc.list, true)
    ensures MarkedOptIff(old(qc.progress), qc.progress, parents != {})
    ensures qc.Value() == old(qc.Value()).(list := qc.list, children := qc.children, progress := qc.progress)
  {
    qc.list := MarkOpt(qc.list);
    MarkParents(qc, parents);
    if parents != {} {
      qc.progress := MarkOpt(qc.progress);
    }
  }

  method MarkParents(qc: QueryClient, parents: set<Id>)
    modifies qc`children
    ensures forall k :: MarkedIff(old(qc.children), qc.children, k, k in parents)
  {
    var todo := parents;
    forall k ensures MarkedIff(qc.children, qc.children, k, false) {}
    while todo != {}
      invariant todo <= parents
      invariant forall k :: MarkedIff(old(qc.children), qc.children, k, k in parents && k !in todo)
      decreases |todo|
    {
      var parent :| parent in todo;
      qc.children := Mark(qc.children, parent);
      todo := todo - {parent};
    }
  }
}
