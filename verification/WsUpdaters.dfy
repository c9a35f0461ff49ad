/** Applying `issue:*` events to the query cache (packages/core/issues/ws-updaters.ts). */
module WsUpdaters {
  import opened Prelude
  import opened Issues
  import opened BucketCache
  import opened BucketRefinement
  import opened BucketLaws
  import opened QueryCache

  // ----- the cache after each event, as a function of the cache before -----

  function Created(c: Cache, issue: Issue): Cache {
    c.(list := AddToList(c.list, issue, c.resetsOnWrite),
       my := MarkAll(c.my),
       children := if Truthy(issue.parent) then Mark(c.children, issue.parent.value) else c.children,
       progress := if Truthy(issue.parent) then MarkOpt(c.progress) else c.progress)
  }

  function NewParent(p: Patch): Option<Id> {
    if p.parent.Some? then p.parent.value else None
  }

  predicate ParentChanges(c: Cache, id: Id, p: Patch) {
    p.parent.Some? && NewParent(p) != ParentOf(c, id)
  }

  /** The cached child lists after an update: the old parent's, then the new parent's. */
  function SyncParents(children: Keyed<seq<Issue>>, before: Option<Id>, after: Option<Id>, moved: bool,
                       id: Id, p: Patch, resets: bool): Keyed<seq<Issue>>
  {
    var c1 :=
      if !Truthy(before) then children
      else if moved then Mark(children, before.value)
      else PatchChildren(children, before.value, id, p, resets);
    if Truthy(after) && moved then Mark(c1, after.value) else c1
  }

  function Updated(c: Cache, id: Id, p: Patch): Cache {
    var before := ParentOf(c, id);
    var after := NewParent(p);
    c.(list := PatchList(c.list, id, p, c.resetsOnWrite),
       my := MarkAll(c.my),
       detail := PatchDetail(c.detail, id, p, c.resetsOnWrite),
       children := SyncParents(c.children, before, after, ParentChanges(c, id, p), id, p, c.resetsOnWrite),
       progress := if (Truthy(before) || Truthy(after)) && (p.status.Some? || p.parent.Some?)
                   then MarkOpt(c.progress) else c.progress)
  }

  /** No entry is left under the issue's own keys. */
  function Forgotten(c: Cache, id: Id): Cache {
    c.(detail := c.detail - {id}, timeline := c.timeline - {id}, reactions := c.reactions - {id},
       subscribers := c.subscribers - {id}, children := c.children - {id})
  }

  function Deleted(c: Cache, id: Id): Cache {
    var parent := ListedParent(c.list, id);
    var d := Forgotten(c.(list := RemoveFromList(c.list, id, c.resetsOnWrite), my := MarkAll(c.my)), id);
    if Truthy(parent) then d.(children := Mark(d.children, parent.value), progress := MarkOpt(d.progress)) else d
  }

  // ----- the handlers -----

  method OnIssueCreated(qc: QueryClient, issue: Issue)
    modifies qc
    ensures qc.Value() == Created(old(qc.Value()), issue)
  {
    qc.list := AddToList(qc.list, issue, qc.resetsOnWrite);
    qc.my := MarkAll(qc.my);
    if Truthy(issue.parent) {
      qc.children := Mark(qc.children, issue.parent.value);
      qc.progress := MarkOpt(qc.progress);
    }
  }

  method OnIssueUpdated(qc: QueryClient, id: Id, issue: Patch)
    modifies qc
    ensures qc.Value() == Updated(old(qc.Value()), id, issue)
  {
    var oldParent := ParentOf(qc.Value(), id);
    var newParent := NewParent(issue);
    var parentChanged := issue.parent.Some? && newParent != oldParent;
    qc.list := PatchList(qc.list, id, issue, qc.resetsOnWrite);
    qc.my := MarkAll(qc.my);
    qc.detail := PatchDetail(qc.detail, id, issue, qc.resetsOnWrite);
    OnParentsSynced(qc, oldParent, newParent, parentChanged, id, issue);
    if Truthy(oldParent) || Truthy(newParent) {
      if issue.status.Some? || issue.parent.Some? {
        qc.progress := MarkOpt(qc.progress);
      }
    }
  }

  /** The part of `OnIssueUpdated` that keeps the cached child lists in step. */
  method OnParentsSynced(qc: QueryClient, oldParent: Option<Id>, newParent: Option<Id>, parentChanged: bool,
                         id: Id, issue: Patch)
    modifies qc`children
    ensures qc.children
            == SyncParents(old(qc.children), oldParent, newParent, parentChanged, id, issue, qc.resetsOnWrite)
  {
    if Truthy(oldParent) {
      if parentChanged {
        qc.children := Mark(qc.children, oldParent.value);
      } else {
        qc.children := PatchChildren(qc.children, oldParent.value, id, issue, qc.resetsOnWrite);
      }
    }
    if Truthy(newParent) && parentChanged {
      qc.children := Mark(qc.children, newParent.value);
    }
  }

  method OnIssueDeleted(qc: QueryClient, id: Id)
    modifies qc
    ensures qc.Value() == Deleted(old(qc.Value()), id)
  {
    var parent := ListedParent(qc.list, id);
    qc.list := RemoveFromList(qc.list, id, qc.resetsOnWrite);
    qc.my := MarkAll(qc.my);
    Forget(qc, id);
    if Truthy(parent) {
      qc.children := Mark(qc.children, parent.value);
      qc.progress := MarkOpt(qc.progress);
    }
  }

  /** The `removeQueries` calls for one issue. */
  method Forget(qc: QueryClient, id: Id)
    modifies qc
    ensures qc.Value() == Forgotten(old(qc.Value()), id)
  {
    qc.detail := qc.detail - {id};
    qc.timeline := qc.timeline - {id};
    qc.reactions := qc.reactions - {id};
    qc.subscribers := qc.subscribers - {id};
    qc.children := qc.children - {id};
  }

  // ----- what an event leaves alone, and what it must mark -----

  /** Rows of child lists change only where they show the updated issue. */
  lemma SyncParentsRows(children: Keyed<seq<Issue>>, before: Option<Id>, after: Option<Id>, moved: bool,
                        id: Id, p: Patch, resets: bool, q: Id)
    ensures var d := SyncParents(children, before, after, moved, id, p, resets);
      && (q in d <==> q in children)
      && (q in children ==>
            d[q].data == if Truthy(before) && !moved && q == before.value then PatchRows(children[q].data, id, p)
                         else children[q].data)
  {
  }

  /** An update event touches no other issue's data, in the details or in any child list. */
  lemma UpdatedFrame(c: Cache, id: Id, p: Patch, other: Id, q: Id, k: nat)
    requires other != id
    ensures var d := Updated(c, id, p);
      && (other in c.detail <==> other in d.detail)
      && (other in c.detail ==> c.detail[other] == d.detail[other])
      && (q in c.children && k < |c.children[q].data| && c.children[q].data[k].id == other ==>
            q in d.children && k < |d.children[q].data| && d.children[q].data[k] == c.children[q].data[k])
  {
    SyncParentsRows(c.children, ParentOf(c, id), NewParent(p), ParentChanges(c, id, p), id, p, c.resetsOnWrite, q);
  }

  /** In the list, an update event acts on the plain map of visible issues as one patch. */
  lemma UpdatedList(c: Cache, id: Id, p: Patch)
    requires c.list.Some? && Consistent(c.list.value.data)
    ensures var d := Updated(c, id, p);
      d.list.Some? && Consistent(d.list.value.data)
      && View(d.list.value.data) == PlainPatch(View(c.list.value.data), id, p)
  {
    PatchRefines(c.list.value.data, id, p);
  }

  /**
   * Re-parenting: the cached child lists of both the parent an issue leaves and the one it joins
   * are marked for refetch, whichever of them are cached.
   */
  lemma ReparentInvalidatesBoth(c: Cache, id: Id, p: Patch, q: Id)
    requires ParentChanges(c, id, p) && q in c.children && q != ""
    requires ParentOf(c, id) == Some(q) || NewParent(p) == Some(q)
    ensures q in Updated(c, id, p).children && Updated(c, id, p).children[q].invalid
  {
  }

  /** The list after an update event that reaches a visible issue, by its values. */
  lemma UpdatedListShows(c: Cache, id: Id, p: Patch)
    requires c.list.Some? && Consistent(c.list.value.data) && id in View(c.list.value.data)
    ensures var d := Updated(c, id, p);
      d.list.Some? && ShownPatched(c.list.value.data, d.list.value.data, id, p)
  {
    PatchShows(c.list.value.data, id, p);
  }

  /** Row `k` of a child list: written over if it shows the issue, and otherwise as before. */
  ghost predicate RowWritten(before: seq<Issue>, after: seq<Issue>, id: Id, p: Patch, written: bool) {
    && |after| == |before|
    && forall k :: 0 <= k < |before| ==>
         if written && before[k].id == id then WrittenOver(before[k], p, after[k]) else after[k] == before[k]
  }

  lemma PatchedRows(rows: seq<Issue>, id: Id, p: Patch)
    ensures RowWritten(rows, PatchRows(rows, id, p), id, p, true)
  {
    forall k | 0 <= k < |rows| { MergeWrites(rows[k], p); }
  }

  /**
   * An update event by values: the issue's detail takes the payload's fields and no others, and so does its
   * row in the child list of its parent, unless the parent changes; other details and rows stay.
   */
  lemma UpdatedExact(c: Cache, id: Id, p: Patch, k: Id)
    ensures var d := Updated(c, id, p);
      && (id in c.detail ==> id in d.detail && WrittenOver(c.detail[id].data, p, d.detail[id].data))
      && (k != id ==> MarkedIff(c.detail, d.detail, k, false))
      && (k in c.children ==>
            k in d.children
            && RowWritten(c.children[k].data, d.children[k].data, id, p,
                          k != "" && ParentOf(c, id) == Some(k) && !ParentChanges(c, id, p)))
  {
    DetailWritten(c.detail, id, p, c.resetsOnWrite, k);
    SyncParentsRows(c.children, ParentOf(c, id), NewParent(p), ParentChanges(c, id, p), id, p, c.resetsOnWrite, k);
    if k in c.children { PatchedRows(c.children[k].data, id, p); }
  }

  lemma DetailWritten(detail: Keyed<Issue>, id: Id, p: Patch, resets: bool, k: Id)
    ensures var d := PatchDetail(detail, id, p, resets);
      && (id in detail ==> id in d && WrittenOver(detail[id].data, p, d[id].data))
      && (k != id ==> MarkedIff(detail, d, k, false))
  {
    if id in detail { MergeWrites(detail[id].data, p); }
  }

  /**
   * It marks my-lists, and child progress exactly when status or parent of an issue with a parent may have
   * changed; timelines, reactions, subscribers and collections stay.
   */
  lemma UpdatedMarks(c: Cache, id: Id, p: Patch, k: string)
    ensures var d := Updated(c, id, p);
      && MarkedIff(c.my, d.my, k, true)
      && MarkedOptIff(c.progress, d.progress,
                      (p.status.Some? || p.parent.Some?)
                      && (Truthy(ParentOf(c, id)) || (p.parent.Some? && Truthy(p.parent.value))))
      && d.timeline == c.timeline && d.reactions == c.reactions && d.subscribers == c.subscribers
      && d.collections == c.collections
  {
  }

  /** A creation event inserts the issue into the visible ones; my-lists and what its parent shows are marked. */
  lemma CreatedExact(c: Cache, issue: Issue, k: Id)
    requires c.list.Some? && Consistent(c.list.value.data) && NoOtherBucket(c.list.value.data, issue)
    ensures var d := Created(c, issue); var v := View(c.list.value.data);
      && d.list.Some? && Consistent(d.list.value.data)
      && View(d.list.value.data) == (if issue.status == Cancelled || issue.id in v then v else v[issue.id := issue])
      && d.detail == c.detail && MarkedIff(c.my, d.my, k, true)
      && MarkedIff(c.children, d.children, k, k != "" && issue.parent == Some(k))
      && MarkedOptIff(c.progress, d.progress, Truthy(issue.parent))
      && d.timeline == c.timeline && d.reactions == c.reactions && d.subscribers == c.subscribers
      && d.collections == c.collections
  {
    AddRefines(c.list.value.data, issue);
  }

  /** A deletion event leaves no entry under the issue's own keys; the other issues' entries stay. */
  lemma DeletedExact(c: Cache, id: Id, k: Id)
    ensures var d := Deleted(c, id);
      && LacksOnly(c.detail, d.detail, id, k) && LacksOnly(c.timeline, d.timeline, id, k)
      && LacksOnly(c.reactions, d.reactions, id, k) && LacksOnly(c.subscribers, d.subscribers, id, k)
      && id !in d.children && (k != id ==> (k in d.children <==> k in c.children))
  {
    DeletedFields(c, id);
    LacksRemoved(c.detail, id, k);
    LacksRemoved(c.timeline, id, k);
    LacksRemoved(c.reactions, id, k);
    LacksRemoved(c.subscribers, id, k);
    ChildrenMarked(c.children, id, ListedParent(c.list, id), k);
  }

  /** It marks my-lists and what the parent shows, and nothing else. */
  lemma DeletedMarks(c: Cache, id: Id, k: Id)
    ensures var d := Deleted(c, id); var parent := ListedParent(c.list, id);
      && (k != id ==> MarkedIff(c.children, d.children, k, k != "" && parent == Some(k)))
      && MarkedIff(c.my, d.my, k, true) && MarkedOptIff(c.progress, d.progress, Truthy(parent))
      && d.collections == c.collections
  {
    DeletedFields(c, id);
    ChildrenMarked(c.children, id, ListedParent(c.list, id), k);
  }

  lemma DeletedFields(c: Cache, id: Id)
    ensures var d := Deleted(c, id);
      && d.detail == c.detail - {id} && d.timeline == c.timeline - {id}
      && d.reactions == c.reactions - {id} && d.subscribers == c.subscribers - {id}
      && d.my == MarkAll(c.my) && d.collections == c.collections
    ensures Deleted(c, id).children == ChildrenWithout(c.children, id, ListedParent(c.list, id))
    ensures Deleted(c, id).progress == if Truthy(ListedParent(c.list, id)) then MarkOpt(c.progress) else c.progress
  {
    var parent := ListedParent(c.list, id);
    var e := Forgotten(c.(list := RemoveFromList(c.list, id, c.resetsOnWrite), my := MarkAll(c.my)), id);
    assert Deleted(c, id)
           == if Truthy(parent) then e.(children := Mark(e.children, parent.value), progress := MarkOpt(e.progress)) else e;
  }

  function ChildrenWithout(children: Keyed<seq<Issue>>, id: Id, parent: Option<Id>): Keyed<seq<Issue>> {
    if Truthy(parent) then Mark(children - {id}, parent.value) else children - {id}
  }

  lemma ChildrenMarked(children: Keyed<seq<Issue>>, id: Id, parent: Option<Id>, k: Id)
    ensures id !in ChildrenWithout(children, id, parent)
    ensures k != id ==> MarkedIff(children, ChildrenWithout(children, id, parent), k, k != "" && parent == Some(k))
  {
  }

  /** A deletion event takes the issue, and only it, out of the visible issues. */
  lemma DeletedList(c: Cache, id: Id)
    requires c.list.Some? && Consistent(c.list.value.data)
    ensures var d := Deleted(c, id).list;
      d.Some? && Consistent(d.value.data) && View(d.value.data) == View(c.list.value.data) - {id}
  {
    RemoveRefines(c.list.value.data, id);
  }

  lemma LacksRemoved<T>(m: Keyed<T>, id: Id, k: string)
    ensures LacksOnly(m, m - {id}, id, k)
  {
  }

  lemma DetailEcho(detail: Keyed<Issue>, id: Id, p: Patch, resets: bool)
    ensures var once := PatchDetail(detail, id, p, resets);
      DataOf(PatchDetail(once, id, p, resets)) == DataOf(once)
  {
    if id in detail { MergeTwice(detail[id].data, p); }
  }

  /** The echo of an optimistic write changes neither the list nor the issue's detail. */
  lemma EchoIdempotent(c: Cache, id: Id, p: Patch)
    requires c.list.Some? ==> Consistent(c.list.value.data)
    ensures var once := Updated(c, id, p); var twice := Updated(once, id, p);
      && DataOpt(twice.list) == DataOpt(once.list)
      && DataOf(twice.detail) == DataOf(once.detail)
  {
    if c.list.Some? { PatchEcho(c.list.value.data, id, p); }
    DetailEcho(c.detail, id, p, c.resetsOnWrite);
  }

  ghost predicate Shown(list: Option<Entry<ListCache>>, id: Id) {
    list.Some? && FindIssueLocation(list.value.data, id).Some?
  }

  /** The issue the list shows after an update is the one it showed before, with the payload written over it. */
  lemma ListedAfter(list: Option<Entry<ListCache>>, id: Id, p: Patch, resets: bool)
    requires list.Some? ==> Consistent(list.value.data)
    ensures Shown(PatchList(list, id, p, resets), id) ==> Shown(list, id)
    ensures var parent := ListedParent(PatchList(list, id, p, resets), id);
      if Shown(PatchList(list, id, p, resets), id)
      then parent == if p.parent.Some? then p.parent.value else ListedParent(list, id)
      else parent == None
  {
    if list.Some? {
      PatchRefines(list.value.data, id, p);
      ViewIsLookup(list.value.data, id);
      ViewIsLookup(PatchIssueInBuckets(list.value.data, id, p), id);
    }
  }

  /** The client still knows the issue, from its detail or from the list, after the event. */
  ghost predicate StillKnown(c: Cache, id: Id, p: Patch) {
    id in c.detail || Shown(Updated(c, id, p).list, id)
  }

  lemma ParentAfter(c: Cache, id: Id, p: Patch)
    requires c.list.Some? ==> Consistent(c.list.value.data)
    ensures var parent := ParentOf(Updated(c, id, p), id);
      && (p.parent.Some? ==> parent == if StillKnown(c, id, p) then NewParent(p) else None)
      && (p.parent.None? ==> parent in {ParentOf(c, id), None})
  {
    ListedAfter(c.list, id, p, c.resetsOnWrite);
  }

  /** The child lists after two events with the same payload, given the parents they find. */
  lemma SyncTwice(children: Keyed<seq<Issue>>, first: Option<Id>, second: Option<Id>, id: Id, p: Patch,
                  resets: bool, q: Id)
    requires q in children && second in {first, None} && (p.parent.Some? ==> first == NewParent(p))
    ensures var once := SyncParents(children, first, NewParent(p), p.parent.Some? && NewParent(p) != first, id, p, resets);
      var twice := SyncParents(once, second, NewParent(p), p.parent.Some? && NewParent(p) != second, id, p, resets);
      q in once && q in twice && twice[q].data == once[q].data
  {
    PatchRowsTwice(children[q].data, id, p);
  }

  /** An update that leaves the parent as it is: the echo changes no child list either. */
  lemma EchoChildren(c: Cache, id: Id, p: Patch, q: Id)
    requires !ParentChanges(c, id, p) && q in c.children
    requires c.list.Some? ==> Consistent(c.list.value.data)
    ensures var once := Updated(c, id, p); var twice := Updated(once, id, p);
      q in once.children && q in twice.children && twice.children[q].data == once.children[q].data
  {
    ParentAfter(c, id, p);
    SyncTwice(c.children, ParentOf(c, id), ParentOf(Updated(c, id, p), id), id, p, c.resetsOnWrite, q);
  }

  lemma SyncMoved(children: Keyed<seq<Issue>>, first: Option<Id>, second: Option<Id>, id: Id, p: Patch,
                  resets: bool, q: Id)
    requires q in children && p.parent.Some? && NewParent(p) != first && second in {NewParent(p), None}
    ensures var once := SyncParents(children, first, NewParent(p), true, id, p, resets);
      var twice := SyncParents(once, second, NewParent(p), NewParent(p) != second, id, p, resets);
      var unmarked := Truthy(NewParent(p)) && q == NewParent(p).value && second == NewParent(p);
      && q in once && once[q].data == children[q].data
      && q in twice && twice[q].data == (if unmarked then PatchRows(children[q].data, id, p) else children[q].data)
      && (twice[q].invalid <==> once[q].invalid && (unmarked ==> !resets))
  {
  }

  /**
   * The echo of a re-parenting. The first event marks the new parent's child list, which does not show
   * the issue yet. The second finds the parent unchanged and writes that list: its mark survives exactly
   * if writes keep marks or the client no longer knows the issue. All other child lists stay as they are.
   */
  lemma EchoReparent(c: Cache, id: Id, p: Patch, q: Id)
    requires ParentChanges(c, id, p) && q in c.children
    requires c.list.Some? ==> Consistent(c.list.value.data)
    ensures var once := Updated(c, id, p); var twice := Updated(once, id, p);
      && q in once.children && once.children[q].data == c.children[q].data && q in twice.children
      && (NewParent(p) == Some(q) && q != "" ==>
            once.children[q].invalid && (twice.children[q].invalid <==> !c.resetsOnWrite || !StillKnown(c, id, p)))
      && (NewParent(p) != Some(q) ==> twice.children[q] == once.children[q])
  {
    ParentAfter(c, id, p);
    SyncMoved(c.children, ParentOf(c, id), ParentOf(Updated(c, id, p), id), id, p, c.resetsOnWrite, q);
  }

  lemma PatchRowsTwice(rows: seq<Issue>, id: Id, p: Patch)
    ensures PatchRows(PatchRows(rows, id, p), id, p) == PatchRows(rows, id, p)
  {
    forall k | 0 <= k < |rows| { MergeTwice(rows[k], p); }
  }

  /** The parent an issue is taken to have: its detail's, or else the one of the row the list shows. */
  lemma ParentOfExact(c: Cache, id: Id)
    requires c.list.Some? ==> Consistent(c.list.value.data)
    ensures var shown := c.list.Some? && id in View(c.list.value.data);
      ParentOf(c, id) ==
        if id in c.detail && c.detail[id].data.parent.Some? then c.detail[id].data.parent
        else if shown then View(c.list.value.data)[id].parent else None
  {
    if c.list.Some? { ViewIsLookup(c.list.value.data, id); }
  }
}
