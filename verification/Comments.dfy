/** Deleting a comment optimistically removes its whole reply tree (`useDeleteComment` in issues/mutations.ts). */
module Comments {
  import opened Prelude
  import opened Issues
  import opened QueryCache
  import opened Filtering

  // ----- the specification: what hangs below the deleted comment -----

  ghost predicate LinksTo(e: TimelineEntry, parent: Id) {
    parent != "" && e.parent == Some(parent)
  }

  /** `id` is reached from `root` by following at most `depth` parent links downwards. */
  ghost predicate Below(entries: seq<TimelineEntry>, root: Id, id: Id, depth: nat)
    decreases depth
  {
    id == root
    || (depth > 0 && exists k, p ::
          0 <= k < |entries| && entries[k].id == id && LinksTo(entries[k], p) && Below(entries, root, p, depth - 1))
  }

  ghost predicate InSubtree(entries: seq<TimelineEntry>, root: Id, id: Id) {
    exists depth: nat :: Below(entries, root, id, depth)
  }

  ghost predicate Closed(entries: seq<TimelineEntry>, ids: set<Id>) {
    forall k :: 0 <= k < |entries| && Truthy(entries[k].parent) && entries[k].parent.value in ids ==>
                  entries[k].id in ids
  }

  /** A closed set that contains the root contains everything below it. */
  lemma {:induction false} ClosedContainsSubtree(entries: seq<TimelineEntry>, ids: set<Id>, root: Id, id: Id, depth: nat)
    requires Closed(entries, ids) && root in ids && Below(entries, root, id, depth)
    ensures id in ids
    decreases depth
  {
    if id != root {
      var k, p :| 0 <= k < |entries| && entries[k].id == id && LinksTo(entries[k], p) && Below(entries, root, p, depth - 1);
      ClosedContainsSubtree(entries, ids, root, p, depth - 1);
    }
  }

  lemma OneStepBelow(entries: seq<TimelineEntry>, root: Id, k: nat)
    requires k < |entries| && Truthy(entries[k].parent)
    requires InSubtree(entries, root, entries[k].parent.value)
    ensures InSubtree(entries, root, entries[k].id)
  {
    var p := entries[k].parent.value;
    var depth: nat :| Below(entries, root, p, depth);
    assert LinksTo(entries[k], p);
    assert Below(entries, root, entries[k].id, depth + 1);
  }

  function IdsIn(entries: seq<TimelineEntry>): set<Id> {
    set k | 0 <= k < |entries| :: entries[k].id
  }

  // ----- the cascade -----

  ghost predicate OnlySubtree(entries: seq<TimelineEntry>, root: Id, ids: set<Id>) {
    forall id :: id in ids ==> InSubtree(entries, root, id)
  }

  /** One pass over all entries: adds every entry whose parent is already marked. */
  method Sweep(prev: seq<TimelineEntry>, marked: set<Id>, ghost root: Id) returns (toRemove: set<Id>, changed: bool)
    requires OnlySubtree(prev, root, marked)
    ensures marked <= toRemove <= IdsIn(prev) + marked && OnlySubtree(prev, root, toRemove)
    ensures !changed ==> toRemove == marked && Closed(prev, marked)
    ensures changed ==> |IdsIn(prev) - toRemove| < |IdsIn(prev) - marked|
  {
    toRemove, changed := marked, false;
    for k := 0 to |prev|
      invariant marked <= toRemove <= IdsIn(prev) + marked && OnlySubtree(prev, root, toRemove)
      invariant !changed ==> toRemove == marked && Closed(prev[..k], marked)
      invariant changed ==> IdsIn(prev) - toRemove < IdsIn(prev) - marked
    {
      var e := prev[k];
      if Truthy(e.parent) && e.parent.value in toRemove && e.id !in toRemove {
        OneStepBelow(prev, root, k);
        assert e.id in IdsIn(prev) - marked;
        toRemove := toRemove + {e.id};
        changed := true;
      }
    }
    assert prev[..|prev|] == prev;
    if changed { SmallerSet(IdsIn(prev) - toRemove, IdsIn(prev) - marked); }
  }

  /**
   * Repeated sweeps until one adds nothing. Parent links may form cycles or point nowhere; each
   * sweep that goes on has consumed at least one entry id, so the loop ends all the same.
   */
  method CollectCascade(prev: seq<TimelineEntry>, commentId: Id) returns (toRemove: set<Id>)
    ensures forall id :: id in toRemove <==> InSubtree(prev, commentId, id)
  {
    toRemove := {commentId};
    assert Below(prev, commentId, commentId, 0);
    var changed := true;
    while changed
      invariant commentId in toRemove && OnlySubtree(prev, commentId, toRemove)
      invariant !changed ==> Closed(prev, toRemove)
      decreases |IdsIn(prev) - toRemove|, changed
    {
      toRemove, changed := Sweep(prev, toRemove, commentId);
    }
    forall id | InSubtree(prev, commentId, id) ensures id in toRemove {
      var depth: nat :| Below(prev, commentId, id, depth);
      ClosedContainsSubtree(prev, toRemove, commentId, id, depth);
    }
  }

  lemma SmallerSet(a: set<Id>, b: set<Id>)
    requires a < b
    ensures |a| < |b|
  {
    assert b == a + (b - a);
    assert |b| == |a| + |b - a|;
    assert b - a != {};
  }

  /** `old.filter((e) => !toRemove.has(e.id))` */
  function Surviving(entries: seq<TimelineEntry>, toRemove: set<Id>): (r: seq<TimelineEntry>)
    ensures forall e :: e in r <==> e in entries && e.id !in toRemove
  {
    var keep := (e: TimelineEntry) => e.id !in toRemove;
    FilterMembers(entries, keep);
    Filter(entries, keep)
  }

  method DeleteCommentOnMutate(qc: QueryClient, issueId: Id, commentId: Id)
    returns (prev: Option<seq<TimelineEntry>>, toRemove: set<Id>)
    modifies qc
    ensures prev == if issueId in old(qc.timeline) then Some(old(qc.timeline)[issueId].data) else None
    ensures prev.Some? ==>
      && (forall id :: id in toRemove <==> InSubtree(prev.value, commentId, id))
      && qc.Value() == old(qc.Value()).(timeline :=
           SetIn(old(qc.timeline), issueId, Surviving(prev.value, toRemove), qc.resetsOnWrite))
    ensures prev.None? ==> qc.Value() == old(qc.Value())
  {
    prev, toRemove := None, {commentId};
    if issueId in qc.timeline {
      prev := Some(qc.timeline[issueId].data);
      toRemove := CollectCascade(prev.value, commentId);
      qc.timeline := SetIn(qc.timeline, issueId, Surviving(prev.value, toRemove), qc.resetsOnWrite);
    }
  }

  method DeleteCommentOnError(qc: QueryClient, issueId: Id, prev: Option<seq<TimelineEntry>>)
    modifies qc
    ensures qc.Value() == old(qc.Value()).(timeline :=
      if prev.Some? then SetIn(old(qc.timeline), issueId, prev.value, qc.resetsOnWrite) else old(qc.timeline))
  {
    if prev.Some? {
      qc.timeline := SetIn(qc.timeline, issueId, prev.value, qc.resetsOnWrite);
    }
  }

  /** A failed deletion leaves the timeline as it was. */
  lemma RollbackRestores(c: Cache, issueId: Id, toRemove: set<Id>)
    requires issueId in c.timeline
    ensures var prev := c.timeline[issueId].data;
      var removed := SetIn(c.timeline, issueId, Surviving(prev, toRemove), c.resetsOnWrite);
      DataOf(SetIn(removed, issueId, prev, c.resetsOnWrite)) == DataOf(c.timeline)
  {
  }

  /** After the cascade no reply is left hanging under a removed comment, and nothing else is gone. */
  lemma NoOrphans(entries: seq<TimelineEntry>, root: Id, toRemove: set<Id>, e: TimelineEntry)
    requires forall id :: id in toRemove <==> InSubtree(entries, root, id)
    requires e in Surviving(entries, toRemove)
    ensures Truthy(e.parent) ==> e.parent.value !in toRemove
    ensures e.id != root
  {
    assert Below(entries, root, root, 0);
    var k :| 0 <= k < |entries| && entries[k] == e;
    if Truthy(e.parent) && e.parent.value in toRemove {
      OneStepBelow(entries, root, k);
      assert false;
    }
  }
}
