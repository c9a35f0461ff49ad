/**
 * The bucketed list refines a plain map from id to issue: over every run of creations, patches,
 * removals and batches, an issue is in at most one bucket, in the bucket of its own status, and
 * what the list shows is what the same operations make of the plain map.
 */
module BucketRefinement {
  import opened Prelude
  import opened Issues
  import opened BucketCache

  ghost predicate BucketOk(s: Status, b: Bucket) {
    DistinctIds(b.issues) && |b.issues| <= b.total && forall i :: i in b.issues ==> i.status == s
  }

  ghost predicate Consistent(c: ListCache) {
    && (forall s :: s in c.byStatus ==> BucketOk(s, c.byStatus[s]))
    && (forall s, t :: s in c.byStatus && t in c.byStatus && s != t ==>
          IdsOf(c.byStatus[s].issues) !! IdsOf(c.byStatus[t].issues))
  }

  ghost predicate Holds(c: ListCache, i: Issue) {
    i.status in c.byStatus && i in c.byStatus[i.status].issues
  }

  /** No bucket but the issue's own holds its id. */
  ghost predicate NoOtherBucket(c: ListCache, i: Issue) {
    forall s :: s in c.byStatus && s != i.status ==> i.id !in IdsOf(c.byStatus[s].issues)
  }

  // ----- what the list shows -----

  ghost function VisibleIds(c: ListCache): set<Id> {
    set s, i | s in PAGINATED_STATUSES && s in c.byStatus && i in c.byStatus[s].issues :: i.id
  }

  lemma VisibleIffFound(c: ListCache, id: Id)
    ensures id in VisibleIds(c) <==> FindIssueLocation(c, id).Some?
  {
    if id in VisibleIds(c) {
      var s, i :| s in PAGINATED_STATUSES && s in c.byStatus && i in c.byStatus[s].issues && i.id == id;
      assert id in IdsOf(c.byStatus[s].issues);
    }
  }

  ghost function View(c: ListCache): map<Id, Issue> {
    map id | id in VisibleIds(c) && FindIssueLocation(c, id).Some? :: FindIssueLocation(c, id).value.issue
  }

  lemma ViewIsLookup(c: ListCache, id: Id)
    ensures id in View(c) <==> FindIssueLocation(c, id).Some?
    ensures id in View(c) ==> View(c)[id] == FindIssueLocation(c, id).value.issue
  {
    VisibleIffFound(c, id);
  }

  /** In a consistent cache the lookup is exact: it finds precisely the non-cancelled issues held. */
  lemma LookupExact(c: ListCache, i: Issue)
    requires Consistent(c)
    ensures Holds(c, i) && i.status != Cancelled <==> i.id in View(c) && View(c)[i.id] == i
    ensures FindIssueLocation(c, i.id).Some? ==>
              FindIssueLocation(c, i.id).value.status == FindIssueLocation(c, i.id).value.issue.status
  {
    var loc := FindIssueLocation(c, i.id);
    ViewIsLookup(c, i.id);
    if Holds(c, i) && i.status != Cancelled {
      assert i.id in IdsOf(c.byStatus[i.status].issues);
      assert i.status in PAGINATED_STATUSES;
      assert loc.Some?;
      assert i.id in IdsOf(c.byStatus[loc.value.status].issues);
      assert loc.value.status == i.status;
      SameIdSameIssue(c.byStatus[i.status].issues, i, loc.value.issue);
    }
  }

  lemma SameIdSameIssue(xs: seq<Issue>, a: Issue, b: Issue)
    requires DistinctIds(xs) && a in xs && b in xs && a.id == b.id
    ensures a == b
  {
  }

  // ----- the plain map -----

  function PlainAdd(m: map<Id, Issue>, i: Issue): map<Id, Issue> {
    if i.status == Cancelled || i.id in m then m else m[i.id := i]
  }

  function PlainPatch(m: map<Id, Issue>, id: Id, p: Patch): map<Id, Issue> {
    if id !in m then m
    else if Merge(m[id], p).status == Cancelled then m - {id}
    else m[id := Merge(m[id], p)]
  }

  // ----- one step -----

  /** Two consistent caches with the same visible issues have the same view. */
  lemma ViewFromMembers(c: ListCache, m: map<Id, Issue>)
    requires Consistent(c)
    requires forall id :: id in m ==> m[id].id == id && m[id].status != Cancelled && Holds(c, m[id])
    requires forall i :: Holds(c, i) && i.status != Cancelled ==> i.id in m
    ensures View(c) == m
  {
    forall id | id in m ensures id in View(c) && View(c)[id] == m[id] {
      LookupExact(c, m[id]);
    }
    forall id | id in View(c) ensures id in m {
      LookupExact(c, View(c)[id]);
    }
  }

  /** The only bucket of a consistent cache that a lookup can lead to. */
  lemma ViewMembers(c: ListCache)
    requires Consistent(c)
    ensures forall id :: id in View(c) ==>
      View(c)[id].id == id && View(c)[id].status != Cancelled && Holds(c, View(c)[id])
    ensures forall i :: Holds(c, i) && i.status != Cancelled ==> i.id in View(c) && View(c)[i.id] == i
  {
    forall i: Issue { LookupExact(c, i); }
  }

  lemma AddKeepsConsistent(c: ListCache, i: Issue)
    requires Consistent(c) && NoOtherBucket(c, i)
    ensures Consistent(AddIssueToBuckets(c, i))
  {
    var present := GetBucket(c, i.status).issues;
    if i.id !in IdsOf(present) {
      assert AddIssueToBuckets(c, i).byStatus[i.status].issues == present + [i];
      IdsOfAppend(present, i);
    }
  }

  /** Adding keeps the buckets consistent exactly when no other bucket holds the id. */
  lemma AddConsistentIff(c: ListCache, i: Issue)
    requires Consistent(c)
    ensures NoOtherBucket(c, i) || i.id in IdsOf(GetBucket(c, i.status).issues)
            <==> Consistent(AddIssueToBuckets(c, i))
  {
    var d := AddIssueToBuckets(c, i);
    var present := GetBucket(c, i.status).issues;
    if NoOtherBucket(c, i) {
      AddKeepsConsistent(c, i);
    } else if i.id !in IdsOf(present) {
      var s :| s in c.byStatus && s != i.status && i.id in IdsOf(c.byStatus[s].issues);
      IdsOfAppend(present, i);
      assert s in d.byStatus && i.id in IdsOf(d.byStatus[s].issues);
      assert i.id in IdsOf(d.byStatus[i.status].issues);
    }
  }

  lemma IdsOfAppend(xs: seq<Issue>, i: Issue)
    ensures IdsOf(xs + [i]) == IdsOf(xs) + {i.id}
  {
  }

  lemma AddHolds(c: ListCache, i: Issue, x: Issue)
    requires i.id !in IdsOf(GetBucket(c, i.status).issues)
    ensures Holds(AddIssueToBuckets(c, i), x) <==> Holds(c, x) || x == i
  {
  }

  lemma AddRefines(c: ListCache, i: Issue)
    requires Consistent(c) && NoOtherBucket(c, i)
    ensures Consistent(AddIssueToBuckets(c, i))
    ensures View(AddIssueToBuckets(c, i)) == PlainAdd(View(c), i)
  {
    var d := AddIssueToBuckets(c, i);
    AddKeepsConsistent(c, i);
    if d != c {
      AddVisible(c, i);
      forall x ensures Holds(d, x) <==> Holds(c, x) || x == i { AddHolds(c, i, x); }
      ViewAdded(c, d, i);
    } else if i.status != Cancelled {
      var x := FindIn(GetBucket(c, i.status).issues, i.id).value;
      LookupExact(c, x);
    }
  }

  lemma ViewAdded(c: ListCache, d: ListCache, i: Issue)
    requires Consistent(c) && Consistent(d) && i.id !in View(c)
    requires forall x :: Holds(d, x) <==> Holds(c, x) || x == i
    ensures View(d) == PlainAdd(View(c), i)
  {
    var v := PlainAdd(View(c), i);
    ViewMembers(c);
    forall id | id in v ensures v[id].id == id && v[id].status != Cancelled && Holds(d, v[id]) {
    }
    forall x | Holds(d, x) && x.status != Cancelled ensures x.id in v {
      if x != i { assert Holds(c, x); }
    }
    ViewFromMembers(d, v);
  }

  lemma AddVisible(c: ListCache, i: Issue)
    requires Consistent(c) && NoOtherBucket(c, i)
    requires i.id !in IdsOf(GetBucket(c, i.status).issues)
    ensures i.id !in View(c)
  {
    forall x | Holds(c, x) ensures x.id != i.id {
      assert x.id in IdsOf(c.byStatus[x.status].issues);
    }
    ViewMembers(c);
  }

  lemma RemoveAtConsistent(c: ListCache, i: Issue)
    requires Consistent(c) && Holds(c, i)
    ensures Consistent(RemoveAt(c, Location(i.status, i)))
    ensures forall x :: Holds(RemoveAt(c, Location(i.status, i)), x) <==> Holds(c, x) && x.id != i.id
  {
    var d := RemoveAt(c, Location(i.status, i));
    var s := i.status;
    assert i.id in IdsOf(c.byStatus[s].issues);
    assert IdsOf(d.byStatus[s].issues) <= IdsOf(c.byStatus[s].issues);
    forall x | Holds(c, x) && x.status != s ensures x.id != i.id {
      assert x.id in IdsOf(c.byStatus[x.status].issues);
    }
  }

  lemma ViewRemoved(c: ListCache, d: ListCache, id: Id)
    requires Consistent(c) && Consistent(d)
    requires forall x :: Holds(d, x) <==> Holds(c, x) && x.id != id
    ensures View(d) == View(c) - {id}
  {
    ViewMembers(c);
    ViewFromMembers(d, View(c) - {id});
  }

  lemma RemoveRefines(c: ListCache, id: Id)
    requires Consistent(c)
    ensures Consistent(RemoveIssueFromBuckets(c, id))
    ensures View(RemoveIssueFromBuckets(c, id)) == View(c) - {id}
  {
    var loc := FindIssueLocation(c, id);
    if loc.Some? {
      LookupExact(c, loc.value.issue);
      RemoveAtConsistent(c, loc.value.issue);
      ViewRemoved(c, RemoveAt(c, loc.value), id);
    }
  }

  lemma ReplaceMembers(xs: seq<Issue>, a: Issue, m: Issue)
    requires DistinctIds(xs) && a in xs && m.id == a.id
    ensures DistinctIds(Replace(xs, a.id, m))
    ensures forall x :: x in Replace(xs, a.id, m) <==> (x in xs && x.id != a.id) || x == m
    ensures IdsOf(Replace(xs, a.id, m)) == IdsOf(xs)
  {
    var r := Replace(xs, a.id, m);
    forall x ensures x in r <==> (x in xs && x.id != a.id) || x == m {
      if x in xs && x.id != a.id {
        var k :| 0 <= k < |xs| && xs[k] == x;
        assert r[k] == x;
      }
      var j :| 0 <= j < |xs| && xs[j] == a;
      assert r[j] == m;
    }
  }

  /** Writing within one column: exactly the issue itself changes. */
  lemma PlaceSameColumn(c: ListCache, i: Issue, m: Issue)
    requires Consistent(c) && Holds(c, i) && m.id == i.id && m.status == i.status
    ensures var d := PlaceAt(c, Location(i.status, i), m, m.status);
      Consistent(d) && forall x :: Holds(d, x) <==> (Holds(c, x) && x.id != i.id) || x == m
  {
    var d := PlaceAt(c, Location(i.status, i), m, m.status);
    ReplaceMembers(c.byStatus[i.status].issues, i, m);
    assert i.id in IdsOf(c.byStatus[i.status].issues);
    forall x | Holds(c, x) && x.status != i.status ensures x.id != i.id {
      assert x.id in IdsOf(c.byStatus[x.status].issues);
    }
  }

  /** Writing to another column is a removal followed by an addition there. */
  lemma PlaceIsMove(c: ListCache, i: Issue, m: Issue)
    requires Consistent(c) && Holds(c, i) && m.id == i.id && m.status != i.status
    ensures var gone := RemoveAt(c, Location(i.status, i));
      && Consistent(gone) && NoOtherBucket(gone, m) && m.id !in IdsOf(GetBucket(gone, m.status).issues)
      && PlaceAt(c, Location(i.status, i), m, m.status) == AddIssueToBuckets(gone, m)
  {
    var gone := RemoveAt(c, Location(i.status, i));
    RemoveAtConsistent(c, i);
    forall s, x | s in gone.byStatus && x in gone.byStatus[s].issues ensures x.id != i.id {
      assert Holds(gone, x);
    }
    assert GetBucket(gone, m.status) == GetBucket(c, m.status);
  }

  lemma PlaceHolds(c: ListCache, i: Issue, m: Issue)
    requires Consistent(c) && Holds(c, i) && m.id == i.id
    ensures var d := PlaceAt(c, Location(i.status, i), m, m.status);
      Consistent(d) && forall x :: Holds(d, x) <==> (Holds(c, x) && x.id != i.id) || x == m
  {
    if m.status == i.status {
      PlaceSameColumn(c, i, m);
    } else {
      PlaceIsMove(c, i, m);
      var gone := RemoveAt(c, Location(i.status, i));
      AddKeepsConsistent(gone, m);
      RemoveAtConsistent(c, i);
      forall x { AddHolds(gone, m, x); }
    }
  }

  /** The view after the issue `i` has been overwritten by `m`, wherever `m` went. */
  lemma ViewWritten(c: ListCache, d: ListCache, i: Issue, m: Issue)
    requires Consistent(c) && Consistent(d) && Holds(c, i) && i.status != Cancelled && m.id == i.id
    requires forall x :: Holds(d, x) <==> (Holds(c, x) && x.id != i.id) || x == m
    ensures View(d) == if m.status == Cancelled then View(c) - {i.id} else View(c)[i.id := m]
  {
    if m.status == Cancelled { ViewCancelled(c, d, i, m); } else { ViewReplaced(c, d, i, m); }
  }

  lemma ViewCancelled(c: ListCache, d: ListCache, i: Issue, m: Issue)
    requires Consistent(c) && Consistent(d) && m.status == Cancelled
    requires forall x :: Holds(d, x) <==> (Holds(c, x) && x.id != i.id) || x == m
    ensures View(d) == View(c) - {i.id}
  {
    ViewMembers(c);
    ViewFromMembers(d, View(c) - {i.id});
  }

  lemma ViewReplaced(c: ListCache, d: ListCache, i: Issue, m: Issue)
    requires Consistent(c) && Consistent(d) && Holds(c, i) && m.status != Cancelled && m.id == i.id
    requires forall x :: Holds(d, x) <==> (Holds(c, x) && x.id != i.id) || x == m
    ensures View(d) == View(c)[i.id := m]
  {
    var v := View(c)[i.id := m];
    ViewMembers(c);
    forall id | id in v ensures v[id].id == id && v[id].status != Cancelled && Holds(d, v[id]) {
    }
    forall x | Holds(d, x) && x.status != Cancelled ensures x.id in v {
      if x != m { assert Holds(c, x); }
    }
    ViewFromMembers(d, v);
  }

  lemma PatchRefines(c: ListCache, id: Id, p: Patch)
    requires Consistent(c)
    ensures Consistent(PatchIssueInBuckets(c, id, p))
    ensures View(PatchIssueInBuckets(c, id, p)) == PlainPatch(View(c), id, p)
  {
    var loc := FindIssueLocation(c, id);
    if loc.Some? {
      LookupExact(c, loc.value.issue);
      PlaceHolds(c, loc.value.issue, Merge(loc.value.issue, p));
      ViewWritten(c, PatchIssueInBuckets(c, id, p), loc.value.issue, Merge(loc.value.issue, p));
    }
  }

  // ----- what a patch shows -----

  /**
   * A patch of a visible issue, by its values: the list then shows, in the column of the new status, the
   * issue with exactly the payload's fields replaced, or files it under cancelled and shows it no more; all
   * other issues are shown as before.
   */
  lemma PatchShows(c: ListCache, id: Id, p: Patch)
    requires Consistent(c) && id in View(c)
    ensures ShownPatched(c, PatchIssueInBuckets(c, id, p), id, p)
  {
    PatchRefines(c, id, p);
    PatchHolds(c, id, p);
    PlainPatchShows(View(c), id, p);
  }

  /** `d` shows what `c` does, with the payload written over the visible issue `id`. */
  ghost predicate ShownPatched(c: ListCache, d: ListCache, id: Id, p: Patch)
    requires id in View(c)
  {
    var v, w := View(c), View(d);
    var status := if p.status.Some? then p.status.value else v[id].status;
    && (status == Cancelled ==> id !in w && exists m :: Holds(d, m) && WrittenOver(v[id], p, m))
    && (status != Cancelled ==> id in w && WrittenOver(v[id], p, w[id]) && Holds(d, w[id]))
    && forall k :: k != id ==> (k in w <==> k in v) && (k in v ==> w[k] == v[k])
  }

  lemma PlainPatchShows(v: map<Id, Issue>, id: Id, p: Patch)
    requires id in v
    ensures var m := Merge(v[id], p); var w := PlainPatch(v, id, p);
      && (m.status == Cancelled ==> id !in w) && (m.status != Cancelled ==> id in w && w[id] == m)
      && forall k :: k != id ==> (k in w <==> k in v) && (k in v ==> w[k] == v[k])
  {
  }

  lemma PatchHolds(c: ListCache, id: Id, p: Patch)
    requires Consistent(c) && id in View(c)
    ensures var m := Merge(View(c)[id], p);
      WrittenOver(View(c)[id], p, m) && Holds(PatchIssueInBuckets(c, id, p), m)
  {
    ViewIsLookup(c, id);
    var i := FindIssueLocation(c, id).value.issue;
    LookupExact(c, i);
    MergeWrites(i, p);
    PlaceHolds(c, i, Merge(i, p));
  }

  /** An issue the list does not show is not touched by a patch, and nothing else is. */
  lemma PatchMisses(c: ListCache, id: Id, p: Patch)
    requires id !in View(c)
    ensures PatchIssueInBuckets(c, id, p) == c
  {
    ViewIsLookup(c, id);
  }

  // ----- whole runs -----

  datatype Op =
    | Create(issue: Issue)
    | Update(id: Id, patch: Patch)
    | Delete(id: Id)
    | BatchUpdate(ids: seq<Id>, patch: Patch)
    | BatchDelete(ids: seq<Id>)

  function Perform(c: ListCache, op: Op): ListCache {
    match op
    case Create(i) => AddIssueToBuckets(c, i)
    case Update(id, p) => PatchIssueInBuckets(c, id, p)
    case Delete(id) => RemoveIssueFromBuckets(c, id)
    case BatchUpdate(ids, p) => PatchAll(c, ids, p)
    case BatchDelete(ids) => RemoveAll(c, ids)
  }

  function Run(c: ListCache, ops: seq<Op>): ListCache
    decreases |ops|
  {
    if ops == [] then c else Run(Perform(c, ops[0]), ops[1..])
  }

  /** Batches in closed form: the order of the ids and their repetitions play no part. */
  function PlainPatchAll(m: map<Id, Issue>, ids: seq<Id>, p: Patch): map<Id, Issue> {
    map id | id in m && !(id in ids && Merge(m[id], p).status == Cancelled) ::
      if id in ids then Merge(m[id], p) else m[id]
  }

  function PlainRemoveAll(m: map<Id, Issue>, ids: seq<Id>): map<Id, Issue> {
    map id | id in m && id !in ids :: m[id]
  }

  function PlainPerform(m: map<Id, Issue>, op: Op): map<Id, Issue> {
    match op
    case Create(i) => PlainAdd(m, i)
    case Update(id, p) => PlainPatch(m, id, p)
    case Delete(id) => m - {id}
    case BatchUpdate(ids, p) => PlainPatchAll(m, ids, p)
    case BatchDelete(ids) => PlainRemoveAll(m, ids)
  }

  function PlainRun(m: map<Id, Issue>, ops: seq<Op>): map<Id, Issue>
    decreases |ops|
  {
    if ops == [] then m else PlainRun(PlainPerform(m, ops[0]), ops[1..])
  }

  /** What the code relies on: a created issue is not already filed under another status. */
  ghost predicate FreshCreates(c: ListCache, ops: seq<Op>)
    decreases |ops|
  {
    ops != [] ==>
      && (ops[0].Create? ==> NoOtherBucket(c, ops[0].issue))
      && FreshCreates(Perform(c, ops[0]), ops[1..])
  }

  lemma {:induction false} BatchUpdateRefines(c: ListCache, ids: seq<Id>, p: Patch)
    requires Consistent(c)
    ensures Consistent(PatchAll(c, ids, p))
    ensures View(PatchAll(c, ids, p)) == PlainPatchAll(View(c), ids, p)
  {
    if ids == [] {
      assert PlainPatchAll(View(c), ids, p) == View(c);
    } else {
      var init, last := ids[..|ids| - 1], ids[|ids| - 1];
      BatchUpdateRefines(c, init, p);
      PatchRefines(PatchAll(c, init, p), last, p);
      PlainBatchStep(View(c), ids, p);
    }
  }

  lemma PlainBatchStep(m: map<Id, Issue>, ids: seq<Id>, p: Patch)
    requires ids != []
    ensures PlainPatch(PlainPatchAll(m, ids[..|ids| - 1], p), ids[|ids| - 1], p) == PlainPatchAll(m, ids, p)
  {
    var init, last := ids[..|ids| - 1], ids[|ids| - 1];
    assert ids == init + [last];
    if last in m { MergeTwice(m[last], p); }
  }

  lemma PlainRemoveStep(m: map<Id, Issue>, ids: seq<Id>)
    requires ids != []
    ensures PlainRemoveAll(m, ids[..|ids| - 1]) - {ids[|ids| - 1]} == PlainRemoveAll(m, ids)
  {
    assert ids == ids[..|ids| - 1] + [ids[|ids| - 1]];
  }

  lemma {:induction false} BatchDeleteRefines(c: ListCache, ids: seq<Id>)
    requires Consistent(c)
    ensures Consistent(RemoveAll(c, ids))
    ensures View(RemoveAll(c, ids)) == PlainRemoveAll(View(c), ids)
  {
    if ids == [] {
      assert PlainRemoveAll(View(c), ids) == View(c);
    } else {
      var init, last := ids[..|ids| - 1], ids[|ids| - 1];
      BatchDeleteRefines(c, init);
      RemoveRefines(RemoveAll(c, init), last);
      PlainRemoveStep(View(c), ids);
    }
  }

  lemma {:induction false} PerformRefines(c: ListCache, op: Op)
    requires Consistent(c)
    requires op.Create? ==> NoOtherBucket(c, op.issue)
    ensures Consistent(Perform(c, op))
    ensures View(Perform(c, op)) == PlainPerform(View(c), op)
  {
    match op
    case Create(i) => AddRefines(c, i);
    case Update(id, p) => PatchRefines(c, id, p);
    case Delete(id) => RemoveRefines(c, id);
    case BatchUpdate(ids, p) => BatchUpdateRefines(c, ids, p);
    case BatchDelete(ids) => BatchDeleteRefines(c, ids);
  }

  /** The main theorem of this file. */
  lemma {:induction false} RunRefines(c: ListCache, ops: seq<Op>)
    requires Consistent(c) && FreshCreates(c, ops)
    ensures Consistent(Run(c, ops))
    ensures View(Run(c, ops)) == PlainRun(View(c), ops)
    decreases |ops|
  {
    if ops != [] {
      PerformRefines(c, ops[0]);
      RunRefines(Perform(c, ops[0]), ops[1..]);
    }
  }
}
