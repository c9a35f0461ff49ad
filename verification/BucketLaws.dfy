/**
 * Laws of the bucketed list that the realtime layer leans on: a write followed by its own echo
 * equals the write alone, no write creates or loses a unit of the column totals, and the
 * flattened list shows every visible issue exactly once.
 */
module BucketLaws {
  import opened Prelude
  import opened Issues
  import opened Filtering
  import opened BucketCache
  import opened BucketRefinement

  // ----- echo -----

  lemma PlaceSelf(c: ListCache, i: Issue)
    requires Consistent(c) && Holds(c, i)
    ensures PlaceAt(c, Location(i.status, i), i, i.status) == c
  {
    var xs := c.byStatus[i.status].issues;
    forall k | 0 <= k < |xs| ensures Replace(xs, i.id, i)[k] == xs[k] {
      if xs[k].id == i.id { SameIdSameIssue(xs, xs[k], i); }
    }
    assert Replace(xs, i.id, i) == xs;
  }

  /** Optimistic write, then the same change from the server: the second write changes nothing. */
  lemma PatchEcho(c: ListCache, id: Id, p: Patch)
    requires Consistent(c)
    ensures PatchIssueInBuckets(PatchIssueInBuckets(c, id, p), id, p) == PatchIssueInBuckets(c, id, p)
  {
    var d := PatchIssueInBuckets(c, id, p);
    PatchRefines(c, id, p);
    var loc := FindIssueLocation(c, id);
    if loc.Some? {
      var m := Merge(loc.value.issue, p);
      MergeTwice(loc.value.issue, p);
      if m.status != Cancelled {
        assert View(d)[id] == m;
        LookupExact(d, m);
        PlaceSelf(d, m);
      }
    }
  }

  /** The creator's own insertion followed by the broadcast of the same creation. */
  lemma CreateEcho(c: ListCache, i: Issue)
    ensures AddIssueToBuckets(AddIssueToBuckets(c, i), i) == AddIssueToBuckets(c, i)
  {
    var bucket := GetBucket(c, i.status);
    if FindIn(bucket.issues, i.id).None? {
      assert i in bucket.issues + [i];
      assert i.id in IdsOf(bucket.issues + [i]);
    }
  }

  /** The deleter's own removal followed by the broadcast of the same deletion. */
  lemma DeleteEcho(c: ListCache, id: Id)
    requires Consistent(c)
    ensures RemoveIssueFromBuckets(RemoveIssueFromBuckets(c, id), id) == RemoveIssueFromBuckets(c, id)
  {
    RemoveRefines(c, id);
    assert id !in View(RemoveIssueFromBuckets(c, id));
  }

  // ----- totals -----

  function TotalOf(c: ListCache, s: Status): int {
    GetBucket(c, s).total
  }

  /** The number of issues the columns claim the server has. */
  function GrandTotal(c: ListCache): int {
    TotalOf(c, Backlog) + TotalOf(c, Todo) + TotalOf(c, InProgress) + TotalOf(c, InReview)
    + TotalOf(c, Done) + TotalOf(c, Blocked) + TotalOf(c, Cancelled)
  }

  lemma GrandTotalOfSet(c: ListCache, s: Status, b: Bucket)
    ensures GrandTotal(SetBucket(c, s, b)) == GrandTotal(c) - TotalOf(c, s) + b.total
  {
    var d := SetBucket(c, s, b);
    assert forall t :: t != s ==> TotalOf(d, t) == TotalOf(c, t);
    assert TotalOf(d, s) == b.total;
  }

  lemma RemoveAtTotal(c: ListCache, i: Issue)
    requires Consistent(c) && Holds(c, i)
    ensures GrandTotal(RemoveAt(c, Location(i.status, i))) == GrandTotal(c) - 1
  {
    var b := c.byStatus[i.status];
    GrandTotalOfSet(c, i.status, Bucket(Without(b.issues, i.id), Max(0, b.total - 1)));
  }

  lemma PlaceTotal(c: ListCache, i: Issue, m: Issue)
    requires Consistent(c) && Holds(c, i) && m.id == i.id
    ensures GrandTotal(PlaceAt(c, Location(i.status, i), m, m.status)) == GrandTotal(c)
  {
    if m.status == i.status {
      var b := c.byStatus[i.status];
      GrandTotalOfSet(c, i.status, Bucket(Replace(b.issues, i.id, m), b.total));
    } else {
      MoveTotal(c, i, m);
    }
  }

  lemma MoveTotal(c: ListCache, i: Issue, m: Issue)
    requires Consistent(c) && Holds(c, i) && m.status != i.status
    ensures GrandTotal(PlaceAt(c, Location(i.status, i), m, m.status)) == GrandTotal(c)
  {
    RemoveAtTotal(c, i);
    var gone := RemoveAt(c, Location(i.status, i));
    var target := GetBucket(c, m.status);
    var arrived := Bucket(target.issues + [m], target.total + 1);
    assert TotalOf(gone, m.status) == target.total;
    GrandTotalOfSet(gone, m.status, arrived);
    assert PlaceAt(c, Location(i.status, i), m, m.status) == SetBucket(gone, m.status, arrived);
  }

  /** Moving or editing an issue, even out of the board, creates and loses no unit of the totals. */
  lemma PatchConservesTotal(c: ListCache, id: Id, p: Patch)
    requires Consistent(c)
    ensures GrandTotal(PatchIssueInBuckets(c, id, p)) == GrandTotal(c)
  {
    var loc := FindIssueLocation(c, id);
    if loc.Some? {
      LookupExact(c, loc.value.issue);
      PlaceTotal(c, loc.value.issue, Merge(loc.value.issue, p));
    }
  }

  /** Removing a visible issue takes one unit, removing anything else none. */
  lemma RemoveTakesOne(c: ListCache, id: Id)
    requires Consistent(c)
    ensures GrandTotal(RemoveIssueFromBuckets(c, id)) == GrandTotal(c) - (if id in View(c) then 1 else 0)
  {
    var loc := FindIssueLocation(c, id);
    if loc.Some? {
      LookupExact(c, loc.value.issue);
      RemoveAtTotal(c, loc.value.issue);
    }
  }

  /** Adding an issue adds one unit, unless its bucket already has it. */
  lemma AddBringsOne(c: ListCache, i: Issue)
    ensures GrandTotal(AddIssueToBuckets(c, i))
            == GrandTotal(c) + (if i.id in IdsOf(GetBucket(c, i.status).issues) then 0 else 1)
  {
    var b := GetBucket(c, i.status);
    GrandTotalOfSet(c, i.status, Bucket(b.issues + [i], b.total + 1));
  }

  // ----- the flattened list -----

  function Flattened(c: ListCache, statuses: seq<Status>): seq<Issue> {
    if statuses == [] then []
    else
      var last := statuses[|statuses| - 1];
      Flattened(c, statuses[..|statuses| - 1]) + (if last in c.byStatus then c.byStatus[last].issues else [])
  }

  method FlattenIssueBuckets(data: ListCache) returns (out: seq<Issue>)
    ensures out == Flattened(data, PAGINATED_STATUSES)
  {
    out := [];
    for k := 0 to |PAGINATED_STATUSES|
      invariant out == Flattened(data, PAGINATED_STATUSES[..k])
    {
      var status := PAGINATED_STATUSES[k];
      assert PAGINATED_STATUSES[..k + 1][..k] == PAGINATED_STATUSES[..k];
      if status in data.byStatus {
        out := out + data.byStatus[status].issues;
      }
    }
    assert PAGINATED_STATUSES[..|PAGINATED_STATUSES|] == PAGINATED_STATUSES;
  }

  ghost predicate DistinctStatuses(ss: seq<Status>) {
    forall i, j :: 0 <= i < j < |ss| ==> ss[i] != ss[j]
  }

  lemma {:induction false} FlattenedMembers(c: ListCache, ss: seq<Status>)
    requires Consistent(c) && DistinctStatuses(ss)
    ensures forall i :: i in Flattened(c, ss) <==> Holds(c, i) && i.status in ss
    ensures DistinctIds(Flattened(c, ss))
  {
    if ss != [] {
      var init, last := ss[..|ss| - 1], ss[|ss| - 1];
      FlattenedMembers(c, init);
      assert ss == init + [last];
      var before := Flattened(c, init);
      var added := if last in c.byStatus then c.byStatus[last].issues else [];
      forall x, y | x in before && y in added ensures x.id != y.id {
        assert x.status in init && x.status != last;
        assert x.id in IdsOf(c.byStatus[x.status].issues);
        assert y.id in IdsOf(c.byStatus[last].issues);
      }
      assert forall i, j :: 0 <= i < |before| && 0 <= j < |added| ==> before[i] in before && added[j] in added;
    }
  }

  /** What consumers read: each visible issue once, and nothing else. */
  lemma FlattenedIsView(c: ListCache)
    requires Consistent(c)
    ensures DistinctIds(Flattened(c, PAGINATED_STATUSES))
    ensures forall i :: i in Flattened(c, PAGINATED_STATUSES) <==> i.id in View(c) && View(c)[i.id] == i
  {
    FlattenedMembers(c, PAGINATED_STATUSES);
    forall i: Issue ensures i in Flattened(c, PAGINATED_STATUSES) <==> i.id in View(c) && View(c)[i.id] == i {
      LookupExact(c, i);
      assert i.status in PAGINATED_STATUSES <==> i.status != Cancelled;
    }
  }

  // ----- order on the screen -----

  lemma WithoutAbsent(xs: seq<Issue>, id: Id)
    requires id !in IdsOf(xs)
    ensures Without(xs, id) == xs
  {
    FilterAll(xs, IsNot(id));
  }

  lemma {:induction false} FlattenedRemoveAt(c: ListCache, i: Issue, ss: seq<Status>)
    requires Consistent(c) && Holds(c, i)
    ensures Flattened(RemoveAt(c, Location(i.status, i)), ss) == Without(Flattened(c, ss), i.id)
  {
    if ss != [] {
      var init, last := ss[..|ss| - 1], ss[|ss| - 1];
      FlattenedRemoveAt(c, i, init);
      var column := if last in c.byStatus then c.byStatus[last].issues else [];
      FilterConcat(Flattened(c, init), column, IsNot(i.id));
      if last != i.status {
        assert i.id in IdsOf(c.byStatus[i.status].issues);
        WithoutAbsent(column, i.id);
      }
    }
  }

  /** Removing an issue leaves all others on the screen in the order they had. */
  lemma RemoveKeepsOrder(c: ListCache, id: Id)
    requires Consistent(c)
    ensures Flattened(RemoveIssueFromBuckets(c, id), PAGINATED_STATUSES)
            == Without(Flattened(c, PAGINATED_STATUSES), id)
  {
    var loc := FindIssueLocation(c, id);
    if loc.Some? {
      LookupExact(c, loc.value.issue);
      FlattenedRemoveAt(c, loc.value.issue, PAGINATED_STATUSES);
    } else {
      NotShown(c, id);
      WithoutAbsent(Flattened(c, PAGINATED_STATUSES), id);
    }
  }

  lemma NotShown(c: ListCache, id: Id)
    requires Consistent(c) && FindIssueLocation(c, id).None?
    ensures id !in IdsOf(Flattened(c, PAGINATED_STATUSES))
  {
    FlattenedIsView(c);
    ViewIsLookup(c, id);
    assert forall i :: i in Flattened(c, PAGINATED_STATUSES) ==> i.id in View(c);
  }

  lemma {:induction false} FlattenedPlaceSame(c: ListCache, i: Issue, m: Issue, ss: seq<Status>)
    requires Consistent(c) && Holds(c, i) && m.id == i.id && m.status == i.status
    ensures Flattened(PlaceAt(c, Location(i.status, i), m, m.status), ss) == Replace(Flattened(c, ss), i.id, m)
  {
    if ss != [] {
      var init, last := ss[..|ss| - 1], ss[|ss| - 1];
      FlattenedPlaceSame(c, i, m, init);
      var column := if last in c.byStatus then c.byStatus[last].issues else [];
      assert Replace(Flattened(c, init) + column, i.id, m)
             == Replace(Flattened(c, init), i.id, m) + Replace(column, i.id, m);
      if last != i.status {
        assert i.id in IdsOf(c.byStatus[i.status].issues);
        forall k | 0 <= k < |column| ensures column[k].id != i.id {
          assert column[k] in column && column[k].id in IdsOf(column);
        }
        assert Replace(column, i.id, m) == column;
      }
    }
  }

  /** Editing an issue within its column changes it in place: nothing on the screen moves. */
  lemma EditKeepsOrder(c: ListCache, id: Id, p: Patch)
    requires Consistent(c) && FindIssueLocation(c, id).Some?
    requires Merge(FindIssueLocation(c, id).value.issue, p).status == FindIssueLocation(c, id).value.status
    ensures Flattened(PatchIssueInBuckets(c, id, p), PAGINATED_STATUSES)
            == Replace(Flattened(c, PAGINATED_STATUSES), id, Merge(FindIssueLocation(c, id).value.issue, p))
  {
    var i := FindIssueLocation(c, id).value.issue;
    LookupExact(c, i);
    FlattenedPlaceSame(c, i, Merge(i, p), PAGINATED_STATUSES);
  }

  /** A move is a removal followed by the arrival of a new issue: it lands where a created one would. */
  lemma MoveIsRemoveThenAdd(c: ListCache, id: Id, p: Patch)
    requires Consistent(c) && FindIssueLocation(c, id).Some?
    requires Merge(FindIssueLocation(c, id).value.issue, p).status != FindIssueLocation(c, id).value.status
    ensures PatchIssueInBuckets(c, id, p)
            == AddIssueToBuckets(RemoveIssueFromBuckets(c, id), Merge(FindIssueLocation(c, id).value.issue, p))
  {
    var i := FindIssueLocation(c, id).value.issue;
    LookupExact(c, i);
    PlaceIsMove(c, i, Merge(i, p));
  }

  // ----- where the code's own precondition bites -----

  /** The first columns of the board decide where a lookup ends. */
  lemma FoundInTodo(c: ListCache, i: Issue)
    requires Backlog !in c.byStatus && Todo in c.byStatus && c.byStatus[Todo].issues == [i]
    ensures FindIssueLocation(c, i.id) == Some(Location(Todo, i))
  {
    var rest := PAGINATED_STATUSES[1..];
    assert PAGINATED_STATUSES[0] == Backlog && rest[0] == Todo;
    assert FindFrom(c, rest, i.id) == Some(Location(Todo, i));
  }

  /**
   * A list fetched after an issue has moved on, receiving the issue's older creation event: the id is
   * now in two buckets. The precondition of `AddConsistentIff` is real.
   */
  lemma StaleCreationInconsistent(now: Issue, created: Issue)
    requires now.status == Done && created == now.(status := Todo)
    ensures var fetched := ListCache(map[Done := Bucket([now], 1)]);
      Consistent(fetched) && !Consistent(AddIssueToBuckets(fetched, created))
  {
    var fetched := ListCache(map[Done := Bucket([now], 1)]);
    assert now in fetched.byStatus[Done].issues && now.id in IdsOf(fetched.byStatus[Done].issues);
    assert GetBucket(fetched, Todo) == EMPTY_BUCKET;
    AddConsistentIff(fetched, created);
  }

  /** When the older move event follows as well, the issue is listed twice in one column. */
  lemma StaleCreationDuplicates(now: Issue, created: Issue, p: Patch)
    requires now.status == Done && created == now.(status := Todo) && Merge(created, p) == now
    ensures var afterCreate := AddIssueToBuckets(ListCache(map[Done := Bucket([now], 1)]), created);
      GetBucket(PatchIssueInBuckets(afterCreate, now.id, p), Done).issues == [now, now]
  {
    var afterCreate := AddIssueToBuckets(ListCache(map[Done := Bucket([now], 1)]), created);
    assert afterCreate.byStatus[Todo].issues == [created];
    FoundInTodo(afterCreate, created);
  }

  // ----- where an issue arrives -----

  /** A created issue is the last of its column. */
  lemma CreatedLast(c: ListCache, i: Issue)
    requires i.id !in IdsOf(GetBucket(c, i.status).issues)
    ensures GetBucket(AddIssueToBuckets(c, i), i.status).issues == GetBucket(c, i.status).issues + [i]
    ensures forall s :: s != i.status ==> GetBucket(AddIssueToBuckets(c, i), s) == GetBucket(c, s)
  {
  }

  /** A moved issue is the last of its new column, and the rest of its old one keeps its order. */
  lemma MovedLast(c: ListCache, id: Id, p: Patch)
    requires FindIssueLocation(c, id).Some?
    requires p.status.Some? && p.status.value != FindIssueLocation(c, id).value.status
    ensures var from := FindIssueLocation(c, id).value; var d := PatchIssueInBuckets(c, id, p);
      var arrived := GetBucket(d, p.status.value).issues;
      && |arrived| == |GetBucket(c, p.status.value).issues| + 1
      && arrived[..|arrived| - 1] == GetBucket(c, p.status.value).issues
      && WrittenOver(from.issue, p, arrived[|arrived| - 1])
      && GetBucket(d, from.status).issues == Without(GetBucket(c, from.status).issues, id)
      && forall s :: s != from.status && s != p.status.value ==> GetBucket(d, s) == GetBucket(c, s)
  {
    var from := FindIssueLocation(c, id).value;
    MergeWrites(from.issue, p);
    PlacedLast(c, from, Merge(from.issue, p), p.status.value);
  }

  lemma PlacedLast(c: ListCache, from: Location, m: Issue, to: Status)
    requires to != from.status
    ensures var d := PlaceAt(c, from, m, to);
      && GetBucket(d, to).issues == GetBucket(c, to).issues + [m]
      && GetBucket(d, from.status).issues == Without(GetBucket(c, from.status).issues, from.issue.id)
      && forall s :: s != from.status && s != to ==> GetBucket(d, s) == GetBucket(c, s)
  {
  }

  function Column(c: ListCache, s: Status): seq<Issue> {
    if s in c.byStatus then c.byStatus[s].issues else []
  }

  /** The flattened list, column by column. */
  lemma FlattenedColumns(c: ListCache)
    ensures Flattened(c, PAGINATED_STATUSES)
            == Column(c, Backlog) + Column(c, Todo) + Column(c, InProgress) + Column(c, InReview) + Column(c, Done)
               + Column(c, Blocked)
  {
    var ss := PAGINATED_STATUSES;
    forall k | 0 <= k < |ss| ensures ss[..k + 1][..k] == ss[..k] && ss[..k + 1][k] == ss[k] {}
    assert ss[..6] == ss && ss[..0] == [];
    assert [] + Column(c, Backlog) == Column(c, Backlog);
    forall k | 0 <= k < |ss| ensures Flattened(c, ss[..k + 1]) == Flattened(c, ss[..k]) + Column(c, ss[k]) {
      assert |ss[..k + 1]| == k + 1;
    }
    assert Flattened(c, ss[..1]) == Column(c, Backlog);
    assert Flattened(c, ss[..2]) == Flattened(c, ss[..1]) + Column(c, Todo);
    assert Flattened(c, ss[..3]) == Flattened(c, ss[..2]) + Column(c, InProgress);
    assert Flattened(c, ss[..4]) == Flattened(c, ss[..3]) + Column(c, InReview);
    assert Flattened(c, ss[..5]) == Flattened(c, ss[..4]) + Column(c, Done);
    assert Flattened(c, ss[..6]) == Flattened(c, ss[..5]) + Column(c, Blocked);
  }
}
