/**
 * The paginated issue list: buckets keyed by status (packages/core/issues/cache-helpers.ts).
 * Every operation returns a new cache; `cancelled` issues are stored but never looked up.
 */
module BucketCache {
  import opened Prelude
  import opened Issues
  import opened Filtering

  /** `total` is the server's count for the status, not the number of loaded issues. */
  datatype Bucket = Bucket(issues: seq<Issue>, total: int)

  datatype ListCache = ListCache(byStatus: map<Status, Bucket>)

  datatype Location = Location(status: Status, issue: Issue)

  const EMPTY_BUCKET: Bucket := Bucket([], 0)

  function GetBucket(c: ListCache, s: Status): Bucket {
    if s in c.byStatus then c.byStatus[s] else EMPTY_BUCKET
  }

  function SetBucket(c: ListCache, s: Status, b: Bucket): ListCache {
    ListCache(c.byStatus[s := b])
  }

  // ----- the array methods the helpers use -----

  ghost function IdsOf(xs: seq<Issue>): set<Id> {
    set i | i in xs :: i.id
  }

  ghost predicate DistinctIds(xs: seq<Issue>) {
    forall i, j :: 0 <= i < j < |xs| ==> xs[i].id != xs[j].id
  }

  /** `xs.find((i) => i.id === id)` */
  function FindIn(xs: seq<Issue>, id: Id): (r: Option<Issue>)
    ensures r.Some? <==> id in IdsOf(xs)
    ensures r.Some? ==> r.value in xs && r.value.id == id
  {
    if xs == [] then None
    else if xs[0].id == id then Some(xs[0])
    else
      assert xs == [xs[0]] + xs[1..];
      FindIn(xs[1..], id)
  }

  function IsNot(id: Id): Issue -> bool {
    (i: Issue) => i.id != id
  }

  lemma {:induction false} FilterDistinct(xs: seq<Issue>, id: Id)
    ensures DistinctIds(xs) ==> DistinctIds(Filter(xs, IsNot(id)))
  {
    if xs != [] && DistinctIds(xs) {
      var tail := xs[1..];
      FilterDistinct(tail, id);
      FilterMembers(tail, IsNot(id));
      forall i | i in tail ensures i.id != xs[0].id {
        var k :| 0 <= k < |tail| && tail[k] == i;
        assert tail[k] == xs[k + 1];
      }
      DistinctCons(xs[0], Filter(tail, IsNot(id)));
      assert [] + Filter(tail, IsNot(id)) == Filter(tail, IsNot(id));
    }
  }

  lemma DistinctCons(x: Issue, xs: seq<Issue>)
    requires DistinctIds(xs) && forall i :: i in xs ==> i.id != x.id
    ensures DistinctIds([x] + xs)
  {
    assert forall k :: 0 <= k < |xs| ==> xs[k] in xs;
  }

  /** `xs.filter((i) => i.id !== id)` */
  function Without(xs: seq<Issue>, id: Id): (r: seq<Issue>)
    ensures forall i :: i in r <==> i in xs && i.id != id
    ensures |r| <= |xs|
    ensures id in IdsOf(xs) ==> |r| < |xs|
    ensures DistinctIds(xs) ==> DistinctIds(r)
  {
    FilterMembers(xs, IsNot(id));
    FilterShorter(xs, IsNot(id));
    FilterDistinct(xs, id);
    Filter(xs, IsNot(id))
  }

  /** `xs.map((i) => (i.id === id ? m : i))` */
  function Replace(xs: seq<Issue>, id: Id, m: Issue): (r: seq<Issue>)
    ensures |r| == |xs|
    ensures forall k :: 0 <= k < |xs| ==> r[k] == if xs[k].id == id then m else xs[k]
  {
    seq(|xs|, k requires 0 <= k < |xs| => if xs[k].id == id then m else xs[k])
  }

  // ----- the helpers -----

  function FindFrom(c: ListCache, statuses: seq<Status>, id: Id): (r: Option<Location>)
    ensures r.Some? ==> r.value.status in statuses && r.value.status in c.byStatus
                        && r.value.issue in c.byStatus[r.value.status].issues && r.value.issue.id == id
    ensures r.None? ==> forall s :: s in statuses && s in c.byStatus ==> id !in IdsOf(c.byStatus[s].issues)
  {
    if statuses == [] then None
    else
      var s := statuses[0];
      var found := if s in c.byStatus then FindIn(c.byStatus[s].issues, id) else None;
      if found.Some? then Some(Location(s, found.value)) else FindFrom(c, statuses[1..], id)
  }

  function FindIssueLocation(c: ListCache, id: Id): Option<Location> {
    FindFrom(c, PAGINATED_STATUSES, id)
  }

  function AddIssueToBuckets(c: ListCache, issue: Issue): ListCache {
    var bucket := GetBucket(c, issue.status);
    if FindIn(bucket.issues, issue.id).Some? then c
    else SetBucket(c, issue.status, Bucket(bucket.issues + [issue], bucket.total + 1))
  }

  /** Take the located issue out of its bucket. */
  function RemoveAt(c: ListCache, loc: Location): ListCache {
    var bucket := GetBucket(c, loc.status);
    SetBucket(c, loc.status, Bucket(Without(bucket.issues, loc.issue.id), Max(0, bucket.total - 1)))
  }

  function RemoveIssueFromBuckets(c: ListCache, id: Id): ListCache {
    var loc := FindIssueLocation(c, id);
    if loc.None? then c else RemoveAt(c, loc.value)
  }

  /** Write `merged` over the located issue, moving it to the end of bucket `to` if that is another one. */
  function PlaceAt(c: ListCache, loc: Location, merged: Issue, to: Status): ListCache {
    var bucket := GetBucket(c, loc.status);
    if to == loc.status then
      SetBucket(c, to, Bucket(Replace(bucket.issues, loc.issue.id, merged), bucket.total))
    else
      var target := GetBucket(c, to);
      SetBucket(RemoveAt(c, loc), to, Bucket(target.issues + [merged], target.total + 1))
  }

  function PatchIssueInBuckets(c: ListCache, id: Id, patch: Patch): ListCache {
    var loc := FindIssueLocation(c, id);
    if loc.None? then c
    else
      PlaceAt(c, loc.value, Merge(loc.value.issue, patch),
              if patch.status.Some? then patch.status.value else loc.value.status)
  }

  /** The batch callbacks: one patch, respectively one removal, per listed id, in order. */
  function PatchAll(c: ListCache, ids: seq<Id>, patch: Patch): ListCache {
    if ids == [] then c
    else PatchIssueInBuckets(PatchAll(c, ids[..|ids| - 1], patch), ids[|ids| - 1], patch)
  }

  function RemoveAll(c: ListCache, ids: seq<Id>): ListCache {
    if ids == [] then c
    else RemoveIssueFromBuckets(RemoveAll(c, ids[..|ids| - 1]), ids[|ids| - 1])
  }
}
