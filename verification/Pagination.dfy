/**
 * First pages and "load more" (queries.ts, `useLoadMoreByStatus`). The server answers a request with a
 * slice of its list for the status and the list's length; answers interleave with every other write.
 */
module Pagination {
  import opened Prelude
  import opened Issues
  import opened BucketCache
  import opened BucketRefinement
  import BucketLaws

  const ISSUE_PAGE_SIZE: nat := 50

  datatype Response = Response(issues: seq<Issue>, total: int)

  function Min(a: nat, b: nat): nat {
    if a < b then a else b
  }

  /** The server's answer to `limit`/`offset` on its list for one status. */
  function Answer(server: seq<Issue>, offset: nat): Response {
    Response(server[Min(offset, |server|)..Min(offset + ISSUE_PAGE_SIZE, |server|)], |server|)
  }

  /** `incoming.filter((i) => !existingIds.has(i.id))` */
  function NotIn(incoming: seq<Issue>, existing: seq<Issue>): seq<Issue> {
    if incoming == [] then []
    else (if FindIn(existing, incoming[0].id).Some? then [] else [incoming[0]]) + NotIn(incoming[1..], existing)
  }

  lemma {:induction false} NotInMembers(incoming: seq<Issue>, existing: seq<Issue>)
    ensures forall i :: i in NotIn(incoming, existing) <==> i in incoming && i.id !in IdsOf(existing)
    ensures DistinctIds(incoming) ==> DistinctIds(NotIn(incoming, existing))
  {
    if incoming != [] {
      assert incoming == [incoming[0]] + incoming[1..];
      NotInMembers(incoming[1..], existing);
    }
  }

  lemma {:induction false} NotInAll(incoming: seq<Issue>, existing: seq<Issue>)
    requires forall i :: i in incoming ==> i.id !in IdsOf(existing)
    ensures NotIn(incoming, existing) == incoming
  {
    if incoming != [] {
      assert incoming == [incoming[0]] + incoming[1..];
      NotInAll(incoming[1..], existing);
    }
  }

  function Append(b: Bucket, res: Response): Bucket {
    Bucket(b.issues + NotIn(res.issues, b.issues), res.total)
  }

  predicate HasMore(b: Bucket) {
    |b.issues| < b.total
  }

  method FetchFirstPages(responses: map<Status, Response>) returns (c: ListCache)
    requires forall s :: s in PAGINATED_STATUSES ==> s in responses
    ensures forall s :: s in c.byStatus <==> s != Cancelled
    ensures forall s :: s in c.byStatus ==> s in responses && c.byStatus[s] == Bucket(responses[s].issues, responses[s].total)
  {
    c := ListCache(map[]);
    for k := 0 to |PAGINATED_STATUSES|
      invariant forall s :: s in c.byStatus <==> s in PAGINATED_STATUSES[..k]
      invariant forall s :: s in c.byStatus ==> s in responses && c.byStatus[s] == Bucket(responses[s].issues, responses[s].total)
    {
      var s := PAGINATED_STATUSES[k];
      c := SetBucket(c, s, Bucket(responses[s].issues, responses[s].total));
    }
    forall s { PaginatedIff(s); }
  }

  lemma FirstPageOk(server: seq<Issue>, s: Status)
    requires DistinctIds(server) && forall i :: i in server ==> i.status == s
    ensures var b := Append(EMPTY_BUCKET, Answer(server, 0)); BucketOk(s, b) && IdsOf(b.issues) <= IdsOf(server)
  {
    var page := server[..Min(ISSUE_PAGE_SIZE, |server|)];
    assert Answer(server, 0).issues == page;
    NotInAll(page, []);
    assert [] + page == page;
  }

  /** First pages of a server that files every issue under its own status form a consistent cache. */
  lemma FirstPagesConsistent(c: ListCache, server: map<Status, seq<Issue>>)
    requires forall s :: s in c.byStatus ==> s in server && c.byStatus[s] == Append(EMPTY_BUCKET, Answer(server[s], 0))
    requires forall s :: s in server ==> DistinctIds(server[s]) && forall i :: i in server[s] ==> i.status == s
    requires forall s, t :: s in server && t in server && s != t ==> IdsOf(server[s]) !! IdsOf(server[t])
    ensures Consistent(c)
  {
    forall s | s in c.byStatus
      ensures BucketOk(s, c.byStatus[s]) && IdsOf(c.byStatus[s].issues) <= IdsOf(server[s])
    {
      FirstPageOk(server[s], s);
    }
  }

  /** The answer to a "load more" in column `s`, written over whatever the cache holds by then. */
  function LoadInto(c: ListCache, s: Status, res: Response): ListCache {
    SetBucket(c, s, Append(GetBucket(c, s), res))
  }

  /** The cached list, the in-flight flag, and what the last render of the component saw of them. */
  class LoadMoreHook {
    var cache: Option<ListCache>
    var isLoading: bool
    var seenLoading: bool
    var seen: Bucket

    constructor (cache: Option<ListCache>, status: Status)
      ensures this.cache == cache && !isLoading && !seenLoading
      ensures seen == if cache.Some? then GetBucket(cache.value, status) else EMPTY_BUCKET
    {
      this.cache, isLoading, seenLoading := cache, false, false;
      seen := if cache.Some? then GetBucket(cache.value, status) else EMPTY_BUCKET;
    }

    /** A render captures the flag and the column; `loadMore` works with what was captured. */
    method Render(status: Status)
      modifies this`seenLoading, this`seen
      ensures seenLoading == isLoading
      ensures seen == if cache.Some? then GetBucket(cache.value, status) else EMPTY_BUCKET
    {
      seenLoading := isLoading;
      seen := if cache.Some? then GetBucket(cache.value, status) else EMPTY_BUCKET;
    }

    /** Decides whether to ask the server, and from which offset: by the last render, not by the cache. */
    method Begin() returns (offset: Option<nat>)
      modifies this`isLoading
      ensures isLoading == (old(isLoading) || offset.Some?)
      ensures offset == if !seenLoading && HasMore(seen) then Some(|seen.issues|) else None
    {
      offset := None;
      if seenLoading || |seen.issues| >= seen.total { return; }
      isLoading := true;
      offset := Some(|seen.issues|);
    }

    /** The answer arrives; the cache may have changed in the meantime. */
    method Finish(status: Status, res: Response)
      modifies this`cache, this`isLoading
      ensures !isLoading
      ensures cache == if old(cache).None? then None else Some(LoadInto(old(cache).value, status, res))
    {
      if cache.Some? {
        var prev := GetBucket(cache.value, status);
        var appended := NotIn(res.issues, prev.issues);
        cache := Some(SetBucket(cache.value, status, Bucket(prev.issues + appended, res.total)));
      }
      isLoading := false;
    }
  }

  // ----- completeness against a fixed server list -----

  function LoadMore(b: Bucket, server: seq<Issue>): Bucket {
    if HasMore(b) then Append(b, Answer(server, |b.issues|)) else b
  }

  function LoadTimes(server: seq<Issue>, times: nat): Bucket {
    if times == 0 then Append(EMPTY_BUCKET, Answer(server, 0)) else LoadMore(LoadTimes(server, times - 1), server)
  }

  ghost predicate HoldsPrefix(b: Bucket, server: seq<Issue>) {
    b.total == |server| && b.issues <= server
  }

  lemma AppendNextPage(server: seq<Issue>, k: nat)
    requires DistinctIds(server) && k <= |server|
    ensures Append(Bucket(server[..k], |server|), Answer(server, k))
            == Bucket(server[..Min(k + ISSUE_PAGE_SIZE, |server|)], |server|)
  {
    var res := Answer(server, k);
    forall i | i in res.issues ensures i.id !in IdsOf(server[..k]) { NextPageUnseen(server, k, i); }
    NotInAll(res.issues, server[..k]);
    assert server[..k] + res.issues == server[..Min(k + ISSUE_PAGE_SIZE, |server|)];
  }

  lemma NextPageUnseen(server: seq<Issue>, k: nat, i: Issue)
    requires DistinctIds(server) && k <= |server| && i in server[k..Min(k + ISSUE_PAGE_SIZE, |server|)]
    ensures i.id !in IdsOf(server[..k])
  {
    var a :| k <= a < |server| && server[a] == i;
    forall j | j in server[..k] ensures j.id != i.id {
      var b :| 0 <= b < k && server[b] == j;
    }
  }

  /** Each load extends the loaded prefix and brings the column strictly closer to its total. */
  lemma LoadMoreProgress(b: Bucket, server: seq<Issue>)
    requires DistinctIds(server) && HoldsPrefix(b, server)
    ensures var after := LoadMore(b, server);
      && HoldsPrefix(after, server)
      && (HasMore(b) ==> after.total - |after.issues| < b.total - |b.issues|)
      && (HasMore(b) <==> b.issues != server)
  {
    AppendNextPage(server, |b.issues|);
    assert b.issues == server[..|b.issues|];
    assert !HasMore(b) ==> b.issues == server;
  }

  /** A column holding the first `k` issues of the server's list. */
  function Loaded(server: seq<Issue>, k: nat): Bucket {
    Bucket(server[..Min(k, |server|)], |server|)
  }

  lemma FirstLoad(server: seq<Issue>)
    requires DistinctIds(server)
    ensures Append(EMPTY_BUCKET, Answer(server, 0)) == Loaded(server, ISSUE_PAGE_SIZE)
  {
    AppendNextPage(server, 0);
    assert server[..0] == [];
  }

  lemma NextLoad(server: seq<Issue>, k: nat)
    requires DistinctIds(server)
    ensures LoadMore(Loaded(server, k), server) == Loaded(server, k + ISSUE_PAGE_SIZE)
  {
    if k < |server| { AppendNextPage(server, k); }
  }

  lemma LoadTimesStep(server: seq<Issue>, times: nat, b: Bucket)
    requires times > 0 && LoadTimes(server, times - 1) == b
    ensures LoadTimes(server, times) == LoadMore(b, server)
  {
  }

  /** A page has fifty issues. */
  lemma PageOfFifty(server: seq<Issue>, offset: nat)
    requires offset <= |server|
    ensures |Answer(server, offset).issues| == (if offset + 50 <= |server| then 50 else |server| - offset)
    ensures forall k :: 0 <= k < |Answer(server, offset).issues| ==> Answer(server, offset).issues[k] == server[offset + k]
  {
  }

  /** Closed form: after the first page and `times` loads exactly the first `50 * (times + 1)` issues. */
  lemma {:induction false} LoadTimesExact(server: seq<Issue>, times: nat)
    requires DistinctIds(server)
    ensures LoadTimes(server, times) == Loaded(server, ISSUE_PAGE_SIZE * (times + 1))
  {
    if times == 0 {
      FirstLoad(server);
    } else {
      var k := ISSUE_PAGE_SIZE * times;
      LoadTimesExact(server, times - 1);
      LoadTimesStep(server, times, Loaded(server, k));
      NextLoad(server, k);
    }
  }

  // ----- loads among all other writes: the whole list -----

  /** What an answer adds belongs to the column, is in no other column, and is covered by the total. */
  ghost predicate LoadOk(c: ListCache, s: Status, res: Response) {
    var prev := GetBucket(c, s).issues;
    var added := NotIn(res.issues, prev);
    && DistinctIds(added) && |prev| + |added| <= res.total
    && forall i :: i in added ==> i.status == s && NoOtherBucket(c, i)
  }

  /** An answer keeps the list consistent exactly then. */
  lemma LoadConsistentIff(c: ListCache, s: Status, res: Response)
    requires Consistent(c)
    ensures LoadOk(c, s, res) <==> Consistent(LoadInto(c, s, res))
  {
    var d := LoadInto(c, s, res);
    var prev := GetBucket(c, s).issues;
    var added := NotIn(res.issues, prev);
    NotInMembers(res.issues, prev);
    if LoadOk(c, s, res) {
      LoadKeepsConsistent(c, s, res);
    } else if Consistent(d) {
      assert d.byStatus[s] == Bucket(prev + added, res.total) && BucketOk(s, d.byStatus[s]);
      DistinctSuffix(prev, added);
      forall i | i in added ensures i.status == s && NoOtherBucket(c, i) {
        assert i in d.byStatus[s].issues && i.id in IdsOf(d.byStatus[s].issues);
        assert forall t :: t in c.byStatus && t != s ==> t in d.byStatus && d.byStatus[t] == c.byStatus[t];
      }
      assert false;
    }
  }

  lemma DistinctSuffix(xs: seq<Issue>, ys: seq<Issue>)
    requires DistinctIds(xs + ys)
    ensures DistinctIds(ys)
  {
    forall i, j | 0 <= i < j < |ys| ensures ys[i].id != ys[j].id {
      assert (xs + ys)[|xs| + i] == ys[i] && (xs + ys)[|xs| + j] == ys[j];
    }
  }

  lemma LoadHolds(c: ListCache, s: Status, res: Response, x: Issue)
    requires forall i :: i in NotIn(res.issues, GetBucket(c, s).issues) ==> i.status == s
    ensures Holds(LoadInto(c, s, res), x) <==> Holds(c, x) || x in NotIn(res.issues, GetBucket(c, s).issues)
  {
  }

  /** The grown column is in order by itself. */
  lemma LoadedColumn(c: ListCache, s: Status, res: Response)
    requires Consistent(c) && LoadOk(c, s, res)
    ensures BucketOk(s, Append(GetBucket(c, s), res))
  {
    var prev := GetBucket(c, s).issues;
    NotInMembers(res.issues, prev);
    assert s in c.byStatus ==> BucketOk(s, c.byStatus[s]);
    AppendDistinct(prev, NotIn(res.issues, prev));
  }

  /** ... and shares no id with another one. */
  lemma LoadedApart(c: ListCache, s: Status, res: Response, t: Status)
    requires Consistent(c) && LoadOk(c, s, res) && t in c.byStatus && t != s
    ensures IdsOf(c.byStatus[t].issues) !! IdsOf(Append(GetBucket(c, s), res).issues)
  {
    var prev := GetBucket(c, s).issues;
    forall i: Issue | i in prev + NotIn(res.issues, prev) ensures i.id !in IdsOf(c.byStatus[t].issues) {
      if i in prev { assert i.id in IdsOf(c.byStatus[s].issues); }
    }
  }

  lemma LoadKeepsConsistent(c: ListCache, s: Status, res: Response)
    requires Consistent(c) && LoadOk(c, s, res)
    ensures Consistent(LoadInto(c, s, res))
    ensures forall x :: Holds(LoadInto(c, s, res), x) <==> Holds(c, x) || x in NotIn(res.issues, GetBucket(c, s).issues)
  {
    LoadedColumn(c, s, res);
    forall t | t in c.byStatus && t != s { LoadedApart(c, s, res, t); }
    forall x { LoadHolds(c, s, res, x); }
  }

  /** On the plain map of visible issues an answer is a series of insertions that never overwrite. */
  function PlainAddAll(m: map<Id, Issue>, xs: seq<Issue>): map<Id, Issue>
    decreases |xs|
  {
    if xs == [] then m else PlainAddAll(PlainAdd(m, xs[0]), xs[1..])
  }

  lemma {:induction false} PlainAddAllMembers(m: map<Id, Issue>, xs: seq<Issue>)
    requires DistinctIds(xs) && forall x :: x in xs ==> x.id !in m
    ensures forall id :: id in PlainAddAll(m, xs) <==>
      id in m || exists x :: x in xs && x.id == id && x.status != Cancelled
    ensures forall id :: id in m ==> id in PlainAddAll(m, xs) && PlainAddAll(m, xs)[id] == m[id]
    ensures forall x :: x in xs && x.status != Cancelled ==> x.id in PlainAddAll(m, xs) && PlainAddAll(m, xs)[x.id] == x
    decreases |xs|
  {
    if xs != [] {
      assert xs == [xs[0]] + xs[1..];
      forall x | x in xs[1..] ensures x.id != xs[0].id {
        var k :| 0 <= k < |xs| - 1 && xs[1..][k] == x;
        assert xs[k + 1] == x;
      }
      PlainAddAllMembers(PlainAdd(m, xs[0]), xs[1..]);
    }
  }

  /** Issues the column has already are not inserted again. */
  lemma {:induction false} PlainAddKnown(m: map<Id, Issue>, xs: seq<Issue>, prev: seq<Issue>)
    requires forall i :: i in prev ==> i.id in m
    ensures PlainAddAll(m, NotIn(xs, prev)) == PlainAddAll(m, xs)
    decreases |xs|
  {
    if xs != [] {
      var rest := NotIn(xs[1..], prev);
      if FindIn(prev, xs[0].id).Some? {
        assert [] + rest == rest;
        PlainAddKnown(m, xs[1..], prev);
      } else {
        assert ([xs[0]] + rest)[1..] == rest;
        PlainAddKnown(PlainAdd(m, xs[0]), xs[1..], prev);
      }
    }
  }

  lemma AddedUnseen(c: ListCache, s: Status, added: seq<Issue>)
    requires Consistent(c) && forall i :: i in added ==> i.status == s && NoOtherBucket(c, i)
    requires forall i :: i in added ==> i.id !in IdsOf(GetBucket(c, s).issues)
    ensures forall i :: i in added ==> i.id !in View(c)
  {
    forall i | i in added ensures i.id !in View(c) { AddVisible(c, i); }
  }

  lemma ColumnSeen(c: ListCache, s: Status)
    requires Consistent(c) && s != Cancelled
    ensures forall i :: i in GetBucket(c, s).issues ==> i.id in View(c)
  {
    forall i | i in GetBucket(c, s).issues ensures i.id in View(c) {
      assert s in c.byStatus && BucketOk(s, c.byStatus[s]);
      LookupExact(c, i);
    }
  }

  lemma LoadRefines(c: ListCache, s: Status, res: Response)
    requires Consistent(c) && LoadOk(c, s, res) && s != Cancelled
    ensures Consistent(LoadInto(c, s, res))
    ensures View(LoadInto(c, s, res)) == PlainAddAll(View(c), res.issues)
  {
    var prev := GetBucket(c, s).issues;
    var added := NotIn(res.issues, prev);
    LoadKeepsConsistent(c, s, res);
    NotInMembers(res.issues, prev);
    AddedUnseen(c, s, added);
    ColumnSeen(c, s);
    PlainAddKnown(View(c), res.issues, prev);
    ViewLoaded(c, LoadInto(c, s, res), added, s);
  }

  lemma ViewLoaded(c: ListCache, d: ListCache, added: seq<Issue>, s: Status)
    requires Consistent(c) && Consistent(d) && DistinctIds(added) && s != Cancelled
    requires forall i :: i in added ==> i.status == s && i.id !in View(c)
    requires forall x :: Holds(d, x) <==> Holds(c, x) || x in added
    ensures View(d) == PlainAddAll(View(c), added)
  {
    var v := PlainAddAll(View(c), added);
    ViewMembers(c);
    PlainAddAllMembers(View(c), added);
    ViewFromMembers(d, v);
  }

  /** The life of the list: local writes, events, batches and loads. */
  datatype LiveOp = Do(op: Op) | Load(status: Status, res: Response)

  function PerformLive(c: ListCache, op: LiveOp): ListCache {
    match op
    case Do(o) => Perform(c, o)
    case Load(s, res) => LoadInto(c, s, res)
  }

  function PlainLive(m: map<Id, Issue>, op: LiveOp): map<Id, Issue> {
    match op
    case Do(o) => PlainPerform(m, o)
    case Load(_, res) => PlainAddAll(m, res.issues)
  }

  function Live(c: ListCache, ops: seq<LiveOp>): ListCache
    decreases |ops|
  {
    if ops == [] then c else Live(PerformLive(c, ops[0]), ops[1..])
  }

  function PlainLiveRun(m: map<Id, Issue>, ops: seq<LiveOp>): map<Id, Issue>
    decreases |ops|
  {
    if ops == [] then m else PlainLiveRun(PlainLive(m, ops[0]), ops[1..])
  }

  /** Nothing arrives that is filed elsewhere: the exact conditions of `AddConsistentIff` and `LoadConsistentIff`. */
  ghost predicate FreshArrivals(c: ListCache, ops: seq<LiveOp>)
    decreases |ops|
  {
    ops != [] ==>
      && (ops[0].Do? && ops[0].op.Create? ==> NoOtherBucket(c, ops[0].op.issue))
      && (ops[0].Load? ==> ops[0].status != Cancelled && LoadOk(c, ops[0].status, ops[0].res))
      && FreshArrivals(PerformLive(c, ops[0]), ops[1..])
  }

  lemma {:induction false} LiveRefines(c: ListCache, ops: seq<LiveOp>)
    requires Consistent(c) && FreshArrivals(c, ops)
    ensures Consistent(Live(c, ops))
    ensures View(Live(c, ops)) == PlainLiveRun(View(c), ops)
    decreases |ops|
  {
    if ops != [] {
      match ops[0] {
        case Do(o) => PerformRefines(c, o);
        case Load(s, res) => LoadRefines(c, s, res);
      }
      LiveRefines(PerformLive(c, ops[0]), ops[1..]);
    }
  }

  // ----- no issue twice in a column -----

  ghost predicate ColumnsDistinct(c: ListCache) {
    forall s :: s in c.byStatus ==> DistinctIds(c.byStatus[s].issues)
  }

  /** The patch moves an issue into a column that holds its id already. */
  ghost predicate Collides(c: ListCache, id: Id, p: Patch) {
    var loc := FindIssueLocation(c, id);
    && loc.Some? && p.status.Some? && p.status.value != loc.value.status
    && id in IdsOf(GetBucket(c, p.status.value).issues)
  }

  /** The unguarded append of a move: a patch keeps the columns free of duplicates exactly if it does not collide. */
  lemma UpdateDistinctIff(c: ListCache, id: Id, p: Patch)
    requires ColumnsDistinct(c)
    ensures ColumnsDistinct(PatchIssueInBuckets(c, id, p)) <==> !Collides(c, id, p)
  {
    var loc := FindIssueLocation(c, id);
    if loc.Some? {
      var i := loc.value.issue;
      var m := Merge(i, p);
      if p.status.Some? && p.status.value != loc.value.status {
        var target := GetBucket(c, p.status.value).issues;
        assert PatchIssueInBuckets(c, id, p).byStatus[p.status.value].issues == target + [m];
        if id in IdsOf(target) {
          var x :| x in target && x.id == id;
          var k :| 0 <= k < |target| && target[k] == x;
          assert (target + [m])[k].id == (target + [m])[|target|].id;
        } else {
          AppendDistinct(target, [m]);
        }
      } else {
        var xs := c.byStatus[loc.value.status].issues;
        assert forall k :: 0 <= k < |xs| ==> Replace(xs, id, m)[k].id == xs[k].id;
      }
    }
  }

  lemma AddKeepsDistinct(c: ListCache, i: Issue)
    requires ColumnsDistinct(c)
    ensures ColumnsDistinct(AddIssueToBuckets(c, i))
  {
    if i.id !in IdsOf(GetBucket(c, i.status).issues) {
      AppendDistinct(GetBucket(c, i.status).issues, [i]);
    }
  }

  lemma RemoveKeepsDistinct(c: ListCache, id: Id)
    requires ColumnsDistinct(c)
    ensures ColumnsDistinct(RemoveIssueFromBuckets(c, id))
  {
  }

  lemma LoadKeepsDistinct(c: ListCache, s: Status, res: Response)
    requires ColumnsDistinct(c) && DistinctIds(res.issues)
    ensures ColumnsDistinct(LoadInto(c, s, res))
  {
    var prev := GetBucket(c, s).issues;
    NotInMembers(res.issues, prev);
    AppendDistinct(prev, NotIn(res.issues, prev));
  }

  /** No patch of the step collides, and answers list no issue twice. Creations and deletions are unrestricted. */
  ghost predicate StepDistinct(c: ListCache, op: LiveOp) {
    match op
    case Load(_, res) => DistinctIds(res.issues)
    case Do(Update(id, p)) => !Collides(c, id, p)
    case Do(BatchUpdate(ids, p)) => forall k :: 0 <= k < |ids| ==> !Collides(PatchAll(c, ids[..k], p), ids[k], p)
    case _ => true
  }

  ghost predicate NoCollisions(c: ListCache, ops: seq<LiveOp>)
    decreases |ops|
  {
    ops != [] ==> StepDistinct(c, ops[0]) && NoCollisions(PerformLive(c, ops[0]), ops[1..])
  }

  lemma {:induction false} BatchUpdateDistinct(c: ListCache, ids: seq<Id>, p: Patch)
    requires ColumnsDistinct(c)
    requires forall k :: 0 <= k < |ids| ==> !Collides(PatchAll(c, ids[..k], p), ids[k], p)
    ensures ColumnsDistinct(PatchAll(c, ids, p))
  {
    if ids != [] {
      var init, last := ids[..|ids| - 1], ids[|ids| - 1];
      forall k | 0 <= k < |init| ensures !Collides(PatchAll(c, init[..k], p), init[k], p) {
        assert init[..k] == ids[..k];
      }
      BatchUpdateDistinct(c, init, p);
      UpdateDistinctIff(PatchAll(c, init, p), last, p);
    }
  }

  lemma {:induction false} BatchDeleteDistinct(c: ListCache, ids: seq<Id>)
    requires ColumnsDistinct(c)
    ensures ColumnsDistinct(RemoveAll(c, ids))
  {
    if ids != [] {
      BatchDeleteDistinct(c, ids[..|ids| - 1]);
      RemoveKeepsDistinct(RemoveAll(c, ids[..|ids| - 1]), ids[|ids| - 1]);
    }
  }

  /**
   * However loads, creations, deletions, edits, moves and batches interleave, fresh or stale, no id is
   * ever listed twice in a column, as long as no move runs into a copy of its issue.
   */
  lemma {:induction false} NoDuplicates(c: ListCache, ops: seq<LiveOp>)
    requires ColumnsDistinct(c) && NoCollisions(c, ops)
    ensures ColumnsDistinct(Live(c, ops))
    decreases |ops|
  {
    if ops != [] {
      match ops[0] {
        case Load(s, res) => LoadKeepsDistinct(c, s, res);
        case Do(Create(i)) => AddKeepsDistinct(c, i);
        case Do(Delete(id)) => RemoveKeepsDistinct(c, id);
        case Do(Update(id, p)) => UpdateDistinctIff(c, id, p);
        case Do(BatchUpdate(ids, p)) => BatchUpdateDistinct(c, ids, p);
        case Do(BatchDelete(ids)) => BatchDeleteDistinct(c, ids);
      }
      NoDuplicates(PerformLive(c, ops[0]), ops[1..]);
    }
  }

  /** The board with `x` in the first column and `done` in the other, which the server counts as one issue. */
  function Board(x: Issue, done: seq<Issue>): ListCache {
    ListCache(map[Todo := Bucket([x], 1), Done := Bucket(done, 1)])
  }

  /**
   * A collision without any stale event: "load more" reads the server after an issue has moved, while the
   * event of the move is still queued. The answer files the issue a second time ...
   */
  lemma LoadFilesTwice(x: Issue, y: Issue)
    requires x.status == Todo && y.id == x.id
    ensures Consistent(Board(x, [])) && !LoadOk(Board(x, []), Done, Response([y], 1))
    ensures LoadInto(Board(x, []), Done, Response([y], 1)) == Board(x, [y]) && !Consistent(Board(x, [y]))
  {
    assert NotIn([y], []) == [y] && [] + [y] == [y];
    BoardConsistent(x);
    assert x in [x] && y in [y] && y in NotIn([y], []);
    assert x.id in IdsOf(Board(x, []).byStatus[Todo].issues);
    LoadConsistentIff(Board(x, []), Done, Response([y], 1));
  }

  lemma BoardConsistent(x: Issue)
    requires x.status == Todo
    ensures Consistent(Board(x, []))
  {
    assert IdsOf([]) == {};
  }

  /** ... and the event then lists it twice in one column. */
  lemma LoadThenMoveDuplicates(x: Issue, p: Patch)
    requires x.status == Todo && Merge(x, p).status == Done
    ensures var answered := LoadInto(Board(x, []), Done, Response([Merge(x, p)], 1));
      && Collides(answered, x.id, p)
      && GetBucket(PatchIssueInBuckets(answered, x.id, p), Done).issues == [Merge(x, p), Merge(x, p)]
  {
    var y := Merge(x, p);
    LoadFilesTwice(x, y);
    BucketLaws.FoundInTodo(Board(x, [y]), x);
    assert y in [y] && y.id in IdsOf([y]);
    assert [y] + [y] == [y, y];
  }

  lemma AppendDistinct(xs: seq<Issue>, ys: seq<Issue>)
    requires DistinctIds(xs) && DistinctIds(ys)
    requires forall y :: y in ys ==> y.id !in IdsOf(xs)
    ensures DistinctIds(xs + ys)
  {
    forall i, j | 0 <= i < |xs| && 0 <= j < |ys| ensures xs[i].id != ys[j].id {
      assert xs[i] in xs && ys[j] in ys;
    }
  }
}
