/**
 * The shared query cache of one workspace as keyed optional values with an invalid flag.
 * `resetsOnWrite` says whether a manual write clears the invalid flag of an existing entry.
 */
module QueryCache {
  import opened Prelude
  import opened Issues
  import opened BucketCache

  datatype Entry<T> = Entry(data: T, invalid: bool)

  type Keyed<T> = map<string, Entry<T>>

  datatype TimelineEntry = TimelineEntry(id: Id, parent: Option<Id>, content: string)

  /** Workspace data outside the issue subtree that a reconnect marks for refetch. */
  datatype Collection = Inbox | Agents | Members | Skills | Projects | Runtimes | Autopilots | WorkspaceList

  datatype Cache = Cache(
    list: Option<Entry<ListCache>>,
    my: Keyed<ListCache>,
    detail: Keyed<Issue>,
    children: Keyed<seq<Issue>>,
    progress: Option<Entry<map<Id, (nat, nat)>>>,
    timeline: Keyed<seq<TimelineEntry>>,
    reactions: Keyed<seq<string>>,
    subscribers: Keyed<seq<string>>,
    collections: map<Collection, bool>,     // the cached ones, with their invalid flag
    resetsOnWrite: bool)

  // ----- the query client's primitives, on one kind of key -----

  function Write<T>(before: Entry<T>, data: T, resets: bool): Entry<T> {
    Entry(data, before.invalid && !resets)
  }

  /** `setQueryData(key, data)` */
  function SetIn<T>(m: Keyed<T>, k: string, data: T, resets: bool): Keyed<T> {
    m[k := if k in m then Write(m[k], data, resets) else Entry(data, false)]
  }

  function SetOpt<T>(o: Option<Entry<T>>, data: T, resets: bool): Option<Entry<T>> {
    Some(if o.Some? then Write(o.value, data, resets) else Entry(data, false))
  }

  /** `invalidateQueries({ queryKey: key })` */
  function Mark<T>(m: Keyed<T>, k: string): Keyed<T> {
    if k in m then m[k := Entry(m[k].data, true)] else m
  }

  function MarkAll<T>(m: Keyed<T>): Keyed<T> {
    map k | k in m :: Entry(m[k].data, true)
  }

  /** `invalidateQueries` on whole collections */
  function MarkCollections(m: map<Collection, bool>, which: set<Collection>): map<Collection, bool> {
    map k | k in m :: m[k] || k in which
  }

  function MarkOpt<T>(o: Option<Entry<T>>): Option<Entry<T>> {
    if o.Some? then Some(Entry(o.value.data, true)) else None
  }

  // ----- the updaters shared by events and mutations: an absent entry stays absent -----

  function PatchList(list: Option<Entry<ListCache>>, id: Id, p: Patch, resets: bool): Option<Entry<ListCache>> {
    if list.None? then None else SetOpt(list, PatchIssueInBuckets(list.value.data, id, p), resets)
  }

  function AddToList(list: Option<Entry<ListCache>>, issue: Issue, resets: bool): Option<Entry<ListCache>> {
    if list.None? then None else SetOpt(list, AddIssueToBuckets(list.value.data, issue), resets)
  }

  function RemoveFromList(list: Option<Entry<ListCache>>, id: Id, resets: bool): Option<Entry<ListCache>> {
    if list.None? then None else SetOpt(list, RemoveIssueFromBuckets(list.value.data, id), resets)
  }

  function PatchDetail(detail: Keyed<Issue>, id: Id, p: Patch, resets: bool): Keyed<Issue> {
    if id !in detail then detail else SetIn(detail, id, Merge(detail[id].data, p), resets)
  }

  /** `rows.map((c) => (c.id === id ? { ...c, ...patch } : c))` */
  function PatchRows(rows: seq<Issue>, id: Id, p: Patch): (r: seq<Issue>)
    ensures |r| == |rows|
    ensures forall k :: 0 <= k < |rows| ==> r[k] == if rows[k].id == id then Merge(rows[k], p) else rows[k]
  {
    seq(|rows|, k requires 0 <= k < |rows| => if rows[k].id == id then Merge(rows[k], p) else rows[k])
  }

  function PatchChildren(children: Keyed<seq<Issue>>, parent: Id, id: Id, p: Patch, resets: bool): Keyed<seq<Issue>> {
    if parent !in children then children
    else SetIn(children, parent, PatchRows(children[parent].data, id, p), resets)
  }

  /** The listed issue's parent, if the list is cached and shows the issue. */
  function ListedParent(list: Option<Entry<ListCache>>, id: Id): Option<Id> {
    if list.None? then None
    else
      var loc := FindIssueLocation(list.value.data, id);
      if loc.Some? then loc.value.issue.parent else None
  }

  /** `detail?.parent ?? listed parent ?? null` */
  function ParentOf(c: Cache, id: Id): Option<Id> {
    OrElse(if id in c.detail then c.detail[id].data.parent else None, ListedParent(c.list, id))
  }

  /** What the entries of one kind hold, leaving the invalid flags aside. */
  function DataOf<T>(m: Keyed<T>): map<string, T> {
    map k | k in m :: m[k].data
  }

  function DataOpt<T>(o: Option<Entry<T>>): Option<T> {
    if o.Some? then Some(o.value.data) else None
  }

  // ----- comparing two caches -----

  /** Entry `k` holds the same data, and is marked for refetch if it was or if `marked`. */
  ghost predicate MarkedIff<T>(before: Keyed<T>, after: Keyed<T>, k: string, marked: bool) {
    && (k in after <==> k in before)
    && (k in before ==> after[k] == Entry(before[k].data, before[k].invalid || marked))
  }

  ghost predicate MarkedOptIff<T>(before: Option<Entry<T>>, after: Option<Entry<T>>, marked: bool) {
    && (after.Some? <==> before.Some?)
    && (before.Some? ==> after.value == Entry(before.value.data, before.value.invalid || marked))
  }

  /** Entry `k` is gone if it is the one of `id`, and otherwise as before. */
  ghost predicate LacksOnly<T>(before: Keyed<T>, after: Keyed<T>, id: Id, k: string) {
    && (k in after <==> k in before && k != id)
    && (k in after ==> after[k] == before[k])
  }

  /** The application's one query client. */
  class QueryClient {
    var list: Option<Entry<ListCache>>
    var my: Keyed<ListCache>
    var detail: Keyed<Issue>
    var children: Keyed<seq<Issue>>
    var progress: Option<Entry<map<Id, (nat, nat)>>>
    var timeline: Keyed<seq<TimelineEntry>>
    var reactions: Keyed<seq<string>>
    var subscribers: Keyed<seq<string>>
    var collections: map<Collection, bool>
    const resetsOnWrite: bool

    constructor (c: Cache)
      ensures Value() == c
    {
      list, my, detail, children := c.list, c.my, c.detail, c.children;
      progress, timeline, reactions, subscribers := c.progress, c.timeline, c.reactions, c.subscribers;
      collections, resetsOnWrite := c.collections, c.resetsOnWrite;
    }

    function Value(): Cache
      reads this
    {
      Cache(list, my, detail, children, progress, timeline, reactions, subscribers, collections, resetsOnWrite)
    }
  }
}
