/**
 * The inbox shows one entry per issue, and archives optimistically (packages/core/inbox/queries.ts,
 * packages/core/inbox/mutations.ts). `created` is the item's creation time as a number.
 */
module Inbox {
  import opened Prelude
  import opened Sorting
  import opened Filtering
  import opened Grouping

  datatype Item = Item(id: string, issueId: Option<string>, created: int, read: bool, archived: bool, title: string)

  /** `item.issue_id ?? item.id` */
  function GroupKey(i: Item): string {
    if i.issueId.Some? then i.issueId.value else i.id
  }

  function ByGroup(): Item -> string {
    (i: Item) => GroupKey(i)
  }

  function NewestFirst(): Item -> int {
    (i: Item) => -i.created
  }

  function NotArchived(): Item -> bool {
    (i: Item) => !i.archived
  }

  function InGroup(k: string): Item -> bool {
    (i: Item) => GroupKey(i) == k
  }

  function OutsideGroup(k: string): Item -> bool {
    (i: Item) => GroupKey(i) != k
  }

  function Active(items: seq<Item>): seq<Item> {
    Filter(items, NotArchived())
  }

  /** The items of group `k`, in order. */
  function Group(items: seq<Item>, k: string): seq<Item> {
    Filter(items, InGroup(k))
  }

  function WithoutGroup(items: seq<Item>, k: string): seq<Item> {
    Filter(items, OutsideGroup(k))
  }

  function KeysOf(items: seq<Item>): seq<string> {
    KeysBy(items, ByGroup())
  }

  // ----- the specification -----

  ghost predicate HasGroup(items: seq<Item>, k: string) {
    HasKey(items, ByGroup(), k)
  }

  /** The representative of a group: the newest item, the earlier in the list among equally new ones. */
  function Newest(items: seq<Item>, k: string): Option<Item> {
    var group := Group(items, k);
    if group == [] then None else Some(FirstLeast(group, NewestFirst()))
  }

  /** One representative per key, in the order of `ks`. */
  function Representatives(items: seq<Item>, ks: seq<string>): seq<Item> {
    if ks == [] then []
    else
      var last := Newest(items, ks[|ks| - 1]);
      Representatives(items, ks[..|ks| - 1]) + if last.Some? then [last.value] else []
  }

  function Merged(active: seq<Item>): seq<Item> {
    Representatives(active, KeysOf(active))
  }

  function Deduplicated(items: seq<Item>): seq<Item> {
    SortBy(Merged(Active(items)), NewestFirst())
  }

  lemma {:induction false} FirstLeastIsNewest(xs: seq<Item>)
    requires xs != []
    ensures FirstLeast(xs, NewestFirst()) in xs
    ensures forall x :: x in xs ==> x.created <= FirstLeast(xs, NewestFirst()).created
  {
    if |xs| > 1 {
      FirstLeastIsNewest(xs[1..]);
      assert xs == [xs[0]] + xs[1..];
    }
  }

  lemma NewestExact(items: seq<Item>, k: string)
    ensures Newest(items, k).Some? <==> HasGroup(items, k)
    ensures Newest(items, k).Some? ==>
      var x := Newest(items, k).value;
      && x in items && GroupKey(x) == k
      && forall i :: i in items && GroupKey(i) == k ==> i.created <= x.created
  {
    var group := Group(items, k);
    forall i ensures i in group <==> i in items && GroupKey(i) == k { FilterMember(items, InGroup(k), i); }
    if group != [] {
      assert group[0] in group;
      FirstLeastIsNewest(group);
    }
  }

  // ----- the implementation -----

  method GroupItems(active: seq<Item>) returns (order: seq<string>, groups: map<string, seq<Item>>)
    ensures order == KeysOf(active)
    ensures forall k :: k in groups <==> k in order
    ensures forall k :: k in groups ==> groups[k] == Group(active, k)
  {
    order, groups := [], map[];
    for n := 0 to |active|
      invariant order == KeysOf(active[..n])
      invariant forall k :: k in groups <==> k in order
      invariant forall k :: k in groups ==> groups[k] == Group(active[..n], k)
    {
      var item := active[n];
      var key := GroupKey(item);
      assert active[..n + 1] == active[..n] + [item];
      forall k { FilterPush(active[..n], InGroup(k), item); }
      if key in groups {
        groups := groups[key := groups[key] + [item]];
      } else {
        EmptyGroup(active[..n], key);
        groups := groups[key := [item]];
        order := order + [key];
      }
    }
    assert active[..|active|] == active;
  }

  lemma EmptyGroup(items: seq<Item>, k: string)
    requires k !in KeysOf(items)
    ensures Group(items, k) == []
  {
    KeysExact(items, ByGroup(), k);
    FilterNone(items, InGroup(k));
  }

  /** The head of each sorted group, group by group. */
  method MergeGroups(ghost active: seq<Item>, order: seq<string>, groups: map<string, seq<Item>>)
    returns (merged: seq<Item>)
    requires forall k :: k in order ==> k in groups && groups[k] == Group(active, k)
    ensures merged == Representatives(active, order)
  {
    merged := [];
    for j := 0 to |order|
      invariant merged == Representatives(active, order[..j])
    {
      var group := SortBy(groups[order[j]], NewestFirst());
      SortHeadOf(groups[order[j]]);
      assert order[..j + 1][..j] == order[..j];
      if group != [] {
        merged := merged + [group[0]];
      }
    }
    assert order[..|order|] == order;
  }

  lemma SortHeadOf(group: seq<Item>)
    ensures SortBy(group, NewestFirst()) == [] <==> group == []
    ensures group != [] ==> SortBy(group, NewestFirst())[0] == FirstLeast(group, NewestFirst())
  {
    if group != [] { SortHead(group, NewestFirst()); }
  }

  method DeduplicateInboxItems(items: seq<Item>) returns (r: seq<Item>)
    ensures r == Deduplicated(items)
  {
    var active := Active(items);
    var order, groups := GroupItems(active);
    var merged := MergeGroups(active, order, groups);
    r := SortBy(merged, NewestFirst());
  }

  // ----- what the user sees -----

  function KeysOfRow(rows: seq<Item>): (ks: seq<string>)
    ensures |ks| == |rows| && forall j :: 0 <= j < |rows| ==> ks[j] == GroupKey(rows[j])
  {
    seq(|rows|, j requires 0 <= j < |rows| => GroupKey(rows[j]))
  }

  lemma {:induction false} RepresentativesExact(items: seq<Item>, ks: seq<string>)
    requires forall k :: k in ks ==> HasGroup(items, k)
    ensures KeysOfRow(Representatives(items, ks)) == ks
    ensures forall j :: 0 <= j < |ks| ==> |Representatives(items, ks)| == |ks|
                                          && Newest(items, ks[j]) == Some(Representatives(items, ks)[j])
  {
    if ks != [] {
      var n := |ks| - 1;
      assert ks == ks[..n] + [ks[n]];
      RepresentativesExact(items, ks[..n]);
      NewestExact(items, ks[n]);
    }
  }

  lemma MergedExact(active: seq<Item>)
    ensures KeysOfRow(Merged(active)) == KeysOf(active)
    ensures forall x :: x in Merged(active) <==> Newest(active, GroupKey(x)) == Some(x)
  {
    var ks, m := KeysOf(active), Merged(active);
    forall k { KeysExact(active, ByGroup(), k); }
    RepresentativesExact(active, ks);
    forall x ensures x in m <==> Newest(active, GroupKey(x)) == Some(x) {
      if x in m {
        var j :| 0 <= j < |m| && m[j] == x;
        assert KeysOfRow(m)[j] == ks[j];
      }
      if Newest(active, GroupKey(x)) == Some(x) {
        NewestExact(active, GroupKey(x));
        assert GroupKey(x) in ks;
        var j :| 0 <= j < |ks| && ks[j] == GroupKey(x);
        assert Some(m[j]) == Some(x);
      }
    }
  }

  /**
   * The deduplicated inbox: newest first, no group twice, and exactly the newest unarchived item of
   * every group that has one.
   */
  lemma DeduplicatedExact(items: seq<Item>)
    ensures var r := Deduplicated(items);
      && SortedBy(r, NewestFirst()) && DistinctBy(r, ByGroup())
      && forall x :: x in r <==> Newest(Active(items), GroupKey(x)) == Some(x)
  {
    var m := Merged(Active(items));
    MergedExact(Active(items));
    KeysDistinct(Active(items), ByGroup());
    SortSorts(m, NewestFirst());
    SortPermutes(m, NewestFirst());
    forall a, b | 0 <= a < b < |m| ensures ByGroup()(m[a]) != ByGroup()(m[b]) {
      assert KeysOfRow(m)[a] != KeysOfRow(m)[b];
    }
    DistinctByPermuted(m, Deduplicated(items), ByGroup());
  }

  // ----- idempotence -----

  lemma {:induction false} DistinctGroups(xs: seq<Item>)
    requires DistinctBy(xs, ByGroup())
    ensures KeysOf(xs) == KeysOfRow(xs)
  {
    if xs != [] {
      var n := |xs| - 1;
      DistinctGroups(xs[..n]);
      assert KeysOfRow(xs[..n]) == KeysOfRow(xs)[..n];
      forall j | 0 <= j < n ensures KeysOfRow(xs)[j] != GroupKey(xs[n]) {
        assert ByGroup()(xs[j]) != ByGroup()(xs[n]);
      }
    }
  }

  lemma SingletonGroup(xs: seq<Item>, x: Item)
    requires DistinctBy(xs, ByGroup()) && x in xs
    ensures Newest(xs, GroupKey(x)) == Some(x)
  {
    NewestExact(xs, GroupKey(x));
    DistinctByMembers(xs, ByGroup(), x, Newest(xs, GroupKey(x)).value);
  }

  lemma DeduplicationIdempotent(items: seq<Item>)
    ensures Deduplicated(Deduplicated(items)) == Deduplicated(items)
  {
    var r := Deduplicated(items);
    DeduplicatedExact(items);
    forall x | x in r ensures !x.archived {
      NewestExact(Active(items), GroupKey(x));
      FilterMember(items, NotArchived(), x);
    }
    FilterAll(r, NotArchived());
    DistinctGroups(r);
    forall k | k in KeysOf(r) ensures HasGroup(r, k) { KeysExact(r, ByGroup(), k); }
    RepresentativesExact(r, KeysOf(r));
    forall j | 0 <= j < |r| ensures Merged(r)[j] == r[j] {
      SingletonGroup(r, r[j]);
      assert KeysOf(r)[j] == GroupKey(r[j]);
    }
    assert |Merged(r)| == |KeysOfRow(Merged(r))| == |r|;
    assert Merged(r) == r;
    SortIdentity(r, NewestFirst());
  }

  // ----- the optimistic archive -----

  function Find(items: seq<Item>, id: string): (r: Option<Item>)
    ensures r.Some? ==> r.value in items && r.value.id == id
    ensures r.None? ==> forall i :: i in items ==> i.id != id
  {
    if items == [] then None
    else if items[0].id == id then Some(items[0])
    else
      assert items == [items[0]] + items[1..];
      Find(items[1..], id)
  }

  /** Whether archiving `id` also archives `i`: the item itself, or one of the same issue. */
  predicate Hit(id: string, target: Option<Item>, i: Item) {
    i.id == id || (target.Some? && Truthy(target.value.issueId) && i.issueId == target.value.issueId)
  }

  function ArchiveHits(items: seq<Item>, id: string, target: Option<Item>): seq<Item> {
    if items == [] then []
    else
      [if Hit(id, target, items[0]) then items[0].(archived := true) else items[0]]
      + ArchiveHits(items[1..], id, target)
  }

  function Archived(items: seq<Item>, id: string): seq<Item> {
    ArchiveHits(items, id, Find(items, id))
  }

  class InboxCache {
    var list: Option<seq<Item>>

    constructor (list: Option<seq<Item>>)
      ensures this.list == list
    {
      this.list := list;
    }

    method ArchiveOnMutate(id: string) returns (prev: Option<seq<Item>>)
      modifies this
      ensures prev == old(list)
      ensures list == if old(list).None? then None else Some(Archived(old(list).value, id))
    {
      prev := list;
      if list.Some? {
        var target := Find(list.value, id);
        list := Some(ArchiveHits(list.value, id, target));
      }
    }

    /** `onInboxIssueDeleted` */
    method OnIssueDeleted(issueId: string)
      modifies this
      ensures list == if old(list).None? then None else Some(IssueGone(old(list).value, issueId))
    {
      if list.Some? {
        list := Some(Filter(list.value, NotOfIssue(issueId)));
      }
    }

    method ArchiveOnError(prev: Option<seq<Item>>)
      modifies this
      ensures list == if prev.Some? then prev else old(list)
    {
      if prev.Some? {
        list := prev;
      }
    }
  }

  ghost predicate UniqueIds(items: seq<Item>) {
    forall i, j :: i in items && j in items && i.id == j.id ==> i == j
  }

  lemma {:induction false} ActiveAfterArchive(items: seq<Item>, id: string, target: Option<Item>, k: string)
    requires forall i :: i in items && !i.archived ==> (Hit(id, target, i) <==> GroupKey(i) == k)
    ensures Active(ArchiveHits(items, id, target)) == WithoutGroup(Active(items), k)
  {
    if items != [] {
      var first, rest := items[0], items[1..];
      assert items == [first] + rest;
      ActiveAfterArchive(rest, id, target, k);
      var after := ArchiveHits(items, id, target);
      assert after[1..] == ArchiveHits(rest, id, target);
      var a := Active(rest);
      assert ([first] + a)[0] == first && ([first] + a)[1..] == a;
      assert [] + a == a;
    }
  }

  /** Other groups keep their representative when group `k` goes. */
  lemma NewestOfOthers(xs: seq<Item>, j: string, k: string)
    requires j != k
    ensures Newest(WithoutGroup(xs, k), j) == Newest(xs, j)
  {
    FilterTwice(xs, OutsideGroup(k), InGroup(j));
  }

  function Differs(k: string): string -> bool {
    (j: string) => j != k
  }

  lemma {:induction false} KeysOfOthers(xs: seq<Item>, k: string)
    ensures KeysOf(WithoutGroup(xs, k)) == Filter(KeysOf(xs), Differs(k))
  {
    if xs != [] {
      var n := |xs| - 1;
      var init, last := xs[..n], xs[n];
      assert xs == init + [last];
      KeysOfOthers(init, k);
      FilterPush(init, OutsideGroup(k), last);
      FilterPush(KeysOf(init), Differs(k), GroupKey(last));
      FilterMember(KeysOf(init), Differs(k), GroupKey(last));
      var rest, ks := WithoutGroup(init, k), Filter(KeysOf(init), Differs(k));
      assert (rest + [last])[..|rest|] == rest;
      assert rest + [] == rest && ks + [] == ks;
    }
  }

  /** Dropping a group from the active items drops its representative, and only that, from the merge. */
  lemma {:induction false} RepresentativesOfOthers(xs: seq<Item>, ks: seq<string>, k: string)
    ensures Representatives(WithoutGroup(xs, k), Filter(ks, Differs(k))) == WithoutGroup(Representatives(xs, ks), k)
  {
    if ks != [] {
      var n := |ks| - 1;
      var init, last := ks[..n], ks[n];
      assert ks == init + [last];
      RepresentativesOfOthers(xs, init, k);
      FilterPush(init, Differs(k), last);
      NewestExact(xs, last);
      var x := Newest(xs, last);
      if x.Some? { FilterPush(Representatives(xs, init), OutsideGroup(k), x.value); }
      var rs := WithoutGroup(Representatives(xs, init), k);
      assert rs + [] == rs && Representatives(xs, init) + [] == Representatives(xs, init);
      if last == k {
        assert Filter(init, Differs(k)) + [] == Filter(init, Differs(k));
      } else {
        NewestOfOthers(xs, last, k);
        var fs := Filter(init, Differs(k));
        assert (fs + [last])[..|fs|] == fs;
      }
    }
  }

  lemma DroppedGroup(active: seq<Item>, k: string)
    ensures SortBy(Merged(WithoutGroup(active, k)), NewestFirst())
            == WithoutGroup(SortBy(Merged(active), NewestFirst()), k)
  {
    KeysOfOthers(active, k);
    RepresentativesOfOthers(active, KeysOf(active), k);
    FilterSort(Merged(active), NewestFirst(), OutsideGroup(k));
  }

  /**
   * Archiving an item takes exactly its group's entry off the list the user sees, if and only if every
   * active item of the group is the item itself or shares its issue. It fails only for an item whose
   * issue id is the empty string, or when some item without an issue has the issue's id as its own.
   */
  lemma ArchiveRemovesGroup(items: seq<Item>, id: string)
    requires UniqueIds(items) && Find(items, id).Some?
    ensures var target := Find(items, id); var k := GroupKey(target.value);
      Deduplicated(Archived(items, id)) == WithoutGroup(Deduplicated(items), k)
      <==> forall i :: i in items && !i.archived && GroupKey(i) == k ==> Hit(id, target, i)
  {
    var target := Find(items, id);
    var k := GroupKey(target.value);
    if forall i :: i in items && !i.archived && GroupKey(i) == k ==> Hit(id, target, i) {
      forall i | i in items && Hit(id, target, i) ensures GroupKey(i) == k {
        if i.id == id { assert i == target.value; }
      }
      ActiveAfterArchive(items, id, target, k);
      DroppedGroup(Active(items), k);
    } else {
      var i :| i in items && !i.archived && GroupKey(i) == k && !Hit(id, target, i);
      SurvivorShown(items, id, target, i);
    }
  }

  lemma {:induction false} NotHitKept(items: seq<Item>, id: string, target: Option<Item>, i: Item)
    requires i in items && !Hit(id, target, i)
    ensures i in ArchiveHits(items, id, target)
  {
    assert items == [items[0]] + items[1..];
    if i != items[0] { NotHitKept(items[1..], id, target, i); }
  }

  /** An active item that is not hit keeps its group on the list. */
  lemma SurvivorShown(items: seq<Item>, id: string, target: Option<Item>, i: Item)
    requires i in items && !i.archived && !Hit(id, target, i)
    ensures Deduplicated(ArchiveHits(items, id, target)) != WithoutGroup(Deduplicated(items), GroupKey(i))
  {
    NotHitKept(items, id, target, i);
    KeptShown(ArchiveHits(items, id, target), items, i);
  }

  /** In the common case the condition is plain: the item has an issue, and issue and item ids differ. */
  lemma ArchiveOrdinary(items: seq<Item>, id: string)
    requires UniqueIds(items) && Find(items, id).Some?
    requires Find(items, id).value.issueId != Some("")
    requires forall i, j :: i in items && j in items && i.issueId == None ==> j.issueId != Some(i.id)
    ensures Deduplicated(Archived(items, id)) == WithoutGroup(Deduplicated(items), GroupKey(Find(items, id).value))
  {
    var target := Find(items, id);
    forall i | i in items && GroupKey(i) == GroupKey(target.value) ensures Hit(id, target, i) {
      assert i.issueId.None? ==> target.value.issueId != Some(i.id);
      assert target.value.issueId.None? ==> i.issueId != Some(target.value.id);
    }
    ArchiveRemovesGroup(items, id);
  }

  // ----- the issue is deleted -----

  function NotOfIssue(k: string): Item -> bool {
    (i: Item) => i.issueId != Some(k)
  }

  /** `old.filter((i) => i.issue_id !== issueId)` */
  function IssueGone(items: seq<Item>, k: string): seq<Item> {
    Filter(items, NotOfIssue(k))
  }

  lemma {:induction false} ActiveAfterDeletion(items: seq<Item>, k: string)
    requires forall i :: i in items && !i.archived && GroupKey(i) == k ==> i.issueId == Some(k)
    ensures Active(IssueGone(items, k)) == WithoutGroup(Active(items), k)
  {
    if items != [] {
      var first, rest := items[0], items[1..];
      assert items == [first] + rest;
      ActiveAfterDeletion(rest, k);
      var a, b := Active(rest), IssueGone(rest, k);
      assert ([first] + a)[0] == first && ([first] + a)[1..] == a && [] + a == a;
      assert ([first] + b)[0] == first && ([first] + b)[1..] == b && [] + b == b;
      assert [] + Active(b) == Active(b) && [] + WithoutGroup(a, k) == WithoutGroup(a, k);
    }
  }

  /**
   * The deletion of an issue takes exactly its group's entry off the list the user sees, if and only if no
   * active item without an issue has the issue's id as its own.
   */
  lemma DeletionRemovesGroup(items: seq<Item>, k: string)
    ensures Deduplicated(IssueGone(items, k)) == WithoutGroup(Deduplicated(items), k)
            <==> forall i :: i in items && !i.archived && i.id == k ==> i.issueId.Some?
  {
    if forall i :: i in items && !i.archived && i.id == k ==> i.issueId.Some? {
      ActiveAfterDeletion(items, k);
      DroppedGroup(Active(items), k);
    } else {
      var i :| i in items && !i.archived && i.id == k && i.issueId.None?;
      FilterMember(items, NotOfIssue(k), i);
      KeptShown(IssueGone(items, k), items, i);
    }
  }

  /** An active item that is kept keeps its group on the list. */
  lemma KeptShown(after: seq<Item>, items: seq<Item>, i: Item)
    requires i in after && !i.archived
    ensures Deduplicated(after) != WithoutGroup(Deduplicated(items), GroupKey(i))
  {
    var k := GroupKey(i);
    FilterMember(after, NotArchived(), i);
    NewestExact(Active(after), k);
    assert HasGroup(Active(after), k);
    DeduplicatedExact(after);
    var x := Newest(Active(after), k).value;
    assert x in Deduplicated(after);
    FilterMember(Deduplicated(items), OutsideGroup(k), x);
  }

  // ----- inputs for which archiving leaves the group -----

  /** Two items with an empty issue id are one group, but archiving one leaves the other. */
  lemma EmptyIssueIdStays()
    ensures var a, b := Item("a", Some(""), 1, false, false, ""), Item("b", Some(""), 2, false, false, "");
      && GroupKey(a) == GroupKey(b)
      && Deduplicated(Archived([a, b], "a")) != WithoutGroup(Deduplicated([a, b]), "")
  {
    var a, b := Item("a", Some(""), 1, false, false, ""), Item("b", Some(""), 2, false, false, "");
    assert Find([a, b], "a") == Some(a);
    assert b in [a, b] && !Hit("a", Some(a), b);
    ArchiveRemovesGroup([a, b], "a");
  }

  /** An item without an issue whose own id is the other's issue id: the same. */
  lemma IssueIdAsItemIdStays()
    ensures var a, b := Item("a", Some("b"), 1, false, false, ""), Item("b", None, 2, false, false, "");
      && GroupKey(a) == GroupKey(b)
      && Deduplicated(Archived([a, b], "a")) != WithoutGroup(Deduplicated([a, b]), "b")
  {
    var a, b := Item("a", Some("b"), 1, false, false, ""), Item("b", None, 2, false, false, "");
    assert Find([a, b], "a") == Some(a);
    assert b in [a, b] && !Hit("a", Some(a), b);
    ArchiveRemovesGroup([a, b], "a");
  }

  // ----- by values -----

  /** The same issue, or the same item where there is no issue. */
  predicate SameEntry(a: Item, b: Item) {
    (if a.issueId.Some? then a.issueId.value else a.id) == (if b.issueId.Some? then b.issueId.value else b.id)
  }

  /**
   * The deduplicated inbox in full: the newest comes first; every entry is an unarchived item that no other
   * of the same issue is newer than; no issue has two entries, and each with an unarchived item has one.
   */
  lemma InboxInFull(items: seq<Item>)
    ensures var r := Deduplicated(items);
      && (forall i, j :: 0 <= i < j < |r| ==> r[i].created >= r[j].created && !SameEntry(r[i], r[j]))
      && (forall x :: x in r ==> x in items && !x.archived)
      && (forall x, y :: x in r && y in items && !y.archived && SameEntry(x, y) ==> y.created <= x.created)
      && (forall y :: y in items && !y.archived ==> exists x :: x in r && SameEntry(x, y))
  {
    var r := Deduplicated(items);
    DeduplicatedExact(items);
    assert forall i, j :: 0 <= i < j < |r| ==> NewestFirst()(r[i]) <= NewestFirst()(r[j]);
    assert forall i, j :: 0 <= i < j < |r| ==> ByGroup()(r[i]) != ByGroup()(r[j]);
    forall x | x in r ensures x in items && !x.archived && NewestOfEntry(items, x) {
      NewestExact(Active(items), GroupKey(x));
      FilterMember(items, NotArchived(), x);
      forall y | y in items && !y.archived && SameEntry(x, y) ensures y.created <= x.created {
        FilterMember(items, NotArchived(), y);
      }
    }
    forall y | y in items && !y.archived ensures exists x :: x in r && SameEntry(x, y) {
      FilterMember(items, NotArchived(), y);
      NewestExact(Active(items), GroupKey(y));
      assert HasGroup(Active(items), GroupKey(y));
      assert Newest(Active(items), GroupKey(y)).value in r;
    }
  }

  ghost predicate NewestOfEntry(items: seq<Item>, x: Item) {
    forall y :: y in items && !y.archived && SameEntry(x, y) ==> y.created <= x.created
  }

  /** Archiving, item by item: the item itself and the items of its issue are archived, and nothing else changes. */
  lemma {:induction false} ArchiveInFull(items: seq<Item>, id: string, target: Option<Item>)
    ensures |ArchiveHits(items, id, target)| == |items|
    ensures forall k :: 0 <= k < |items| ==>
      ArchiveHits(items, id, target)[k] ==
        if items[k].id == id || (target.Some? && target.value.issueId.Some? && target.value.issueId.value != ""
                                 && items[k].issueId == Some(target.value.issueId.value))
        then Item(items[k].id, items[k].issueId, items[k].created, items[k].read, true, items[k].title)
        else items[k]
  {
    if items != [] {
      ArchiveInFull(items[1..], id, target);
      var rest := ArchiveHits(items[1..], id, target);
      assert forall k :: 1 <= k < |items| ==> items[k] == items[1..][k - 1] && ArchiveHits(items, id, target)[k] == rest[k - 1];
    }
  }
}
