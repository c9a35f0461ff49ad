/**
 * Cached issue details against the server's issues: what the events still under way will make of a
 * cached copy, and the facts about that every protocol step preserves.
 */
module Replication {
  import opened Prelude
  import opened Issues
  import opened QueryCache
  import opened WsClient

  // ----- draining the channel into one copy -----

  function Effect(m: Msg, id: Id, copy: Option<Issue>): Option<Issue> {
    match m
    case IssueUpdated(k, p) => if k == id && copy.Some? then Some(Merge(copy.value, p)) else copy
    case IssueDeleted(k) => if k == id then None else copy
    case _ => copy
  }

  /** The copy after all queued events have been applied, in order. */
  function Drain(q: seq<Msg>, id: Id, copy: Option<Issue>): Option<Issue> {
    if q == [] then copy else Drain(q[1..], id, Effect(q[0], id, copy))
  }

  /** All queued updates of `id` as one patch. */
  function Pending(q: seq<Msg>, id: Id): Patch {
    if q == [] then Patch(None, None, map[])
    else if q[0].IssueUpdated? && q[0].id == id then Then(q[0].patch, Pending(q[1..], id))
    else Pending(q[1..], id)
  }

  ghost predicate DeletionQueued(q: seq<Msg>, id: Id) {
    IssueDeleted(id) in q
  }

  /** A queue acts on a copy as one merge, or as a removal. */
  lemma {:induction false} DrainForm(q: seq<Msg>, id: Id, x: Issue)
    ensures Drain(q, id, None) == None
    ensures Drain(q, id, Some(x)) == if DeletionQueued(q, id) then None else Some(Merge(x, Pending(q, id)))
  {
    if q == [] {
      assert x.data + map[] == x.data;
    } else {
      assert q == [q[0]] + q[1..];
      DrainForm(q[1..], id, x);
      if q[0].IssueUpdated? && q[0].id == id {
        DrainForm(q[1..], id, Merge(x, q[0].patch));
        MergeThen(x, q[0].patch, Pending(q[1..], id));
      }
    }
  }

  lemma {:induction false} DrainAppend(q: seq<Msg>, m: Msg, id: Id, copy: Option<Issue>)
    ensures Drain(q + [m], id, copy) == Effect(m, id, Drain(q, id, copy))
  {
    if q == [] {
      assert q + [m] == [m];
    } else {
      assert (q + [m])[0] == q[0] && (q + [m])[1..] == q[1..] + [m];
      DrainAppend(q[1..], m, id, Effect(q[0], id, copy));
    }
  }

  // ----- the relations between server, channel and cached details -----

  function Copy(server: map<Id, Issue>, id: Id): Option<Issue> {
    if id in server then Some(server[id]) else None
  }

  ghost predicate Fresh(detail: Keyed<Issue>, id: Id) {
    id in detail && !detail[id].invalid
  }

  predicate NoFresh(detail: Keyed<Issue>) {
    forall id | id in detail :: detail[id].invalid
  }

  /** Every cached detail not marked for refetch becomes the server's copy once the queue is drained. */
  ghost predicate Converging(server: map<Id, Issue>, q: seq<Msg>, detail: Keyed<Issue>) {
    forall id :: Fresh(detail, id) ==> Drain(q, id, Some(detail[id].data)) == Copy(server, id)
  }

  // ----- fields of issues, by issue -----

  type FieldMap = map<Id, set<Field>>

  function FieldsAt(fs: FieldMap, id: Id): set<Field> {
    if id in fs then fs[id] else {}
  }

  /** `fs` without the fields that `m` changes. */
  function Minus(fs: FieldMap, m: Msg): FieldMap {
    match m
    case IssueUpdated(id, p) => fs[id := FieldsAt(fs, id) - Fields(p)]
    case IssueDeleted(id) => fs - {id}
    case _ => fs
  }

  function MinusAll(fs: FieldMap, q: seq<Msg>): FieldMap
    decreases |q|
  {
    if q == [] then fs else MinusAll(Minus(fs, q[0]), q[1..])
  }

  lemma {:induction false} MinusAllShrinks(fs: FieldMap, q: seq<Msg>, id: Id)
    ensures FieldsAt(MinusAll(fs, q), id) <= FieldsAt(fs, id)
    decreases |q|
  {
    if q != [] { MinusAllShrinks(Minus(fs, q[0]), q[1..], id); }
  }

  /** `fs` with, respectively without, the fields of the given changes. */
  function PlusChanges(fs: FieldMap, changes: map<Id, Patch>): FieldMap {
    map id | id in fs.Keys + changes.Keys ::
      FieldsAt(fs, id) + if id in changes then Fields(changes[id]) else {}
  }

  function MinusChanges(fs: FieldMap, changes: map<Id, Patch>): FieldMap {
    map id | id in fs :: fs[id] - if id in changes then Fields(changes[id]) else {}
  }

  // ----- the server and the queue -----

  /**
   * Replaying the queue on the server's own copy changes nothing, except in fields of `silent`: those
   * the server has since changed without saying so.
   */
  ghost predicate Absorbed(server: map<Id, Issue>, q: seq<Msg>, silent: FieldMap) {
    && (forall id :: id in server ==> !DeletionQueued(q, id))
    && (forall id, f :: id in server && f in Fields(Pending(q, id)) && f !in FieldsAt(silent, id) ==>
          SameOn(f, Merge(server[id], Pending(q, id)), server[id]))
  }

  /** A queued update of an issue the server no longer has is followed by the deletion. */
  ghost predicate Buried(server: map<Id, Issue>, q: seq<Msg>) {
    forall k :: 0 <= k < |q| && q[k].IssueUpdated? && q[k].id !in server ==> DeletionQueued(q[k + 1..], q[k].id)
  }

  ghost predicate ServerKeyed(server: map<Id, Issue>) {
    forall id :: id in server ==> server[id].id == id
  }

  ghost predicate DetailKeyed(detail: Keyed<Issue>) {
    forall id :: id in detail ==> detail[id].data.id == id
  }

  lemma ThenAssociative(a: Patch, b: Patch, c: Patch)
    ensures Then(a, Then(b, c)) == Then(Then(a, b), c)
  {
    assert (a.data + b.data) + c.data == a.data + (b.data + c.data);
  }

  lemma {:induction false} PendingAppend(q: seq<Msg>, m: Msg, id: Id)
    ensures Pending(q + [m], id) == if m.IssueUpdated? && m.id == id then Then(Pending(q, id), m.patch) else Pending(q, id)
    ensures Fields(Pending(q + [m], id))
            == Fields(Pending(q, id)) + (if m.IssueUpdated? && m.id == id then Fields(m.patch) else {})
    ensures DeletionQueued(q + [m], id) <==> DeletionQueued(q, id) || m == IssueDeleted(id)
  {
    if q == [] {
      assert q + [m] == [m] && [m][1..] == [];
      if m.IssueUpdated? && m.id == id { assert m.patch.data + map[] == m.patch.data == map[] + m.patch.data; }
    } else {
      assert (q + [m])[0] == q[0] && (q + [m])[1..] == q[1..] + [m];
      PendingAppend(q[1..], m, id);
      if q[0].IssueUpdated? && q[0].id == id && m.IssueUpdated? && m.id == id {
        ThenAssociative(q[0].patch, Pending(q[1..], id), m.patch);
      }
    }
    if m.IssueUpdated? && m.id == id { FieldsThen(Pending(q, id), m.patch); }
  }

  lemma PendingHead(q: seq<Msg>, id: Id)
    requires q != []
    ensures Fields(Pending(q, id))
            == (if q[0].IssueUpdated? && q[0].id == id then Fields(q[0].patch) else {}) + Fields(Pending(q[1..], id))
    ensures DeletionQueued(q, id) <==> q[0] == IssueDeleted(id) || DeletionQueued(q[1..], id)
  {
    if q[0].IssueUpdated? && q[0].id == id { FieldsThen(q[0].patch, Pending(q[1..], id)); }
    assert q == [q[0]] + q[1..];
  }

  /** The server after the change that `m` announces. */
  function ServerAfter(server: map<Id, Issue>, m: Msg): map<Id, Issue> {
    match m
    case IssueUpdated(id, p) => if id in server then server[id := Merge(server[id], p)] else server
    case IssueDeleted(id) => server - {id}
    case _ => server
  }

  /** The server changes something and says so: the fields concerned are no longer silent. */
  lemma AnnouncedAbsorbed(server: map<Id, Issue>, q: seq<Msg>, silent: FieldMap, m: Msg)
    requires Absorbed(server, q, silent) && Buried(server, q)
    requires m.IssueUpdated? || m.IssueDeleted? ==> m.id in server
    ensures Absorbed(ServerAfter(server, m), q + [m], Minus(silent, m)) && Buried(ServerAfter(server, m), q + [m])
  {
    var s' := ServerAfter(server, m);
    forall id | id in s' ensures !DeletionQueued(q + [m], id) { PendingAppend(q, m, id); }
    forall id, f | id in s' && f in Fields(Pending(q + [m], id)) && f !in FieldsAt(Minus(silent, m), id)
      ensures SameOn(f, Merge(s'[id], Pending(q + [m], id)), s'[id])
    {
      PendingAppend(q, m, id);
      if m.IssueUpdated? && m.id == id { UpdateAbsorbed(server[id], m.patch, Pending(q, id), f); }
    }
    BuriedAppend(server, q, m);
  }

  /** The new value of a field survives the older queued ones, because its own announcement comes last. */
  lemma UpdateAbsorbed(s: Issue, p: Patch, older: Patch, f: Field)
    requires f in Fields(p) || (f in Fields(older) && SameOn(f, Merge(s, older), s))
    ensures SameOn(f, Merge(Merge(s, p), Then(older, p)), Merge(s, p))
  {
    var s' := Merge(s, p);
    MergeThen(s', older, p);
    MergeOn(f, Merge(s', older), s, p);
    MergeOn(f, s', s, older);
    MergeOn(f, s, s, p);
  }

  lemma BuriedAppend(server: map<Id, Issue>, q: seq<Msg>, m: Msg)
    requires Buried(server, q) && (m.IssueUpdated? ==> m.id in server)
    ensures Buried(ServerAfter(server, m), q + [m])
  {
    var q' := q + [m];
    forall k | 0 <= k < |q'| && q'[k].IssueUpdated? && q'[k].id !in ServerAfter(server, m)
      ensures DeletionQueued(q'[k + 1..], q'[k].id)
    {
      assert q'[k] == q[k];
      assert q'[k + 1..] == q[k + 1..] + [m];
    }
  }

  /** The server after changes of any issues. */
  function Rewritten(server: map<Id, Issue>, changes: map<Id, Patch>): map<Id, Issue> {
    map id | id in server :: if id in changes then Merge(server[id], changes[id]) else server[id]
  }

  /** Nobody is told: what is queued for the fields concerned is out of date. */
  lemma RewrittenAbsorbed(server: map<Id, Issue>, q: seq<Msg>, silent: FieldMap, changes: map<Id, Patch>)
    requires Absorbed(server, q, silent) && Buried(server, q)
    ensures Absorbed(Rewritten(server, changes), q, PlusChanges(silent, changes)) && Buried(Rewritten(server, changes), q)
  {
    var s' := Rewritten(server, changes);
    forall id, f | id in s' && f in Fields(Pending(q, id)) && f !in FieldsAt(PlusChanges(silent, changes), id)
      ensures SameOn(f, Merge(s'[id], Pending(q, id)), s'[id])
    {
      if id in changes { MergeOn(f, server[id], server[id], changes[id]); }
      MergeOn(f, s'[id], server[id], Pending(q, id));
    }
  }

  /** What a deletion does to the sub-issues: their parent becomes null. */
  function Orphans(server: map<Id, Issue>, id: Id): map<Id, Patch> {
    map k | k in server && k != id && server[k].parent == Some(id) :: Patch(None, Some(None), map[])
  }

  /** No queued message mentions `id`. */
  ghost predicate Unmentioned(q: seq<Msg>, id: Id) {
    forall m :: m in q ==> !(m.IssueUpdated? && m.id == id) && m != IssueDeleted(id)
  }

  lemma {:induction false} UnmentionedPending(q: seq<Msg>, id: Id)
    requires Unmentioned(q, id)
    ensures Fields(Pending(q, id)) == {} && !DeletionQueued(q, id)
    ensures forall copy :: Drain(q, id, copy) == copy
  {
    if q != [] {
      assert q == [q[0]] + q[1..];
      UnmentionedPending(q[1..], id);
    }
  }

  lemma ServerCreates(server: map<Id, Issue>, q: seq<Msg>, silent: FieldMap, i: Issue)
    requires Absorbed(server, q, silent) && Buried(server, q)
    requires i.id !in server && Unmentioned(q, i.id)
    ensures Absorbed(server[i.id := i], q, silent) && Buried(server[i.id := i], q)
  {
    UnmentionedPending(q, i.id);
  }

  /** Taking the head off the queue. */
  lemma DequeueAbsorbed(server: map<Id, Issue>, q: seq<Msg>, silent: FieldMap)
    requires q != [] && Absorbed(server, q, silent) && Buried(server, q)
    ensures Absorbed(server, q[1..], silent) && Buried(server, q[1..])
  {
    var m, t := q[0], q[1..];
    forall id | id in server ensures !DeletionQueued(t, id) { PendingHead(q, id); }
    forall id, f | id in server && f in Fields(Pending(t, id)) && f !in FieldsAt(silent, id)
      ensures SameOn(f, Merge(server[id], Pending(t, id)), server[id])
    {
      PendingHead(q, id);
      if m.IssueUpdated? && m.id == id {
        MergeThen(server[id], m.patch, Pending(t, id));
        MergeOn(f, server[id], Merge(server[id], m.patch), Pending(t, id));
      }
    }
    BuriedTail(server, q);
  }

  lemma BuriedTail(server: map<Id, Issue>, q: seq<Msg>)
    requires q != [] && Buried(server, q)
    ensures Buried(server, q[1..])
  {
    var t := q[1..];
    forall k | 0 <= k < |t| && t[k].IssueUpdated? && t[k].id !in server
      ensures DeletionQueued(t[k + 1..], t[k].id)
    {
      assert t[k] == q[k + 1] && t[k + 1..] == q[k + 2..];
    }
  }

  /** The detail entries after the client has handled an event. */
  function DetailAfter(m: Msg, detail: Keyed<Issue>, resets: bool): Keyed<Issue> {
    match m
    case IssueUpdated(id, p) => PatchDetail(detail, id, p, resets)
    case IssueDeleted(id) => detail - {id}
    case _ => detail
  }

  // ----- what the client has learnt of each cached detail, field by field -----

  /** What a read of the server leaves silent: the fields an older queued event will overwrite. */
  function AfterRead(silent: FieldMap, q: seq<Msg>, id: Id): FieldMap {
    silent[id := FieldsAt(silent, id) * Fields(Pending(q, id))]
  }

  /** A read of the server teaches all other fields. */
  function LearnRead(known: FieldMap, silent: FieldMap, q: seq<Msg>, id: Id): FieldMap {
    known[id := FIELDS - FieldsAt(AfterRead(silent, q, id), id)]
  }

  /** A handled event teaches the fields it carries, unless they are out of date. */
  function Learn(known: FieldMap, silent: FieldMap, m: Msg): FieldMap {
    match m
    case IssueUpdated(id, p) => known[id := FieldsAt(known, id) + (Fields(p) - FieldsAt(silent, id))]
    case IssueDeleted(id) => known - {id}
    case _ => known
  }

  ghost predicate Agree(f: Field, a: Option<Issue>, b: Option<Issue>) {
    match (a, b)
    case (Some(x), Some(y)) => SameOn(f, x, y)
    case (None, None) => true
    case _ => false
  }

  /** Every known field of every cached detail becomes the server's once the queue is drained. */
  ghost predicate KnownRight(server: map<Id, Issue>, q: seq<Msg>, detail: Keyed<Issue>, known: FieldMap) {
    forall id, f :: id in detail && f in FieldsAt(known, id) ==>
      Agree(f, Drain(q, id, Some(detail[id].data)), Copy(server, id))
  }

  /** Each field of the detail is known or carried by a queued update that is up to date. */
  ghost predicate Covered(q: seq<Msg>, known: FieldMap, silent: FieldMap, id: Id) {
    DeletionQueued(q, id)
    || FieldsAt(known, id) + (Fields(Pending(q, id)) - FieldsAt(silent, id)) == FIELDS
  }

  /** ... or was changed silently since. */
  ghost predicate Accounted(q: seq<Msg>, known: FieldMap, silent: FieldMap, id: Id) {
    DeletionQueued(q, id)
    || FieldsAt(known, id) + Fields(Pending(q, id)) + FieldsAt(silent, id) == FIELDS
  }

  /** Draining treats a field of two copies alike. */
  lemma DrainOn(q: seq<Msg>, id: Id, f: Field, x: Issue, y: Issue)
    requires SameOn(f, x, y) || f in Fields(Pending(q, id))
    ensures Agree(f, Drain(q, id, Some(x)), Drain(q, id, Some(y)))
  {
    DrainForm(q, id, x);
    DrainForm(q, id, y);
    MergeOn(f, x, y, Pending(q, id));
  }

  /** A queued update settles its fields, whatever the copy, unless they were changed silently since. */
  lemma PendingAgrees(server: map<Id, Issue>, q: seq<Msg>, silent: FieldMap, id: Id, x: Issue, f: Field)
    requires Absorbed(server, q, silent) && Buried(server, q)
    requires f in Fields(Pending(q, id)) - FieldsAt(silent, id) || DeletionQueued(q, id)
    ensures Agree(f, Drain(q, id, Some(x)), Copy(server, id))
  {
    DrainForm(q, id, x);
    if id in server {
      MergeOn(f, x, server[id], Pending(q, id));
    } else if !DeletionQueued(q, id) {
      BuriedDeletion(server, q, id);
    }
  }

  lemma {:induction false} BuriedDeletion(server: map<Id, Issue>, q: seq<Msg>, id: Id)
    requires Buried(server, q) && id !in server && Fields(Pending(q, id)) != {}
    ensures DeletionQueued(q, id)
  {
    if q == [] {
      assert false;
    } else {
      assert q == [q[0]] + q[1..];
      if q[0].IssueUpdated? && q[0].id == id {
        assert DeletionQueued(q[0 + 1..], q[0].id);
      } else {
        BuriedTail(server, q);
        BuriedDeletion(server, q[1..], id);
      }
    }
  }

  /** A covered detail becomes the server's copy. */
  lemma CoveredDetail(server: map<Id, Issue>, q: seq<Msg>, silent: FieldMap, detail: Keyed<Issue>, known: FieldMap, id: Id)
    requires Absorbed(server, q, silent) && Buried(server, q) && KnownRight(server, q, detail, known)
    requires ServerKeyed(server) && DetailKeyed(detail) && id in detail && Covered(q, known, silent, id)
    ensures Drain(q, id, Some(detail[id].data)) == Copy(server, id)
  {
    var x := detail[id].data;
    forall f | f in FIELDS ensures Agree(f, Drain(q, id, Some(x)), Copy(server, id)) {
      if f !in FieldsAt(known, id) { PendingAgrees(server, q, silent, id, x, f); }
    }
    assert StatusField in FIELDS;
    DrainForm(q, id, x);
    if id in server && !DeletionQueued(q, id) {
      SameOnAll(Merge(x, Pending(q, id)), server[id]);
    }
  }

  // ----- how knowledge moves with the protocol -----

  /** An announced change: what was known stays known. */
  lemma AnnouncedKeepsKnown(server: map<Id, Issue>, q: seq<Msg>, detail: Keyed<Issue>, known: FieldMap, m: Msg)
    requires KnownRight(server, q, detail, known)
    requires m.IssueUpdated? || m.IssueDeleted? ==> m.id in server
    ensures KnownRight(ServerAfter(server, m), q + [m], detail, known)
  {
    forall id, f | id in detail && f in FieldsAt(known, id)
      ensures Agree(f, Drain(q + [m], id, Some(detail[id].data)), Copy(ServerAfter(server, m), id))
    {
      DrainAppend(q, m, id, Some(detail[id].data));
      var a := Drain(q, id, Some(detail[id].data));
      if m.IssueUpdated? && m.id == id && a.Some? { MergeOn(f, a.value, server[id], m.patch); }
    }
  }

  /** The same change with nobody registered: its fields are no longer known. */
  lemma UnheardLoses(server: map<Id, Issue>, q: seq<Msg>, detail: Keyed<Issue>, known: FieldMap, m: Msg)
    requires KnownRight(server, q, detail, known)
    requires m.IssueUpdated? || m.IssueDeleted? ==> m.id in server
    ensures KnownRight(ServerAfter(server, m), q, detail, Minus(known, m))
  {
    forall id, f | id in detail && f in FieldsAt(Minus(known, m), id)
      ensures Agree(f, Drain(q, id, Some(detail[id].data)), Copy(ServerAfter(server, m), id))
    {
      assert f in FieldsAt(known, id);
      if m.IssueUpdated? && m.id == id { MergeOn(f, server[id], server[id], m.patch); }
    }
  }

  /** Changes that send no event at all. */
  lemma RewrittenLoses(server: map<Id, Issue>, q: seq<Msg>, detail: Keyed<Issue>, known: FieldMap, changes: map<Id, Patch>)
    requires KnownRight(server, q, detail, known)
    ensures KnownRight(Rewritten(server, changes), q, detail, MinusChanges(known, changes))
  {
    forall id, f | id in detail && f in FieldsAt(MinusChanges(known, changes), id)
      ensures Agree(f, Drain(q, id, Some(detail[id].data)), Copy(Rewritten(server, changes), id))
    {
      assert f in FieldsAt(known, id);
      if id in server && id in changes { MergeOn(f, server[id], server[id], changes[id]); }
    }
  }

  /** The head of the queue is dropped. */
  lemma DroppedLoses(server: map<Id, Issue>, q: seq<Msg>, detail: Keyed<Issue>, known: FieldMap)
    requires q != [] && KnownRight(server, q, detail, known)
    ensures KnownRight(server, q[1..], detail, Minus(known, q[0]))
  {
    var m, t := q[0], q[1..];
    forall id, f | id in detail && f in FieldsAt(Minus(known, m), id)
      ensures Agree(f, Drain(t, id, Some(detail[id].data)), Copy(server, id))
    {
      var x := detail[id].data;
      assert f in FieldsAt(known, id);
      assert Agree(f, Drain(t, id, Effect(m, id, Some(x))), Copy(server, id));
      if m.IssueUpdated? && m.id == id {
        MergeOn(f, x, x, m.patch);
        DrainOn(t, id, f, x, Merge(x, m.patch));
      }
    }
  }

  /** The connection is lost, and with it the whole queue. */
  lemma {:induction false} QueueLost(server: map<Id, Issue>, q: seq<Msg>, detail: Keyed<Issue>, known: FieldMap)
    requires KnownRight(server, q, detail, known)
    ensures KnownRight(server, [], detail, MinusAll(known, q))
    decreases |q|
  {
    if q != [] {
      DroppedLoses(server, q, detail, known);
      QueueLost(server, q[1..], detail, Minus(known, q[0]));
    }
  }

  /** The client handles the head of the queue: the fields carried are known from now on, if up to date. */
  lemma DeliveredLearns(server: map<Id, Issue>, q: seq<Msg>, silent: FieldMap, detail: Keyed<Issue>, known: FieldMap,
                        resets: bool)
    requires q != [] && Absorbed(server, q, silent) && Buried(server, q) && KnownRight(server, q, detail, known)
    ensures KnownRight(server, q[1..], DetailAfter(q[0], detail, resets), Learn(known, silent, q[0]))
  {
    var m, t := q[0], q[1..];
    var after := DetailAfter(m, detail, resets);
    forall id, f | id in after && f in FieldsAt(Learn(known, silent, m), id)
      ensures Agree(f, Drain(t, id, Some(after[id].data)), Copy(server, id))
    {
      var x := detail[id].data;
      assert Some(after[id].data) == Effect(m, id, Some(x));
      assert Drain(t, id, Some(after[id].data)) == Drain(q, id, Some(x));
      if f !in FieldsAt(known, id) {
        assert m.IssueUpdated? && m.id == id;
        PendingHead(q, id);
        PendingAgrees(server, q, silent, id, x, f);
      }
    }
  }

  /** A read of the server is right at once, but for the fields an out-of-date event is still queued for. */
  lemma FetchLearns(server: map<Id, Issue>, q: seq<Msg>, silent: FieldMap, detail: Keyed<Issue>, known: FieldMap, id: Id)
    requires Absorbed(server, q, silent) && id in server && KnownRight(server, q, detail, known)
    ensures Absorbed(server, q, AfterRead(silent, q, id))
    ensures KnownRight(server, q, detail[id := Entry(server[id], false)], LearnRead(known, silent, q, id))
  {
    var s := server[id];
    DrainForm(q, id, s);
    forall k, f | k in detail[id := Entry(s, false)] && f in FieldsAt(LearnRead(known, silent, q, id), k)
      ensures Agree(f, Drain(q, k, Some(detail[id := Entry(s, false)][k].data)), Copy(server, k))
    {
      if k == id { MergeOn(f, s, s, Pending(q, id)); }
    }
  }

  // ----- what stays accounted for -----

  lemma AnnouncedAccounted(q: seq<Msg>, known: FieldMap, silent: FieldMap, m: Msg, id: Id)
    requires Accounted(q, known, silent, id)
    ensures Accounted(q + [m], known, Minus(silent, m), id)
  {
    PendingAppend(q, m, id);
    AllFields(FieldsAt(known, id) + Fields(Pending(q + [m], id)) + FieldsAt(Minus(silent, m), id));
    assert m != IssueDeleted(id) ==> FieldsAt(silent, id) <= FieldsAt(Minus(silent, m), id) + Fields(Pending(q + [m], id));
  }

  lemma RewrittenAccounted(q: seq<Msg>, known: FieldMap, silent: FieldMap, changes: map<Id, Patch>, id: Id)
    requires Accounted(q, known, silent, id)
    ensures Accounted(q, MinusChanges(known, changes), PlusChanges(silent, changes), id)
  {
    var k, s := MinusChanges(known, changes), PlusChanges(silent, changes);
    AllFields(FieldsAt(k, id) + Fields(Pending(q, id)) + FieldsAt(s, id));
    assert FieldsAt(known, id) + FieldsAt(silent, id) <= FieldsAt(k, id) + FieldsAt(s, id);
  }

  lemma DequeueAccounted(q: seq<Msg>, known: FieldMap, silent: FieldMap, id: Id)
    requires q != [] && Accounted(q, known, silent, id) && q[0] != IssueDeleted(id)
    ensures Accounted(q[1..], Learn(known, silent, q[0]), silent, id)
  {
    PendingHead(q, id);
    AllFields(FieldsAt(Learn(known, silent, q[0]), id) + Fields(Pending(q[1..], id)) + FieldsAt(silent, id));
  }

  // ----- and exactly when it is enough -----

  /**
   * One field of one detail neither known nor rightly queued: some server, telling the client exactly
   * the same, has another value there.
   */
  lemma UncoveredDiverges(server: map<Id, Issue>, q: seq<Msg>, silent: FieldMap, detail: Keyed<Issue>, known: FieldMap,
                          id: Id) returns (other: map<Id, Issue>)
    requires Absorbed(server, q, silent) && Buried(server, q) && KnownRight(server, q, detail, known)
    requires ServerKeyed(server) && id in detail && !Covered(q, known, silent, id)
    ensures other.Keys == server.Keys && ServerKeyed(other) && forall k :: k in server && k != id ==> other[k] == server[k]
    ensures Absorbed(other, q, silent) && Buried(other, q) && KnownRight(other, q, detail, known)
    ensures Drain(q, id, Some(detail[id].data)) != Copy(other, id)
  {
    var x := detail[id].data;
    DrainForm(q, id, x);
    if id !in server || Drain(q, id, Some(x)) != Copy(server, id) { return server; }
    var s, learnt := server[id], FieldsAt(known, id) + (Fields(Pending(q, id)) - FieldsAt(silent, id));
    AllFields(learnt);
    var f :| f in FIELDS && f !in learnt;
    other := server[id := Altered(s, f)];
    AlteredOnly(s, f);
    forall g | g in Fields(Pending(q, id)) && g !in FieldsAt(silent, id)
      ensures SameOn(g, Merge(other[id], Pending(q, id)), other[id])
    {
      assert g != f;
      MergeOn(g, other[id], s, Pending(q, id));
      assert SameOn(g, other[id], s);
    }
    forall k, g | k in detail && g in FieldsAt(known, k)
      ensures Agree(g, Drain(q, k, Some(detail[k].data)), Copy(other, k))
    {
      if k == id { assert g != f; assert SameOn(g, other[id], s); }
    }
  }

  lemma AllFields(fs: set<Field>)
    ensures fs <= FIELDS
  {
    forall f | f in fs ensures f in FIELDS {
      match f
      case Col(c) => assert f in set c: Column :: Col(c);
      case _ =>
    }
  }
}
