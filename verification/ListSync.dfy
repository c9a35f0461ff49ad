/**
 * The rows of the bucketed list under the same protocol: what the list shows after a read of the server,
 * while events, silent changes, marks and further reads go on. Events of the whole workspace reach the
 * list, creations included, and every one of them writes it.
 */
module ListSync {
  import opened Prelude
  import opened Issues
  import opened BucketCache
  import opened BucketRefinement
  import opened QueryCache
  import opened WsClient
  import opened Replication
  import opened RealtimeSync
  import opened ResyncConvergence

  /**
   * `rows`: the fields of each row learnt from the server, of which no change was missed since. `quiet`:
   * the fields changed without an event of the issue, and neither announced nor read with the list since.
   */
  datatype Lived = Lived(w: World, rows: FieldMap, quiet: FieldMap)

  datatype Event = Protocol(step: Step) | FetchList(fetched: ListCache)

  ghost function Shown(w: World): map<Id, Issue> {
    if w.cache.list.Some? then View(w.cache.list.value.data) else map[]
  }

  ghost function RowsOf(shown: map<Id, Issue>): Keyed<Issue> {
    map id | id in shown :: Entry(shown[id], false)
  }

  predicate Unmarked(w: World) {
    w.cache.list.Some? && !w.cache.list.value.invalid
  }

  /** A read of the list: consistent, and every issue as the server has it; it need not be complete. */
  ghost predicate GoodRead(w: World, c: ListCache) {
    Consistent(c) && forall id :: id in View(c) ==> id in w.server && w.server[id] == View(c)[id]
  }

  ghost predicate CreationQueued(q: seq<Msg>, id: Id) {
    exists i :: IssueCreated(i) in q && i.id == id
  }

  // ----- the steps -----

  function AnnounceL(l: Lived, m: Msg): Lived {
    if l.w.registered then Lived(Announce(l.w, m), l.rows, Minus(l.quiet, m))
    else Lived(Announce(l.w, m), map[], l.quiet)
  }

  function RewriteL(l: Lived, changes: map<Id, Patch>): Lived {
    Lived(Rewrite(l.w, changes), MinusChanges(l.rows, changes), PlusChanges(l.quiet, changes))
  }

  /** What a read of the list leaves quiet: what an event still queued will overwrite, or may yet add. */
  ghost function QuietAfterRead(l: Lived, c: ListCache): FieldMap {
    map id | id in l.quiet ::
      if id in View(c) && !CreationQueued(l.w.channel, id) then l.quiet[id] * Fields(Pending(l.w.channel, id))
      else l.quiet[id]
  }

  ghost function ReadList(l: Lived, c: ListCache): Lived {
    var quiet := QuietAfterRead(l, c);
    Lived(l.w.(cache := l.w.cache.(list := Some(Entry(c, false)))),
          map id | id in View(c) :: FIELDS - FieldsAt(quiet, id), quiet)
  }

  /** What an event that the list shows teaches: a row that appears is known as far as it is not quiet. */
  function RowsLearnt(rows: FieldMap, quiet: FieldMap, shown: map<Id, Issue>, m: Msg): FieldMap {
    if !m.IssueCreated? then Learn(rows, quiet, m)
    else if m.issue.id in shown then rows
    else rows[m.issue.id := FIELDS - FieldsAt(quiet, m.issue.id)]
  }

  ghost function RowsAfter(l: Lived, m: Msg): FieldMap {
    if m.AuthAck? then l.rows
    else if !Listening(l.w) then map[]
    else RowsLearnt(l.rows, l.quiet, Shown(l.w), m)
  }

  ghost function NextL(l: Lived, e: Event): Lived {
    match e
    case FetchList(c) => if GoodRead(l.w, c) then ReadList(l, c) else l
    case Protocol(s) =>
      match s {
        case ServerCreate(i) =>
          if i.id == "" || i.id in l.w.used then l
          else AnnounceL(l.(w := l.w.(server := l.w.server[i.id := i], used := l.w.used + {i.id})), IssueCreated(i))
        case ServerUpdate(id, p) => if id in l.w.server then AnnounceL(l, IssueUpdated(id, p)) else l
        case ServerDelete(id) =>
          if id in l.w.server then AnnounceL(RewriteL(l, Orphans(l.w.server, id)), IssueDeleted(id)) else l
        case ServerSilent(changes) =>
          if changes.Keys <= l.w.server.Keys then AnnounceL(RewriteL(l, changes), OtherEvent) else l
        case Deliver =>
          if l.w.net.phase.Open? && l.w.channel != []
          then l.(w := Next(l.w, s), rows := RowsAfter(l, l.w.channel[0])) else l
        case SocketCloses => l.(w := Next(l.w, s), rows := map[])
        case Disconnect => l.(w := Next(l.w, s), rows := map[])
        case _ => l.(w := Next(l.w, s))
      }
  }

  ghost function RunL(l: Lived, events: seq<Event>): Lived
    decreases |events|
  {
    if events == [] then l else RunL(NextL(l, events[0]), events[1..])
  }

  /** It is the same protocol: only the list's reads are new. */
  lemma SameProtocol(l: Lived, s: Step)
    ensures NextL(l, Protocol(s)).w == Next(l.w, s)
  {
  }

  // ----- what queued creations will add -----

  /** A queued creation, with the events behind it applied, is right in all fields that are not quiet. */
  ghost predicate Born(server: map<Id, Issue>, q: seq<Msg>, quiet: FieldMap) {
    forall k, f :: 0 <= k < |q| && q[k].IssueCreated? && f in FIELDS && f !in FieldsAt(quiet, q[k].issue.id) ==>
      Agree(f, Drain(q[k + 1..], q[k].issue.id, Some(q[k].issue)), Copy(server, q[k].issue.id))
  }

  lemma {:induction false} DeletionAhead(q: seq<Msg>, id: Id)
    requires !DeletionQueued(q, id)
    ensures forall k :: 0 <= k <= |q| ==> !DeletionQueued(q[k..], id)
  {
    assert forall k, m :: 0 <= k <= |q| && m in q[k..] ==> m in q;
  }

  lemma BornAnnounced(server: map<Id, Issue>, q: seq<Msg>, quiet: FieldMap, m: Msg)
    requires Born(server, q, quiet) && Absorbed(server, q, quiet)
    requires m.IssueUpdated? || m.IssueDeleted? ==> m.id in server
    requires m.IssueCreated? ==> Copy(server, m.issue.id) == Some(m.issue)
    ensures Born(ServerAfter(server, m), q + [m], Minus(quiet, m))
  {
    var q' := q + [m];
    forall k, f | 0 <= k < |q'| && q'[k].IssueCreated? && f in FIELDS && f !in FieldsAt(Minus(quiet, m), q'[k].issue.id)
      ensures Agree(f, Drain(q'[k + 1..], q'[k].issue.id, Some(q'[k].issue)), Copy(ServerAfter(server, m), q'[k].issue.id))
    {
      if k < |q| {
        var i := q[k].issue;
        assert q'[k + 1..] == q[k + 1..] + [m];
        DrainAppend(q[k + 1..], m, i.id, Some(i));
        DrainForm(q[k + 1..], i.id, i);
        if m.IssueUpdated? && m.id == i.id {
          DeletionAhead(q, i.id);
          MergeOn(f, Merge(i, Pending(q[k + 1..], i.id)), server[i.id], m.patch);
        }
      } else {
        assert q'[k + 1..] == [];
      }
    }
  }

  lemma BornRewritten(server: map<Id, Issue>, q: seq<Msg>, quiet: FieldMap, changes: map<Id, Patch>)
    requires Born(server, q, quiet)
    ensures Born(Rewritten(server, changes), q, PlusChanges(quiet, changes))
  {
    forall k, f | 0 <= k < |q| && q[k].IssueCreated? && f in FIELDS
                  && f !in FieldsAt(PlusChanges(quiet, changes), q[k].issue.id)
      ensures Agree(f, Drain(q[k + 1..], q[k].issue.id, Some(q[k].issue)),
                    Copy(Rewritten(server, changes), q[k].issue.id))
    {
      var id := q[k].issue.id;
      assert f !in FieldsAt(quiet, id);
      if id in server && id in changes { MergeOn(f, server[id], server[id], changes[id]); }
    }
  }

  lemma BornDequeued(server: map<Id, Issue>, q: seq<Msg>, quiet: FieldMap)
    requires q != [] && Born(server, q, quiet)
    ensures Born(server, q[1..], quiet)
  {
    var t := q[1..];
    forall k, f | 0 <= k < |t| && t[k].IssueCreated? && f in FIELDS && f !in FieldsAt(quiet, t[k].issue.id)
      ensures Agree(f, Drain(t[k + 1..], t[k].issue.id, Some(t[k].issue)), Copy(server, t[k].issue.id))
    {
      assert t[k] == q[k + 1] && t[k + 1..] == q[k + 2..];
    }
  }

  lemma BornQuiet(server: map<Id, Issue>, q: seq<Msg>, quiet: FieldMap)
    requires forall m :: m in q ==> m.AuthAck?
    ensures Born(server, q, quiet)
  {
    assert forall k :: 0 <= k < |q| ==> q[k] in q;
  }

  // ----- server and channel, whatever the list holds -----

  ghost predicate Base(l: Lived) {
    Inv(l.w) && Absorbed(l.w.server, l.w.channel, l.quiet) && Born(l.w.server, l.w.channel, l.quiet)
  }

  lemma AnnounceBase(l: Lived, m: Msg)
    requires Base(l) && Inv(Announce(l.w, m)) && (m.IssueUpdated? || m.IssueDeleted? ==> m.id in l.w.server)
    requires m.IssueCreated? ==> Copy(l.w.server, m.issue.id) == Some(m.issue)
    ensures Base(AnnounceL(l, m))
  {
    var w := l.w;
    if w.registered {
      AnnouncedAbsorbed(w.server, w.channel, l.quiet, m);
      BornAnnounced(w.server, w.channel, l.quiet, m);
    } else {
      QuietQueue(ServerAfter(w.server, m), w.channel, l.quiet);
      BornQuiet(ServerAfter(w.server, m), w.channel, l.quiet);
    }
  }

  lemma RewriteBase(l: Lived, changes: map<Id, Patch>)
    requires Base(l)
    ensures Base(RewriteL(l, changes))
  {
    RewriteInv(l.w, changes);
    RewrittenAbsorbed(l.w.server, l.w.channel, l.quiet, changes);
    BornRewritten(l.w.server, l.w.channel, l.quiet, changes);
  }

  /** A new issue before it is announced. */
  function WithIssue(l: Lived, i: Issue): Lived {
    l.(w := l.w.(server := l.w.server[i.id := i], used := l.w.used + {i.id}))
  }

  lemma CreateBase(l: Lived, i: Issue)
    requires Base(l) && i.id != "" && i.id !in l.w.used
    ensures Inv(WithIssue(l, i).w) && Base(WithIssue(l, i)) && Base(AnnounceL(WithIssue(l, i), IssueCreated(i)))
  {
    var w, v := l.w, WithIssue(l, i).w;
    assert ServerKeyed(v.server);
    ServerCreates(w.server, w.channel, w.silent, i);
    ServerCreates(w.server, w.channel, l.quiet, i);
    assert Inv(v);
    forall k, f | 0 <= k < |w.channel| && w.channel[k].IssueCreated? && f in FIELDS
                  && f !in FieldsAt(l.quiet, w.channel[k].issue.id)
      ensures Agree(f, Drain(w.channel[k + 1..], w.channel[k].issue.id, Some(w.channel[k].issue)),
                    Copy(v.server, w.channel[k].issue.id))
    {
    }
    AnnounceInv(v, IssueCreated(i));
    AnnounceBase(WithIssue(l, i), IssueCreated(i));
  }

  lemma DequeueBase(l: Lived)
    requires Base(l) && l.w.net.phase.Open? && l.w.channel != []
    ensures Base(NextL(l, Protocol(Deliver)))
  {
    DeliverInv(l.w);
    DequeueAbsorbed(l.w.server, l.w.channel, l.quiet);
    BornDequeued(l.w.server, l.w.channel, l.quiet);
    DeliverDequeues(l.w);
  }

  lemma DeliverDequeues(w: World)
    requires w.net.phase.Open? && w.channel != []
    ensures Next(w, Deliver).server == w.server && Next(w, Deliver).channel == w.channel[1..]
  {
  }

  lemma ReadBase(l: Lived, c: ListCache)
    requires Base(l)
    ensures Base(ReadList(l, c))
  {
    var quiet := QuietAfterRead(l, c);
    forall id, f | f !in FieldsAt(quiet, id) ensures QuietHere(l, id, f) {}
    assert Absorbed(l.w.server, l.w.channel, quiet);
    BornAfterRead(l, c);
  }

  ghost predicate QuietHere(l: Lived, id: Id, f: Field) {
    f in Fields(Pending(l.w.channel, id)) || CreationQueued(l.w.channel, id) ==> f !in FieldsAt(l.quiet, id)
  }

  lemma BornAfterRead(l: Lived, c: ListCache)
    requires Base(l)
    ensures Born(l.w.server, l.w.channel, QuietAfterRead(l, c))
  {
    var q := l.w.channel;
    forall k | 0 <= k < |q| && q[k].IssueCreated?
      ensures FieldsAt(QuietAfterRead(l, c), q[k].issue.id) == FieldsAt(l.quiet, q[k].issue.id)
    {
      assert IssueCreated(q[k].issue) in q;
    }
  }

  /** Steps that leave server and queue alone, or empty the queue. */
  lemma ClientBase(l: Lived, s: Step)
    requires Base(l) && !ServerStep(s) && !s.Deliver?
    ensures Base(NextL(l, Protocol(s)))
  {
    SameProtocol(l, s);
    StepInv(l.w, s);
    AnnouncedAbsorbed(l.w.server, l.w.channel, l.quiet, AuthAck);
    BornAnnounced(l.w.server, l.w.channel, l.quiet, AuthAck);
    QuietQueue(l.w.server, [], l.quiet);
    BornQuiet(l.w.server, [], l.quiet);
    ClientQueue(l.w, s);
  }

  lemma ClientQueue(w: World, s: Step)
    requires !ServerStep(s) && !s.Deliver?
    ensures Next(w, s).server == w.server && Next(w, s).channel in {w.channel, w.channel + [AuthAck], []}
  {
  }

  lemma ServerBase(l: Lived, s: Step)
    requires Base(l) && ServerStep(s)
    ensures Base(NextL(l, Protocol(s)))
  {
    if NextL(l, Protocol(s)) != l {
      ServerStepInv(l.w, s);
      match s
      case ServerCreate(i) => CreateBase(l, i);
      case ServerUpdate(id, p) => AnnounceBase(l, IssueUpdated(id, p));
      case ServerDelete(id) =>
        RewriteBase(l, Orphans(l.w.server, id));
        AnnounceBase(RewriteL(l, Orphans(l.w.server, id)), IssueDeleted(id));
      case ServerSilent(changes) =>
        RewriteBase(l, changes);
        AnnounceBase(RewriteL(l, changes), OtherEvent);
    }
  }

  lemma StepBase(l: Lived, e: Event)
    requires Base(l)
    ensures Base(NextL(l, e))
  {
    match e
    case FetchList(c) => ReadBase(l, c);
    case Protocol(s) =>
      if ServerStep(s) { ServerBase(l, s); }
      else if s.Deliver? { if l.w.net.phase.Open? && l.w.channel != [] { DequeueBase(l); } }
      else { ClientBase(l, s); }
  }

  lemma {:induction false} RunBase(l: Lived, events: seq<Event>)
    requires Base(l)
    ensures Base(RunL(l, events))
    decreases |events|
  {
    if events != [] {
      StepBase(l, events[0]);
      RunBase(NextL(l, events[0]), events[1..]);
    }
  }

  // ----- the list while the client stays connected -----

  ghost predicate RowsKnown(l: Lived) {
    KnownRight(l.w.server, l.w.channel, RowsOf(Shown(l.w)), l.rows)
  }

  /** Every row of an unmarked list is accounted for. */
  ghost predicate RowsAccounted(l: Lived) {
    Unmarked(l.w) ==> forall id :: id in Shown(l.w) ==> Accounted(l.w.channel, l.rows, l.quiet, id)
  }

  ghost predicate ListInSync(l: Lived) {
    && Base(l) && l.w.registered && Listening(l.w)
    && (l.w.cache.list.Some? ==> Consistent(l.w.cache.list.value.data))
    && RowsKnown(l) && RowsAccounted(l)
  }

  ghost predicate IssueEvent(m: Msg) {
    m.IssueCreated? || m.IssueUpdated? || m.IssueDeleted?
  }

  /**
   * A created issue is not filed in another column, and an event that clears the mark of the list finds
   * all its rows accounted for.
   */
  ghost predicate ListDelivery(l: Lived) {
    var w := l.w;
    w.channel != [] && w.cache.list.Some? ==>
      && (w.channel[0].IssueCreated? ==> NoOtherBucket(w.cache.list.value.data, w.channel[0].issue))
      && (w.cache.resetsOnWrite && w.cache.list.value.invalid && IssueEvent(w.channel[0]) ==>
            forall id :: id in Shown(w) ==> Accounted(w.channel, l.rows, l.quiet, id))
  }

  /** The connection holds, and deliveries are of that kind. The server and all reads are free. */
  ghost predicate OrderlyL(l: Lived, events: seq<Event>)
    decreases |events|
  {
    events != [] ==>
      && (events[0].Protocol? ==> !Breaks(events[0].step) && (events[0].step.Deliver? ==> ListDelivery(l)))
      && OrderlyL(NextL(l, events[0]), events[1..])
  }

  /** What an event makes of the rows. */
  ghost function ShownAfter(shown: map<Id, Issue>, m: Msg): map<Id, Issue> {
    match m
    case IssueCreated(i) => PlainAdd(shown, i)
    case IssueUpdated(id, p) => PlainPatch(shown, id, p)
    case IssueDeleted(id) => shown - {id}
    case _ => shown
  }

  lemma HandledRows(c: ListCache, m: Msg)
    requires Consistent(c) && (m.IssueCreated? ==> NoOtherBucket(c, m.issue))
    requires m.IssueUpdated? || m.IssueDeleted? ==> m.id != ""
    ensures Consistent(HandledList(c, m)) && View(HandledList(c, m)) == ShownAfter(View(c), m)
  {
    match m
    case IssueCreated(i) => AddRefines(c, i);
    case IssueUpdated(id, p) => PatchRefines(c, id, p);
    case IssueDeleted(id) => RemoveRefines(c, id);
    case _ =>
  }

  /** The list entry after a listening client has handled an event. */
  lemma HandledMark(c: Cache, m: Msg)
    requires m.IssueUpdated? || m.IssueDeleted? ==> m.id != ""
    requires c.list.Some?
    ensures var d := Handled(c, m, true);
      d.list.Some? && d.list.value.data == HandledList(c.list.value.data, m)
      && d.list.value.invalid == (c.list.value.invalid && !(c.resetsOnWrite && IssueEvent(m)))
  {
  }

  /** `v` is `l` after an event, as far as the list is concerned. */
  ghost predicate ListHandled(l: Lived, v: Lived) {
    && l.w.channel != [] && v.w.channel == l.w.channel[1..] && v.w.server == l.w.server && v.quiet == l.quiet
    && v.rows == RowsAfter(l, l.w.channel[0])
    && (v.w.cache.list.Some? <==> l.w.cache.list.Some?)
    && (v.w.cache.list.Some? ==> Consistent(v.w.cache.list.value.data))
    && Shown(v.w) == (if l.w.cache.list.Some? then ShownAfter(Shown(l.w), l.w.channel[0]) else map[])
    && (Unmarked(v.w) ==>
          Unmarked(l.w) || forall id :: id in Shown(l.w) ==> Accounted(l.w.channel, l.rows, l.quiet, id))
  }

  lemma DeliverList(l: Lived)
    requires ListInSync(l) && ListDelivery(l) && l.w.net.phase.Open? && l.w.channel != []
    requires !l.w.channel[0].AuthAck?
    ensures var v := NextL(l, Protocol(Deliver));
      ListHandled(l, v) && v.w.registered && Listening(v.w)
  {
    var w, m := l.w, l.w.channel[0];
    assert m in w.channel;
    if w.cache.list.Some? {
      HandledRows(w.cache.list.value.data, m);
      HandledMark(w.cache, m);
    } else {
      HandledListOf(w.cache, m);
    }
  }

  /** A row that was there before the event is the old one with the event's effect. */
  lemma RowEffect(shown: map<Id, Issue>, m: Msg, id: Id)
    requires id in ShownAfter(shown, m) && (m.IssueCreated? ==> m.issue.id != id || id in shown)
    ensures id in shown && Effect(m, id, Some(shown[id])) == Some(ShownAfter(shown, m)[id])
  {
  }

  lemma RowsKnownAfter(server: map<Id, Issue>, q: seq<Msg>, quiet: FieldMap, shown: map<Id, Issue>, rows: FieldMap)
    requires q != [] && Absorbed(server, q, quiet) && Buried(server, q) && Born(server, q, quiet)
    requires KnownRight(server, q, RowsOf(shown), rows)
    ensures KnownRight(server, q[1..], RowsOf(ShownAfter(shown, q[0])), RowsLearnt(rows, quiet, shown, q[0]))
  {
    var m, t, after, learnt := q[0], q[1..], ShownAfter(shown, q[0]), RowsLearnt(rows, quiet, shown, q[0]);
    DeliveredLearns(server, q, quiet, RowsOf(shown), rows, false);
    forall id, f | id in RowsOf(after) && f in FieldsAt(learnt, id)
      ensures Agree(f, Drain(t, id, Some(RowsOf(after)[id].data)), Copy(server, id))
    {
      if m.IssueCreated? && m.issue.id == id && id !in shown {
        assert q[0 + 1..] == t;
      } else {
        RowEffect(shown, m, id);
        assert f in FieldsAt(Learn(rows, quiet, m), id);
        assert id in DetailAfter(m, RowsOf(shown), false);
      }
    }
  }

  lemma RowAccountedAfter(q: seq<Msg>, quiet: FieldMap, shown: map<Id, Issue>, rows: FieldMap, id: Id)
    requires q != [] && id in ShownAfter(shown, q[0]) && (id in shown ==> Accounted(q, rows, quiet, id))
    ensures Accounted(q[1..], RowsLearnt(rows, quiet, shown, q[0]), quiet, id)
  {
    var m, learnt := q[0], RowsLearnt(rows, quiet, shown, q[0]);
    if m.IssueCreated? && m.issue.id == id && id !in shown {
      AllFields(FieldsAt(learnt, id) + Fields(Pending(q[1..], id)) + FieldsAt(quiet, id));
      assert FIELDS <= FieldsAt(learnt, id) + FieldsAt(quiet, id);
    } else {
      RowEffect(shown, m, id);
      assert m != IssueDeleted(id);
      DequeueAccounted(q, rows, quiet, id);
      assert FieldsAt(learnt, id) == FieldsAt(Learn(rows, quiet, m), id);
    }
  }

  lemma RowsStay(l: Lived, v: Lived)
    requires ListInSync(l) && ListHandled(l, v) && !l.w.channel[0].AuthAck?
    ensures RowsKnown(v) && RowsAccounted(v)
  {
    RowsKnownAfter(l.w.server, l.w.channel, l.quiet, Shown(l.w), l.rows);
    if Unmarked(v.w) {
      forall id | id in Shown(v.w) ensures Accounted(v.w.channel, v.rows, v.quiet, id) {
        RowAccountedAfter(l.w.channel, l.quiet, Shown(l.w), l.rows, id);
      }
    }
  }

  /** The list gets marks, or nothing happens to it. */
  lemma ListUntouched(l: Lived, v: Lived)
    requires ListInSync(l) && Base(v) && v.w.registered && Listening(v.w)
    requires v.w.server == l.w.server && v.rows == l.rows && v.quiet == l.quiet
    requires v.w.channel == l.w.channel || (l.w.channel != [] && l.w.channel[0].AuthAck? && v.w.channel == l.w.channel[1..])
    requires DataOpt(v.w.cache.list) == DataOpt(l.w.cache.list) && (Unmarked(v.w) ==> Unmarked(l.w))
    ensures ListInSync(v)
  {
    assert Shown(v.w) == Shown(l.w);
    forall id ensures Accounted(l.w.channel, l.rows, l.quiet, id) ==> Accounted(v.w.channel, v.rows, v.quiet, id) {
      if v.w.channel != l.w.channel { PendingHead(l.w.channel, id); }
    }
    forall id, copy ensures Drain(l.w.channel, id, copy) == Drain(v.w.channel, id, copy) {}
  }

  lemma AnnounceList(l: Lived, m: Msg)
    requires ListInSync(l) && Base(AnnounceL(l, m)) && (m.IssueUpdated? || m.IssueDeleted? ==> m.id in l.w.server)
    ensures ListInSync(AnnounceL(l, m))
  {
    AnnouncedKeepsKnown(l.w.server, l.w.channel, RowsOf(Shown(l.w)), l.rows, m);
    forall id | Accounted(l.w.channel, l.rows, l.quiet, id) { AnnouncedAccounted(l.w.channel, l.rows, l.quiet, m, id); }
  }

  lemma RewriteList(l: Lived, changes: map<Id, Patch>)
    requires ListInSync(l)
    ensures ListInSync(RewriteL(l, changes))
  {
    RewriteBase(l, changes);
    RewrittenLoses(l.w.server, l.w.channel, RowsOf(Shown(l.w)), l.rows, changes);
    forall id | Accounted(l.w.channel, l.rows, l.quiet, id) {
      RewrittenAccounted(l.w.channel, l.rows, l.quiet, changes, id);
    }
  }

  lemma NewIssueKnown(server: map<Id, Issue>, q: seq<Msg>, shown: map<Id, Issue>, rows: FieldMap, i: Issue)
    requires KnownRight(server, q, RowsOf(shown), rows) && i.id !in server && Unmentioned(q, i.id)
    ensures KnownRight(server[i.id := i], q, RowsOf(shown), rows)
  {
    UnmentionedPending(q, i.id);
    forall id, f | id in RowsOf(shown) && f in FieldsAt(rows, id)
      ensures Agree(f, Drain(q, id, Some(RowsOf(shown)[id].data)), Copy(server[i.id := i], id))
    {
      assert Agree(f, Drain(q, id, Some(RowsOf(shown)[id].data)), Copy(server, id));
    }
  }

  lemma CreateList(l: Lived, i: Issue)
    requires ListInSync(l) && i.id != "" && i.id !in l.w.used
    ensures ListInSync(AnnounceL(WithIssue(l, i), IssueCreated(i)))
  {
    CreateBase(l, i);
    NewIssueKnown(l.w.server, l.w.channel, Shown(l.w), l.rows, i);
    NewIssueListed(l, i);
    AnnounceList(WithIssue(l, i), IssueCreated(i));
  }

  lemma NewIssueListed(l: Lived, i: Issue)
    requires ListInSync(l) && Base(WithIssue(l, i))
    requires KnownRight(l.w.server[i.id := i], l.w.channel, RowsOf(Shown(l.w)), l.rows)
    ensures ListInSync(WithIssue(l, i))
  {
  }

  lemma ServerList(l: Lived, s: Step)
    requires ListInSync(l) && ServerStep(s)
    ensures ListInSync(NextL(l, Protocol(s)))
  {
    ServerBase(l, s);
    if NextL(l, Protocol(s)) != l {
      match s
      case ServerCreate(i) => CreateList(l, i);
      case ServerUpdate(id, p) => AnnounceList(l, IssueUpdated(id, p));
      case ServerDelete(id) =>
        RewriteList(l, Orphans(l.w.server, id));
        AnnounceList(RewriteL(l, Orphans(l.w.server, id)), IssueDeleted(id));
      case ServerSilent(changes) =>
        RewriteList(l, changes);
        AnnounceList(RewriteL(l, changes), OtherEvent);
    }
  }

  /** What the read left out of `quiet` is right at once. */
  lemma ReadRight(server: map<Id, Issue>, q: seq<Msg>, quiet: FieldMap, id: Id, f: Field)
    requires Absorbed(server, q, quiet) && id in server
    requires f !in FieldsAt(quiet, id) * Fields(Pending(q, id))
    ensures Agree(f, Drain(q, id, Some(server[id])), Copy(server, id))
  {
    DrainForm(q, id, server[id]);
    MergeOn(f, server[id], server[id], Pending(q, id));
  }

  lemma ReadKnown(server: map<Id, Issue>, q: seq<Msg>, quiet: FieldMap, shown: map<Id, Issue>, rows: FieldMap)
    requires Absorbed(server, q, quiet)
    requires forall id :: id in shown ==> id in server && server[id] == shown[id]
    requires forall id, f :: f in FieldsAt(rows, id) ==> f !in FieldsAt(quiet, id) * Fields(Pending(q, id))
    ensures KnownRight(server, q, RowsOf(shown), rows)
  {
    forall id, f | id in RowsOf(shown) && f in FieldsAt(rows, id)
      ensures Agree(f, Drain(q, id, Some(RowsOf(shown)[id].data)), Copy(server, id))
    {
      ReadRight(server, q, quiet, id, f);
    }
  }

  /** The fields known after a read and those still quiet are all fields. */
  lemma ReadFields(l: Lived, c: ListCache, id: Id)
    requires id in View(c)
    ensures Accounted(l.w.channel, ReadList(l, c).rows, ReadList(l, c).quiet, id)
  {
    var v := ReadList(l, c);
    AllFields(FieldsAt(v.rows, id) + Fields(Pending(l.w.channel, id)) + FieldsAt(v.quiet, id));
    assert FIELDS <= FieldsAt(v.rows, id) + FieldsAt(v.quiet, id);
  }

  lemma ReadLearnt(l: Lived, c: ListCache, id: Id, f: Field)
    requires f in FieldsAt(ReadList(l, c).rows, id)
    ensures f !in FieldsAt(l.quiet, id) * Fields(Pending(l.w.channel, id))
  {
  }

  /** A read of the list while registered and listening. */
  lemma ReadInSync(l: Lived, c: ListCache)
    requires Base(l) && l.w.registered && Listening(l.w) && GoodRead(l.w, c)
    ensures ListInSync(ReadList(l, c))
  {
    var v, shown := ReadList(l, c), View(c);
    ReadBase(l, c);
    forall id, f | f in FieldsAt(v.rows, id) { ReadLearnt(l, c, id, f); }
    ReadKnown(l.w.server, l.w.channel, l.quiet, shown, v.rows);
    forall id | id in shown { ReadFields(l, c, id); }
    ListFrom(v, shown);
  }

  lemma ListFrom(v: Lived, shown: map<Id, Issue>)
    requires Base(v) && v.w.registered && Listening(v.w)
    requires v.w.cache.list.Some? && Consistent(v.w.cache.list.value.data) && Shown(v.w) == shown
    requires KnownRight(v.w.server, v.w.channel, RowsOf(shown), v.rows)
    requires forall id :: id in shown ==> Accounted(v.w.channel, v.rows, v.quiet, id)
    ensures ListInSync(v)
  {
  }

  lemma HandledInSync(l: Lived, v: Lived)
    requires ListInSync(l) && ListHandled(l, v) && !l.w.channel[0].AuthAck?
    requires Base(v) && v.w.registered && Listening(v.w)
    ensures ListInSync(v)
  {
    RowsStay(l, v);
  }

  lemma AckDelivered(l: Lived)
    requires ListInSync(l) && l.w.net.phase.Open? && l.w.channel != [] && l.w.channel[0].AuthAck?
    requires Base(NextL(l, Protocol(Deliver)))
    ensures ListInSync(NextL(l, Protocol(Deliver)))
  {
    ListUntouched(l, NextL(l, Protocol(Deliver)));
  }

  lemma DeliverInSync(l: Lived)
    requires ListInSync(l) && ListDelivery(l) && l.w.net.phase.Open? && l.w.channel != []
    ensures ListInSync(NextL(l, Protocol(Deliver)))
  {
    DequeueBase(l);
    if l.w.channel[0].AuthAck? {
      AckDelivered(l);
    } else {
      DeliverList(l);
      HandledInSync(l, NextL(l, Protocol(Deliver)));
    }
  }

  lemma AckInSync(l: Lived)
    requires ListInSync(l)
    ensures ListInSync(NextL(l, Protocol(ServerAck)))
  {
    ClientBase(l, ServerAck);
    var w := l.w;
    AnnouncedKeepsKnown(w.server, w.channel, RowsOf(Shown(w)), l.rows, AuthAck);
    forall id | Accounted(w.channel, l.rows, l.quiet, id) { AnnouncedAccounted(w.channel, l.rows, l.quiet, AuthAck, id); }
  }

  lemma ClientInSync(l: Lived, s: Step)
    requires ListInSync(l) && !ServerStep(s) && !s.Deliver? && !s.ServerAck? && !Breaks(s)
    ensures ListInSync(NextL(l, Protocol(s)))
  {
    ClientBase(l, s);
    ListUntouched(l, NextL(l, Protocol(s)));
  }

  lemma StepInSync(l: Lived, e: Event)
    requires ListInSync(l) && (e.Protocol? ==> !Breaks(e.step) && (e.step.Deliver? ==> ListDelivery(l)))
    ensures ListInSync(NextL(l, e))
  {
    match e
    case FetchList(c) => if GoodRead(l.w, c) { ReadInSync(l, c); }
    case Protocol(s) =>
      if ServerStep(s) { ServerList(l, s); }
      else if s.Deliver? { if l.w.net.phase.Open? && l.w.channel != [] { DeliverInSync(l); } }
      else if s.ServerAck? { AckInSync(l); }
      else { ClientInSync(l, s); }
  }

  lemma {:induction false} ListStaysInSync(l: Lived, events: seq<Event>)
    requires ListInSync(l) && OrderlyL(l, events)
    ensures ListInSync(RunL(l, events))
    decreases |events|
  {
    if events != [] {
      StepInSync(l, events[0]);
      ListStaysInSync(NextL(l, events[0]), events[1..]);
    }
  }

  /** Every visible row of an unmarked list is right up to the queue, except in fields changed silently. */
  ghost predicate RowsConverged(l: Lived) {
    Unmarked(l.w) ==> forall id, f ::
      (id in Shown(l.w) && f in FIELDS && (f !in FieldsAt(l.quiet, id) || DeletionQueued(l.w.channel, id))) ==>
        Agree(f, Drain(l.w.channel, id, Some(Shown(l.w)[id])), Copy(l.w.server, id))
  }

  lemma InSyncConverged(l: Lived)
    requires ListInSync(l)
    ensures RowsConverged(l)
  {
    if Unmarked(l.w) {
      forall id, f | id in Shown(l.w) && f in FIELDS && (f !in FieldsAt(l.quiet, id) || DeletionQueued(l.w.channel, id))
        ensures Agree(f, Drain(l.w.channel, id, Some(Shown(l.w)[id])), Copy(l.w.server, id))
      {
        if f in FieldsAt(l.rows, id) {
          assert id in RowsOf(Shown(l.w));
        } else {
          assert Accounted(l.w.channel, l.rows, l.quiet, id);
          PendingAgrees(l.w.server, l.w.channel, l.quiet, id, Shown(l.w)[id], f);
        }
      }
    }
  }

  /**
   * The list converges. After any history, once a registered and listening client has read the list: in
   * every state until the next drop each visible row of an unmarked list, those of created issues included,
   * equals the server's issue up to the events still queued, in every field but those changed silently and
   * neither announced nor read since.
   */
  lemma {:induction false} ListConverges(w: World, before: seq<Event>, c: ListCache, after: seq<Event>)
    requires Init(w)
    requires var l := RunL(Lived(w, map[], map[]), before);
      l.w.registered && Listening(l.w) && GoodRead(l.w, c) && OrderlyL(ReadList(l, c), after)
    ensures RowsConverged(RunL(ReadList(RunL(Lived(w, map[], map[]), before), c), after))
  {
    InitInv(w);
    BornQuiet(w.server, w.channel, map[]);
    RunBase(Lived(w, map[], map[]), before);
    var l := RunL(Lived(w, map[], map[]), before);
    ReadInSync(l, c);
    ListStaysInSync(ReadList(l, c), after);
    InSyncConverged(RunL(ReadList(l, c), after));
  }

  /** Every re-authentication of a listening client marks the list, and all that goes with it. */
  lemma ReauthenticationMarksList(w: World, s: Step, k: string)
    requires Reauthenticates(w, s) && Listening(w)
    ensures var c := Next(w, s).cache;
      && MarkedOptIff(w.cache.list, c.list, true) && MarkedOptIff(w.cache.progress, c.progress, true)
      && MarkedIff(w.cache.my, c.my, k, true) && MarkedIff(w.cache.children, c.children, k, true)
  {
  }

  /** `l` after `s`, with nothing taken to be known of the rows. */
  function Reauthenticated(l: Lived, s: Step): Lived {
    Lived(Next(l.w, s), map[], l.quiet)
  }

  /**
   * The list after a re-authentication over a registered connection, in any reachable state (see `RunBase`),
   * whatever it has missed: it is marked, and in every state until the next drop an unmarked list is right as
   * in `ListConverges`.
   */
  lemma ListResyncConverges(l: Lived, s: Step, after: seq<Event>)
    requires Base(l) && Reauthenticates(l.w, s) && Listening(l.w) && Next(l.w, s).registered
    requires l.w.cache.list.Some? ==> Consistent(l.w.cache.list.value.data)
    requires OrderlyL(Reauthenticated(l, s), after)
    ensures !Unmarked(Next(l.w, s)) && RowsConverged(RunL(Reauthenticated(l, s), after))
  {
    ReauthenticatedInSync(l, s);
    ListStaysInSync(Reauthenticated(l, s), after);
    InSyncConverged(RunL(Reauthenticated(l, s), after));
  }

  lemma ReauthenticatedInSync(l: Lived, s: Step)
    requires Base(l) && Reauthenticates(l.w, s) && Listening(l.w) && Next(l.w, s).registered
    requires l.w.cache.list.Some? ==> Consistent(l.w.cache.list.value.data)
    ensures !Unmarked(Next(l.w, s)) && ListInSync(Reauthenticated(l, s))
  {
    StepBase(l, Protocol(s));
    SameProtocol(l, s);
    ReauthenticationMarksList(l.w, s, "");
  }

  /**
   * Why the mark of the list matters: when writes clear marks, an event of any issue unmarks the whole
   * list, and what another row has missed is shown as current.
   */
  lemma UnrelatedEventFreezes(w: World, id: Id, f: Field, k: Id, p: Patch)
    requires WellFormed(w) && w.net.phase.Open? && Listening(w) && w.channel == [IssueUpdated(k, p)] && k != id
    requires w.cache.resetsOnWrite && w.cache.list.Some? && w.cache.list.value.invalid
    requires Consistent(w.cache.list.value.data)
    requires id in Shown(w) && id in w.server && !SameOn(f, Shown(w)[id], w.server[id])
    ensures var v := Next(w, Deliver);
      && v.channel == [] && v.server == w.server && Unmarked(v)
      && id in Shown(v) && !SameOn(f, Shown(v)[id], v.server[id])
  {
    var list := w.cache.list.value.data;
    assert w.channel[0] in w.channel;
    HandledRows(list, w.channel[0]);
    HandledMark(w.cache, w.channel[0]);
    DeliveredList(w);
    RowUntouched(Shown(w), id, k, p);
  }

  lemma RowUntouched(shown: map<Id, Issue>, id: Id, k: Id, p: Patch)
    requires id in shown && k != id
    ensures var after := ShownAfter(shown, IssueUpdated(k, p)); id in after && after[id] == shown[id]
  {
  }

  lemma DeliveredList(w: World)
    requires w.net.phase.Open? && Listening(w) && w.channel != [] && !w.channel[0].AuthAck?
    ensures var v := Next(w, Deliver);
      v.channel == w.channel[1..] && v.server == w.server && v.cache == Handled(w.cache, w.channel[0], true)
  {
  }
}
