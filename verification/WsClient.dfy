/**
 * The WebSocket client: its sockets and reconnect timers, its authentication state, and its dispatch of
 * issue events (packages/core/api/ws-client.ts, with the handlers registered by use-realtime-sync.ts).
 */
module WsClient {
  import opened Prelude
  import opened Issues
  import opened BucketCache
  import opened BucketRefinement
  import opened QueryCache
  import WsUpdaters

  datatype Msg =
    | AuthAck
    | IssueCreated(issue: Issue)
    | IssueUpdated(id: Id, patch: Patch)
    | IssueDeleted(id: Id)
    | OtherEvent

  datatype Phase = NoSocket | Connecting | Open | Closed

  /**
   * The connection as seen by the protocol: `Closed` means a reconnect is scheduled. `attached`: the
   * realtime handlers and the reconnect callback are registered. `tokenAuth`: a token is to be sent first.
   */
  datatype Net = Net(phase: Phase, hasConnectedBefore: bool, attached: bool, tokenAuth: bool)

  // ----- what the registered callbacks do to the query cache -----

  const WORKSPACE_COLLECTIONS: set<Collection> :=
    {Collection.Inbox, Agents, Members, Skills, Projects, Runtimes, Autopilots}

  /** The reconnect callback: everything of the workspace is marked for refetch, then the workspace list. */
  function Resynced(c: Cache, wsKnown: bool): Cache {
    var d :=
      if wsKnown then
        c.(list := MarkOpt(c.list), my := MarkAll(c.my), detail := MarkAll(c.detail),
           children := MarkAll(c.children), progress := MarkOpt(c.progress),
           collections := MarkCollections(c.collections, WORKSPACE_COLLECTIONS))
      else c;
    d.(collections := MarkCollections(d.collections, {WorkspaceList}))
  }

  /** The issue event handlers; `wsKnown` is whether `getCurrentWsId()` yields the workspace. */
  function Handled(c: Cache, msg: Msg, wsKnown: bool): Cache {
    match msg
    case IssueCreated(issue) => if wsKnown then WsUpdaters.Created(c, issue) else c
    case IssueUpdated(id, p) => if id != "" && wsKnown then WsUpdaters.Updated(c, id, p) else c
    case IssueDeleted(id) => if id != "" && wsKnown then WsUpdaters.Deleted(c, id) else c
    case _ => c
  }

  function AuthenticatedCache(n: Net, c: Cache, wsKnown: bool): Cache {
    if n.hasConnectedBefore && n.attached then Resynced(c, wsKnown) else c
  }

  // ----- which entries a reconnection leaves alone -----

  /** The reconnect callbacks of a mounted issue page: its timeline, reactions and subscribers. */
  function PageResynced(c: Cache, id: Id): Cache {
    c.(timeline := Mark(c.timeline, id), reactions := Mark(c.reactions, id), subscribers := Mark(c.subscribers, id))
  }

  function PagesResynced(c: Cache, mounted: seq<Id>): Cache
    decreases |mounted|
  {
    if mounted == [] then c else PagesResynced(PageResynced(c, mounted[0]), mounted[1..])
  }

  lemma {:induction false} PagesMark(c: Cache, mounted: seq<Id>, id: Id)
    ensures var d := PagesResynced(c, mounted);
      && d == c.(timeline := d.timeline, reactions := d.reactions, subscribers := d.subscribers)
      && MarkedIff(c.timeline, d.timeline, id, id in mounted)
      && MarkedIff(c.reactions, d.reactions, id, id in mounted)
      && MarkedIff(c.subscribers, d.subscribers, id, id in mounted)
    decreases |mounted|
  {
    if mounted != [] { PagesMark(PageResynced(c, mounted[0]), mounted[1..], id); }
  }

  /**
   * All callbacks of a reconnection together: no data changes; with the workspace known, everything under
   * its issue key is marked (the list, my-lists, details, child lists, progress) and every collection of it;
   * the workspace list is marked in any case; an issue's timeline, reactions and subscribers only if its
   * page is mounted.
   */
  lemma ReconnectMarks(c: Cache, mounted: seq<Id>, wsKnown: bool, id: Id, k: Collection)
    ensures var d := Resynced(PagesResynced(c, mounted), wsKnown);
      && MarkedOptIff(c.list, d.list, wsKnown) && MarkedOptIff(c.progress, d.progress, wsKnown)
      && MarkedIff(c.my, d.my, id, wsKnown)
      && MarkedIff(c.detail, d.detail, id, wsKnown) && MarkedIff(c.children, d.children, id, wsKnown)
      && (k in d.collections <==> k in c.collections)
      && (k in c.collections ==> d.collections[k] == (c.collections[k] || wsKnown || k == WorkspaceList))
      && MarkedIff(c.timeline, d.timeline, id, id in mounted)
      && MarkedIff(c.reactions, d.reactions, id, id in mounted)
      && MarkedIff(c.subscribers, d.subscribers, id, id in mounted)
  {
    PagesMark(c, mounted, id);
    if wsKnown { CollectionsMarked(PagesResynced(c, mounted).collections, k); }
  }

  lemma CollectionsMarked(m: map<Collection, bool>, k: Collection)
    ensures k != WorkspaceList ==> k in WORKSPACE_COLLECTIONS
  {
  }

  // ----- a deleted issue stays deleted -----

  /** The issue is neither among the cached details nor in any column of the list. */
  ghost predicate Gone(c: Cache, id: Id) {
    && id !in c.detail
    && (c.list.Some? ==> Absent(c.list.value.data, id))
  }

  ghost predicate Absent(c: ListCache, id: Id) {
    forall s :: s in c.byStatus && s != Cancelled ==> id !in IdsOf(c.byStatus[s].issues)
  }

  lemma AbsentIffNotFound(c: ListCache, id: Id)
    ensures Absent(c, id) <==> FindIssueLocation(c, id).None?
  {
    forall s { PaginatedIff(s); }
  }

  lemma AddKeepsAbsent(c: ListCache, i: Issue, id: Id)
    requires Absent(c, id) && i.id != id
    ensures Absent(AddIssueToBuckets(c, i), id)
  {
    var issues := GetBucket(c, i.status).issues;
    IdsOfAppend(issues, i);
  }

  lemma PatchKeepsAbsent(c: ListCache, k: Id, p: Patch, id: Id)
    requires Absent(c, id)
    ensures Absent(PatchIssueInBuckets(c, k, p), id)
  {
    AbsentIffNotFound(c, id);
    var loc := FindIssueLocation(c, k);
    if loc.Some? {
      var d, m := PatchIssueInBuckets(c, k, p), Merge(loc.value.issue, p);
      PaginatedIff(loc.value.status);
      forall s, i | s in d.byStatus && s != Cancelled && i in d.byStatus[s].issues ensures i.id != id {
        assert i == m || (s in c.byStatus && i in c.byStatus[s].issues && i.id in IdsOf(c.byStatus[s].issues));
      }
    }
  }

  lemma RemoveKeepsAbsent(c: ListCache, k: Id, id: Id)
    requires Absent(c, id)
    ensures Absent(RemoveIssueFromBuckets(c, k), id)
  {
    var loc := FindIssueLocation(c, k);
    if loc.Some? {
      var d := RemoveAt(c, loc.value);
      forall s, i | s in d.byStatus && s != Cancelled && i in d.byStatus[s].issues ensures i.id != id {
        assert i in c.byStatus[s].issues && i.id in IdsOf(c.byStatus[s].issues);
      }
    }
  }

  function HandledList(c: ListCache, m: Msg): ListCache {
    match m
    case IssueCreated(i) => AddIssueToBuckets(c, i)
    case IssueUpdated(k, p) => if k != "" then PatchIssueInBuckets(c, k, p) else c
    case IssueDeleted(k) => if k != "" then RemoveIssueFromBuckets(c, k) else c
    case _ => c
  }

  lemma HandledKeepsAbsent(c: ListCache, m: Msg, id: Id)
    requires Absent(c, id) && (m.IssueCreated? ==> m.issue.id != id)
    ensures Absent(HandledList(c, m), id)
  {
    match m
    case IssueCreated(i) => AddKeepsAbsent(c, i, id);
    case IssueUpdated(k, p) => PatchKeepsAbsent(c, k, p, id);
    case IssueDeleted(k) => RemoveKeepsAbsent(c, k, id);
    case _ =>
  }

  lemma HandledListOf(c: Cache, m: Msg)
    ensures DataOpt(Handled(c, m, true).list) == if c.list.None? then None else Some(HandledList(c.list.value.data, m))
  {
  }

  lemma HandledKeepsGone(c: Cache, m: Msg, id: Id)
    requires Gone(c, id) && (m.IssueCreated? ==> m.issue.id != id)
    ensures Gone(Handled(c, m, true), id)
  {
    HandledListOf(c, m);
    if c.list.Some? { HandledKeepsAbsent(c.list.value.data, m, id); }
  }

  lemma RemovedIsAbsent(c: ListCache, id: Id)
    requires Consistent(c)
    ensures Absent(RemoveIssueFromBuckets(c, id), id)
  {
    RemoveRefines(c, id);
    ViewIsLookup(RemoveIssueFromBuckets(c, id), id);
    AbsentIffNotFound(RemoveIssueFromBuckets(c, id), id);
  }

  function HandledAll(c: Cache, ms: seq<Msg>): Cache
    decreases |ms|
  {
    if ms == [] then c else HandledAll(Handled(c, ms[0], true), ms[1..])
  }

  lemma {:induction false} GoneStays(c: Cache, ms: seq<Msg>, id: Id)
    requires Gone(c, id) && forall m :: m in ms && m.IssueCreated? ==> m.issue.id != id
    ensures Gone(HandledAll(c, ms), id)
    decreases |ms|
  {
    if ms != [] {
      assert ms[0] in ms && forall m :: m in ms[1..] ==> m in ms;
      HandledKeepsGone(c, ms[0], id);
      GoneStays(Handled(c, ms[0], true), ms[1..], id);
    }
  }

  /** After a deletion event no later update, of this or any other issue, brings the issue back. */
  lemma DeletedStaysGone(c: Cache, id: Id, ms: seq<Msg>)
    requires id != "" && (c.list.Some? ==> Consistent(c.list.value.data))
    requires forall m :: m in ms && m.IssueCreated? ==> m.issue.id != id
    ensures Gone(HandledAll(Handled(c, IssueDeleted(id), true), ms), id)
  {
    var d := Handled(c, IssueDeleted(id), true);
    HandledListOf(c, IssueDeleted(id));
    if c.list.Some? { RemovedIsAbsent(c.list.value.data, id); }
    GoneStays(d, ms, id);
  }

  // ----- sockets and timers -----

  /**
   * `sockets` are those that can still call back, with whether they have opened; `timers` are the
   * scheduled reconnects. The client itself remembers one of each. Numbers are never used twice.
   */
  datatype Links = Links(ws: Option<nat>, sockets: map<nat, bool>, timers: set<nat>,
                         reconnectTimer: Option<nat>, next: nat)

  const UNCONNECTED: Links := Links(None, map[], {}, None, 0)

  datatype LinkStep = Dial | Opens(socket: nat) | Drops(socket: nat) | Fires(timer: nat) | Stop

  /** `connect()`: it does not look at what is there already. */
  function Dialed(l: Links): Links {
    l.(ws := Some(l.next), sockets := l.sockets[l.next := false], next := l.next + 1)
  }

  /** `onclose`: every socket that drops schedules a reconnect. */
  function Dropped(l: Links, socket: nat): Links {
    l.(sockets := l.sockets - {socket}, timers := l.timers + {l.next}, reconnectTimer := Some(l.next), next := l.next + 1)
  }

  /** `disconnect()`: it stops the remembered timer and the remembered socket. */
  function Stopped(l: Links): Links {
    Links(None,
          if l.ws.Some? then l.sockets - {l.ws.value} else l.sockets,
          if l.reconnectTimer.Some? then l.timers - {l.reconnectTimer.value} else l.timers,
          None, l.next)
  }

  function NextLinks(l: Links, s: LinkStep): Links {
    match s
    case Dial => Dialed(l)
    case Opens(k) => if k in l.sockets then l.(sockets := l.sockets[k := true]) else l
    case Drops(k) => if k in l.sockets then Dropped(l, k) else l
    case Fires(t) => if t in l.timers then Dialed(l.(timers := l.timers - {t})) else l
    case Stop => Stopped(l)
  }

  function RunLinks(l: Links, steps: seq<LinkStep>): Links
    decreases |steps|
  {
    if steps == [] then l else RunLinks(NextLinks(l, steps[0]), steps[1..])
  }

  /** The client remembers every socket and every timer it has under way. */
  ghost predicate Owned(l: Links) {
    && (forall k :: k in l.sockets ==> l.ws == Some(k))
    && (forall t :: t in l.timers ==> l.reconnectTimer == Some(t))
  }

  predicate Dead(l: Links) {
    l.sockets == map[] && l.timers == {}
  }

  lemma {:induction false} DeadStays(l: Links, steps: seq<LinkStep>)
    requires Dead(l) && Dial !in steps
    ensures Dead(RunLinks(l, steps))
    decreases |steps|
  {
    if steps != [] {
      assert steps[0] in steps && forall s :: s in steps[1..] ==> s in steps;
      DeadStays(NextLinks(l, steps[0]), steps[1..]);
    }
  }

  /**
   * `disconnect()` is final, in that no socket is ever open again unless somebody calls `connect()`,
   * exactly if the client remembered everything it had under way.
   */
  lemma StopFinalExact(l: Links)
    ensures (forall steps :: Dial !in steps ==> RunLinks(Stopped(l), steps).sockets == map[]) <==> Owned(l)
  {
    if Owned(l) {
      assert Dead(Stopped(l));
      forall steps | Dial !in steps ensures RunLinks(Stopped(l), steps).sockets == map[] {
        DeadStays(Stopped(l), steps);
      }
    } else if k :| k in l.sockets && l.ws != Some(k) {
      var none: seq<LinkStep> := [];
      assert Dial !in none && k in RunLinks(Stopped(l), none).sockets;
    } else {
      var t :| t in l.timers && l.reconnectTimer != Some(t);
      var once := [Fires(t)];
      assert Dial !in once && once[1..] == [];
      assert l.next in RunLinks(Stopped(l), once).sockets;
    }
  }

  // ----- one connection at a time -----

  /** At most one socket or one scheduled reconnect, and the client remembers which. */
  ghost predicate Tidy(l: Links) {
    && (forall k :: k in l.sockets ==> k < l.next)
    && (forall t :: t in l.timers ==> t < l.next)
    && match l.ws
       case None => Dead(l)
       case Some(k) =>
         || (l.sockets.Keys == {k} && l.timers == {})
         || (l.sockets == map[] && l.reconnectTimer.Some? && l.timers == {l.reconnectTimer.value})
  }

  function PhaseOf(l: Links): Phase {
    match l.ws
    case None => NoSocket
    case Some(k) => if k !in l.sockets then Closed else if l.sockets[k] then Open else Connecting
  }

  predicate Enabled(l: Links, s: LinkStep) {
    match s
    case Opens(k) => k in l.sockets
    case Drops(k) => k in l.sockets
    case Fires(t) => t in l.timers
    case _ => true
  }

  /** The same steps on the phase alone. */
  function PhaseAfter(p: Phase, s: LinkStep): Phase {
    match s
    case Dial => if p.NoSocket? then Connecting else p
    case Opens(_) => if p.Connecting? then Open else p
    case Drops(_) => if p.Connecting? || p.Open? then Closed else p
    case Fires(_) => if p.Closed? then Connecting else p
    case Stop => NoSocket
  }

  /** As long as `connect()` is only called on an unconnected client, the phase says it all. */
  lemma TidyStep(l: Links, s: LinkStep)
    requires Tidy(l) && (s.Dial? ==> l.ws.None?)
    ensures Tidy(NextLinks(l, s))
    ensures PhaseOf(NextLinks(l, s)) == if Enabled(l, s) then PhaseAfter(PhaseOf(l), s) else PhaseOf(l)
  {
    match s
    case Drops(k) => if k in l.sockets { assert Dropped(l, k).sockets == map[]; }
    case Fires(t) => if t in l.timers { assert l.timers - {t} == {}; }
    case Stop => StopTidy(l);
    case _ =>
  }

  lemma StopTidy(l: Links)
    requires Tidy(l)
    ensures Dead(Stopped(l))
  {
    if l.ws.Some? && l.sockets != map[] {
      assert l.sockets - {l.ws.value} == map[];
    }
  }

  /** `connect()` is only called on a client that has never been connected, or not since `disconnect()`. */
  ghost predicate Guarded(l: Links, steps: seq<LinkStep>)
    decreases |steps|
  {
    steps != [] ==> (steps[0].Dial? ==> l.ws.None?) && Guarded(NextLinks(l, steps[0]), steps[1..])
  }

  /**
   * Over all such runs: never two sockets, never a socket beside a scheduled reconnect; and from
   * `connect()` to `disconnect()` always one of them, so the client never gives up.
   */
  lemma {:induction false} GuardedTidy(l: Links, steps: seq<LinkStep>)
    requires Tidy(l) && Guarded(l, steps)
    ensures Tidy(RunLinks(l, steps))
    ensures l.ws.Some? && Stop !in steps ==> RunLinks(l, steps).ws.Some?
    decreases |steps|
  {
    if steps != [] {
      assert steps[0] in steps && forall s :: s in steps[1..] ==> s in steps;
      TidyStep(l, steps[0]);
      GuardedTidy(NextLinks(l, steps[0]), steps[1..]);
    }
  }

  lemma {:induction false} UndialledGuarded(l: Links, steps: seq<LinkStep>)
    requires Dial !in steps
    ensures Guarded(l, steps)
    decreases |steps|
  {
    if steps != [] {
      assert steps[0] in steps && forall s :: s in steps[1..] ==> s in steps;
      UndialledGuarded(NextLinks(l, steps[0]), steps[1..]);
    }
  }

  /** No socket is open after `connect()`, anything but `connect()`, `disconnect()`, and anything but `connect()`. */
  ghost predicate Undoable(l: Links) {
    forall steps, later :: Dial !in steps && Dial !in later ==>
      RunLinks(Stopped(RunLinks(Dialed(l), steps)), later).sockets == map[]
  }

  /**
   * What the missing guard costs. A `connect()` is undone by a later `disconnect()` exactly if it was
   * made on an unconnected client; a second one leaves a socket that outlives `disconnect()`.
   */
  lemma ConnectUndoableExact(l: Links)
    requires Tidy(l)
    ensures Undoable(l) <==> l.ws.None?
  {
    if l.ws.None? {
      forall steps, later | Dial !in steps && Dial !in later
        ensures RunLinks(Stopped(RunLinks(Dialed(l), steps)), later).sockets == map[]
      {
        TidyStep(l, Dial);
        UndialledGuarded(Dialed(l), steps);
        GuardedTidy(Dialed(l), steps);
        StopTidy(RunLinks(Dialed(l), steps));
        DeadStays(Stopped(RunLinks(Dialed(l), steps)), later);
      }
    } else {
      SecondConnect(l);
    }
  }

  lemma SecondConnect(l: Links)
    requires Tidy(l) && l.ws.Some?
    ensures !Undoable(l)
  {
    var none: seq<LinkStep> := [];
    assert Dial !in none;
    if l.sockets != map[] {
      assert l.ws.value in RunLinks(Stopped(RunLinks(Dialed(l), none)), none).sockets;
    } else {
      var once := [Fires(l.reconnectTimer.value)];
      assert Dial !in once && once[1..] == none;
      assert l.next in RunLinks(Stopped(RunLinks(Dialed(l), once)), none).sockets;
    }
  }

  // ----- the client -----

  class WSClient {
    var ws: Option<nat>
    var sockets: map<nat, bool>
    var timers: set<nat>
    var reconnectTimer: Option<nat>
    var next: nat
    var hasConnectedBefore: bool
    var attached: bool
    const tokenAuth: bool

    constructor (tokenAuth: bool)
      ensures ThisLinks() == UNCONNECTED && State() == Net(NoSocket, false, false, tokenAuth)
    {
      this.tokenAuth := tokenAuth;
      ws, sockets, timers, reconnectTimer, next := None, map[], {}, None, 0;
      hasConnectedBefore, attached := false, false;
    }

    function ThisLinks(): Links
      reads this
    {
      Links(ws, sockets, timers, reconnectTimer, next)
    }

    function State(): Net
      reads this
    {
      Net(PhaseOf(ThisLinks()), hasConnectedBefore, attached, tokenAuth)
    }

    /** `useRealtimeSync` registers its handlers and its reconnect callback. */
    method Attach()
      modifies this`attached
      ensures State() == old(State()).(attached := true)
    {
      attached := true;
    }

    method Connect()
      modifies this`ws, this`sockets, this`next
      ensures ThisLinks() == NextLinks(old(ThisLinks()), Dial)
    {
      ws := Some(next);
      sockets := sockets[next := false];
      next := next + 1;
    }

    /** The callback scheduled by `OnClose`. */
    method OnTimer(timer: nat)
      requires timer in timers
      modifies this`ws, this`sockets, this`next, this`timers
      ensures ThisLinks() == NextLinks(old(ThisLinks()), Fires(timer))
    {
      timers := timers - {timer};
      Connect();
    }

    method OnAuthenticated(qc: QueryClient, wsKnown: bool)
      modifies this`hasConnectedBefore, qc
      ensures hasConnectedBefore
      ensures qc.Value() == AuthenticatedCache(old(State()), old(qc.Value()), wsKnown)
    {
      if hasConnectedBefore {
        if attached {
          OnReconnect(qc, wsKnown);
        }
      }
      hasConnectedBefore := true;
    }

    method OnReconnect(qc: QueryClient, wsKnown: bool)
      modifies qc
      ensures qc.Value() == Resynced(old(qc.Value()), wsKnown)
    {
      if wsKnown {
        qc.list := MarkOpt(qc.list);
        qc.my := MarkAll(qc.my);
        qc.detail := MarkAll(qc.detail);
        qc.children := MarkAll(qc.children);
        qc.progress := MarkOpt(qc.progress);
        qc.collections := MarkCollections(qc.collections, WORKSPACE_COLLECTIONS);
      }
      qc.collections := MarkCollections(qc.collections, {WorkspaceList});
    }

    /** In token mode the socket opens unauthenticated; in cookie mode opening is authenticating. */
    method OnOpen(socket: nat, qc: QueryClient, wsKnown: bool)
      requires socket in sockets
      modifies this`sockets, this`hasConnectedBefore, qc
      ensures ThisLinks() == NextLinks(old(ThisLinks()), Opens(socket))
      ensures hasConnectedBefore == (old(hasConnectedBefore) || !tokenAuth)
      ensures qc.Value()
              == if tokenAuth then old(qc.Value()) else AuthenticatedCache(old(State()), old(qc.Value()), wsKnown)
    {
      sockets := sockets[socket := true];
      if tokenAuth { return; }
      OnAuthenticated(qc, wsKnown);
    }

    method OnMessage(msg: Msg, qc: QueryClient, wsKnown: bool)
      modifies this`hasConnectedBefore, qc
      ensures hasConnectedBefore == (old(hasConnectedBefore) || msg.AuthAck?)
      ensures qc.Value() == if msg.AuthAck? then AuthenticatedCache(old(State()), old(qc.Value()), wsKnown)
                            else Handled(old(qc.Value()), msg, wsKnown && attached)
    {
      if msg.AuthAck? {
        OnAuthenticated(qc, wsKnown);
        return;
      }
      if attached && wsKnown {
        match msg
        case IssueCreated(issue) => WsUpdaters.OnIssueCreated(qc, issue);
        case IssueUpdated(id, patch) => if id != "" { WsUpdaters.OnIssueUpdated(qc, id, patch); }
        case IssueDeleted(id) => if id != "" { WsUpdaters.OnIssueDeleted(qc, id); }
        case _ =>
      }
    }

    method OnClose(socket: nat)
      requires socket in sockets
      modifies this`sockets, this`timers, this`reconnectTimer, this`next
      ensures ThisLinks() == NextLinks(old(ThisLinks()), Drops(socket))
    {
      sockets := sockets - {socket};
      timers := timers + {next};
      reconnectTimer := Some(next);
      next := next + 1;
    }

    method Disconnect()
      modifies this
      ensures ThisLinks() == NextLinks(old(ThisLinks()), Stop)
      ensures !hasConnectedBefore && !attached
    {
      if reconnectTimer.Some? {
        timers := timers - {reconnectTimer.value};
        reconnectTimer := None;
      }
      if ws.Some? {
        sockets := sockets - {ws.value};
        ws := None;
      }
      hasConnectedBefore, attached := false, false;
    }
  }
}
