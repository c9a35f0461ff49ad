/**
 * The realtime protocol as a step system: server, FIFO channel, connection and query cache
 * (ws-client.ts, use-realtime-sync.ts, ws-updaters.ts). Sockets open, drop and reconnect at any
 * moment; the server changes issues at any moment, with payloads that carry any fields they like or
 * without any event of the issue; a refetch is one atomic read of the server.
 */
module RealtimeSync {
  import opened Prelude
  import opened Issues
  import opened QueryCache
  import opened WsClient
  import opened Replication

  datatype World = World(
    server: map<Id, Issue>,
    used: set<Id>,            // every id the server has ever given out
    channel: seq<Msg>,        // sent and not yet handled by the client
    registered: bool,         // the server forwards events to this connection
    net: Net,
    wsKnown: bool,            // getCurrentWsId() yields this workspace
    cache: Cache,
    known: FieldMap,          // history: the fields of each detail that the client has read or been told,
                              // and of which it has missed no change since
    silent: FieldMap)         // history: the fields the server has changed without an event of the issue,
                              // and neither announced nor been asked for since

  datatype Step =
    | ServerCreate(issue: Issue)
    | ServerUpdate(id: Id, patch: Patch)
    | ServerDelete(id: Id)
    | ServerSilent(changes: map<Id, Patch>)
    | ServerAck
    | ServerRegister
    | Attach
    | SetWorkspace(wsKnown: bool)
    | Connect
    | SocketOpens
    | Deliver
    | SocketCloses
    | TimerFires
    | Disconnect
    | Fetch(id: Id)
    | Invalidate(id: Id)
    | Evict(id: Id)

  /** The server changes an issue and tells whoever is registered. */
  function Announce(w: World, m: Msg): World {
    var v := w.(server := ServerAfter(w.server, m));
    if w.registered then v.(channel := w.channel + [m], silent := Minus(w.silent, m))
    else v.(known := Minus(w.known, m))
  }

  /** The server changes issues and tells nobody. */
  function Rewrite(w: World, changes: map<Id, Patch>): World {
    w.(server := Rewritten(w.server, changes), known := MinusChanges(w.known, changes),
       silent := PlusChanges(w.silent, changes))
  }

  /** The client considers itself authenticated. */
  function Authenticate(w: World): World {
    w.(cache := AuthenticatedCache(w.net, w.cache, w.wsKnown), net := w.net.(hasConnectedBefore := true))
  }

  predicate Listening(w: World) {
    w.net.attached && w.wsKnown
  }

  function Handle(w: World, m: Msg): World {
    if m.AuthAck? then Authenticate(w)
    else if Listening(w) then w.(cache := Handled(w.cache, m, true), known := Learn(w.known, w.silent, m))
    else w.(known := Minus(w.known, m))
  }

  /** The connection is gone with everything under way. */
  function Unlink(w: World, net: Net): World {
    w.(net := net, channel := [], registered := false, known := MinusAll(w.known, w.channel))
  }

  /** One step; a step that is not possible in `w` changes nothing. */
  function Next(w: World, s: Step): World {
    match s
    case ServerCreate(i) =>
      if i.id == "" || i.id in w.used then w
      else Announce(w.(server := w.server[i.id := i], used := w.used + {i.id}), IssueCreated(i))
    case ServerUpdate(id, p) => if id in w.server then Announce(w, IssueUpdated(id, p)) else w
    case ServerDelete(id) =>
      if id in w.server then Announce(Rewrite(w, Orphans(w.server, id)), IssueDeleted(id)) else w
    case ServerSilent(changes) =>
      if changes.Keys <= w.server.Keys then Announce(Rewrite(w, changes), OtherEvent) else w
    case ServerAck =>
      if w.net.phase.Open? && w.net.tokenAuth then w.(channel := w.channel + [AuthAck]) else w
    case ServerRegister =>
      if w.net.phase.Connecting? || w.net.phase.Open? then w.(registered := true) else w
    case Attach => w.(net := w.net.(attached := true))
    case SetWorkspace(wsKnown) => w.(wsKnown := wsKnown)
    case Connect => if w.net.phase.NoSocket? then w.(net := w.net.(phase := Connecting)) else w
    case SocketOpens =>
      if !w.net.phase.Connecting? then w
      else
        var v := w.(net := w.net.(phase := Open));
        if w.net.tokenAuth then v else Authenticate(v)
    case Deliver =>
      if w.net.phase.Open? && w.channel != [] then Handle(w.(channel := w.channel[1..]), w.channel[0]) else w
    case SocketCloses =>
      if w.net.phase.Connecting? || w.net.phase.Open? then Unlink(w, w.net.(phase := Closed)) else w
    case TimerFires => if w.net.phase.Closed? then w.(net := w.net.(phase := Connecting)) else w
    case Disconnect => Unlink(w, Net(NoSocket, false, false, w.net.tokenAuth))
    case Fetch(id) =>
      if id !in w.server then w
      else w.(cache := w.cache.(detail := w.cache.detail[id := Entry(w.server[id], false)]),
              known := LearnRead(w.known, w.silent, w.channel, id), silent := AfterRead(w.silent, w.channel, id))
    case Invalidate(id) => w.(cache := w.cache.(detail := Mark(w.cache.detail, id)))
    case Evict(id) => w.(cache := w.cache.(detail := w.cache.detail - {id}), known := w.known - {id})
  }

  /** The server changes its issues. */
  predicate ServerStep(s: Step) {
    s.ServerCreate? || s.ServerUpdate? || s.ServerDelete? || s.ServerSilent?
  }

  function Run(w: World, steps: seq<Step>): World
    decreases |steps|
  {
    if steps == [] then w else Run(Next(w, steps[0]), steps[1..])
  }

  // ----- the connection is the client's -----

  function StepOf(s: LinkStep): Step {
    match s
    case Dial => Connect
    case Opens(_) => SocketOpens
    case Drops(_) => SocketCloses
    case Fires(_) => TimerFires
    case Stop => Disconnect
  }

  function ProtocolSteps(l: Links, steps: seq<LinkStep>): seq<Step>
    decreases |steps|
  {
    if steps == [] then []
    else (if Enabled(l, steps[0]) then [StepOf(steps[0])] else []) + ProtocolSteps(NextLinks(l, steps[0]), steps[1..])
  }

  lemma PhaseStep(w: World, s: LinkStep)
    ensures Next(w, StepOf(s)).net.phase == PhaseAfter(w.net.phase, s)
  {
  }

  /** Every guarded run of sockets and timers is a run of this step system, phase by phase. */
  lemma {:induction false} LinksRefine(l: Links, w: World, steps: seq<LinkStep>)
    requires Tidy(l) && Guarded(l, steps) && w.net.phase == PhaseOf(l)
    ensures Run(w, ProtocolSteps(l, steps)).net.phase == PhaseOf(RunLinks(l, steps))
    decreases |steps|
  {
    if steps != [] {
      var s, rest := steps[0], ProtocolSteps(NextLinks(l, steps[0]), steps[1..]);
      TidyStep(l, s);
      if Enabled(l, s) {
        PhaseStep(w, s);
        assert [StepOf(s)] + rest == ProtocolSteps(l, steps) && ([StepOf(s)] + rest)[1..] == rest;
        LinksRefine(NextLinks(l, s), Next(w, StepOf(s)), steps[1..]);
      } else {
        assert [] + rest == rest;
        LinksRefine(NextLinks(l, s), w, steps[1..]);
      }
    }
  }

  // ----- the invariant -----

  ghost predicate Converged(w: World) {
    Converging(w.server, w.channel, w.cache.detail)
  }

  ghost predicate MentionsOnly(q: seq<Msg>, used: set<Id>) {
    forall m :: m in q ==>
      (m.IssueUpdated? || m.IssueDeleted? ==> m.id in used) && (m.IssueCreated? ==> m.issue.id in used)
  }

  ghost predicate WellFormed(w: World) {
    && ServerKeyed(w.server) && DetailKeyed(w.cache.detail)
    && w.server.Keys <= w.used && w.cache.detail.Keys <= w.used && "" !in w.used
    && MentionsOnly(w.channel, w.used)
  }

  /** Before the server has registered the connection, only the acknowledgement is in the channel. */
  ghost predicate QuietUntilRegistered(w: World) {
    !w.registered ==> forall m :: m in w.channel ==> m.AuthAck?
  }

  /** What holds of server and channel whatever the client has missed. */
  ghost predicate Sound(w: World) {
    WellFormed(w) && QuietUntilRegistered(w) && Absorbed(w.server, w.channel, w.silent) && Buried(w.server, w.channel)
  }

  /** What the client knows is right, and nothing of it was changed silently. */
  ghost predicate Informed(w: World) {
    && KnownRight(w.server, w.channel, w.cache.detail, w.known)
    && forall id :: FieldsAt(w.known, id) !! FieldsAt(w.silent, id)
  }

  ghost predicate Inv(w: World) {
    Sound(w) && Informed(w)
  }

  /** Any server, any cache, nothing under way, nothing known. */
  ghost predicate Init(w: World) {
    WellFormed(w) && w.channel == [] && !w.registered && w.known == map[] && w.silent == map[]
  }

  // ----- preservation, step by step -----

  lemma QuietQueue(server: map<Id, Issue>, q: seq<Msg>, silent: FieldMap)
    requires forall m :: m in q ==> m.AuthAck?
    ensures Absorbed(server, q, silent) && Buried(server, q)
    ensures forall id, copy :: Drain(q, id, copy) == copy
  {
    forall id ensures Fields(Pending(q, id)) == {} && !DeletionQueued(q, id) { UnmentionedPending(q, id); }
    forall id, copy ensures Drain(q, id, copy) == copy { UnmentionedPending(q, id); }
    assert forall k :: 0 <= k < |q| ==> q[k] in q;
  }

  lemma InitInv(w: World)
    requires Init(w)
    ensures Inv(w)
  {
    QuietQueue(w.server, w.channel, w.silent);
  }

  lemma AnnounceInv(w: World, m: Msg)
    requires Inv(w) && (m.IssueUpdated? || m.IssueDeleted? ==> m.id in w.server)
    requires m.IssueCreated? ==> m.issue.id in w.used
    ensures Inv(Announce(w, m))
  {
    var v := Announce(w, m);
    assert ServerKeyed(v.server);
    if w.registered {
      AnnouncedAbsorbed(w.server, w.channel, w.silent, m);
      AnnouncedKeepsKnown(w.server, w.channel, w.cache.detail, w.known, m);
    } else {
      QuietQueue(v.server, w.channel, w.silent);
      UnheardLoses(w.server, w.channel, w.cache.detail, w.known, m);
    }
  }

  lemma RewriteInv(w: World, changes: map<Id, Patch>)
    requires Inv(w)
    ensures Inv(Rewrite(w, changes))
  {
    RewrittenAbsorbed(w.server, w.channel, w.silent, changes);
    RewrittenLoses(w.server, w.channel, w.cache.detail, w.known, changes);
  }

  lemma CreateInv(w: World, i: Issue)
    requires Inv(w) && i.id != "" && i.id !in w.used
    ensures Inv(Next(w, ServerCreate(i)))
  {
    var v := w.(server := w.server[i.id := i], used := w.used + {i.id});
    assert ServerKeyed(v.server);
    ServerCreates(w.server, w.channel, w.silent, i);
    assert Inv(v);
    AnnounceInv(v, IssueCreated(i));
  }

  lemma DeleteInv(w: World, id: Id)
    requires Inv(w) && id in w.server
    ensures Inv(Next(w, ServerDelete(id)))
  {
    RewriteInv(w, Orphans(w.server, id));
    AnnounceInv(Rewrite(w, Orphans(w.server, id)), IssueDeleted(id));
  }

  lemma SilentInv(w: World, changes: map<Id, Patch>)
    requires Inv(w)
    ensures Inv(Announce(Rewrite(w, changes), OtherEvent))
  {
    RewriteInv(w, changes);
    AnnounceInv(Rewrite(w, changes), OtherEvent);
  }

  lemma AckInv(w: World)
    requires Inv(w)
    ensures Inv(w.(channel := w.channel + [AuthAck]))
  {
    AnnouncedAbsorbed(w.server, w.channel, w.silent, AuthAck);
    AnnouncedKeepsKnown(w.server, w.channel, w.cache.detail, w.known, AuthAck);
  }

  /** Marking or dropping cached details, whatever else changes in client and connection. */
  lemma LocalInv(w: World, v: World)
    requires Inv(w) && v == w.(net := v.net, wsKnown := v.wsKnown, cache := v.cache)
    requires forall id :: id in v.cache.detail ==> id in w.cache.detail && v.cache.detail[id].data == w.cache.detail[id].data
    ensures Inv(v)
  {
  }

  lemma HandledDetail(c: Cache, m: Msg)
    requires m.IssueUpdated? || m.IssueDeleted? ==> m.id != ""
    ensures Handled(c, m, true).resetsOnWrite == c.resetsOnWrite
    ensures Handled(c, m, true).detail == DetailAfter(m, c.detail, c.resetsOnWrite)
  {
  }

  lemma DequeueSound(w: World)
    requires Sound(w) && w.channel != []
    ensures Sound(w.(channel := w.channel[1..]))
  {
    DequeueAbsorbed(w.server, w.channel, w.silent);
    assert w.channel == [w.channel[0]] + w.channel[1..];
  }

  /** `v` is `w` after a listening client has handled the head of the queue, an event. */
  ghost predicate EventHandled(w: World, v: World) {
    && w.channel != [] && !w.channel[0].AuthAck?
    && v == w.(channel := w.channel[1..], cache := v.cache, known := Learn(w.known, w.silent, w.channel[0]))
    && v.cache.resetsOnWrite == w.cache.resetsOnWrite
    && v.cache.detail == DetailAfter(w.channel[0], w.cache.detail, w.cache.resetsOnWrite)
  }

  lemma DeliverEvent(w: World)
    requires WellFormed(w) && w.net.phase.Open? && w.channel != [] && !w.channel[0].AuthAck? && Listening(w)
    ensures EventHandled(w, Next(w, Deliver))
  {
    assert w.channel[0] in w.channel;
    HandledDetail(w.cache, w.channel[0]);
  }

  lemma EventInv(w: World, v: World)
    requires Inv(w) && EventHandled(w, v)
    ensures Inv(v)
  {
    assert w.channel[0] in w.channel;
    DequeueSound(w);
    DeliveredLearns(w.server, w.channel, w.silent, w.cache.detail, w.known, w.cache.resetsOnWrite);
  }

  /** The acknowledgement is handled, or an event is dropped. */
  lemma DropInv(w: World)
    requires Inv(w) && w.channel != []
    ensures Inv(w.(channel := w.channel[1..], known := Minus(w.known, w.channel[0])))
  {
    DequeueSound(w);
    DroppedLoses(w.server, w.channel, w.cache.detail, w.known);
  }

  lemma DeliverInv(w: World)
    requires Inv(w) && w.net.phase.Open? && w.channel != []
    ensures Inv(Next(w, Deliver))
  {
    if w.channel[0].AuthAck? {
      DropInv(w);
      AuthenticateInv(w.(channel := w.channel[1..]));
    } else if Listening(w) {
      DeliverEvent(w);
      EventInv(w, Next(w, Deliver));
    } else {
      DropInv(w);
    }
  }

  lemma AuthenticateInv(w: World)
    requires Inv(w)
    ensures Inv(Authenticate(w))
  {
    LocalInv(w, Authenticate(w));
  }

  lemma UnlinkInv(w: World, net: Net)
    requires Inv(w)
    ensures Inv(Unlink(w, net))
  {
    QueueLost(w.server, w.channel, w.cache.detail, w.known);
    forall id { MinusAllShrinks(w.known, w.channel, id); }
    QuietQueue(w.server, [], w.silent);
  }

  lemma FetchInv(w: World, id: Id)
    requires Inv(w) && id in w.server
    ensures Inv(Next(w, Fetch(id)))
  {
    FetchLearns(w.server, w.channel, w.silent, w.cache.detail, w.known, id);
    var v := Next(w, Fetch(id));
    forall k ensures FieldsAt(v.known, k) !! FieldsAt(v.silent, k) {
      if k != id { assert FieldsAt(v.known, k) == FieldsAt(w.known, k) && FieldsAt(v.silent, k) == FieldsAt(w.silent, k); }
    }
    assert Sound(v);
  }

  lemma EvictInv(w: World, id: Id)
    requires Inv(w)
    ensures Inv(Next(w, Evict(id)))
  {
  }

  lemma ServerStepInv(w: World, s: Step)
    requires Inv(w) && ServerStep(s)
    ensures Inv(Next(w, s))
  {
    if Next(w, s) != w {
      match s
      case ServerCreate(i) => CreateInv(w, i);
      case ServerUpdate(id, p) => AnnounceInv(w, IssueUpdated(id, p));
      case ServerDelete(id) => DeleteInv(w, id);
      case ServerSilent(changes) => SilentInv(w, changes);
    }
  }

  /** Every step of every party, with any payload or none, at any moment. */
  lemma StepInv(w: World, s: Step)
    requires Inv(w)
    ensures Inv(Next(w, s))
  {
    if ServerStep(s) {
      ServerStepInv(w, s);
    } else if Next(w, s) != w {
      match s
      case ServerAck => AckInv(w);
      case Deliver => DeliverInv(w);
      case Fetch(id) => FetchInv(w, id);
      case Evict(id) => EvictInv(w, id);
      case SocketCloses => UnlinkInv(w, w.net.(phase := Closed));
      case Disconnect => UnlinkInv(w, Net(NoSocket, false, false, w.net.tokenAuth));
      case ServerRegister => assert Next(w, s) == w.(registered := true);
      case _ => LocalInv(w, Next(w, s));
    }
  }

  lemma {:induction false} RunInv(w: World, steps: seq<Step>)
    requires Inv(w)
    ensures Inv(Run(w, steps))
    decreases |steps|
  {
    if steps != [] {
      StepInv(w, steps[0]);
      RunInv(Next(w, steps[0]), steps[1..]);
    }
  }

  /**
   * Whatever the server sends or keeps to itself, however often the connection drops: in every reachable
   * state each field the client has read or been told, and of which it missed no change since, becomes the
   * server's once the queue is drained; and so does each field of a queued event that is up to date.
   */
  lemma LearntFieldsConverge(w: World, steps: seq<Step>, id: Id, f: Field)
    requires Init(w)
    requires var v := Run(w, steps);
      id in v.cache.detail
      && f in FieldsAt(v.known, id) + (Fields(Pending(v.channel, id)) - FieldsAt(v.silent, id))
    ensures var v := Run(w, steps);
      Agree(f, Drain(v.channel, id, Some(v.cache.detail[id].data)), Copy(v.server, id))
  {
    InitInv(w);
    RunInv(w, steps);
    LearntAgrees(Run(w, steps), id, f);
  }

  lemma LearntAgrees(w: World, id: Id, f: Field)
    requires Inv(w) && id in w.cache.detail
    requires f in FieldsAt(w.known, id) + (Fields(Pending(w.channel, id)) - FieldsAt(w.silent, id))
             || DeletionQueued(w.channel, id)
    ensures Agree(f, Drain(w.channel, id, Some(w.cache.detail[id].data)), Copy(w.server, id))
  {
    if f !in FieldsAt(w.known, id) {
      PendingAgrees(w.server, w.channel, w.silent, id, w.cache.detail[id].data, f);
    }
  }
}
