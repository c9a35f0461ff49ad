/**
 * What a client catches up with while it connects: the server acknowledges a connection before it
 * registers it, and only a re-authentication marks the caches.
 */
module Registration {
  import opened Prelude
  import opened Issues
  import opened QueryCache
  import opened WsClient
  import opened Replication
  import opened RealtimeSync
  import opened ResyncConvergence

  ghost predicate ServerSteps(steps: seq<Step>) {
    forall s :: s in steps ==> ServerStep(s)
  }

  /** What a client with a new socket does until it counts as authenticated. */
  function Handshake(w: World): seq<Step> {
    if w.net.tokenAuth then [SocketOpens, ServerAck, Deliver] else [SocketOpens]
  }

  function Fetches(ids: seq<Id>): seq<Step> {
    if ids == [] then [] else [Fetch(ids[0])] + Fetches(ids[1..])
  }

  /**
   * A connection up to its registration: the server works on while the client authenticates, the client
   * refetches some details, the server works on until it registers the connection.
   */
  function Arrive(w: World, early: seq<Step>, ids: seq<Id>, late: seq<Step>): World {
    Next(Run(Run(Run(Run(w, early), Handshake(w)), Fetches(ids)), late), ServerRegister)
  }

  /** A freshly dialled socket, not registered yet. */
  ghost predicate Dialling(w: World) {
    w.net.phase.Connecting? && !w.registered && w.channel == []
  }

  /** Server steps nobody is told about touch server and history only. */
  lemma {:induction false} ServerRun(w: World, steps: seq<Step>)
    requires !w.registered && ServerSteps(steps)
    ensures var v := Run(w, steps); v == w.(server := v.server, used := v.used, known := v.known, silent := v.silent)
    ensures w.used <= Run(w, steps).used
    ensures forall id :: id in w.used && id in Run(w, steps).server ==> id in w.server
    ensures "" in Run(w, steps).server ==> "" in w.server
    decreases |steps|
  {
    if steps != [] {
      assert ServerStep(steps[0]);
      ServerRun(Next(w, steps[0]), steps[1..]);
    }
  }

  lemma HandshakeRun(w: World)
    requires Dialling(w)
    ensures Run(w, Handshake(w)) ==
      w.(cache := AuthenticatedCache(w.net, w.cache, w.wsKnown), net := w.net.(phase := Open, hasConnectedBefore := true))
  {
    var v := Next(w, SocketOpens);
    if w.net.tokenAuth {
      assert Handshake(w)[1..] == [ServerAck, Deliver] && [ServerAck, Deliver][1..] == [Deliver];
      var u := Next(v, ServerAck);
      assert u.channel == [AuthAck];
      assert Run(w, Handshake(w)) == Run(v, [ServerAck, Deliver]) == Run(u, [Deliver]) == Run(Next(u, Deliver), []);
    } else {
      assert Handshake(w)[1..] == [] && Run(w, Handshake(w)) == Run(v, []);
    }
  }

  lemma {:induction false} FetchesRun(w: World, ids: seq<Id>)
    ensures var v := Run(w, Fetches(ids)); v == w.(cache := v.cache, known := v.known, silent := v.silent)
    ensures forall id :: Fresh(Run(w, Fetches(ids)).cache.detail, id)
                         <==> Fresh(w.cache.detail, id) || (id in ids && id in w.server)
    decreases |ids|
  {
    if ids != [] {
      assert Fetches(ids)[1..] == Fetches(ids[1..]);
      FetchesRun(Next(w, Fetch(ids[0])), ids[1..]);
    }
  }

  /** An unmarked detail goes wrong if the server deletes its issue while nobody is registered. */
  lemma DeletedUnheard(w: World, id: Id) returns (late: seq<Step>)
    requires !w.registered && w.channel == [] && Fresh(w.cache.detail, id)
    ensures ServerSteps(late) && !Converged(Next(Run(w, late), ServerRegister))
  {
    late := if id in w.server then [ServerDelete(id)] else [];
    ServerRun(w, late);
    var v := Next(Run(w, late), ServerRegister);
    if id in w.server { assert late[1..] == [] && Run(w, late) == Next(w, late[0]); }
    assert Drain(v.channel, id, Some(v.cache.detail[id].data)).Some? && id !in v.server;
  }

  /** The issue exists, or may yet be created. */
  predicate Fetchable(w: World, id: Id) {
    id in w.server || (id !in w.used && id != "")
  }

  /**
   * A connection catches up with everything the server did while it was being set up, whatever that was,
   * exactly if the client had been connected before (so that its caches were marked) or held no unmarked
   * detail to begin with, and refetched nothing between authentication and registration.
   */
  lemma AuthenticationExact(w: World, ids: seq<Id>)
    requires WellFormed(w) && Dialling(w) && Listening(w)
    ensures (forall early, late :: ServerSteps(early) && ServerSteps(late) ==> Converged(Arrive(w, early, ids, late)))
            <==> (w.net.hasConnectedBefore || NoFresh(w.cache.detail)) && forall id :: id in ids ==> !Fetchable(w, id)
  {
    if (w.net.hasConnectedBefore || NoFresh(w.cache.detail)) && forall id :: id in ids ==> !Fetchable(w, id) {
      forall early, late | ServerSteps(early) && ServerSteps(late) ensures Converged(Arrive(w, early, ids, late)) {
        CaughtUp(w, early, ids, late);
      }
    } else {
      var early, late := Missed(w, ids);
    }
  }

  lemma CaughtUp(w: World, early: seq<Step>, ids: seq<Id>, late: seq<Step>)
    requires WellFormed(w) && Dialling(w) && Listening(w) && ServerSteps(early) && ServerSteps(late)
    requires w.net.hasConnectedBefore || NoFresh(w.cache.detail)
    requires forall id :: id in ids ==> !Fetchable(w, id)
    ensures Converged(Arrive(w, early, ids, late))
  {
    ServerRun(w, early);
    var a := Run(w, early);
    HandshakeRun(a);
    var b := Run(a, Handshake(w));
    FetchesRun(b, ids);
    var c := Run(b, Fetches(ids));
    ServerRun(c, late);
    forall id ensures !Fresh(c.cache.detail, id) {
      assert id in ids ==> !Fetchable(w, id);
    }
  }

  lemma Missed(w: World, ids: seq<Id>) returns (early: seq<Step>, late: seq<Step>)
    requires WellFormed(w) && Dialling(w) && Listening(w)
    requires (!w.net.hasConnectedBefore && !NoFresh(w.cache.detail)) || exists id :: id in ids && Fetchable(w, id)
    ensures ServerSteps(early) && ServerSteps(late) && !Converged(Arrive(w, early, ids, late))
  {
    var id: Id;
    early := [];
    if !w.net.hasConnectedBefore && !NoFresh(w.cache.detail) {
      id :| id in w.cache.detail && !w.cache.detail[id].invalid;
    } else {
      id :| id in ids && Fetchable(w, id);
      if id !in w.server {
        early := [ServerCreate(Issue(id, Todo, None, map[]))];
        assert early[1..] == [] && Run(w, early) == Next(w, early[0]);
      }
    }
    ServerRun(w, early);
    var a := Run(w, early);
    HandshakeRun(a);
    var b := Run(a, Handshake(w));
    FetchesRun(b, ids);
    assert Fresh(b.cache.detail, id) || (id in ids && id in b.server);
    late := DeletedUnheard(Run(b, Fetches(ids)), id);
  }

  // ----- three runs that go wrong -----

  /** A first session: the detail was cached before, the change came between acknowledgement and registration. */
  lemma FirstSessionMisses(w: World, i: Issue, p: Patch)
    requires Dialling(w) && Listening(w) && !w.net.hasConnectedBefore
    requires w.server == map[i.id := i] && w.cache.detail == map[i.id := Entry(i, false)] && Merge(i, p) != i
    ensures var v := Arrive(w, [], [], [ServerUpdate(i.id, p)]);
      && v.registered && v.net.phase.Open? && Listening(v) && v.channel == []
      && Fresh(v.cache.detail, i.id) && v.cache.detail[i.id].data == i && Copy(v.server, i.id) == Some(Merge(i, p))
  {
    ShortArrival(w, [], ServerUpdate(i.id, p));
  }

  /** A later session: everything was marked, but the detail was refetched before the registration. */
  lemma EarlyRefetchMisses(w: World, i: Issue, p: Patch)
    requires Dialling(w) && Listening(w) && w.net.hasConnectedBefore
    requires w.server == map[i.id := i] && w.cache.detail == map[] && Merge(i, p) != i
    ensures var v := Arrive(w, [], [i.id], [ServerUpdate(i.id, p)]);
      && v.registered && v.net.phase.Open? && Listening(v) && v.channel == []
      && Fresh(v.cache.detail, i.id) && v.cache.detail[i.id].data == i && Copy(v.server, i.id) == Some(Merge(i, p))
  {
    ShortArrival(w, [i.id], ServerUpdate(i.id, p));
    assert Fetches([i.id]) == [Fetch(i.id)];
    RunOne(Authenticate(w.(net := w.net.(phase := Open))), Fetch(i.id));
  }

  lemma RunOne(w: World, s: Step)
    ensures Run(w, []) == w && Run(w, [s]) == Next(w, s)
  {
    assert [s][1..] == [];
  }

  /** A connection during which the server changes one issue, or nothing. */
  lemma ShortArrival(w: World, ids: seq<Id>, s: Step)
    requires Dialling(w)
    ensures var b := Run(Authenticate(w.(net := w.net.(phase := Open))), Fetches(ids));
      Arrive(w, [], ids, [s]) == Next(Next(b, s), ServerRegister) && Arrive(w, [], ids, []) == Next(b, ServerRegister)
  {
    HandshakeRun(w);
    var b := Run(Run(w, Handshake(w)), Fetches(ids));
    RunOne(w, s);
    RunOne(b, s);
  }

  /**
   * A partial payload freezes a stale copy: after a perfect reconnection everything is marked; an update
   * that says nothing of field `f` unmarks the detail, and its old `f` is shown as current.
   */
  lemma PartialPayloadFreezes(w: World, id: Id, p: Patch, f: Field)
    requires WellFormed(w) && Dialling(w) && Listening(w) && w.net.hasConnectedBefore && w.cache.resetsOnWrite
    requires id in w.server && id in w.cache.detail && !SameOn(f, w.cache.detail[id].data, w.server[id])
    requires f !in Fields(p)
    ensures var v := Arrive(w, [], [], []); var u := Next(Next(v, ServerUpdate(id, p)), Deliver);
      && v.registered && InSync(v)
      && u.channel == [] && Fresh(u.cache.detail, id) && id in u.server
      && !SameOn(f, u.cache.detail[id].data, u.server[id])
  {
    ShortArrival(w, [], ServerUpdate(id, p));
    var v := Arrive(w, [], [], []);
    assert forall k :: !Fresh(v.cache.detail, k);
    assert v.channel == [] && v.registered && v.server == w.server && v.used == w.used;
    assert v.cache.detail[id] == Entry(w.cache.detail[id].data, true) && v.cache.detail.Keys == w.cache.detail.Keys;
    UpdateUnmarks(v, id, p, f);
  }

  lemma UpdateUnmarks(v: World, id: Id, p: Patch, f: Field)
    requires WellFormed(v) && v.channel == [] && v.registered && v.net.phase.Open? && Listening(v) && v.cache.resetsOnWrite
    requires id in v.server && id in v.cache.detail && !SameOn(f, v.cache.detail[id].data, v.server[id])
    requires f !in Fields(p)
    ensures var u := Next(Next(v, ServerUpdate(id, p)), Deliver);
      u.channel == [] && Fresh(u.cache.detail, id) && id in u.server
      && !SameOn(f, u.cache.detail[id].data, u.server[id])
  {
    var x, s := v.cache.detail[id].data, v.server[id];
    MergeOn(f, x, s, p);
    MergeOn(f, s, x, p);
    var a := Announce(v, IssueUpdated(id, p));
    assert a.channel == [IssueUpdated(id, p)];
    DeliverEvent(a);
  }

  // ----- after `disconnect` -----

  /** `disconnect()` forgets that the client was ever connected: the next authentication marks nothing. */
  lemma DisconnectForgets(w: World)
    ensures var v := Next(Next(Next(w, Disconnect), Connect), Attach);
      Dialling(v) && !v.net.hasConnectedBefore && Run(v, Handshake(v)).cache == w.cache
  {
    HandshakeRun(Next(Next(Next(w, Disconnect), Connect), Attach));
  }
}
