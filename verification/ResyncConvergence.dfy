/**
 * When the cached details are right: convergence after a re-authentication, what silent changes of the
 * server cost, and what an event may do to a detail that is marked for refetch.
 */
module ResyncConvergence {
  import opened Prelude
  import opened Issues
  import opened QueryCache
  import opened WsClient
  import opened Replication
  import opened RealtimeSync

  // ----- convergence of whole details -----

  /** Every unmarked detail is covered, field by field. */
  ghost predicate AllCovered(w: World) {
    forall id :: Fresh(w.cache.detail, id) ==> Covered(w.channel, w.known, w.silent, id)
  }

  lemma CoveredConverges(w: World)
    requires Inv(w) && AllCovered(w)
    ensures Converged(w)
  {
    forall id | Fresh(w.cache.detail, id)
      ensures Drain(w.channel, id, Some(w.cache.detail[id].data)) == Copy(w.server, id)
    {
      CoveredDetail(w.server, w.channel, w.silent, w.cache.detail, w.known, id);
    }
  }

  /**
   * Exactly when the unmarked details are right: for every server that fits what the client has been
   * told, they become the server's copies if and only if each of their fields is known or rightly queued.
   */
  lemma ConvergedExact(w: World)
    requires Inv(w)
    ensures (forall server :: Inv(w.(server := server)) ==> Converged(w.(server := server))) <==> AllCovered(w)
  {
    if AllCovered(w) {
      forall server | Inv(w.(server := server)) ensures Converged(w.(server := server)) {
        CoveredConverges(w.(server := server));
      }
    } else {
      var id :| Fresh(w.cache.detail, id) && !Covered(w.channel, w.known, w.silent, id);
      var other := UncoveredDiverges(w.server, w.channel, w.silent, w.cache.detail, w.known, id);
      assert Inv(w.(server := other));
      assert !Converged(w.(server := other));
    }
  }

  /** An event may unmark a detail only if it completes what is known of it. */
  ghost predicate SafeDelivery(w: World) {
    w.cache.resetsOnWrite && w.channel != [] && w.channel[0].IssueUpdated? ==>
      var id := w.channel[0].id;
      id in w.cache.detail && w.cache.detail[id].invalid ==> Accounted(w.channel, w.known, w.silent, id)
  }

  /** The steps that end a connection or make the client drop events. */
  predicate Breaks(s: Step) {
    s.SocketCloses? || s.Disconnect? || (s.SetWorkspace? && !s.wsKnown)
  }

  ghost predicate StepOk(w: World, s: Step) {
    !Breaks(s) && (s.Fetch? ==> w.registered) && (s.Deliver? ==> SafeDelivery(w))
  }

  /**
   * The connection holds; nothing is refetched ahead of registration; no event unmarks a stale detail. The
   * server is free in everything it does.
   */
  ghost predicate Orderly(w: World, steps: seq<Step>)
    decreases |steps|
  {
    steps != [] ==> StepOk(w, steps[0]) && Orderly(Next(w, steps[0]), steps[1..])
  }

  /** The client is listening, and everything it shows as current is accounted for. */
  ghost predicate InSync(w: World) {
    && Listening(w)
    && (forall id :: Fresh(w.cache.detail, id) ==> Accounted(w.channel, w.known, w.silent, id))
    && (!w.registered ==> NoFresh(w.cache.detail))
  }

  lemma AnnounceKeepsSync(w: World, m: Msg)
    requires InSync(w)
    ensures InSync(Announce(w, m))
  {
    if w.registered {
      forall id | Fresh(w.cache.detail, id) { AnnouncedAccounted(w.channel, w.known, w.silent, m, id); }
    }
  }

  lemma RewriteKeepsSync(w: World, changes: map<Id, Patch>)
    requires InSync(w)
    ensures InSync(Rewrite(w, changes))
  {
    forall id | Fresh(w.cache.detail, id) { RewrittenAccounted(w.channel, w.known, w.silent, changes, id); }
  }

  lemma AckKeepsSync(w: World)
    requires InSync(w)
    ensures InSync(w.(channel := w.channel + [AuthAck]))
  {
    forall id | Fresh(w.cache.detail, id) ensures Accounted(w.channel + [AuthAck], w.known, w.silent, id) {
      PendingAppend(w.channel, AuthAck, id);
    }
  }

  /** Marks are added, details dropped, and no field forgotten. */
  lemma FewerFresh(w: World, v: World)
    requires InSync(w) && Listening(v) && v.channel == w.channel && v.silent == w.silent && (w.registered ==> v.registered)
    requires forall id :: Fresh(v.cache.detail, id) ==>
      Fresh(w.cache.detail, id) && FieldsAt(v.known, id) == FieldsAt(w.known, id)
    ensures InSync(v)
  {
    forall id | id in v.cache.detail && !v.registered ensures v.cache.detail[id].invalid {
      assert Fresh(v.cache.detail, id) ==> Fresh(w.cache.detail, id);
    }
  }

  lemma EventKeepsSync(w: World, v: World)
    requires Inv(w) && InSync(w) && EventHandled(w, v) && SafeDelivery(w)
    ensures InSync(v)
  {
    var m := w.channel[0];
    assert m in w.channel;
    forall id | Fresh(v.cache.detail, id) ensures w.registered && Accounted(v.channel, v.known, v.silent, id) {
      assert m != IssueDeleted(id);
      assert Accounted(w.channel, w.known, w.silent, id);
      DequeueAccounted(w.channel, w.known, w.silent, id);
    }
  }

  lemma AckDequeued(w: World)
    requires InSync(w) && w.channel != [] && w.channel[0].AuthAck?
    ensures InSync(w.(channel := w.channel[1..]))
  {
    forall id | Fresh(w.cache.detail, id) ensures Accounted(w.channel[1..], w.known, w.silent, id) {
      PendingHead(w.channel, id);
    }
  }

  lemma DeliverKeepsSync(w: World)
    requires Inv(w) && InSync(w) && w.net.phase.Open? && w.channel != [] && SafeDelivery(w)
    ensures InSync(Next(w, Deliver))
  {
    if w.channel[0].AuthAck? {
      AckDequeued(w);
      FewerFresh(w.(channel := w.channel[1..]), Next(w, Deliver));
    } else {
      DeliverEvent(w);
      EventKeepsSync(w, Next(w, Deliver));
    }
  }

  lemma FetchKeepsSync(w: World, id: Id)
    requires InSync(w) && w.registered && id in w.server
    ensures InSync(Next(w, Fetch(id)))
  {
    var v := Next(w, Fetch(id));
    forall k | Fresh(v.cache.detail, k) ensures Accounted(v.channel, v.known, v.silent, k) {
      if k == id {
        AllFields(FieldsAt(v.known, k) + Fields(Pending(v.channel, k)) + FieldsAt(v.silent, k));
        assert FIELDS <= FieldsAt(v.known, k) + FieldsAt(v.silent, k);
      } else {
        assert Fresh(w.cache.detail, k);
      }
    }
  }

  lemma ServerKeepsSync(w: World, s: Step)
    requires InSync(w) && ServerStep(s)
    ensures InSync(Next(w, s))
  {
    if Next(w, s) != w {
      match s
      case ServerCreate(i) =>
        AnnounceKeepsSync(w.(server := w.server[i.id := i], used := w.used + {i.id}), IssueCreated(i));
      case ServerUpdate(id, p) => AnnounceKeepsSync(w, IssueUpdated(id, p));
      case ServerDelete(id) =>
        RewriteKeepsSync(w, Orphans(w.server, id));
        AnnounceKeepsSync(Rewrite(w, Orphans(w.server, id)), IssueDeleted(id));
      case ServerSilent(changes) =>
        RewriteKeepsSync(w, changes);
        AnnounceKeepsSync(Rewrite(w, changes), OtherEvent);
    }
  }

  lemma StepKeepsSync(w: World, s: Step)
    requires Inv(w) && InSync(w) && StepOk(w, s)
    ensures InSync(Next(w, s))
  {
    if ServerStep(s) {
      ServerKeepsSync(w, s);
    } else if Next(w, s) != w {
      match s
      case ServerAck => AckKeepsSync(w);
      case Deliver => DeliverKeepsSync(w);
      case Fetch(id) => FetchKeepsSync(w, id);
      case _ => FewerFresh(w, Next(w, s));
    }
  }

  lemma {:induction false} SyncPersists(w: World, steps: seq<Step>)
    requires Inv(w) && InSync(w) && Orderly(w, steps)
    ensures Inv(Run(w, steps)) && InSync(Run(w, steps))
    decreases |steps|
  {
    if steps != [] {
      StepInv(w, steps[0]);
      StepKeepsSync(w, steps[0]);
      SyncPersists(Next(w, steps[0]), steps[1..]);
    }
  }

  /** `s` makes a client that has been connected before count as authenticated again. */
  predicate Reauthenticates(w: World, s: Step) {
    && w.net.hasConnectedBefore
    && ((s.SocketOpens? && w.net.phase.Connecting? && !w.net.tokenAuth)
        || (s.Deliver? && w.net.phase.Open? && w.channel != [] && w.channel[0].AuthAck?))
  }

  /** Every re-authentication of a listening client marks everything, registered or not. */
  lemma ReauthenticationSyncs(w: World, s: Step)
    requires Reauthenticates(w, s) && Listening(w)
    ensures InSync(Next(w, s)) && NoFresh(Next(w, s).cache.detail)
  {
  }

  /** Every unmarked detail is right up to the queue, except in fields changed silently. */
  ghost predicate ConvergedButSilent(w: World) {
    forall id, f :: Fresh(w.cache.detail, id) && f in FIELDS && (f !in FieldsAt(w.silent, id) || DeletionQueued(w.channel, id)) ==>
      Agree(f, Drain(w.channel, id, Some(w.cache.detail[id].data)), Copy(w.server, id))
  }

  /** No unmarked detail has a silently changed field, unless its deletion is on the way. */
  ghost predicate NothingSilent(w: World) {
    forall id :: Fresh(w.cache.detail, id) ==> DeletionQueued(w.channel, id) || FieldsAt(w.silent, id) == {}
  }

  lemma SyncConverges(w: World)
    requires Inv(w) && InSync(w)
    ensures ConvergedButSilent(w) && (NothingSilent(w) ==> Converged(w))
  {
    forall id, f | Fresh(w.cache.detail, id) && f in FIELDS && (f !in FieldsAt(w.silent, id) || DeletionQueued(w.channel, id))
      ensures Agree(f, Drain(w.channel, id, Some(w.cache.detail[id].data)), Copy(w.server, id))
    {
      LearntAgrees(w, id, f);
    }
    if NothingSilent(w) {
      forall id | Fresh(w.cache.detail, id) ensures Covered(w.channel, w.known, w.silent, id) {}
      CoveredConverges(w);
    }
  }

  /**
   * Resync convergence. From any start, after any history of drops, losses and reconnections, with
   * registration before or after the acknowledgement, whatever the server announces or does not: once the
   * client re-authenticates, in every state of an orderly run each cached detail that is not marked for
   * refetch equals the server's copy up to the events still queued, in every field but those the server has
   * changed silently and neither announced nor been asked for since. Neither the conditions of `Orderly` nor
   * this exception can be dropped: see `AuthenticationExact`, `DeliveryExact` and `SilenceExact`.
   */
  lemma {:induction false} ResyncConverges(w: World, before: seq<Step>, s: Step, after: seq<Step>)
    requires Init(w)
    requires var v := Run(w, before); Reauthenticates(v, s) && Listening(v) && Orderly(Next(v, s), after)
    ensures var v := Run(Next(Run(w, before), s), after);
      ConvergedButSilent(v) && (NothingSilent(v) ==> Converged(v))
  {
    InitInv(w);
    RunInv(w, before);
    var v := Run(w, before);
    StepInv(v, s);
    ReauthenticationSyncs(v, s);
    SyncPersists(Next(v, s), after);
    SyncConverges(Run(Next(v, s), after));
  }

  /** The same for a first session, from a moment without unmarked details. */
  lemma {:induction false} SessionConverges(w: World, before: seq<Step>, after: seq<Step>)
    requires Init(w)
    requires var v := Run(w, before); Listening(v) && NoFresh(v.cache.detail) && Orderly(v, after)
    ensures var v := Run(Run(w, before), after);
      ConvergedButSilent(v) && (NothingSilent(v) ==> Converged(v))
  {
    InitInv(w);
    RunInv(w, before);
    SyncPersists(Run(w, before), after);
    SyncConverges(Run(Run(w, before), after));
  }

  // ----- exactly what silence costs -----

  /**
   * A client in sync shows a wrong detail for some server that fits what it has been told, exactly if some
   * detail is unmarked, its deletion is not queued, and a field of it has been changed silently and neither
   * announced nor refetched since.
   */
  lemma SilenceExact(w: World)
    requires Inv(w) && InSync(w)
    ensures (forall server :: Inv(w.(server := server)) ==> Converged(w.(server := server))) <==> NothingSilent(w)
  {
    ConvergedExact(w);
    forall id | Fresh(w.cache.detail, id) { CoveredUnlessSilent(w.channel, w.known, w.silent, id); }
  }

  lemma CoveredUnlessSilent(q: seq<Msg>, known: FieldMap, silent: FieldMap, id: Id)
    requires Accounted(q, known, silent, id) && FieldsAt(known, id) !! FieldsAt(silent, id)
    ensures Covered(q, known, silent, id) <==> DeletionQueued(q, id) || FieldsAt(silent, id) == {}
  {
    if f :| f in FieldsAt(silent, id) {
      AllFields({f});
      assert f in FIELDS && f !in FieldsAt(known, id) + (Fields(Pending(q, id)) - FieldsAt(silent, id));
    }
  }

  /** The moment of a silent change: details stay right exactly if no unmarked one is really changed. */
  lemma SilentChangeExact(w: World, changes: map<Id, Patch>)
    requires Inv(w) && Converged(w) && changes.Keys <= w.server.Keys
    ensures Converged(Next(w, ServerSilent(changes)))
            <==> forall id :: id in changes && Fresh(w.cache.detail, id) ==> Merge(w.server[id], changes[id]) == w.server[id]
  {
    var v := Next(w, ServerSilent(changes));
    forall id, copy ensures Drain(v.channel, id, copy) == Drain(w.channel, id, copy) {
      DrainAppend(w.channel, OtherEvent, id, copy);
    }
    forall id | Fresh(w.cache.detail, id)
      ensures Drain(v.channel, id, Some(v.cache.detail[id].data)) == Copy(v.server, id)
              <==> (id in changes ==> Merge(w.server[id], changes[id]) == w.server[id])
    {
    }
  }

  /** The moment of a deletion: the sub-issues' details are the ones that go wrong. */
  lemma DeletionExact(w: World, id: Id)
    requires Inv(w) && Converged(w) && w.registered && id in w.server
    ensures Converged(Next(w, ServerDelete(id)))
            <==> forall k :: k in w.server && k != id && Fresh(w.cache.detail, k) ==> w.server[k].parent != Some(id)
  {
    var server := ServerWithout(w.server, id);
    var v := Next(w, ServerDelete(id));
    assert v.server == server && v.channel == w.channel + [IssueDeleted(id)] && v.cache == w.cache;
    forall k | Fresh(w.cache.detail, k)
      ensures Drain(v.channel, k, Some(w.cache.detail[k].data)) == Copy(server, k)
              <==> (k in w.server && k != id ==> w.server[k].parent != Some(id))
    {
      DrainAppend(w.channel, IssueDeleted(id), k, Some(w.cache.detail[k].data));
      AfterDeletion(w.server, id, k);
    }
  }

  function ServerWithout(server: map<Id, Issue>, id: Id): map<Id, Issue> {
    ServerAfter(Rewritten(server, Orphans(server, id)), IssueDeleted(id))
  }

  /** A deletion changes the sub-issues of the deleted issue, and no others. */
  lemma AfterDeletion(server: map<Id, Issue>, id: Id, k: Id)
    ensures id !in ServerWithout(server, id)
    ensures k != id ==>
      (Copy(ServerWithout(server, id), k) == Copy(server, k) <==> (k in server ==> server[k].parent != Some(id)))
    ensures k in server && k != id ==>
      k in ServerWithout(server, id)
      && (server[k].parent == Some(id) ==> ServerWithout(server, id)[k].parent == None)
  {
    if k in server && k != id && server[k].parent == Some(id) {
      assert Orphans(server, id)[k] == Patch(None, Some(None), map[]);
    }
  }

  /** Field `f` of an unmarked detail is wrong, and nothing under way will change that. */
  ghost predicate Stale(w: World, id: Id, f: Field) {
    && Fresh(w.cache.detail, id) && id in w.server && !DeletionQueued(w.channel, id)
    && f !in Fields(Pending(w.channel, id)) && !SameOn(f, w.cache.detail[id].data, w.server[id])
  }

  /** What may end it: a refetch, a mark, the end of the entry, or another change of the field. */
  predicate MayRepair(w: World, s: Step, id: Id, f: Field) {
    match s
    case Fetch(k) => k == id
    case Invalidate(k) => k == id
    case Evict(k) => k == id
    case ServerUpdate(k, p) => k == id && f in Fields(p)
    case ServerDelete(k) => k == id || (f == ParentField && id in w.server && w.server[id].parent == Some(k))
    case ServerSilent(changes) => id in changes && f in Fields(changes[id])
    case SocketOpens => Reauthenticates(w, s)
    case Deliver => Reauthenticates(w, s)
    case _ => false
  }

  lemma StaleStep(w: World, s: Step, id: Id, f: Field)
    requires Inv(w) && Stale(w, id, f) && !MayRepair(w, s, id, f)
    ensures Stale(Next(w, s), id, f)
  {
    if ServerStep(s) { StaleServerStep(w, s, id, f); }
    else if s.Deliver? { StaleDeliver(w, id, f); }
    else if s.ServerAck? { PendingAppend(w.channel, AuthAck, id); }
    else { StaleClientStep(w, s, id, f); }
  }

  lemma AnnounceStale(w: World, m: Msg, id: Id, f: Field)
    requires Stale(w, id, f) && m != IssueDeleted(id)
    requires m.IssueUpdated? && m.id == id ==> f !in Fields(m.patch)
    ensures Stale(Announce(w, m), id, f)
  {
    PendingAppend(w.channel, m, id);
    if m.IssueUpdated? && m.id == id { MergeOn(f, w.server[id], w.server[id], m.patch); }
  }

  lemma RewriteStale(w: World, changes: map<Id, Patch>, id: Id, f: Field)
    requires Stale(w, id, f) && (id in changes ==> f !in Fields(changes[id]))
    ensures Stale(Rewrite(w, changes), id, f)
  {
    if id in changes { MergeOn(f, w.server[id], w.server[id], changes[id]); }
  }

  lemma CreateStale(w: World, i: Issue, id: Id, f: Field)
    requires Stale(w, id, f) && i.id != id
    ensures Stale(Announce(w.(server := w.server[i.id := i], used := w.used + {i.id}), IssueCreated(i)), id, f)
  {
    AnnounceStale(w.(server := w.server[i.id := i], used := w.used + {i.id}), IssueCreated(i), id, f);
  }

  lemma StaleServerStep(w: World, s: Step, id: Id, f: Field)
    requires Inv(w) && Stale(w, id, f) && ServerStep(s) && !MayRepair(w, s, id, f)
    ensures Stale(Next(w, s), id, f)
  {
    if Next(w, s) != w {
      match s
      case ServerCreate(i) => CreateStale(w, i, id, f);
      case ServerUpdate(k, p) => AnnounceStale(w, IssueUpdated(k, p), id, f);
      case ServerDelete(k) =>
        RewriteStale(w, Orphans(w.server, k), id, f);
        AnnounceStale(Rewrite(w, Orphans(w.server, k)), IssueDeleted(k), id, f);
      case ServerSilent(changes) =>
        RewriteStale(w, changes, id, f);
        AnnounceStale(Rewrite(w, changes), OtherEvent, id, f);
    }
  }

  lemma EventStale(w: World, v: World, id: Id, f: Field)
    requires Stale(w, id, f) && EventHandled(w, v)
    ensures Stale(v, id, f)
  {
    var m := w.channel[0];
    PendingHead(w.channel, id);
    if m.IssueUpdated? && m.id == id { MergeOn(f, w.cache.detail[id].data, w.cache.detail[id].data, m.patch); }
  }

  lemma StaleDeliver(w: World, id: Id, f: Field)
    requires Inv(w) && Stale(w, id, f) && !Reauthenticates(w, Deliver)
    ensures Stale(Next(w, Deliver), id, f)
  {
    if w.net.phase.Open? && w.channel != [] {
      PendingHead(w.channel, id);
      if !w.channel[0].AuthAck? && Listening(w) {
        DeliverEvent(w);
        EventStale(w, Next(w, Deliver), id, f);
      }
    }
  }

  /** Connection, marks and other details may change; the detail itself does not. */
  lemma StaleKept(w: World, v: World, id: Id, f: Field)
    requires Stale(w, id, f) && v.server == w.server && (v.channel == w.channel || v.channel == [])
    requires id in v.cache.detail && v.cache.detail[id] == w.cache.detail[id]
    ensures Stale(v, id, f)
  {
  }

  lemma StaleClientStep(w: World, s: Step, id: Id, f: Field)
    requires Stale(w, id, f) && !ServerStep(s) && !s.Deliver? && !s.ServerAck? && !MayRepair(w, s, id, f)
    ensures Stale(Next(w, s), id, f)
  {
    StaleKept(w, Next(w, s), id, f);
  }

  ghost predicate Unrepaired(w: World, steps: seq<Step>, id: Id, f: Field)
    decreases |steps|
  {
    steps != [] ==> !MayRepair(w, steps[0], id, f) && Unrepaired(Next(w, steps[0]), steps[1..], id, f)
  }

  /** A stale field stays stale through any events, drops and reconnections that are none of these. */
  lemma {:induction false} StaleUntilRepaired(w: World, steps: seq<Step>, id: Id, f: Field)
    requires Inv(w) && Stale(w, id, f) && Unrepaired(w, steps, id, f)
    ensures Stale(Run(w, steps), id, f)
    decreases |steps|
  {
    if steps != [] {
      StaleStep(w, steps[0], id, f);
      StepInv(w, steps[0]);
      StaleUntilRepaired(Next(w, steps[0]), steps[1..], id, f);
    }
  }

  /** The state after a deletion announced over an empty channel. */
  lemma DeletionAnnounced(w: World, par: Id, sub: Id)
    requires Inv(w) && InSync(w) && w.registered && w.channel == []
    requires par in w.server && sub in w.server && par != sub && w.server[sub].parent == Some(par)
    ensures var u := Next(w, ServerDelete(par));
      && Inv(u) && InSync(u) && u.channel == [IssueDeleted(par)] && u.registered
      && u.net == w.net && u.cache == w.cache && sub in u.server && u.server[sub].parent == None
  {
    DeletionKeeps(w, par);
    AfterDeletion(w.server, par, sub);
    DeletionChanges(w, par);
  }

  lemma DeletionChanges(w: World, id: Id)
    requires id in w.server && w.registered
    ensures var u := Next(w, ServerDelete(id));
      u.server == ServerWithout(w.server, id) && u.channel == w.channel + [IssueDeleted(id)]
      && u.registered && u.net == w.net && u.cache == w.cache && u.wsKnown == w.wsKnown
  {
  }

  lemma DeletionKeeps(w: World, par: Id)
    requires Inv(w) && InSync(w) && par in w.server
    ensures Inv(Next(w, ServerDelete(par))) && InSync(Next(w, ServerDelete(par)))
  {
    ServerStepInv(w, ServerDelete(par));
    ServerKeepsSync(w, ServerDelete(par));
  }

  /** The state after its delivery. */
  lemma DeletionDelivered(u: World, par: Id)
    requires Inv(u) && InSync(u) && u.channel == [IssueDeleted(par)] && u.registered && u.net.phase.Open?
    ensures var v := Next(u, Deliver);
      && Inv(v) && InSync(v) && v.channel == [] && v.registered && v.net == u.net && v.server == u.server
      && v.cache.detail == u.cache.detail - {par}
  {
    DeliverEvent(u);
    EventInv(u, Next(u, Deliver));
    EventKeepsSync(u, Next(u, Deliver));
  }

  /**
   * The sub-issue that keeps its dead parent: its detail is right and unmarked, the parent is deleted, the
   * event is delivered, nothing is under way any more, and the detail is wrong until one of `MayRepair`.
   */
  lemma DeletedParentStays(w: World, par: Id, sub: Id)
    requires Inv(w) && InSync(w) && Converged(w) && w.registered && w.net.phase.Open? && w.channel == []
    requires par in w.server && sub in w.server && par != sub && w.server[sub].parent == Some(par)
    requires Fresh(w.cache.detail, sub)
    ensures var v := Next(Next(w, ServerDelete(par)), Deliver);
      && v.channel == [] && v.registered && v.net.phase.Open? && Inv(v) && InSync(v) && Stale(v, sub, ParentField)
      && v.cache.detail[sub].data.parent == Some(par) && v.server[sub].parent == None
  {
    DeletionAnnounced(w, par, sub);
    DeletionDelivered(Next(w, ServerDelete(par)), par);
    DeadParent(w, Next(Next(w, ServerDelete(par)), Deliver), par, sub);
  }

  lemma DeadParent(w: World, v: World, par: Id, sub: Id)
    requires Converged(w) && w.channel == [] && Fresh(w.cache.detail, sub) && par != sub
    requires sub in w.server && w.server[sub].parent == Some(par)
    requires v.channel == [] && v.cache.detail == w.cache.detail - {par} && sub in v.server && v.server[sub].parent == None
    ensures Stale(v, sub, ParentField) && v.cache.detail[sub].data.parent == Some(par)
  {
    assert Drain(w.channel, sub, Some(w.cache.detail[sub].data)) == Some(w.server[sub]);
  }

  // ----- exactly when an event may reach a marked detail -----

  /** `server` differs from the actual one in issue `id` at most, and fits what has been sent and learnt. */
  ghost predicate Conceivable(w: World, id: Id, server: map<Id, Issue>) {
    Inv(w.(server := server)) && server - {id} == w.server - {id}
  }

  ghost predicate OthersConverge(w: World, id: Id) {
    forall k :: k != id && Fresh(w.cache.detail, k) ==>
      Drain(w.channel, k, Some(w.cache.detail[k].data)) == Copy(w.server, k)
  }

  lemma ConceivableOthers(w: World, id: Id, server: map<Id, Issue>, k: Id)
    requires server - {id} == w.server - {id} && k != id
    ensures Copy(server, k) == Copy(w.server, k)
  {
    assert k in server <==> k in server - {id};
    assert k in w.server <==> k in w.server - {id};
  }

  /** The state after an update event has reached a marked detail. */
  lemma MarkedDelivery(w: World, id: Id, p: Patch)
    requires WellFormed(w) && w.net.phase.Open? && Listening(w) && id != "" && w.channel != [] && w.channel[0] == IssueUpdated(id, p)
    requires id in w.cache.detail && w.cache.detail[id].invalid && OthersConverge(w, id)
    ensures Converged(Next(w, Deliver))
            <==> !w.cache.resetsOnWrite || Drain(w.channel, id, Some(w.cache.detail[id].data)) == Copy(w.server, id)
  {
    DeliverEvent(w);
    EventOnMarked(w, Next(w, Deliver), id, p);
  }

  lemma EventOnMarked(w: World, v: World, id: Id, p: Patch)
    requires EventHandled(w, v) && w.channel[0] == IssueUpdated(id, p)
    requires id in w.cache.detail && w.cache.detail[id].invalid && OthersConverge(w, id)
    ensures Converged(v)
            <==> !w.cache.resetsOnWrite || Drain(w.channel, id, Some(w.cache.detail[id].data)) == Copy(w.server, id)
  {
    assert v.cache.detail[id] == Entry(Merge(w.cache.detail[id].data, p), !w.cache.resetsOnWrite);
    assert Drain(w.channel, id, Some(w.cache.detail[id].data)) == Drain(v.channel, id, Some(v.cache.detail[id].data));
    forall k | k != id && Fresh(v.cache.detail, k)
      ensures Drain(v.channel, k, Some(v.cache.detail[k].data)) == Copy(v.server, k)
    {
      assert Fresh(w.cache.detail, k);
    }
    assert Fresh(v.cache.detail, id) <==> w.cache.resetsOnWrite;
  }

  /**
   * An update event reaching a detail that is marked for refetch leaves a right state, whatever the
   * server's copy is, exactly if the write keeps the mark, or the issue's deletion is queued, or what the
   * client knows and what is rightly queued make up all fields. Any queue, any cache, any history.
   */
  lemma DeliveryExact(w: World, id: Id, p: Patch)
    requires Inv(w) && w.net.phase.Open? && Listening(w) && w.channel != [] && w.channel[0] == IssueUpdated(id, p)
    requires id in w.cache.detail && w.cache.detail[id].invalid && OthersConverge(w, id)
    ensures (forall server :: Conceivable(w, id, server) ==> Converged(Next(w.(server := server), Deliver)))
            <==> !w.cache.resetsOnWrite || Covered(w.channel, w.known, w.silent, id)
  {
    assert w.channel[0] in w.channel;
    forall server | Conceivable(w, id, server)
      ensures Converged(Next(w.(server := server), Deliver))
              <==> !w.cache.resetsOnWrite || Drain(w.channel, id, Some(w.cache.detail[id].data)) == Copy(server, id)
      ensures Covered(w.channel, w.known, w.silent, id) ==> Drain(w.channel, id, Some(w.cache.detail[id].data)) == Copy(server, id)
    {
      var v := w.(server := server);
      forall k | k != id { ConceivableOthers(w, id, server, k); }
      assert OthersConverge(v, id);
      MarkedDelivery(v, id, p);
      if Covered(w.channel, w.known, w.silent, id) { CoveredDetail(server, w.channel, w.silent, w.cache.detail, w.known, id); }
    }
    if !Covered(w.channel, w.known, w.silent, id) {
      var other := UncoveredDiverges(w.server, w.channel, w.silent, w.cache.detail, w.known, id);
      assert other - {id} == w.server - {id};
      assert Conceivable(w, id, other);
    }
  }

  /** The same for a detail of which nothing is known: what the payloads themselves must carry, and be up to date. */
  lemma MarkedUpdateExact(w: World, id: Id, p: Patch, t: seq<Msg>)
    requires Inv(w) && w.net.phase.Open? && Listening(w) && w.channel == [IssueUpdated(id, p)] + t
    requires id in w.cache.detail && w.cache.detail[id].invalid && OthersConverge(w, id) && FieldsAt(w.known, id) == {}
    ensures (forall server :: Conceivable(w, id, server) ==> Converged(Next(w.(server := server), Deliver)))
            <==> !w.cache.resetsOnWrite || IssueDeleted(id) in t
                 || (Complete(Then(p, Pending(t, id))) && FieldsAt(w.silent, id) == {})
  {
    DeliveryExact(w, id, p);
    assert w.channel[1..] == t;
    PendingHead(w.channel, id);
    FieldsThen(p, Pending(t, id));
    AllFields(FieldsAt(w.silent, id));
  }
}
