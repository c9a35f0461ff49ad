/**
 * The current workspace and its two deferred side effects (packages/core/platform/workspace-storage.ts).
 * A microtask is broken into its callback calls, so that a subscriber or a rehydrating store may switch
 * the workspace again, subscribe or unsubscribe while the task is still running.
 */
module WorkspaceStorage {
  import opened Prelude
  import opened Filtering

  type Slug = Option<string>
  type Listener = nat

  datatype Task = Notify | Rehydrate

  /** The microtask in progress: the slug a notification captured, and the callbacks still to be called. */
  datatype Running = Idle | Notifying(current: Slug, todo: seq<Listener>) | Rehydrating(todo: seq<Listener>)

  datatype State = State(
    slug: Slug,
    wsId: Option<string>,
    pendingNotify: bool,
    pendingRehydrate: bool,
    queue: seq<Task>,
    running: Running,
    subscribers: seq<Listener>,
    rehydrateFns: seq<Listener>,
    seen: map<Listener, Slug>,        // the slug a subscriber last read or was last called with
    hydrated: map<Listener, Slug>)    // the slug under which a store was last (re)hydrated

  datatype Step =
    | SetCurrent(slug: Slug, wsId: Option<string>)
    | Subscribe(listener: Listener)
    | Unsubscribe(listener: Listener)
    | Register(store: Listener)
    | StartTask
    | CallNext
    | EndTask

  function Remove(xs: seq<Listener>, x: Listener): (r: seq<Listener>)
    ensures forall y :: y in r <==> y in xs && y != x
  {
    var others := (y: Listener) => y != x;
    FilterMembers(xs, others);
    Filter(xs, others)
  }

  /** `queueMicrotask` guarded by the pending flags. */
  function Switch(st: State, slug: Slug, wsId: Option<string>): State {
    var st1 := st.(slug := slug, wsId := wsId);
    var st2 := if st1.pendingNotify then st1 else st1.(pendingNotify := true, queue := st1.queue + [Notify]);
    if st2.pendingRehydrate then st2 else st2.(pendingRehydrate := true, queue := st2.queue + [Rehydrate])
  }

  function Next(st: State, s: Step): State {
    match s
    case SetCurrent(slug, wsId) => if st.slug == slug then st.(wsId := wsId) else Switch(st, slug, wsId)
    case Subscribe(l) =>
      if l in st.subscribers then st
      else
        st.(subscribers := st.subscribers + [l], seen := st.seen[l := st.slug],
            running := if st.running.Notifying? then Notifying(st.running.current, st.running.todo + [l]) else st.running)
    case Unsubscribe(l) =>
      st.(subscribers := Remove(st.subscribers, l),
          running := if st.running.Notifying? then Notifying(st.running.current, Remove(st.running.todo, l)) else st.running)
    case Register(f) =>
      st.(rehydrateFns := st.rehydrateFns + [f], hydrated := st.hydrated[f := st.slug],
          running := if st.running.Rehydrating? then Rehydrating(st.running.todo + [f]) else st.running)
    case StartTask =>
      if st.running != Idle || st.queue == [] then st
      else if st.queue[0] == Notify then
        st.(queue := st.queue[1..], pendingNotify := false, running := Notifying(st.slug, st.subscribers))
      else
        st.(queue := st.queue[1..], pendingRehydrate := false, running := Rehydrating(st.rehydrateFns))
    case CallNext =>
      if st.running.Notifying? && st.running.todo != [] then
        st.(seen := st.seen[st.running.todo[0] := st.running.current],
            running := Notifying(st.running.current, st.running.todo[1..]))
      else if st.running.Rehydrating? && st.running.todo != [] then
        st.(hydrated := st.hydrated[st.running.todo[0] := st.slug],
            running := Rehydrating(st.running.todo[1..]))
      else st
    case EndTask => if st.running != Idle && st.running.todo == [] then st.(running := Idle) else st
  }

  function Run(st: State, steps: seq<Step>): State
    decreases |steps|
  {
    if steps == [] then st else Run(Next(st, steps[0]), steps[1..])
  }

  function Initial(): State {
    State(None, None, false, false, [], Idle, [], [], map[], map[])
  }

  function Queued(queue: seq<Task>, t: Task): nat {
    multiset(queue)[t]
  }

  // ----- the invariant -----

  /** Listener `l` has seen the current slug, or is still to be told by the task in progress. */
  ghost predicate Informed(st: State, l: Listener) {
    l in st.seen && (st.seen[l] == st.slug || (st.running.Notifying? && l in st.running.todo))
  }

  ghost predicate Stocked(st: State, f: Listener) {
    f in st.hydrated && (st.hydrated[f] == st.slug || (st.running.Rehydrating? && f in st.running.todo))
  }

  ghost predicate Inv(st: State) {
    && (if st.pendingNotify then Queued(st.queue, Notify) == 1 else Queued(st.queue, Notify) == 0)
    && (if st.pendingRehydrate then Queued(st.queue, Rehydrate) == 1 else Queued(st.queue, Rehydrate) == 0)
    && (st.running.Notifying? ==> (st.pendingNotify || st.running.current == st.slug)
                                  && forall l :: l in st.running.todo ==> l in st.subscribers)
    && (forall l :: l in st.subscribers ==> l in st.seen)
    && (forall f :: f in st.rehydrateFns ==> f in st.hydrated)
    && (!st.pendingNotify ==> forall l :: l in st.subscribers ==> Informed(st, l))
    && (!st.pendingRehydrate ==> forall f :: f in st.rehydrateFns ==> Stocked(st, f))
  }

  lemma QueuedPush(queue: seq<Task>, t: Task, u: Task)
    ensures Queued(queue + [t], u) == Queued(queue, u) + if t == u then 1 else 0
  {
  }

  lemma QueuedPop(queue: seq<Task>, u: Task)
    requires queue != []
    ensures Queued(queue, u) == Queued(queue[1..], u) + if queue[0] == u then 1 else 0
  {
    assert queue == [queue[0]] + queue[1..];
  }

  lemma SwitchInv(st: State, slug: Slug, wsId: Option<string>)
    requires Inv(st)
    ensures Inv(Switch(st, slug, wsId))
  {
    QueuedPush(st.queue, Notify, Notify);
    QueuedPush(st.queue, Notify, Rehydrate);
    var q := if st.pendingNotify then st.queue else st.queue + [Notify];
    QueuedPush(q, Rehydrate, Notify);
    QueuedPush(q, Rehydrate, Rehydrate);
  }

  lemma StartInv(st: State)
    requires Inv(st)
    ensures Inv(Next(st, StartTask))
  {
    if st.running == Idle && st.queue != [] {
      QueuedPop(st.queue, Notify);
      QueuedPop(st.queue, Rehydrate);
    }
  }

  lemma CallInv(st: State)
    requires Inv(st)
    ensures Inv(Next(st, CallNext))
  {
    var v := Next(st, CallNext);
    if st.running != Idle && st.running.todo != [] {
      var x := st.running.todo[0];
      assert st.running.todo == [x] + v.running.todo;
      if st.running.Notifying? && !st.pendingNotify {
        forall l | l in v.subscribers ensures Informed(v, l) { assert Informed(st, l); }
      }
      if st.running.Notifying? && !st.pendingRehydrate {
        forall f | f in v.rehydrateFns ensures Stocked(v, f) { assert Stocked(st, f); }
      }
      if st.running.Rehydrating? && !st.pendingRehydrate {
        forall f | f in v.rehydrateFns ensures Stocked(v, f) { assert Stocked(st, f); }
      }
      if st.running.Rehydrating? && !st.pendingNotify {
        forall l | l in v.subscribers ensures Informed(v, l) { assert Informed(st, l); }
      }
    }
  }

  lemma StepInv(st: State, s: Step)
    requires Inv(st)
    ensures Inv(Next(st, s))
  {
    var v := Next(st, s);
    match s
    case SetCurrent(slug, wsId) => if st.slug != slug { SwitchInv(st, slug, wsId); } else { Unchanged(st, v); }
    case StartTask => StartInv(st);
    case CallNext => CallInv(st);
    case _ => ListenersInv(st, s);
  }

  lemma Unchanged(st: State, v: State)
    requires Inv(st) && v == st.(wsId := v.wsId)
    ensures Inv(v)
  {
    assert forall l :: Informed(v, l) <==> Informed(st, l);
    assert forall f :: Stocked(v, f) <==> Stocked(st, f);
  }

  lemma ListenersInv(st: State, s: Step)
    requires Inv(st) && (s.Subscribe? || s.Unsubscribe? || s.Register? || s.EndTask?)
    ensures Inv(Next(st, s))
  {
    var v := Next(st, s);
    if !st.pendingNotify {
      forall l | l in v.subscribers ensures Informed(v, l) {
        if l in st.subscribers { assert Informed(st, l); }
      }
    }
    if !st.pendingRehydrate {
      forall f | f in v.rehydrateFns ensures Stocked(v, f) {
        if f in st.rehydrateFns { assert Stocked(st, f); }
      }
    }
  }

  lemma {:induction false} RunInv(st: State, steps: seq<Step>)
    requires Inv(st)
    ensures Inv(Run(st, steps))
    decreases |steps|
  {
    if steps != [] {
      StepInv(st, steps[0]);
      RunInv(Next(st, steps[0]), steps[1..]);
    }
  }

  // ----- what a switch queues -----

  /**
   * A switch queues the notification and then the rehydration, each unless it is queued already; asking
   * for the same slug again queues nothing.
   */
  lemma SwitchQueues(st: State, slug: Slug, wsId: Option<string>)
    ensures var v := Next(st, SetCurrent(slug, wsId)); var switched := st.slug != slug;
      && v.queue == st.queue + (if switched && !st.pendingNotify then [Notify] else [])
                    + (if switched && !st.pendingRehydrate then [Rehydrate] else [])
      && v.pendingNotify == (st.pendingNotify || switched) && v.pendingRehydrate == (st.pendingRehydrate || switched)
      && v.subscribers == st.subscribers && v.rehydrateFns == st.rehydrateFns && v.running == st.running
  {
  }

  // ----- the workspace asked for -----

  /** The slug and the workspace id of the last `setCurrentWorkspace` among `steps`, if any. */
  function LastSet(steps: seq<Step>): (Slug, Option<string>)
  {
    if steps == [] then (None, None)
    else match steps[|steps| - 1]
      case SetCurrent(slug, wsId) => (slug, wsId)
      case _ => LastSet(steps[..|steps| - 1])
  }

  lemma {:induction false} RunBack(st: State, steps: seq<Step>, s: Step)
    ensures Run(st, steps + [s]) == Next(Run(st, steps), s)
    decreases |steps|
  {
    var all := steps + [s];
    if steps == [] {
      assert all[1..] == [];
    } else {
      assert all[0] == steps[0] && all[1..] == steps[1..] + [s];
      RunBack(Next(st, steps[0]), steps[1..], s);
    }
  }

  lemma CurrentStep(st: State, s: Step)
    ensures var v := Next(st, s); (v.slug, v.wsId) == if s.SetCurrent? then (s.slug, s.wsId) else (st.slug, st.wsId)
  {
  }

  /** After any steps the current workspace is the one asked for last, re-entrant requests included. */
  lemma {:induction false} CurrentIsLastSet(steps: seq<Step>)
    ensures var st := Run(Initial(), steps); (st.slug, st.wsId) == LastSet(steps)
  {
    if steps != [] {
      var init, last := steps[..|steps| - 1], steps[|steps| - 1];
      CurrentIsLastSet(init);
      RunBack(Initial(), init, last);
      CurrentStep(Run(Initial(), init), last);
      assert init + [last] == steps;
    }
  }

  /**
   * No workspace switch is missed. In every run a pending flag is set exactly when one such microtask is
   * queued; and whenever the queue has drained, every subscriber and every registered store was last
   * served with the slug asked for last.
   */
  lemma NoSwitchMissed(steps: seq<Step>)
    ensures var st := Run(Initial(), steps);
      && (st.pendingNotify <==> Queued(st.queue, Notify) == 1) && Queued(st.queue, Notify) <= 1
      && (st.pendingRehydrate <==> Queued(st.queue, Rehydrate) == 1) && Queued(st.queue, Rehydrate) <= 1
      && (st.queue == [] && st.running == Idle ==>
            && (forall l :: l in st.subscribers ==> l in st.seen && st.seen[l] == LastSet(steps).0)
            && (forall f :: f in st.rehydrateFns ==> f in st.hydrated && st.hydrated[f] == LastSet(steps).0))
  {
    RunInv(Initial(), steps);
    CurrentIsLastSet(steps);
    var st := Run(Initial(), steps);
    if st.queue == [] && st.running == Idle {
      assert forall l :: l in st.subscribers ==> Informed(st, l);
      assert forall f :: f in st.rehydrateFns ==> Stocked(st, f);
    }
  }

  /** Who is listening: `l` has subscribed, and not unsubscribed since; `f` has registered. */
  function Subscribed(steps: seq<Step>, l: Listener): bool {
    if steps == [] then false
    else match steps[|steps| - 1]
      case Subscribe(k) => k == l || Subscribed(steps[..|steps| - 1], l)
      case Unsubscribe(k) => k != l && Subscribed(steps[..|steps| - 1], l)
      case _ => Subscribed(steps[..|steps| - 1], l)
  }

  lemma ListenersStep(st: State, s: Step, l: Listener)
    ensures l in Next(st, s).subscribers
            <==> s == Subscribe(l) || (l in st.subscribers && s != Unsubscribe(l))
    ensures l in Next(st, s).rehydrateFns <==> s == Register(l) || l in st.rehydrateFns
  {
  }

  lemma {:induction false} ListenersExact(steps: seq<Step>, l: Listener)
    ensures var st := Run(Initial(), steps);
      && (l in st.subscribers <==> Subscribed(steps, l))
      && (l in st.rehydrateFns <==> Register(l) in steps)
  {
    if steps != [] {
      var init, last := steps[..|steps| - 1], steps[|steps| - 1];
      ListenersExact(init, l);
      RunBack(Initial(), init, last);
      ListenersStep(Run(Initial(), init), last, l);
      assert init + [last] == steps;
    }
  }

  // ----- the queue does drain -----

  /** The engine's own steps: finish what runs, then start the next task. */
  function EngineStep(st: State): Step {
    if st.running == Idle then StartTask else if st.running.todo != [] then CallNext else EndTask
  }

  function Drained(st: State): State
    decreases |st.queue|, st.running != Idle, if st.running == Idle then 0 else |st.running.todo|
  {
    if st.queue == [] && st.running == Idle then st else Drained(Next(st, EngineStep(st)))
  }

  /** If the callbacks switch no further, the pending tasks run to completion and leave everybody informed. */
  lemma {:induction false} DrainInforms(st: State)
    requires Inv(st)
    ensures var d := Drained(st);
      && d.queue == [] && d.running == Idle && d.slug == st.slug
      && d.subscribers == st.subscribers && d.rehydrateFns == st.rehydrateFns
      && (forall l :: l in st.subscribers ==> l in d.seen && d.seen[l] == st.slug)
      && (forall f :: f in st.rehydrateFns ==> f in d.hydrated && d.hydrated[f] == st.slug)
    decreases |st.queue|, st.running != Idle, if st.running == Idle then 0 else |st.running.todo|
  {
    if st.queue == [] && st.running == Idle {
      assert forall l :: l in st.subscribers ==> Informed(st, l);
      assert forall f :: f in st.rehydrateFns ==> Stocked(st, f);
    } else {
      StepInv(st, EngineStep(st));
      DrainInforms(Next(st, EngineStep(st)));
    }
  }

  // ----- the module itself -----

  class Workspaces {
    var slug: Slug
    var wsId: Option<string>
    var pendingNotify: bool
    var pendingRehydrate: bool
    var queue: seq<Task>
    var running: Running
    var subscribers: seq<Listener>
    var rehydrateFns: seq<Listener>
    var seen: map<Listener, Slug>
    var hydrated: map<Listener, Slug>

    constructor ()
      ensures Value() == Initial()
    {
      slug, wsId, pendingNotify, pendingRehydrate := None, None, false, false;
      queue, running, subscribers, rehydrateFns := [], Idle, [], [];
      seen, hydrated := map[], map[];
    }

    function Value(): State
      reads this
    {
      State(slug, wsId, pendingNotify, pendingRehydrate, queue, running, subscribers, rehydrateFns, seen, hydrated)
    }

    method SetCurrentWorkspace(newSlug: Slug, newWsId: Option<string>)
      modifies this
      ensures Value() == Next(old(Value()), SetCurrent(newSlug, newWsId))
    {
      if slug == newSlug {
        wsId := newWsId;
        return;
      }
      slug := newSlug;
      wsId := newWsId;
      if !pendingNotify {
        pendingNotify := true;
        queue := queue + [Notify];
      }
      if !pendingRehydrate {
        pendingRehydrate := true;
        queue := queue + [Rehydrate];
      }
    }

    method SubscribeToCurrentSlug(fn: Listener)
      modifies this
      ensures Value() == Next(old(Value()), Subscribe(fn))
    {
      if fn !in subscribers {
        subscribers := subscribers + [fn];
        seen := seen[fn := slug];
        if running.Notifying? {
          running := Notifying(running.current, running.todo + [fn]);
        }
      }
    }

    method UnsubscribeFromCurrentSlug(fn: Listener)
      modifies this
      ensures Value() == Next(old(Value()), Unsubscribe(fn))
    {
      subscribers := Remove(subscribers, fn);
      if running.Notifying? {
        running := Notifying(running.current, Remove(running.todo, fn));
      }
    }

    method RegisterForWorkspaceRehydration(fn: Listener)
      modifies this
      ensures Value() == Next(old(Value()), Register(fn))
    {
      rehydrateFns := rehydrateFns + [fn];
      hydrated := hydrated[fn := slug];
      if running.Rehydrating? {
        running := Rehydrating(running.todo + [fn]);
      }
    }

    /** One action of the event loop: a task starts, calls its next callback, or ends. */
    method Advance()
      modifies this
      ensures Value() == Next(old(Value()), EngineStep(old(Value())))
    {
      if running == Idle {
        if queue != [] {
          if queue[0] == Notify {
            queue, pendingNotify, running := queue[1..], false, Notifying(slug, subscribers);
          } else {
            queue, pendingRehydrate, running := queue[1..], false, Rehydrating(rehydrateFns);
          }
        }
      } else if running.todo == [] {
        running := Idle;
      } else if running.Notifying? {
        seen := seen[running.todo[0] := running.current];
        running := Notifying(running.current, running.todo[1..]);
      } else {
        hydrated := hydrated[running.todo[0] := slug];
        running := Rehydrating(running.todo[1..]);
      }
    }

    /** The event loop runs everything queued; the callbacks themselves switch nothing here. */
    method RunMicrotasks()
      modifies this
      ensures Value() == Drained(old(Value()))
    {
      while !(queue == [] && running == Idle)
        invariant Drained(Value()) == Drained(old(Value()))
        decreases |queue|, running != Idle, if running == Idle then 0 else |running.todo|
      {
        Advance();
      }
    }
  }
}
