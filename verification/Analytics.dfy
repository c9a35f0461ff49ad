/**
 * Buffering of analytics calls until the configuration has arrived (packages/core/analytics/index.ts).
 * The analytics library is an output log.
 */
module Analytics {
  import opened Prelude

  type Props = map<string, string>

  datatype Config = Config(key: string, host: string, appVersion: Option<string>)

  datatype Emitted =
    | LibInit(key: string, host: string)
    | LibRegister(superProps: Props)
    | LibReset
    | LibIdentify(userId: string, props: Option<Props>)
    | LibPageview(url: Option<string>)
    | LibCapture(name: string, props: Option<Props>)
    | LibSet(person: Props)

  datatype PendingOp = PendingEvent(name: string, props: Option<Props>) | PendingSet(person: Props)

  datatype PendingIdentify = PendingIdentify(userId: string, props: Option<Props>)

  const DEFAULT_HOST := "https://us.i.posthog.com"

  function Emit(op: PendingOp): Emitted {
    match op
    case PendingEvent(name, props) => LibCapture(name, props)
    case PendingSet(person) => LibSet(person)
  }

  function EmitAll(ops: seq<PendingOp>): (r: seq<Emitted>)
    ensures |r| == |ops| && forall k :: 0 <= k < |ops| ==> r[k] == Emit(ops[k])
  {
    seq(|ops|, k requires 0 <= k < |ops| => Emit(ops[k]))
  }

  /** A path that is empty is sent without a URL. */
  function UrlOf(path: string): Option<string> {
    if path == "" then None else Some(path)
  }

  function SuperProps(clientType: string, config: Config): Props {
    var base: Props := map["client_type" := clientType];
    if Truthy(config.appVersion) then base["app_version" := config.appVersion.value] else base
  }

  /** What a first successful initialisation emits before anything buffered. */
  function Startup(clientType: string, config: Config): seq<Emitted> {
    [LibInit(config.key, if config.host != "" then config.host else DEFAULT_HOST),
     LibRegister(SuperProps(clientType, config))]
  }

  class Analytics {
    const clientType: string
    const hasWindow: bool
    var initialized: bool
    var pendingIdentify: Option<PendingIdentify>
    var pendingPageview: Option<string>
    var pendingOps: seq<PendingOp>
    var superProperties: Props
    var log: seq<Emitted>

    constructor (clientType: string, hasWindow: bool)
      ensures State() == Start(clientType, hasWindow)
    {
      this.clientType, this.hasWindow := clientType, hasWindow;
      initialized, pendingIdentify, pendingPageview := false, None, None;
      pendingOps, superProperties, log := [], map[], [];
    }

    function State(): Machine
      reads this
    {
      Machine(clientType, hasWindow, initialized, pendingIdentify, pendingPageview, pendingOps, superProperties, log)
    }

    method InitAnalytics(config: Option<Config>) returns (running: bool)
      modifies this
      ensures State() == Step(old(State()), Init(config))
      ensures running == (hasWindow && config.Some? && config.value.key != "")
    {
      if !hasWindow { return false; }
      if config.None? || config.value.key == "" { return false; }
      if initialized { return true; }
      var host := if config.value.host != "" then config.value.host else DEFAULT_HOST;
      log := log + [LibInit(config.value.key, host)];
      superProperties := map["client_type" := clientType];
      if Truthy(config.value.appVersion) {
        superProperties := superProperties["app_version" := config.value.appVersion.value];
      }
      log := log + [LibRegister(superProperties)];
      initialized := true;
      assert log == old(log) + Startup(clientType, config.value);
      if pendingIdentify.Some? {
        log := log + [LibIdentify(pendingIdentify.value.userId, pendingIdentify.value.props)];
        pendingIdentify := None;
      }
      assert log == old(log) + Startup(clientType, config.value) + HeldIdentify(old(pendingIdentify));
      if pendingPageview.Some? {
        log := log + [LibPageview(UrlOf(pendingPageview.value))];
        pendingPageview := None;
      }
      assert log == old(log) + Startup(clientType, config.value) + HeldIdentify(old(pendingIdentify))
                    + HeldPageview(old(pendingPageview));
      DrainPendingOps();
      return true;
    }

    /** The replay loop of `initAnalytics`. */
    method DrainPendingOps()
      modifies this
      ensures State() == old(State()).(pendingOps := [], log := old(log) + EmitAll(old(pendingOps)))
    {
      ghost var ops := pendingOps;
      while |pendingOps| > 0
        invariant |pendingOps| <= |ops| && pendingOps == ops[|ops| - |pendingOps|..]
        invariant State() == old(State()).(pendingOps := pendingOps, log := old(log) + EmitAll(ops[..|ops| - |pendingOps|]))
      {
        var op := pendingOps[0];
        ghost var done := |ops| - |pendingOps|;
        pendingOps := pendingOps[1..];
        log := log + [Emit(op)];
        assert ops[..done + 1] == ops[..done] + [op];
        EmitAllPush(ops[..done], op);
      }
      assert ops[..|ops|] == ops;
    }

    method Identify(userId: string, props: Option<Props>)
      modifies this
      ensures State() == Step(old(State()), IdentifyCall(userId, props))
    {
      if !initialized {
        pendingIdentify := Some(PendingIdentify(userId, props));
        return;
      }
      log := log + [LibIdentify(userId, props)];
    }

    method ResetAnalytics()
      modifies this
      ensures State() == Step(old(State()), Reset)
    {
      pendingIdentify, pendingPageview, pendingOps := None, None, [];
      if !initialized { return; }
      log := log + [LibReset];
      if superProperties != map[] {
        log := log + [LibRegister(superProperties)];
      }
    }

    method CaptureEvent(name: string, props: Option<Props>)
      modifies this
      ensures State() == Step(old(State()), Event(name, props))
    {
      if !initialized {
        pendingOps := pendingOps + [PendingEvent(name, props)];
        return;
      }
      log := log + [LibCapture(name, props)];
    }

    method SetPersonProperties(props: Props)
      modifies this
      ensures State() == Step(old(State()), SetPerson(props))
    {
      if !initialized {
        pendingOps := pendingOps + [PendingSet(props)];
        return;
      }
      log := log + [LibSet(props)];
    }

    method CapturePageview(path: Option<string>)
      modifies this
      ensures State() == Step(old(State()), Pageview(path))
    {
      if !initialized {
        pendingPageview := Some(if path.Some? then path.value else "");
        return;
      }
      log := log + [LibPageview(if Truthy(path) then path else None)];
    }
  }

  // ----- the module as a machine over calls -----

  datatype Machine = Machine(
    clientType: string, hasWindow: bool, initialized: bool,
    pendingIdentify: Option<PendingIdentify>, pendingPageview: Option<string>, pendingOps: seq<PendingOp>,
    superProperties: Props, log: seq<Emitted>)

  datatype Call =
    | Init(config: Option<Config>)
    | IdentifyCall(userId: string, props: Option<Props>)
    | Pageview(path: Option<string>)
    | Event(name: string, eventProps: Option<Props>)
    | SetPerson(personProps: Props)
    | Reset

  function Start(clientType: string, hasWindow: bool): Machine {
    Machine(clientType, hasWindow, false, None, None, [], map[], [])
  }

  function HeldIdentify(i: Option<PendingIdentify>): seq<Emitted> {
    if i.Some? then [LibIdentify(i.value.userId, i.value.props)] else []
  }

  function HeldPageview(p: Option<string>): seq<Emitted> {
    if p.Some? then [LibPageview(UrlOf(p.value))] else []
  }

  predicate Starts(hasWindow: bool, c: Call) {
    c.Init? && hasWindow && c.config.Some? && c.config.value.key != ""
  }

  function Step(m: Machine, c: Call): Machine {
    match c
    case Init(config) =>
      if !Starts(m.hasWindow, c) || m.initialized then m
      else m.(initialized := true, pendingIdentify := None, pendingPageview := None, pendingOps := [],
              superProperties := SuperProps(m.clientType, config.value),
              log := m.log + Startup(m.clientType, config.value)
                     + HeldIdentify(m.pendingIdentify) + HeldPageview(m.pendingPageview) + EmitAll(m.pendingOps))
    case IdentifyCall(u, p) =>
      if m.initialized then m.(log := m.log + [LibIdentify(u, p)]) else m.(pendingIdentify := Some(PendingIdentify(u, p)))
    case Pageview(path) =>
      if m.initialized then m.(log := m.log + [LibPageview(if Truthy(path) then path else None)])
      else m.(pendingPageview := Some(if path.Some? then path.value else ""))
    case Event(n, p) =>
      if m.initialized then m.(log := m.log + [LibCapture(n, p)])
      else m.(pendingOps := m.pendingOps + [PendingEvent(n, p)])
    case SetPerson(p) =>
      if m.initialized then m.(log := m.log + [LibSet(p)]) else m.(pendingOps := m.pendingOps + [PendingSet(p)])
    case Reset =>
      var cleared := m.(pendingIdentify := None, pendingPageview := None, pendingOps := []);
      if !m.initialized then cleared
      else cleared.(log := m.log + [LibReset] + if m.superProperties != map[] then [LibRegister(m.superProperties)] else [])
  }

  function RunCalls(m: Machine, calls: seq<Call>): Machine
  {
    if calls == [] then m else Step(RunCalls(m, calls[..|calls| - 1]), calls[|calls| - 1])
  }

  // ----- the specification: what a sequence of calls should have emitted -----

  /** The calls after the last reset. */
  function SinceReset(calls: seq<Call>): seq<Call> {
    if calls == [] || calls[|calls| - 1].Reset? then []
    else SinceReset(calls[..|calls| - 1]) + [calls[|calls| - 1]]
  }

  /** The requested events and person updates, in call order, once each. */
  function Requested(calls: seq<Call>): seq<Emitted> {
    if calls == [] then []
    else
      Requested(calls[..|calls| - 1])
      + match calls[|calls| - 1]
        case Event(n, p) => [LibCapture(n, p)]
        case SetPerson(p) => [LibSet(p)]
        case _ => []
  }

  function LatestIdentify(calls: seq<Call>): seq<Emitted> {
    if calls == [] then []
    else match calls[|calls| - 1]
      case IdentifyCall(u, p) => [LibIdentify(u, p)]
      case _ => LatestIdentify(calls[..|calls| - 1])
  }

  function LatestPageview(calls: seq<Call>): seq<Emitted> {
    if calls == [] then []
    else match calls[|calls| - 1]
      case Pageview(p) => [LibPageview(if Truthy(p) then p else None)]
      case _ => LatestPageview(calls[..|calls| - 1])
  }

  /** What a call emits at once when it comes after initialisation. */
  function DirectOf(c: Call, superProps: Props): seq<Emitted> {
    match c
    case Init(_) => []
    case IdentifyCall(u, p) => [LibIdentify(u, p)]
    case Pageview(p) => [LibPageview(if Truthy(p) then p else None)]
    case Event(n, p) => [LibCapture(n, p)]
    case SetPerson(p) => [LibSet(p)]
    case Reset => [LibReset, LibRegister(superProps)]
  }

  function Direct(calls: seq<Call>, superProps: Props): seq<Emitted> {
    if calls == [] then []
    else Direct(calls[..|calls| - 1], superProps) + DirectOf(calls[|calls| - 1], superProps)
  }

  ghost predicate Buffers(m: Machine, recent: seq<Call>) {
    && HeldIdentify(m.pendingIdentify) == LatestIdentify(recent)
    && HeldPageview(m.pendingPageview) == LatestPageview(recent)
    && EmitAll(m.pendingOps) == Requested(recent)
  }

  lemma BufferStep(m: Machine, recent: seq<Call>, c: Call)
    requires !m.initialized && Buffers(m, recent) && !Starts(m.hasWindow, c) && !c.Reset?
    ensures Buffers(Step(m, c), recent + [c])
  {
    assert (recent + [c])[..|recent|] == recent;
    assert Requested(recent) + [] == Requested(recent);
    if c.Event? {
      EmitAllPush(m.pendingOps, PendingEvent(c.name, c.eventProps));
    } else if c.SetPerson? {
      EmitAllPush(m.pendingOps, PendingSet(c.personProps));
    }
  }

  /** Before initialisation nothing is emitted, and the buffers hold what the specification will flush. */
  lemma {:induction false} BufferedExactly(clientType: string, hasWindow: bool, calls: seq<Call>)
    requires forall c :: c in calls ==> !Starts(hasWindow, c)
    ensures var m := RunCalls(Start(clientType, hasWindow), calls);
      && m.clientType == clientType && m.hasWindow == hasWindow && !m.initialized && m.log == []
      && Buffers(m, SinceReset(calls))
  {
    if calls != [] {
      var init, c := calls[..|calls| - 1], calls[|calls| - 1];
      BufferedExactly(clientType, hasWindow, init);
      if !c.Reset? {
        BufferStep(RunCalls(Start(clientType, hasWindow), init), SinceReset(init), c);
      }
    }
  }

  lemma EmitAllPush(ops: seq<PendingOp>, op: PendingOp)
    ensures EmitAll(ops + [op]) == EmitAll(ops) + [Emit(op)]
  {
  }

  lemma DirectStep(m: Machine, c: Call)
    requires m.initialized && m.pendingOps == [] && m.superProperties != map[]
    ensures var n := Step(m, c);
      && n.initialized && n.pendingOps == [] && n.superProperties == m.superProperties
      && n.log == m.log + DirectOf(c, m.superProperties)
  {
  }

  /** What initialisation flushes: the latest identify and pageview, then everything else in order. */
  function Flushed(recent: seq<Call>): seq<Emitted> {
    LatestIdentify(recent) + LatestPageview(recent) + Requested(recent)
  }

  /**
   * Late initialisation loses, doubles and reorders nothing. With the first effective `initAnalytics`
   * after `early` and the calls `late` behind it, the log is: startup, the latest buffered identify and
   * pageview since the last early reset, every event and person update since then in call order, and
   * then each late call as it comes.
   */
  lemma {:induction false} LateInitExact(clientType: string, hasWindow: bool, early: seq<Call>, start: Call, late: seq<Call>)
    requires forall c :: c in early ==> !Starts(hasWindow, c)
    requires Starts(hasWindow, start)
    ensures var superProps := SuperProps(clientType, start.config.value);
      var m := RunCalls(Start(clientType, hasWindow), early + [start] + late);
      && m.initialized && m.pendingOps == [] && m.superProperties == superProps
      && m.log == Startup(clientType, start.config.value) + Flushed(SinceReset(early)) + Direct(late, superProps)
  {
    var all := early + [start] + late;
    if late == [] {
      assert all[..|all| - 1] == early && all[|all| - 1] == start;
      BufferedExactly(clientType, hasWindow, early);
      FlushOnStart(RunCalls(Start(clientType, hasWindow), early), SinceReset(early), start);
    } else {
      var before := late[..|late| - 1];
      var c, superProps := late[|late| - 1], SuperProps(clientType, start.config.value);
      LateInitExact(clientType, hasWindow, early, start, before);
      RunCallsPush(Start(clientType, hasWindow), early + [start] + before, c);
      assert all == early + [start] + before + [c];
      assert "client_type" in superProps;
      DirectStep(RunCalls(Start(clientType, hasWindow), early + [start] + before), c);
      LogPush(Startup(clientType, start.config.value) + Flushed(SinceReset(early)), late, superProps);
    }
  }

  lemma RunCallsPush(m: Machine, calls: seq<Call>, c: Call)
    ensures RunCalls(m, calls + [c]) == Step(RunCalls(m, calls), c)
  {
    assert (calls + [c])[..|calls|] == calls;
  }

  lemma LogPush(log: seq<Emitted>, late: seq<Call>, superProps: Props)
    requires late != []
    ensures log + Direct(late[..|late| - 1], superProps) + DirectOf(late[|late| - 1], superProps) == log + Direct(late, superProps)
  {
  }

  lemma FlushOnStart(m: Machine, recent: seq<Call>, start: Call)
    requires !m.initialized && m.log == [] && Buffers(m, recent) && Starts(m.hasWindow, start)
    ensures Step(m, start).log == Startup(m.clientType, start.config.value) + Flushed(recent) + []
  {
    var a, b, c, d := Startup(m.clientType, start.config.value), LatestIdentify(recent), LatestPageview(recent), Requested(recent);
    assert [] + a + b + c + d == a + (b + c + d) + [];
  }

  /** Without an effective initialisation nothing is ever emitted. */
  lemma NeverInitialised(clientType: string, hasWindow: bool, calls: seq<Call>)
    requires forall c :: c in calls ==> !Starts(hasWindow, c)
    ensures RunCalls(Start(clientType, hasWindow), calls).log == []
  {
    BufferedExactly(clientType, hasWindow, calls);
  }

  /**
   * The first two entries of the log, by values: the library is started with the configured key and host,
   * the default host if none is configured, and the super-properties are exactly the client type and, if
   * configured, the version.
   */
  lemma StartupInFull(clientType: string, hasWindow: bool, early: seq<Call>, start: Call, late: seq<Call>)
    requires forall c :: c in early ==> !Starts(hasWindow, c)
    requires Starts(hasWindow, start)
    ensures var m := RunCalls(Start(clientType, hasWindow), early + [start] + late); var config := start.config.value;
      && |m.log| >= 2
      && m.log[0] == LibInit(config.key, if config.host == "" then "https://us.i.posthog.com" else config.host)
      && m.log[1].LibRegister?
      && var props := m.log[1].superProps; var versioned := config.appVersion.Some? && config.appVersion.value != "";
      && props.Keys == {"client_type"} + (if versioned then {"app_version"} else {})
      && props["client_type"] == clientType && (versioned ==> props["app_version"] == config.appVersion.value)
  {
    LateInitExact(clientType, hasWindow, early, start, late);
    assert Startup(clientType, start.config.value)[1] == LibRegister(SuperProps(clientType, start.config.value));
  }

  /** A reset of a running client resets the library and registers the same super-properties again. */
  lemma ResetReregisters(clientType: string, hasWindow: bool, early: seq<Call>, start: Call)
    requires forall c :: c in early ==> !Starts(hasWindow, c)
    requires Starts(hasWindow, start)
    ensures var m := RunCalls(Start(clientType, hasWindow), early + [start] + []);
      |m.log| >= 2 && Step(m, Reset).log == m.log + [LibReset, m.log[1]]
  {
    LateInitExact(clientType, hasWindow, early, start, []);
    assert Startup(clientType, start.config.value)[1] == LibRegister(SuperProps(clientType, start.config.value));
    assert "client_type" in SuperProps(clientType, start.config.value);
    DirectStep(RunCalls(Start(clientType, hasWindow), early + [start] + []), Reset);
  }
}
