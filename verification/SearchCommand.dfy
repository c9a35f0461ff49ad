/**
 * Debounce and abort logic of the search dialog (packages/views/search/search-command.tsx). Timers fire
 * and requests settle at any later moment, in any order; clearing a timer stops it, aborting a request
 * does not stop its response from arriving.
 */
module SearchCommand {
  import opened Prelude
  import opened Text

  type Results = seq<string>

  /** A request and the `search` call (by number) whose timer started it. */
  datatype Request = Request(call: nat, query: string, aborted: bool, settled: bool)

  datatype State = State(
    calls: nat,                       // number of `search` calls so far
    timer: Option<(nat, string)>,     // the armed timer: its call and query
    requests: seq<Request>,           // every request ever started; the last is abortRef.current
    results: Results,
    resultsFrom: Option<nat>,         // the call whose response is shown, if any
    isLoading: bool,
    mounted: bool)

  datatype Step =
    | Search(query: string)
    | TimerFires
    | Respond(request: nat, found: Results)
    | Fail(request: nat)
    | CloseDialog
    | Unmount

  function Initial(): State {
    State(0, None, [], [], None, false, true)
  }

  /** `abortRef.current?.abort()` */
  function AbortLast(rs: seq<Request>): seq<Request> {
    if rs == [] then [] else rs[|rs| - 1 := rs[|rs| - 1].(aborted := true)]
  }

  function Next(st: State, s: Step): State {
    match s
    case Search(q) =>
      if !st.mounted then st
      else
        var st1 := st.(calls := st.calls + 1, timer := None, requests := AbortLast(st.requests));
        if Trim(q) == "" then st1.(results := [], resultsFrom := None, isLoading := false)
        else st1.(isLoading := true, timer := Some((st1.calls, q)))
    case TimerFires =>
      if st.timer.None? then st
      else st.(timer := None, requests := st.requests + [Request(st.timer.value.0, Trim(st.timer.value.1), false, false)])
    case Respond(k, found) =>
      if k >= |st.requests| || st.requests[k].settled then st
      else
        var st1 := st.(requests := st.requests[k := st.requests[k].(settled := true)]);
        if st.requests[k].aborted then st1
        else st1.(results := found, resultsFrom := Some(st.requests[k].call), isLoading := false)
    case Fail(k) =>
      if k >= |st.requests| || st.requests[k].settled then st
      else
        var st1 := st.(requests := st.requests[k := st.requests[k].(settled := true)]);
        if st.requests[k].aborted then st1 else st1.(isLoading := false)
    case CloseDialog => st.(results := [], resultsFrom := None, isLoading := false)
    case Unmount => st.(timer := None, requests := AbortLast(st.requests), mounted := false)
  }

  function Run(st: State, steps: seq<Step>): State {
    if steps == [] then st else Next(Run(st, steps[..|steps| - 1]), steps[|steps| - 1])
  }

  // ----- the invariant -----

  /** Something is under way that will end the loading state. */
  predicate UnderWay(st: State) {
    st.timer.Some?
    || (st.requests != [] && !st.requests[|st.requests| - 1].aborted && !st.requests[|st.requests| - 1].settled)
  }

  ghost predicate Inv(st: State) {
    && (forall k :: 0 <= k < |st.requests| ==> st.requests[k].call <= st.calls)
    && (forall k :: 0 <= k < |st.requests| - 1 ==> st.requests[k].aborted)
    && (forall k :: 0 <= k < |st.requests| && !st.requests[k].aborted ==> st.requests[k].call == st.calls && st.timer.None?)
    && (st.timer.Some? ==> st.timer.value.0 == st.calls && st.mounted)
    && (st.isLoading && st.mounted ==> UnderWay(st))
  }

  lemma StepInv(st: State, s: Step)
    requires Inv(st)
    ensures Inv(Next(st, s))
  {
  }

  lemma {:induction false} RunInv(steps: seq<Step>)
    ensures Inv(Run(Initial(), steps))
  {
    if steps != [] {
      RunInv(steps[..|steps| - 1]);
      StepInv(Run(Initial(), steps[..|steps| - 1]), steps[|steps| - 1]);
    }
  }

  /**
   * Latest search wins. In every reachable state at most one request is not aborted, it is the last one
   * and belongs to the latest call, and the dialog shows "loading" only while an answer is still to come.
   */
  lemma AtMostOneLive(steps: seq<Step>, j: nat, k: nat)
    ensures var st := Run(Initial(), steps);
      && (j < |st.requests| && k < |st.requests| && !st.requests[j].aborted && !st.requests[k].aborted ==> j == k)
      && (k < |st.requests| && !st.requests[k].aborted ==> st.requests[k].call == st.calls && k == |st.requests| - 1)
      && (st.isLoading && st.mounted ==> UnderWay(st))
  {
    RunInv(steps);
  }

  /** Whatever step changes the shown results: it clears them, or stores the answer to the latest call. */
  lemma OnlyLatestStored(steps: seq<Step>, s: Step)
    ensures var st := Run(Initial(), steps); var after := Next(st, s);
      after.results != st.results || after.resultsFrom != st.resultsFrom ==>
        (after.results == [] && after.resultsFrom == None)
        || (s.Respond? && s.request < |st.requests| && after.results == s.found
            && after.resultsFrom == Some(st.calls) && st.requests[s.request].call == st.calls)
  {
    RunInv(steps);
  }

  // ----- a search is answered -----

  /** Steps that neither start another search nor take the dialog away. */
  ghost predicate Calm(steps: seq<Step>) {
    forall s :: s in steps ==> !s.Search? && !s.Unmount?
  }

  /** The debounce timer of the latest call is armed with its query. */
  predicate Armed(st: State, q: string) {
    st.timer == Some((st.calls, q)) && st.mounted
  }

  lemma {:induction false} StaysArmed(st: State, steps: seq<Step>, q: string)
    requires Armed(st, q) && Calm(steps) && TimerFires !in steps
    ensures Armed(RunFrom(st, steps), q)
    decreases |steps|
  {
    if steps != [] {
      assert steps[0] in steps;
      StaysArmed(Next(st, steps[0]), steps[1..], q);
    }
  }

  /** The request of the latest call is under way. */
  predicate Asked(st: State, k: nat, r: Request) {
    st.timer.None? && k == |st.requests| - 1 && st.requests[k] == r && !r.aborted && !r.settled
  }

  ghost predicate Unanswered(steps: seq<Step>, k: nat) {
    forall s :: s in steps ==> !(s.Respond? && s.request == k) && !(s.Fail? && s.request == k)
  }

  lemma {:induction false} StaysAsked(st: State, steps: seq<Step>, k: nat, r: Request)
    requires Asked(st, k, r) && Calm(steps) && Unanswered(steps, k)
    ensures Asked(RunFrom(st, steps), k, r)
    decreases |steps|
  {
    if steps != [] {
      assert steps[0] in steps;
      StaysAsked(Next(st, steps[0]), steps[1..], k, r);
    }
  }

  /**
   * Typing leads to an answer. After a search for a text that is not blank, whatever else happens that is
   * no other search: when the timer fires, a request for that text without surrounding white space is
   * started, and when its answer arrives, it is what the dialog shows.
   */
  lemma SearchAnswered(before: seq<Step>, q: string, wait: seq<Step>, wait': seq<Step>, found: Results)
    requires Run(Initial(), before).mounted && Ink(q) != ""
    requires Calm(wait) && TimerFires !in wait && Calm(wait')
    requires Unanswered(wait', |RunFrom(Next(Run(Initial(), before), Search(q)), wait).requests|)
    ensures var armed := RunFrom(Next(Run(Initial(), before), Search(q)), wait);
      var k := |armed.requests|; var fired := Next(armed, TimerFires);
      && |fired.requests| == k + 1 && fired.requests[..k] == armed.requests
      && fired.requests[k].query != "" && Ink(fired.requests[k].query) == Ink(q)
      && !IsSpace(fired.requests[k].query[0]) && !IsSpace(fired.requests[k].query[|fired.requests[k].query| - 1])
      && var shown := Next(RunFrom(fired, wait'), Respond(k, found));
      shown.results == found && !shown.isLoading
  {
    InkTrim(q);
    var a, b := TrimExact(q);
    var typed := Next(Run(Initial(), before), Search(q));
    StaysArmed(typed, wait, q);
    var armed := RunFrom(typed, wait);
    var fired := Next(armed, TimerFires);
    StaysAsked(fired, wait', |armed.requests|, fired.requests[|armed.requests|]);
  }

  /** A blank search clears the list, aborts what is under way, and starts nothing before the next search. */
  lemma {:induction false} BlankSearchStartsNothing(st: State, steps: seq<Step>)
    requires st.timer.None? && NoSearch(steps)
    ensures |RunFrom(st, steps).requests| == |st.requests| && RunFrom(st, steps).timer.None?
    decreases |steps|
  {
    if steps != [] {
      assert steps[0] in steps;
      BlankSearchStartsNothing(Next(st, steps[0]), steps[1..]);
    }
  }

  lemma BlankSearch(before: seq<Step>, q: string, steps: seq<Step>)
    requires Run(Initial(), before).mounted && Ink(q) == "" && NoSearch(steps)
    ensures var st := Run(Initial(), before); var cleared := Next(st, Search(q));
      && cleared.results == [] && !cleared.isLoading && !UnderWay(cleared)
      && |RunFrom(cleared, steps).requests| == |st.requests|
      && RunFrom(cleared, steps).results == []
  {
    InkTrim(q);
    RunInv(before);
    var cleared := Next(Run(Initial(), before), Search(q));
    StepInv(Run(Initial(), before), Search(q));
    BlankSearchStartsNothing(cleared, steps);
    QuietStays(cleared, steps);
  }

  // ----- closing the dialog -----

  ghost predicate NoSearch(steps: seq<Step>) {
    forall s :: s in steps ==> !s.Search?
  }

  function RunFrom(st: State, steps: seq<Step>): State
    decreases |steps|
  {
    if steps == [] then st else RunFrom(Next(st, steps[0]), steps[1..])
  }

  lemma {:induction false} QuietStays(st: State, steps: seq<Step>)
    requires Inv(st) && !UnderWay(st) && st.results == [] && NoSearch(steps)
    ensures RunFrom(st, steps).results == []
    decreases |steps|
  {
    if steps != [] {
      assert !steps[0].Search?;
      StepInv(st, steps[0]);
      QuietStays(Next(st, steps[0]), steps[1..]);
    }
  }

  /** What is under way when the dialog closes may still answer. */
  lemma LateAnswer(st: State, found: Results) returns (steps: seq<Step>)
    requires UnderWay(st)
    ensures NoSearch(steps) && RunFrom(st, steps).results == found
  {
    var fired := Next(st, TimerFires);
    var respond := Respond(|fired.requests| - 1, found);
    assert [respond][1..] == [] && RunFrom(fired, [respond]) == Next(fired, respond);
    steps := if st.timer.Some? then [TimerFires, respond] else [respond];
    assert st.timer.Some? ==> steps[1..] == [respond];
  }

  /**
   * Closing the dialog clears the list but stops nothing: the list stays empty, whatever happens until
   * the next `search` call, exactly if nothing was under way at the close.
   */
  lemma ClosedStaysEmptyExact(before: seq<Step>)
    ensures var st := Run(Initial(), before);
      (forall steps :: NoSearch(steps) ==> RunFrom(Next(st, CloseDialog), steps).results == []) <==> !UnderWay(st)
  {
    RunInv(before);
    var closed := Next(Run(Initial(), before), CloseDialog);
    StepInv(Run(Initial(), before), CloseDialog);
    if UnderWay(closed) {
      var steps := LateAnswer(closed, ["late"]);
    } else {
      forall steps | NoSearch(steps) ensures RunFrom(closed, steps).results == [] {
        QuietStays(closed, steps);
      }
    }
  }

  // ----- after unmounting -----

  ghost predicate Silenced(st: State) {
    !st.mounted && st.timer.None? && forall k :: 0 <= k < |st.requests| ==> st.requests[k].aborted
  }

  lemma {:induction false} SilencedStays(st: State, steps: seq<Step>)
    requires Silenced(st) && CloseDialog !in steps
    ensures RunFrom(st, steps).results == st.results && |RunFrom(st, steps).requests| == |st.requests|
    decreases |steps|
  {
    if steps != [] {
      assert steps[0] in steps;
      SilencedStays(Next(st, steps[0]), steps[1..]);
    }
  }

  /** An unmounted dialog starts no request and stores no answer any more. */
  lemma UnmountedStoresNothing(before: seq<Step>, steps: seq<Step>)
    requires CloseDialog !in steps
    ensures var st := Run(Initial(), before); var after := RunFrom(Next(st, Unmount), steps);
      after.results == st.results && |after.requests| == |st.requests|
  {
    RunInv(before);
    SilencedStays(Next(Run(Initial(), before), Unmount), steps);
  }

  // ----- the component -----

  class Dialog {
    var calls: nat
    var timer: Option<(nat, string)>
    var requests: seq<Request>
    var results: Results
    var resultsFrom: Option<nat>
    var isLoading: bool
    var mounted: bool

    constructor ()
      ensures Value() == Initial()
    {
      calls, timer, requests, results, resultsFrom, isLoading, mounted := 0, None, [], [], None, false, true;
    }

    function Value(): State
      reads this
    {
      State(calls, timer, requests, results, resultsFrom, isLoading, mounted)
    }

    method OnSearch(q: string)
      requires mounted
      modifies this
      ensures Value() == Next(old(Value()), Search(q))
    {
      calls := calls + 1;
      timer := None;
      if requests != [] {
        requests := requests[|requests| - 1 := requests[|requests| - 1].(aborted := true)];
      }
      if Trim(q) == "" {
        results, resultsFrom := [], None;
        isLoading := false;
        return;
      }
      isLoading := true;
      timer := Some((calls, q));
    }

    /** The debounce callback up to its `await`; returns the new controller's index. */
    method OnTimer() returns (controller: nat)
      requires timer.Some?
      modifies this
      ensures Value() == Next(old(Value()), TimerFires) && controller == |old(requests)|
    {
      controller := |requests|;
      requests := requests + [Request(timer.value.0, Trim(timer.value.1), false, false)];
      timer := None;
    }

    /** The rest of the callback: `found` is None when the request failed. */
    method OnSettled(controller: nat, found: Option<Results>)
      requires controller < |requests| && !requests[controller].settled
      modifies this
      ensures Value() == Next(old(Value()), if found.Some? then Respond(controller, found.value) else Fail(controller))
    {
      var aborted := requests[controller].aborted;
      requests := requests[controller := requests[controller].(settled := true)];
      if !aborted {
        if found.Some? {
          results, resultsFrom := found.value, Some(requests[controller].call);
        }
        isLoading := false;
      }
    }

    /** The dialog closes: the list is cleared, but nothing under way is stopped. */
    method OnClose()
      modifies this
      ensures Value() == Next(old(Value()), CloseDialog)
    {
      results, resultsFrom := [], None;
      isLoading := false;
    }

    method OnUnmount()
      modifies this
      ensures Value() == Next(old(Value()), Unmount)
    {
      timer := None;
      if requests != [] {
        requests := requests[|requests| - 1 := requests[|requests| - 1].(aborted := true)];
      }
      mounted := false;
    }
  }
}
