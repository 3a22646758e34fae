/** The two-phase shutdown of the HTTP transports: the main goroutine cancels
    and awaits the MCP server, then the observability server, while each
    server runs in a goroutine of its own and reports on a channel. */
module Shutdown {
  import opened Prelude

  // ------------------------------------------------------------ the machine

  /** A server goroutine: not started, inside httpx.Run, returned with an error
      and about to call abort, about to send on its channel, finished. */
  datatype Goroutine = NotStarted | Serving | Failing | Reporting | Finished

  /** failed and alone record how httpx.Run returned: with an error, and before
      its context was cancelled. sent is the content of the done channel. */
  datatype Server = Server(pc: Goroutine, cancelled: bool, failed: bool, alone: bool, sent: seq<bool>)
  {
    predicate Stopped()
    {
      pc.Failing? || pc.Reporting? || pc.Finished?
    }
  }

  datatype MainPc = StartMcp | StartObs | AwaitShutdown | CancelMcp | AwaitMcp | CancelObs | AwaitObs | Returned

  datatype State = State(pc: MainPc, mcp: Server, obs: Server, shutdown: bool, signalled: bool)

  datatype Who = Mcp | Obs

  datatype Event =
    | Signal
    | Main
    | RunReturns(who: Who, failed: bool)
    | Proceeds(who: Who)

  /** make(chan error, 1) */
  const DONE_CAPACITY := 1

  const LAUNCH: State :=
    State(StartMcp, Server(NotStarted, false, false, false, []), Server(NotStarted, false, false, false, []), false, false)

  function The(s: State, who: Who): Server
  {
    if who.Mcp? then s.mcp else s.obs
  }

  function With(s: State, who: Who, server: Server): State
  {
    if who.Mcp? then s.(mcp := server) else s.(obs := server)
  }

  /** The next statement of the main goroutine; None while it blocks. */
  function MainStep(s: State): Option<State>
  {
    match s.pc
    case StartMcp => Some(s.(pc := StartObs, mcp := s.mcp.(pc := Serving)))
    case StartObs => Some(s.(pc := AwaitShutdown, obs := s.obs.(pc := Serving)))
    case AwaitShutdown => if s.shutdown then Some(s.(pc := CancelMcp)) else None
    case CancelMcp => Some(s.(pc := AwaitMcp, mcp := s.mcp.(cancelled := true)))
    case AwaitMcp => if s.mcp.sent != [] then Some(s.(pc := CancelObs, mcp := s.mcp.(sent := s.mcp.sent[1..]))) else None
    case CancelObs => Some(s.(pc := AwaitObs, obs := s.obs.(cancelled := true)))
    case AwaitObs => if s.obs.sent != [] then Some(s.(pc := Returned, obs := s.obs.(sent := s.obs.sent[1..]))) else None
    case Returned => None
  }

  /** The state after an event; None when it cannot happen. httpx.Run may
      return at any time, with or without an error. */
  function Apply(s: State, e: Event): Option<State>
  {
    match e
    case Signal => Some(s.(shutdown := true, signalled := true))
    case Main => MainStep(s)
    case RunReturns(who, failed) =>
      var server := The(s, who);
      if server.pc.Serving? then
        Some(With(s, who, server.(pc := if failed then Failing else Reporting, failed := failed, alone := !server.cancelled)))
      else None
    case Proceeds(who) =>
      var server := The(s, who);
      match server.pc
      case Failing => Some(With(s.(shutdown := true), who, server.(pc := Reporting)))
      case Reporting =>
        if |server.sent| < DONE_CAPACITY then Some(With(s, who, server.(pc := Finished, sent := server.sent + [server.failed])))
        else None
      case _ => None
  }

  predicate Happens(s: State, e: Event, s': State)
  {
    Apply(s, e) == Some(s')
  }

  /** The states of a run from launch on; events[i] leads from run[i] to run[i + 1]. */
  ghost predicate IsRun(run: seq<State>, events: seq<Event>)
  {
    && |run| == |events| + 1 && run[0] == LAUNCH
    && forall i {:trigger events[i]} | 0 <= i < |events| :: Happens(run[i], events[i], run[i + 1])
  }

  /** Nothing is left to happen but a signal, or a server stopping uncancelled. */
  predicate Quiet(s: State)
  {
    && Apply(s, Main).None?
    && Apply(s, Proceeds(Mcp)).None? && Apply(s, Proceeds(Obs)).None?
    && (s.mcp.cancelled ==> !s.mcp.pc.Serving?)
    && (s.obs.cancelled ==> !s.obs.pc.Serving?)
  }

  // ---------------------------------------------------------- the invariant

  function Stage(pc: MainPc): nat
  {
    match pc
    case StartMcp => 0
    case StartObs => 1
    case AwaitShutdown => 2
    case CancelMcp => 3
    case AwaitMcp => 4
    case CancelObs => 5
    case AwaitObs => 6
    case Returned => 7
  }

  /** How a server stands when main is at this stage: started, cancelled and
      received from at the given stages, and its report sent once. */
  predicate ServerOk(s: State, server: Server, started: nat, cancelled: nat, received: nat)
  {
    var stage := Stage(s.pc);
    && (server.pc.NotStarted? <==> stage < started)
    && (server.cancelled <==> stage >= cancelled)
    && (stage >= received ==> server.pc.Finished?)
    && server.sent == (if server.pc.Finished? && stage < received then [server.failed] else [])
    && (server.failed ==> server.Stopped()) && (server.pc.Failing? ==> server.failed)
    && (server.failed && !server.pc.Failing? ==> s.shutdown)
    && (server.Stopped() && !server.alone ==> server.cancelled)
  }

  predicate Inv(s: State)
  {
    && ServerOk(s, s.mcp, 1, 4, 5) && ServerOk(s, s.obs, 2, 6, 7)
    && (Stage(s.pc) > 2 ==> s.shutdown)
    && (s.shutdown ==> s.signalled || s.mcp.failed || s.obs.failed)
    && (s.signalled ==> s.shutdown)
  }

  lemma MainKeepsInv(s: State, s': State)
    requires Inv(s) && MainStep(s) == Some(s')
    ensures Inv(s')
  {
  }

  lemma ReturnKeepsInv(s: State, who: Who, failed: bool, s': State)
    requires Inv(s) && Apply(s, RunReturns(who, failed)) == Some(s')
    ensures Inv(s')
  {
  }

  lemma ReportKeepsInv(s: State, who: Who, s': State)
    requires Inv(s) && Apply(s, Proceeds(who)) == Some(s')
    ensures Inv(s')
  {
  }

  lemma StepKeepsInv(s: State, e: Event, s': State)
    requires Inv(s) && Apply(s, e) == Some(s')
    ensures Inv(s')
  {
    match e
    case Signal =>
    case Main => MainKeepsInv(s, s');
    case RunReturns(who, failed) => ReturnKeepsInv(s, who, failed, s');
    case Proceeds(who) => ReportKeepsInv(s, who, s');
  }

  lemma {:induction false} RunsKeepInv(run: seq<State>, events: seq<Event>, i: nat)
    requires IsRun(run, events) && i < |run|
    ensures Inv(run[i])
  {
    if i > 0 {
      RunsKeepInv(run, events, i - 1);
      StepKeepsInv(run[i - 1], events[i - 1], run[i]);
    }
  }

  // ----------------------------------------------------------------- safety

  /** In every state of every run: the observability server is cancelled only
      once the MCP server has reported, main returns only once both have, and a
      goroutine that wants to report can. */
  lemma {:induction false} ShutdownIsOrdered(run: seq<State>, events: seq<Event>, i: nat)
    requires IsRun(run, events) && i < |run|
    ensures run[i].obs.cancelled ==> run[i].mcp.pc.Finished?
    ensures run[i].pc.Returned? ==> run[i].mcp.pc.Finished? && run[i].obs.pc.Finished?
    ensures forall who :: The(run[i], who).pc.Reporting? ==> Apply(run[i], Proceeds(who)).Some?
  {
    RunsKeepInv(run, events, i);
  }

  lemma OnlyMainCancelsObs(s: State, e: Event, s': State)
    requires Inv(s) && Apply(s, e) == Some(s') && !s.obs.cancelled && s'.obs.cancelled
    ensures s.pc.CancelObs?
  {
  }

  /** The observability server outlives the MCP server: one that was stopped by
      cancellation was still there, uncancelled, in an earlier state in which
      the MCP server had already finished. */
  lemma {:induction false} ObsOutlivesMcp(run: seq<State>, events: seq<Event>, i: nat)
    requires IsRun(run, events) && i < |run| && run[i].obs.cancelled
    ensures exists j | 0 <= j < i :: run[j].mcp.pc.Finished? && !run[j].obs.cancelled && run[j].pc.CancelObs?
  {
    RunsKeepInv(run, events, i);
    if i > 0 {
      RunsKeepInv(run, events, i - 1);
      if run[i - 1].obs.cancelled {
        ObsOutlivesMcp(run, events, i - 1);
      } else {
        OnlyMainCancelsObs(run[i - 1], events[i - 1], run[i]);
      }
    }
  }

  /** While the MCP server has not stopped, the observability server stops only
      of its own accord. */
  lemma {:induction false} HealthEndpointStaysUp(run: seq<State>, events: seq<Event>, i: nat)
    requires IsRun(run, events) && i < |run| && !run[i].mcp.Stopped() && run[i].obs.Stopped()
    ensures run[i].obs.alone
  {
    RunsKeepInv(run, events, i);
  }

  // --------------------------------------------------------------- progress

  function Left(server: Server): nat
  {
    match server.pc
    case NotStarted => 4
    case Serving => 3
    case Failing => 2
    case Reporting => 1
    case Finished => 0
  }

  function Measure(s: State): nat
  {
    7 - Stage(s.pc) + Left(s.mcp) + Left(s.obs)
  }

  lemma MainIsProgress(s: State, s': State)
    requires Inv(s) && MainStep(s) == Some(s')
    ensures Measure(s') < Measure(s)
  {
  }

  lemma ServerIsProgress(s: State, e: Event, s': State)
    requires Apply(s, e) == Some(s') && (e.RunReturns? || e.Proceeds?)
    ensures Measure(s') < Measure(s)
  {
  }

  /** Every event but a signal brings the run closer to its end. */
  lemma EventsAreProgress(s: State, e: Event, s': State)
    requires Inv(s) && Apply(s, e) == Some(s') && !e.Signal?
    ensures Measure(s') < Measure(s)
  {
    if e.Main? {
      MainIsProgress(s, s');
    } else {
      ServerIsProgress(s, e, s');
    }
  }

  function CountWork(events: seq<Event>): nat
  {
    if events == [] then 0 else CountWork(Front(events)) + if Last(events).Signal? then 0 else 1
  }

  lemma {:induction false} WorkIsBounded(run: seq<State>, events: seq<Event>)
    requires IsRun(run, events)
    ensures CountWork(events) + Measure(Last(run)) <= Measure(LAUNCH)
  {
    if events != [] {
      var n := |events|;
      assert IsRun(run[..n], Front(events));
      WorkIsBounded(run[..n], Front(events));
      RunsKeepInv(run, events, n - 1);
      if !Last(events).Signal? {
        EventsAreProgress(run[n - 1], events[n - 1], run[n]);
      }
    }
  }

  /** Every run ends: besides signals at most 15 events happen. */
  lemma {:induction false} RunsEnd(run: seq<State>, events: seq<Event>)
    requires IsRun(run, events)
    ensures CountWork(events) <= 15
  {
    WorkIsBounded(run, events);
  }

  predicate Asked(s: State)
  {
    s.signalled || s.mcp.failed || s.obs.failed
  }

  lemma StepKeepsAsked(s: State, e: Event, s': State)
    requires Inv(s) && Apply(s, e) == Some(s') && Asked(s)
    ensures Asked(s')
  {
  }

  /** A signal and a failure are never forgotten. */
  lemma {:induction false} AskedForGood(run: seq<State>, events: seq<Event>, i: nat, j: nat)
    requires IsRun(run, events) && i <= j < |run| && Asked(run[i])
    ensures Asked(run[j])
  {
    if i < j {
      AskedForGood(run, events, i, j - 1);
      RunsKeepInv(run, events, j - 1);
      StepKeepsAsked(run[j - 1], events[j - 1], run[j]);
    }
  }

  /** Where nothing is left to happen, runServe has returned exactly when a
      signal came or one of the servers failed. A server that stops by itself
      without an error does not bring the process down. */
  lemma {:induction false} QuietMeansReturnedIff(run: seq<State>, events: seq<Event>)
    requires IsRun(run, events) && Quiet(Last(run))
    ensures Last(run).pc.Returned? <==> Asked(Last(run))
  {
    RunsKeepInv(run, events, |events|);
  }

  /** A signal, or the failure of either server, at any point of a run stops
      both servers and lets runServe return, once all that can happen has. */
  lemma {:induction false} FailureOrSignalShutsDown(run: seq<State>, events: seq<Event>, i: nat)
    requires IsRun(run, events) && i < |run| && Asked(run[i]) && Quiet(Last(run))
    ensures Last(run).pc.Returned?
    ensures Last(run).mcp.pc.Finished? && Last(run).obs.pc.Finished?
  {
    AskedForGood(run, events, i, |events|);
    QuietMeansReturnedIff(run, events);
    ShutdownIsOrdered(run, events, |events|);
  }

  /** runServe does not return unasked. */
  lemma {:induction false} ReturnsOnlyWhenAsked(run: seq<State>, events: seq<Event>, i: nat)
    requires IsRun(run, events) && i < |run| && run[i].pc.Returned?
    ensures Asked(run[i])
  {
    RunsKeepInv(run, events, i);
  }

  /** What is not quiet can move: an event other than a signal is enabled, and
      it does not wait for a server to stop uncancelled. */
  lemma NotQuietCanMove(s: State)
    requires !Quiet(s)
    ensures exists e: Event :: !e.Signal? && Apply(s, e).Some? && (e.RunReturns? ==> The(s, e.who).cancelled)
  {
    var e :=
      if Apply(s, Main).Some? then Main
      else if Apply(s, Proceeds(Mcp)).Some? then Proceeds(Mcp)
      else if Apply(s, Proceeds(Obs)).Some? then Proceeds(Obs)
      else if s.mcp.cancelled && s.mcp.pc.Serving? then RunReturns(Mcp, false)
      else RunReturns(Obs, false);
    assert Apply(s, e).Some?;
  }

  /** One quiet run that did not return: the MCP server stops without an error. */
  lemma SilentStopIsNotShutdown()
    ensures exists run, events :: IsRun(run, events) && Quiet(Last(run)) && Last(run).mcp.pc.Finished? && !Last(run).pc.Returned?
  {
    var events := [Main, Main, RunReturns(Mcp, false), Proceeds(Mcp)];
    var a := Apply(LAUNCH, Main).value;
    var b := Apply(a, Main).value;
    var c := Apply(b, RunReturns(Mcp, false)).value;
    var d := Apply(c, Proceeds(Mcp)).value;
    assert IsRun([LAUNCH, a, b, c, d], events);
  }
}
