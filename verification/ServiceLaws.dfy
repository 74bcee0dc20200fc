/**
 The threads of the service seen from outside: what each of them reports and when, what the
 watchers watch and request, and that nobody else asks the shell for anything.
 */
module ServiceLaws {
  import opened Wrappers
  import opened ConfigSpec
  import opened ShellMachine
  import opened ShellLaws
  import opened ServiceMachine
  import opened ServiceShell
  import opened ServiceShutdown

  // ---------- Reports by one of the threads ----------

  const BY_START: Reporter -> bool := (r: Reporter) => r.ByStart?
  const BY_THREAD: Reporter -> bool := (r: Reporter) => r.ByThread?
  const BY_HANDLER: Reporter -> bool := (r: Reporter) => r.ByHandler?

  /** The states reported by the chosen reporters, in order. */
  function Said(who: Reporter -> bool, reports: seq<Report>): seq<ServiceState> {
    if reports == [] then []
    else
      var n := |reports| - 1;
      Said(who, reports[..n]) + if who(reports[n].reporter) then [reports[n].state] else []
  }

  /** What a move of the service says, if its reporter is among the chosen ones. */
  function Says(who: Reporter -> bool, t: Threads, m: Move): seq<ServiceState> {
    match ReportOf(t, m)
    case Some((state, reporter)) => if who(reporter) then [state] else []
    case None => []
  }

  lemma SaidOneMore(who: Reporter -> bool, c: Console, t: Threads, m: Move)
    ensures Said(who, NextConsole(c, ReportOf(t, m)).reports) == Said(who, c.reports) + Says(who, t, m)
  {
    var c' := NextConsole(c, ReportOf(t, m));
    match ReportOf(t, m)
    case None =>
    case Some(_) => assert c'.reports[..|c.reports|] == c.reports;
  }

  // ---------- Start ----------

  /** Whether thread creation succeeds, for each step of `Start` so far. */
  function StartSteps(moves: seq<Move>): seq<bool> {
    if moves == [] then []
    else
      StartSteps(moves[..|moves| - 1]) + StepOf(moves[|moves| - 1])
  }

  /** How far `Start` has come, and whether it has created the thread. */
  predicate StartedBy(t: Threads, steps: seq<bool>) {
    && t.start == (
         if |steps| == 0 then NotCalled
         else if |steps| == 1 then CreatingThread
         else if |steps| == 2 then ReportingRunning
         else Returned)
    && (t.thread != NotCreated <==> 2 <= |steps| && steps[1])
  }

  function StartSaid(steps: nat): seq<ServiceState> {
    if steps == 0 then [] else if steps <= 2 then [StartPending] else [StartPending, Running]
  }

  function StepOf(m: Move): seq<bool> {
    if m.StartStep? then [m.createOk] else []
  }

  lemma StartNext(t: Threads, pc: PC, steps: seq<bool>, m: Move)
    requires StartedBy(t, steps)
    ensures StartedBy(NextThreads(t, pc, m), steps + StepOf(m))
    ensures StartSaid(|steps|) + Says(BY_START, t, m) == StartSaid(|steps + StepOf(m)|)
  {
    if !m.StartStep? { assert steps + StepOf(m) == steps; }
  }

  /**
   `Start` reports start-pending, creates the thread in its second step, and reports running in
   its third, whether or not the thread could be created; it says nothing else.
   */
  lemma {:induction false} StartDoesItsSteps(load: Loader, file: ConfFile, moves: seq<Move>)
    ensures var s := RunService(load, InitialService(load, file), moves);
      && StartedBy(s.threads, StartSteps(moves))
      && Said(BY_START, s.console.reports) == StartSaid(|StartSteps(moves)|)
    decreases |moves|
  {
    if moves != [] {
      var n := |moves| - 1;
      var s := RunService(load, InitialService(load, file), moves[..n]);
      StartDoesItsSteps(load, file, moves[..n]);
      StartNext(s.threads, s.shell.pc, StartSteps(moves[..n]), moves[n]);
      SaidOneMore(BY_START, s.console, s.threads, moves[n]);
    }
  }

  // ---------- The service thread ----------

  /** The thread reports a stop once, at its end, and only when the shell's `Run` returned false. */
  ghost predicate FailureReported(s: Service) {
    && (s.threads.thread == ReportingFailure ==> s.shell.pc == Finished(false))
    && (s.threads.thread == Ended ==> s.shell.pc.Finished?)
    && Said(BY_THREAD, s.console.reports)
       == if s.threads.thread == Ended && s.shell.pc == Finished(false) then [Halted] else []
  }

  lemma FailureReportedNext(load: Loader, s: Service, m: Move)
    requires ServiceInOrder(s) && FailureReported(s)
    ensures FailureReported(NextService(load, s, m))
  {
    SaidOneMore(BY_THREAD, s.console, s.threads, m);
    ShellStaysPut(load, s.shell, s.threads, m);
    OnlyTheThreadReports(s.threads, s.shell.pc, m);
  }

  lemma OnlyTheThreadReports(t: Threads, pc: PC, m: Move)
    requires ThreadsInOrder(t, pc)
    requires t.thread == ReportingFailure ==> pc == Finished(false)
    ensures var t' := NextThreads(t, pc, m);
      && Says(BY_THREAD, t, m) == (if t.thread == ReportingFailure && t'.thread == Ended then [Halted] else [])
      && (t'.thread == Ended && t.thread != Ended ==> t.thread == ReportingFailure || pc == Finished(true))
      && (t'.thread == ReportingFailure ==> pc == Finished(false))
      && (t.thread == Ended ==> t'.thread == Ended)
  {
  }

  /** So a clean end is not reported as a failure, and a failure is reported once. */
  lemma {:induction false} ThreadReportsFailureOnly(load: Loader, file: ConfFile, moves: seq<Move>)
    ensures FailureReported(RunService(load, InitialService(load, file), moves))
    decreases |moves|
  {
    if moves != [] {
      var n := |moves| - 1;
      ThreadReportsFailureOnly(load, file, moves[..n]);
      EveryServiceRun(load, file, moves[..n]);
      FailureReportedNext(load, RunService(load, InitialService(load, file), moves[..n]), moves[n]);
    }
  }

  // ---------- The control handler ----------

  /** What the handler has said since it took a control, as far as it has come with it. */
  function SaidSoFar(handler: HandlerPC, stop: bool): seq<ServiceState> {
    match handler
    case ReportingPending => []
    case Unoccupied => (if stop then [StopPending] else []) + [Halted]
    case _ => if stop then [StopPending] else []
  }

  const ASKS: Event -> bool := (e: Event) => e.ShutdownAsked?

  /** How often the shell has been asked to end. */
  function Asks(shell: State): nat {
    |Filter(ASKS, shell.trace)|
  }

  /** The handler asks once, after reporting a stop as pending and before it waits. */
  function AsksSoFar(handler: HandlerPC): nat {
    if handler == ReportingPending || handler == Flagging then 0 else 1
  }

  lemma AsksOneMore(load: Loader, s: Service, m: Move)
    ensures Asks(NextService(load, s, m).shell)
         == Asks(s.shell) + if m.HandlerStep? && s.threads.handler == Flagging then 1 else 0
  {
    match ShellInput(s.threads, s.shell.pc, m)
    case None =>
    case Some(l) =>
      match Emitted(load, s.shell, l) {
        case None =>
        case Some(e) => FilterOneMore(ASKS, s.shell.trace, e);
      }
  }

  ghost predicate HandlesControl(s: Service, earlier: seq<ServiceState>, asked: nat, stop: bool) {
    && Said(BY_HANDLER, s.console.reports) == earlier + SaidSoFar(s.threads.handler, stop)
    && Asks(s.shell) == asked + AsksSoFar(s.threads.handler)
    && (s.threads.handler == ReportingPending ==> stop)
    && (s.threads.handler !in {ReportingPending, Flagging} ==> s.shell.shutdownRequested)
  }

  lemma HandlesOn(load: Loader, s: Service, earlier: seq<ServiceState>, asked: nat, stop: bool, m: Move)
    requires HandlesControl(s, earlier, asked, stop) && s.threads.handler != Unoccupied
    ensures HandlesControl(NextService(load, s, m), earlier, asked, stop)
  {
    AsksOneMore(load, s, m);
    SaidOneMore(BY_HANDLER, s.console, s.threads, m);
    FlagIsKept(load, s, m);
    HandlerSays(s.threads, s.shell.pc, stop, m);
    assert earlier + SaidSoFar(s.threads.handler, stop) + Says(BY_HANDLER, s.threads, m)
        == earlier + (SaidSoFar(s.threads.handler, stop) + Says(BY_HANDLER, s.threads, m));
  }

  lemma FlagIsKept(load: Loader, s: Service, m: Move)
    ensures var s' := NextService(load, s, m);
      && (s.shell.shutdownRequested ==> s'.shell.shutdownRequested)
      && (s.threads.handler == Flagging && s'.threads.handler != Flagging ==> s'.shell.shutdownRequested)
  {
    match ShellInput(s.threads, s.shell.pc, m)
    case Some(Shell(c)) => match s.shell.pc { case Applying => case _ => }
    case _ =>
  }

  lemma HandlerSays(t: Threads, pc: PC, stop: bool, m: Move)
    requires t.handler != Unoccupied && (t.handler == ReportingPending ==> stop)
    ensures var t' := NextThreads(t, pc, m);
      && SaidSoFar(t.handler, stop) + Says(BY_HANDLER, t, m) == SaidSoFar(t'.handler, stop)
      && AsksSoFar(t.handler) + (if m.HandlerStep? && t.handler == Flagging then 1 else 0) == AsksSoFar(t'.handler)
      && (t'.handler == ReportingPending ==> t.handler == ReportingPending)
      && (t'.handler !in {ReportingPending, Flagging} ==> t.handler != ReportingPending)
  {
  }

  ghost predicate BusyThroughout(load: Loader, s: Service, moves: seq<Move>) {
    forall n | 0 <= n < |moves| :: RunService(load, s, moves[..n]).threads.handler != Unoccupied
  }

  /**
   From the moment the handler takes a control until it is free again, whatever other threads do:
   a stop, not a shutdown, is first reported as pending; then the shell is asked to end, once; a
   stop is reported last, and nothing else is said.
   */
  lemma {:induction false} ControlIsHandled(load: Loader, s: Service, stop: bool, moves: seq<Move>)
    requires s.threads.handler == Unoccupied
    requires BusyThroughout(load, NextService(load, s, Control(stop)), moves)
    ensures HandlesControl(RunService(load, NextService(load, s, Control(stop)), moves),
                           Said(BY_HANDLER, s.console.reports), Asks(s.shell), stop)
    decreases |moves|
  {
    var taken, earlier := NextService(load, s, Control(stop)), Said(BY_HANDLER, s.console.reports);
    if moves == [] {
      SaidOneMore(BY_HANDLER, s.console, s.threads, Control(stop));
      AsksOneMore(load, s, Control(stop));
      assert earlier + [] == earlier;
    } else {
      var n := |moves| - 1;
      assert forall i | 0 <= i < n :: moves[..n][..i] == moves[..i];
      ControlIsHandled(load, s, stop, moves[..n]);
      HandlesOn(load, RunService(load, taken, moves[..n]), earlier, Asks(s.shell), stop, moves[n]);
    }
  }

  /** The handler is not held up: on its own it asks the shell at once. */
  lemma ControlAsksAtOnce(load: Loader, s: Service)
    requires s.threads.handler == Unoccupied
    ensures var t := RunService(load, s, [Control(false), HandlerStep]);
      t.threads.handler == WaitingForThread && t.shell.shutdownRequested
    ensures var t := RunService(load, s, [Control(true), HandlerStep] + [HandlerStep]);
      t.threads.handler == WaitingForThread && t.shell.shutdownRequested
  {
    TwoMoves(load, s, Control(false), HandlerStep);
    TwoMoves(load, s, Control(true), HandlerStep);
    OneMoreMove(load, s, [Control(true), HandlerStep], HandlerStep);
  }

  lemma WaitOver(load: Loader, s: Service)
    requires s.threads.handler == WaitingForThread && !Live(s.threads)
    ensures var t := RunService(load, s, [HandlerStep, HandlerStep]);
      && t.threads.handler == Unoccupied
      && t.console.reports == s.console.reports + [Report(Halted, 0, ByHandler(AfterCreation(s.threads)))]
  {
    TwoMoves(load, s, HandlerStep, HandlerStep);
  }

  // ---------- Nobody else ends the shell ----------

  ghost predicate NoControl(moves: seq<Move>) {
    forall m | m in moves :: !m.Control?
  }

  lemma NobodyElseAsks(load: Loader, s: Service, m: Move)
    requires s.threads.handler == Unoccupied && !s.shell.shutdownRequested && !m.Control?
    ensures var s' := NextService(load, s, m); s'.threads.handler == Unoccupied && !s'.shell.shutdownRequested
  {
    match ShellInput(s.threads, s.shell.pc, m)
    case Some(Shell(c)) => match s.shell.pc { case Applying => case _ => }
    case _ =>
  }

  /** Without a control the shell is never asked to end, so it does not, once the library is up. */
  lemma {:induction false} WithoutControlTheShellRunsOn(load: Loader, file: ConfFile, moves: seq<Move>)
    requires NoControl(moves)
    ensures var s := RunService(load, InitialService(load, file), moves);
      && s.threads.handler == Unoccupied && !s.shell.shutdownRequested
      && s.shell.pc !in {FinalStop, Deinitializing, Finished(true)}
    decreases |moves|
  {
    var init := InitialService(load, file);
    if moves != [] {
      var n := |moves| - 1;
      WithoutControlTheShellRunsOn(load, file, moves[..n]);
      assert moves[n] in moves;
      NobodyElseAsks(load, RunService(load, init, moves[..n]), moves[n]);
    }
    ServiceRunsItsShell(load, init, moves);
    LoopEndsOnlyWhenAsked(load, file, Inputs(load, init, moves));
  }

  // ---------- The watchers ----------

  predicate Watching(w: WatcherPC) {
    w == CheckingFlag || w == Waiting
  }

  /** What ends the watching although the flag is down: a failed wait, or no next wait. */
  predicate GivesUp(w: WatcherPC, watched: Watched) {
    w == Waiting && (watched == Failed || watched == Signalled(false))
  }

  /** While its flag is down, a watcher stops watching in these two cases and in no other. */
  lemma WatchersWatchOn(load: Loader, s: Service, m: Move)
    requires ServiceInOrder(s)
    ensures var t, t' := s.threads, NextService(load, s, m).threads;
      && (Watching(t.addr) && !t.stopAddr ==>
            (Watching(t'.addr) <==> !(m.AddrStep? && GivesUp(t.addr, m.watched))))
      && (Watching(t.conf) && !t.stopConf ==>
            (Watching(t'.conf) <==> !(m.ConfStep? && GivesUp(t.conf, m.watched))))
  {
  }

  /** No move of a run is one at which the address watcher, or the other one, gives up. */
  ghost predicate AddrHoldsOut(load: Loader, s: Service, moves: seq<Move>) {
    forall n | 0 <= n < |moves| && moves[n].AddrStep? ::
      !GivesUp(RunService(load, s, moves[..n]).threads.addr, moves[n].watched)
  }

  ghost predicate ConfHoldsOut(load: Loader, s: Service, moves: seq<Move>) {
    forall n | 0 <= n < |moves| && moves[n].ConfStep? ::
      !GivesUp(RunService(load, s, moves[..n]).threads.conf, moves[n].watched)
  }

  lemma FlagsStayUp(t: Threads, pc: PC, m: Move)
    ensures var t' := NextThreads(t, pc, m); (t.stopAddr ==> t'.stopAddr) && (t.stopConf ==> t'.stopConf)
  {
  }

  /** Over any run that leaves the flag down: signals and timeouts do not wear a watcher out. */
  lemma {:induction false} AddrWatcherLasts(load: Loader, s: Service, moves: seq<Move>)
    requires ServiceInOrder(s) && Watching(s.threads.addr) && AddrHoldsOut(load, s, moves)
    requires !RunService(load, s, moves).threads.stopAddr
    ensures ServiceInOrder(RunService(load, s, moves)) && Watching(RunService(load, s, moves).threads.addr)
    decreases |moves|
  {
    if moves != [] {
      var n := |moves| - 1;
      var before := RunService(load, s, moves[..n]);
      assert forall i | 0 <= i < n :: moves[..n][..i] == moves[..i];
      FlagsStayUp(before.threads, before.shell.pc, moves[n]);
      AddrWatcherLasts(load, s, moves[..n]);
      WatchersWatchOn(load, before, moves[n]);
      OrderStays(load, before, moves[n]);
    }
  }

  lemma {:induction false} ConfWatcherLasts(load: Loader, s: Service, moves: seq<Move>)
    requires ServiceInOrder(s) && Watching(s.threads.conf) && ConfHoldsOut(load, s, moves)
    requires !RunService(load, s, moves).threads.stopConf
    ensures ServiceInOrder(RunService(load, s, moves)) && Watching(RunService(load, s, moves).threads.conf)
    decreases |moves|
  {
    if moves != [] {
      var n := |moves| - 1;
      var before := RunService(load, s, moves[..n]);
      assert forall i | 0 <= i < n :: moves[..n][..i] == moves[..i];
      FlagsStayUp(before.threads, before.shell.pc, moves[n]);
      ConfWatcherLasts(load, s, moves[..n]);
      WatchersWatchOn(load, before, moves[n]);
      OrderStays(load, before, moves[n]);
    }
  }

  /** The flags go up only when the shell's `Run` has returned. */
  ghost predicate FlagsAfterShell(s: Service) {
    s.threads.stopAddr || s.threads.stopConf ==> s.shell.pc.Finished?
  }

  lemma {:induction false} FlagsGoUpAfterShell(load: Loader, file: ConfFile, moves: seq<Move>)
    ensures FlagsAfterShell(RunService(load, InitialService(load, file), moves))
    decreases |moves|
  {
    if moves != [] {
      var n := |moves| - 1;
      var before := RunService(load, InitialService(load, file), moves[..n]);
      FlagsGoUpAfterShell(load, file, moves[..n]);
      EveryServiceRun(load, file, moves[..n]);
      ShellStaysPut(load, before.shell, before.threads, moves[n]);
    }
  }

  /** A watching thread notices a change within two of its moves, and asks for a restart then. */
  lemma ChangesAreNoticed(load: Loader, s: Service, any: Watched, nextOk: bool)
    ensures Watching(s.threads.addr) && !s.threads.stopAddr ==>
      (if s.threads.addr == Waiting then NextService(load, s, AddrStep(Signalled(nextOk)))
       else RunService(load, s, [AddrStep(any), AddrStep(Signalled(nextOk))])).shell.trace
      == s.shell.trace + [Requested(s.shell.now, 5000)]
    ensures Watching(s.threads.conf) && !s.threads.stopConf ==>
      (if s.threads.conf == Waiting then NextService(load, s, ConfStep(Signalled(nextOk)))
       else RunService(load, s, [ConfStep(any), ConfStep(Signalled(nextOk))])).shell.trace
      == s.shell.trace + [Requested(s.shell.now, 0)]
  {
    TwoMoves(load, s, AddrStep(any), AddrStep(Signalled(nextOk)));
    TwoMoves(load, s, ConfStep(any), ConfStep(Signalled(nextOk)));
  }

  ghost predicate AddsNoRequest(trace: seq<Event>, trace': seq<Event>) {
    trace' == trace || exists e: Event :: trace' == trace + [e] && !e.Requested? && !e.ScopeNotified?
  }

  /** All that is ever requested comes from a signalled watcher or a scope that the broker notifies. */
  lemma RequestsComeFromWatchers(load: Loader, s: Service, m: Move)
    ensures var shell, shell' := s.shell, NextService(load, s, m).shell;
      && shell'.now == shell.now + (if m.TimeStep? then m.ms else 0)
      && match m
         case AddrStep(Signalled(_)) =>
           shell'.trace == shell.trace + if s.threads.addr == Waiting then [Requested(shell.now, 5000)] else []
         case ConfStep(Signalled(_)) =>
           shell'.trace == shell.trace + if s.threads.conf == Waiting then [Requested(shell.now, 0)] else []
         case ScopeStep(scope) => shell'.trace == shell.trace + [ScopeNotified(shell.now, scope)]
         case _ => AddsNoRequest(shell.trace, shell'.trace)
  {
    assert s.shell.trace + [] == s.shell.trace;
    match ShellInput(s.threads, s.shell.pc, m)
    case None =>
    case Some(l) =>
      ClockNext(load, s.shell, l);
      RequestsAreRecorded(load, s.shell, l);
      if l.AsyncShutdown? { assert AddsNoRequest(s.shell.trace, s.shell.trace + [ShutdownAsked]); }
  }
}
