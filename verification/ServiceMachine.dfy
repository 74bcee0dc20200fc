/**
 The Windows service of src/windows/broker_service.cpp around the shell: the thread that starts
 the service, the control handler, the service thread with the shell inside, and the two
 watcher threads, as one step machine in which any of them may move next.
 */
module ServiceMachine {
  import opened Wrappers
  import opened ConfigSpec
  import opened ShellMachine
  import opened ShellSafety

  const NETWORK_CHANGE_COOLDOWN_MS := 5000
  const TWO_32 := 0x1_0000_0000

  datatype ServiceState = StartPending | Running | StopPending | Halted

  predicate IsPending(state: ServiceState) {
    state != Running && state != Halted
  }

  /** Who made a report; the handler's says whether `Start` had got past creating the thread when it waited. */
  datatype Reporter = ByStart | ByThread | ByHandler(afterCreation: bool)

  datatype Report = Report(state: ServiceState, checkPoint: nat, reporter: Reporter)

  datatype StartPC = NotCalled | CreatingThread | ReportingRunning | Returned

  datatype HandlerPC =
    | Unoccupied | ReportingPending | Flagging | WaitingForThread
    | ReportingStopped(afterCreation: bool)

  datatype ThreadPC =
    | NotCreated | SpawningAddr | SpawningConf | InShell
    | StoppingConf | JoiningConf | StoppingAddr | JoiningAddr | ReportingFailure | Ended

  datatype WatcherPC = Unborn | SettingUp | CheckingFlag | Waiting | TearingDown | Gone

  /** The threads of the service, with the flags that stop the watchers. */
  datatype Threads = Threads(
    start: StartPC,
    handler: HandlerPC,
    thread: ThreadPC,
    addr: WatcherPC,
    conf: WatcherPC,
    stopAddr: bool,
    stopConf: bool)

  /** What the service control manager has been told. */
  datatype Console = Console(nextCheckPoint: nat, reports: seq<Report>)

  datatype Service = Service(shell: State, threads: Threads, console: Console)

  function InitialService(load: Loader, file: ConfFile): Service {
    Service(
      Initial(load, file),
      Threads(NotCalled, Unoccupied, NotCreated, Unborn, Unborn, false, false),
      Console(1, []))
  }

  /** What a watcher's wait, or its set-up, comes to; after a signal the next wait has to be set up. */
  datatype Watched = Fine | Failed | Signalled(nextOk: bool)

  datatype Move =
    | StartStep(createOk: bool)
    | Control(stop: bool)  // a stop or a shutdown control arrives
    | HandlerStep
    | ThreadStep(choice: Choice, spawns: bool)
    | AddrStep(watched: Watched)
    | ConfStep(watched: Watched)
    | ScopeStep(scope: string)  // from the broker's own threads
    | TimeStep(ms: nat)

  // ---------- What a move does to the threads ----------

  predicate AfterCreation(t: Threads) {
    t.start in {ReportingRunning, Returned}
  }

  predicate Live(t: Threads) {
    t.thread !in {NotCreated, Ended}
  }

  predicate Joinable(w: WatcherPC) {
    w in {Unborn, Gone}
  }

  predicate Requests(w: WatcherPC, watched: Watched) {
    w == Waiting && watched.Signalled?
  }

  function StartMove(t: Threads, createOk: bool): Threads {
    match t.start
    case NotCalled => t.(start := CreatingThread)
    case CreatingThread => t.(start := ReportingRunning, thread := if createOk then SpawningAddr else t.thread)
    case ReportingRunning => t.(start := Returned)
    case Returned => t
  }

  /** Waiting on a thread handle that is still null fails, and the failure is not looked at. */
  function HandlerMove(t: Threads): Threads {
    match t.handler
    case Unoccupied => t
    case ReportingPending => t.(handler := Flagging)
    case Flagging => t.(handler := WaitingForThread)
    case WaitingForThread => if Live(t) then t else t.(handler := ReportingStopped(AfterCreation(t)))
    case ReportingStopped(_) => t.(handler := Unoccupied)
  }

  function ThreadMove(t: Threads, shellPc: PC, spawns: bool): Threads {
    match t.thread
    case SpawningAddr => t.(thread := SpawningConf, addr := if spawns then SettingUp else Unborn)
    case SpawningConf => t.(thread := InShell, conf := if spawns then SettingUp else Unborn)
    case InShell => if shellPc.Finished? then t.(thread := StoppingConf) else t
    case StoppingConf => t.(thread := JoiningConf, stopConf := true)
    case JoiningConf => if Joinable(t.conf) then t.(thread := StoppingAddr) else t
    case StoppingAddr => t.(thread := JoiningAddr, stopAddr := true)
    case JoiningAddr =>
      if !Joinable(t.addr) then t
      else t.(thread := if shellPc == Finished(true) then Ended else ReportingFailure)
    case ReportingFailure => t.(thread := Ended)
    case NotCreated | Ended => t
  }

  function WatcherMove(w: WatcherPC, watched: Watched, stop: bool): WatcherPC {
    match w
    case SettingUp => if watched == Fine then CheckingFlag else Gone
    case CheckingFlag => if stop then TearingDown else Waiting
    case Waiting => if watched in {Fine, Signalled(true)} then CheckingFlag else TearingDown
    case TearingDown => Gone
    case Unborn | Gone => w
  }

  function NextThreads(t: Threads, shellPc: PC, m: Move): Threads {
    match m
    case StartStep(createOk) => StartMove(t, createOk)
    case Control(stop) =>
      if t.handler != Unoccupied then t else t.(handler := if stop then ReportingPending else Flagging)
    case HandlerStep => HandlerMove(t)
    case ThreadStep(_, spawns) => ThreadMove(t, shellPc, spawns)
    case AddrStep(watched) => t.(addr := WatcherMove(t.addr, watched, t.stopAddr))
    case ConfStep(watched) => t.(conf := WatcherMove(t.conf, watched, t.stopConf))
    case ScopeStep(_) | TimeStep(_) => t
  }

  // ---------- What it feeds to the shell ----------

  function ShellInput(t: Threads, shellPc: PC, m: Move): Option<Label> {
    match m
    case HandlerStep => if t.handler == Flagging then Some(AsyncShutdown) else None
    case ThreadStep(c, _) => if t.thread == InShell && !shellPc.Finished? then Some(Shell(c)) else None
    case AddrStep(watched) => if Requests(t.addr, watched) then Some(Request(NETWORK_CHANGE_COOLDOWN_MS)) else None
    case ConfStep(watched) => if Requests(t.conf, watched) then Some(Request(0)) else None
    case ScopeStep(scope) => Some(ScopeChange(scope))
    case TimeStep(ms) => Some(Tick(ms))
    case StartStep(_) | Control(_) => None
  }

  function NextShell(load: Loader, shell: State, input: Option<Label>): State {
    match input case None => shell case Some(l) => Next(load, shell, l)
  }

  // ---------- What it reports ----------

  function ReportOf(t: Threads, m: Move): Option<(ServiceState, Reporter)> {
    match m
    case StartStep(_) =>
      if t.start == NotCalled then Some((StartPending, ByStart))
      else if t.start == ReportingRunning then Some((Running, ByStart))
      else None
    case HandlerStep =>
      if t.handler == ReportingPending then Some((StopPending, ByHandler(AfterCreation(t))))
      else if t.handler.ReportingStopped? then Some((Halted, ByHandler(t.handler.afterCreation)))
      else None
    case ThreadStep(_, _) => if t.thread == ReportingFailure then Some((Halted, ByThread)) else None
    case _ => None
  }

  /** `SetServiceStatus`: only pending states use up a check point. */
  function Reported(c: Console, state: ServiceState, reporter: Reporter): Console {
    if IsPending(state)
    then Console((c.nextCheckPoint + 1) % TWO_32, c.reports + [Report(state, c.nextCheckPoint, reporter)])
    else c.(reports := c.reports + [Report(state, 0, reporter)])
  }

  function NextConsole(c: Console, report: Option<(ServiceState, Reporter)>): Console {
    match report case None => c case Some((state, reporter)) => Reported(c, state, reporter)
  }

  function NextService(load: Loader, s: Service, m: Move): Service {
    Service(
      NextShell(load, s.shell, ShellInput(s.threads, s.shell.pc, m)),
      NextThreads(s.threads, s.shell.pc, m),
      NextConsole(s.console, ReportOf(s.threads, m)))
  }

  function RunService(load: Loader, s: Service, moves: seq<Move>): Service
    decreases |moves|
  {
    if moves == [] then s
    else NextService(load, RunService(load, s, moves[..|moves| - 1]), moves[|moves| - 1])
  }

  // ---------- Threads in order ----------

  /** How the threads stand to each other and to the shell inside the service thread. */
  predicate ThreadsInOrder(t: Threads, shellPc: PC) {
    && (t.thread != NotCreated ==> AfterCreation(t))
    && (t.thread in {NotCreated, SpawningAddr} ==> t.addr == Unborn)
    && (t.thread in {NotCreated, SpawningAddr, SpawningConf} ==> t.conf == Unborn && shellPc == Initializing)
    && (t.thread !in {NotCreated, SpawningAddr, SpawningConf, InShell} ==> shellPc.Finished?)
    && (t.thread in {StoppingAddr, JoiningAddr, ReportingFailure, Ended} ==> Joinable(t.conf))
    && (t.thread in {ReportingFailure, Ended} ==> Joinable(t.addr))
    && (t.thread == JoiningConf ==> t.stopConf)
    && (t.thread == JoiningAddr ==> t.stopAddr)
  }

  /** The threads of the service are done, and none can start again. */
  predicate Still(t: Threads) {
    AfterCreation(t) && !Live(t) && Joinable(t.addr) && Joinable(t.conf)
  }

  predicate HandlerTruthful(t: Threads) {
    t.handler == ReportingStopped(true) ==> Still(t)
  }

  ghost predicate ReportsTruthful(c: Console, t: Threads) {
    forall i | 0 <= i < |c.reports| ::
      c.reports[i].state == Halted && c.reports[i].reporter == ByHandler(true) ==> Still(t)
  }

  /** The handler waits only once it has asked the shell to shut down. */
  predicate HandlerAsked(t: Threads, asked: bool) {
    t.handler == WaitingForThread || t.handler.ReportingStopped? ==> asked
  }

  ghost predicate ServiceInOrder(s: Service) {
    && ThreadsInOrder(s.threads, s.shell.pc)
    && HandlerAsked(s.threads, s.shell.shutdownRequested)
    && HandlerTruthful(s.threads)
    && ReportsTruthful(s.console, s.threads)
    && BrokerMatches(s.shell)
  }

  /** The shell moves only with the service thread inside it. */
  lemma ShellStaysPut(load: Loader, shell: State, t: Threads, m: Move)
    requires BrokerMatches(shell)
    ensures var shell' := NextShell(load, shell, ShellInput(t, shell.pc, m));
      && BrokerMatches(shell')
      && (t.thread != InShell || !m.ThreadStep? || shell.pc.Finished? ==> shell'.pc == shell.pc)
      && (t.thread == InShell && m.ThreadStep? && !shell.pc.Finished? ==> NextThreads(t, shell.pc, m) == t)
  {
    match ShellInput(t, shell.pc, m)
    case None =>
    case Some(l) => BrokerMatchesNext(load, shell, l);
  }

  lemma AskedForGood(load: Loader, shell: State, t: Threads, m: Move)
    requires HandlerAsked(t, shell.shutdownRequested)
    ensures var shell' := NextShell(load, shell, ShellInput(t, shell.pc, m));
      && (shell.shutdownRequested ==> shell'.shutdownRequested)
      && HandlerAsked(NextThreads(t, shell.pc, m), shell'.shutdownRequested)
  {
    match ShellInput(t, shell.pc, m)
    case Some(Shell(c)) => match shell.pc { case Applying => case _ => }
    case _ =>
  }

  lemma ThreadsStayInOrder(t: Threads, pc: PC, pc': PC, m: Move)
    requires ThreadsInOrder(t, pc)
    requires t.thread != InShell || !m.ThreadStep? || pc.Finished? ==> pc' == pc
    ensures ThreadsInOrder(NextThreads(t, pc, m), pc')
  {
  }

  lemma StillForGood(t: Threads, pc: PC, m: Move)
    requires Still(t)
    ensures Still(NextThreads(t, pc, m))
  {
  }

  lemma TruthStays(t: Threads, pc: PC, c: Console, m: Move)
    requires ThreadsInOrder(t, pc) && HandlerTruthful(t) && ReportsTruthful(c, t)
    ensures HandlerTruthful(NextThreads(t, pc, m))
    ensures ReportsTruthful(NextConsole(c, ReportOf(t, m)), NextThreads(t, pc, m))
  {
    var t', c' := NextThreads(t, pc, m), NextConsole(c, ReportOf(t, m));
    if Still(t) {
      StillForGood(t, pc, m);
    } else {
      assert t'.handler == ReportingStopped(true) ==> t.handler == WaitingForThread || t'.handler == t.handler;
      assert forall i | 0 <= i < |c.reports| :: c'.reports[i] == c.reports[i];
    }
  }

  lemma OrderStays(load: Loader, s: Service, m: Move)
    requires ServiceInOrder(s)
    ensures ServiceInOrder(NextService(load, s, m))
  {
    ShellStaysPut(load, s.shell, s.threads, m);
    AskedForGood(load, s.shell, s.threads, m);
    ThreadsStayInOrder(s.threads, s.shell.pc, NextService(load, s, m).shell.pc, m);
    TruthStays(s.threads, s.shell.pc, s.console, m);
  }

  lemma {:induction false} EveryServiceRun(load: Loader, file: ConfFile, moves: seq<Move>)
    ensures ServiceInOrder(RunService(load, InitialService(load, file), moves))
    decreases |moves|
  {
    if moves != [] {
      var n := |moves| - 1;
      EveryServiceRun(load, file, moves[..n]);
      OrderStays(load, RunService(load, InitialService(load, file), moves[..n]), moves[n]);
    }
  }

  // ---------- A reported stop is a stop ----------

  /** Nothing is at work any more, and the broker is stopped. */
  predicate Quiet(s: Service) {
    Still(s.threads) && !s.shell.brokerRunning
  }

  lemma StillMeansQuiet(s: Service)
    requires ServiceInOrder(s) && Still(s.threads)
    ensures Quiet(s)
  {
  }

  /**
   When the handler has waited after `Start` created the thread, the stop it reports is one: the
   thread has ended, both watchers are joined, and the broker is stopped, from then on.
   */
  lemma StoppedMeansStopped(load: Loader, file: ConfFile, moves: seq<Move>, i: nat)
    requires var c := RunService(load, InitialService(load, file), moves).console;
      i < |c.reports| && c.reports[i].state == Halted && c.reports[i].reporter == ByHandler(true)
    ensures Quiet(RunService(load, InitialService(load, file), moves))
  {
    EveryServiceRun(load, file, moves);
    StillMeansQuiet(RunService(load, InitialService(load, file), moves));
  }

  /** In a quiet service the service thread and the watchers do nothing, so they request nothing. */
  lemma QuietThreadsDoNothing(load: Loader, s: Service, m: Move)
    requires Quiet(s) && (m.ThreadStep? || m.AddrStep? || m.ConfStep?)
    ensures NextService(load, s, m) == s
  {
  }

  // ---------- Exactly when the report can be trusted ----------

  lemma {:induction false} StillRun(load: Loader, s: Service, moves: seq<Move>)
    requires Still(s.threads)
    ensures Still(RunService(load, s, moves).threads)
    decreases |moves|
  {
    if moves != [] {
      var n := |moves| - 1;
      StillRun(load, s, moves[..n]);
      StillForGood(RunService(load, s, moves[..n]).threads, RunService(load, s, moves[..n]).shell.pc, moves[n]);
    }
  }

  lemma TwoMoves(load: Loader, s: Service, m: Move, m': Move)
    ensures RunService(load, s, [m]) == NextService(load, s, m)
    ensures RunService(load, s, [m, m']) == NextService(load, NextService(load, s, m), m')
  {
    assert [m][..0] == [];
    assert RunService(load, s, []) == s;
    assert [m, m'][..1] == [m];
  }

  lemma ThreadCanStillStart(load: Loader, s: Service)
    requires !AfterCreation(s.threads)
    ensures exists later :: Live(RunService(load, s, later).threads)
  {
    TwoMoves(load, s, StartStep(true), StartStep(true));
    if s.threads.start == CreatingThread {
      assert Live(RunService(load, s, [StartStep(true)]).threads);
    } else {
      assert Live(RunService(load, s, [StartStep(true), StartStep(true)]).threads);
    }
  }

  /**
   A stop control may overtake `Start`, which says from its first report on that it accepts one.
   When the handler's wait is over, the service thread will never be at work again exactly when
   `Start` had already created it, or tried to.
   */
  lemma StopIsFinalExactlyWhen(load: Loader, file: ConfFile, moves: seq<Move>)
    requires var t := RunService(load, InitialService(load, file), moves).threads;
      t.handler == WaitingForThread && !Live(t)
    ensures var s := RunService(load, InitialService(load, file), moves);
      AfterCreation(s.threads) <==> forall later :: !Live(RunService(load, s, later).threads)
  {
    var s := RunService(load, InitialService(load, file), moves);
    EveryServiceRun(load, file, moves);
    if AfterCreation(s.threads) {
      forall later ensures !Live(RunService(load, s, later).threads) { StillRun(load, s, later); }
    } else {
      ThreadCanStillStart(load, s);
    }
  }

  lemma OneMoreMove(load: Loader, s: Service, moves: seq<Move>, m: Move)
    ensures RunService(load, s, moves + [m]) == NextService(load, RunService(load, s, moves), m)
  {
    assert (moves + [m])[..|moves|] == moves;
  }

  /** A shutdown control that overtakes `Start`: the handler is done before the thread is created. */
  function HastyShutdown(): seq<Move> {
    [StartStep(true), Control(false)] + [HandlerStep, HandlerStep] + [HandlerStep]
  }

  /** It happens: a stop is reported, and then the thread is created and reported as running. */
  lemma StopMayBeReportedFirst(load: Loader, file: ConfFile)
    ensures var s := RunService(load, InitialService(load, file), HastyShutdown());
      && s.console.reports == [Report(StartPending, 1, ByStart), Report(Halted, 0, ByHandler(false))]
      && var end := RunService(load, s, [StartStep(true), StartStep(true)]);
      && Live(end.threads)
      && end.console.reports == s.console.reports + [Report(Running, 0, ByStart)]
  {
    var s0 := InitialService(load, file);
    var arrival := [StartStep(true), Control(false)];
    TwoMoves(load, s0, StartStep(true), Control(false));
    var s2 := RunService(load, s0, arrival);
    assert s2.threads == s0.threads.(start := CreatingThread, handler := Flagging);
    assert s2.console == Console(2, [Report(StartPending, 1, ByStart)]);
    TwoMoves(load, s2, HandlerStep, HandlerStep);
    var s4 := RunService(load, s2, [HandlerStep, HandlerStep]);
    assert s4.threads == s2.threads.(handler := ReportingStopped(false)) && s4.console == s2.console;
    RunServiceConcat(load, s0, arrival, [HandlerStep, HandlerStep]);
    OneMoreMove(load, s0, arrival + [HandlerStep, HandlerStep], HandlerStep);
    var s5 := NextService(load, s4, HandlerStep);
    assert s5.threads == s2.threads.(handler := Unoccupied);
    TwoMoves(load, s5, StartStep(true), StartStep(true));
  }

  // ---------- Exactly when a failure is the last word ----------

  ghost predicate NoRunningSince(reports: seq<Report>, from: nat) {
    forall i | from <= i < |reports| :: reports[i].state != Running
  }

  lemma {:induction false} ReturnedForGood(load: Loader, s: Service, moves: seq<Move>)
    requires s.threads.start == Returned
    ensures var end := RunService(load, s, moves);
      && end.threads.start == Returned
      && |s.console.reports| <= |end.console.reports| && NoRunningSince(end.console.reports, |s.console.reports|)
    decreases |moves|
  {
    if moves != [] {
      var n := |moves| - 1;
      ReturnedForGood(load, s, moves[..n]);
      StartStaysReturned(load, RunService(load, s, moves[..n]), moves[n], |s.console.reports|);
    }
  }

  lemma StartStaysReturned(load: Loader, s: Service, m: Move, from: nat)
    requires s.threads.start == Returned && from <= |s.console.reports| && NoRunningSince(s.console.reports, from)
    ensures var s' := NextService(load, s, m);
      && s'.threads.start == Returned
      && from <= |s'.console.reports| && NoRunningSince(s'.console.reports, from)
  {
  }

  /**
   When the service thread has reported its failure, the service is never again reported as
   running exactly when `Start` had returned before.
   */
  lemma FailureIsTheLastWordExactlyWhen(load: Loader, file: ConfFile, moves: seq<Move>, c: Choice, spawns: bool)
    requires RunService(load, InitialService(load, file), moves).threads.thread == ReportingFailure
    ensures var before := RunService(load, InitialService(load, file), moves);
      var s := NextService(load, before, ThreadStep(c, spawns));
      && s.threads.thread == Ended && s.console.reports == before.console.reports + [Report(Halted, 0, ByThread)]
      && (s.threads.start == Returned
          <==> forall later :: NoRunningSince(RunService(load, s, later).console.reports, |s.console.reports|))
  {
    EveryServiceRun(load, file, moves);
    var before := RunService(load, InitialService(load, file), moves);
    var s := NextService(load, before, ThreadStep(c, spawns));
    if s.threads.start == Returned {
      forall later ensures NoRunningSince(RunService(load, s, later).console.reports, |s.console.reports|) {
        ReturnedForGood(load, s, later);
      }
    } else {
      RunningComesNext(load, s);
    }
  }

  lemma RunningComesNext(load: Loader, s: Service)
    requires s.threads.start == ReportingRunning
    ensures exists later :: !NoRunningSince(RunService(load, s, later).console.reports, |s.console.reports|)
  {
    TwoMoves(load, s, StartStep(true), StartStep(true));
    var reports := RunService(load, s, [StartStep(true)]).console.reports;
    assert reports == s.console.reports + [Report(Running, 0, ByStart)];
    assert reports[|s.console.reports|].state == Running;
    assert !NoRunningSince(reports, |s.console.reports|);
  }

  /**
   The service thread creates both watchers; the one cannot set itself up, the other finds that
   out at its first wait; and the library does not come up.
   */
  function FailingMove(c: Choice, n: nat): Move {
    if n == 2 then AddrStep(Failed)
    else if n == 5 then ConfStep(Failed)
    else if 3 <= n <= 6 then ConfStep(Fine)
    else ThreadStep(c, true)
  }

  function FailingMoves(c: Choice, n: nat): seq<Move> {
    if n == 0 then [] else FailingMoves(c, n - 1) + [FailingMove(c, n - 1)]
  }

  const FAILING_MOVES := 14

  /** All of this before `Start` comes to its second report. */
  function Overtaking(c: Choice): seq<Move> {
    [StartStep(true), StartStep(true)] + FailingMoves(c, FAILING_MOVES) + [StartStep(true)]
  }

  function FailingStage(n: nat): ThreadPC {
    if n == 0 then SpawningAddr
    else if n == 1 then SpawningConf
    else if n <= 8 then InShell
    else if n == 9 then StoppingConf
    else if n == 10 then JoiningConf
    else if n == 11 then StoppingAddr
    else if n == 12 then JoiningAddr
    else if n == 13 then ReportingFailure
    else Ended
  }

  function FailingConf(n: nat): WatcherPC {
    if n <= 1 then Unborn
    else if n <= 3 then SettingUp
    else if n == 4 then CheckingFlag
    else if n == 5 then Waiting
    else if n == 6 then TearingDown
    else Gone
  }

  /** How far the failing service has come after `n` of its moves. */
  predicate Failing(t: Threads, shellPc: PC, n: nat) {
    && t.start == ReportingRunning && t.thread == FailingStage(n) && t.conf == FailingConf(n)
    && t.addr == (if n == 0 then Unborn else if n <= 2 then SettingUp else Gone)
    && (n <= 6 ==> !t.stopConf)
    && shellPc == if n <= 7 then Initializing else Finished(false)
  }

  /** The failing service after `n` of its moves, `console` being what had been reported before. */
  predicate FailingSince(console: Console, s: Service, n: nat) {
    && Failing(s.threads, s.shell.pc, n)
    && s.console == if n == FAILING_MOVES then Reported(console, Halted, ByThread) else console
  }

  lemma FailsOn(load: Loader, console: Console, s: Service, c: Choice, n: nat)
    requires FailingSince(console, s, n) && !c.initOk && n < FAILING_MOVES
    ensures FailingSince(console, NextService(load, s, FailingMove(c, n)), n + 1)
  {
    var step := FailingMove(c, n);
    assert ReportOf(s.threads, step) == if n == 13 then Some((Halted, ByThread)) else None;
    assert ShellInput(s.threads, s.shell.pc, step) == if n == 7 then Some(Shell(c)) else None;
  }

  lemma {:induction false} ThreadFails(load: Loader, s: Service, c: Choice, n: nat)
    requires FailingSince(s.console, s, 0) && !c.initOk && n <= FAILING_MOVES
    ensures FailingSince(s.console, RunService(load, s, FailingMoves(c, n)), n)
  {
    if n == 0 {
      assert RunService(load, s, []) == s;
    } else {
      var earlier := FailingMoves(c, n - 1);
      ThreadFails(load, s, c, n - 1);
      FailsOn(load, s.console, RunService(load, s, earlier), c, n - 1);
      OneMoreMove(load, s, earlier, FailingMove(c, n - 1));
    }
  }

  lemma OvertakenEnd(load: Loader, s: Service, c: Choice)
    requires FailingSince(s.console, s, 0) && !c.initOk
    ensures var end := RunService(load, s, FailingMoves(c, FAILING_MOVES) + [StartStep(true)]);
      && AfterCreation(end.threads) && end.threads.thread == Ended
      && end.console.reports == s.console.reports + [Report(Halted, 0, ByThread)] + [Report(Running, 0, ByStart)]
  {
    ThreadFails(load, s, c, FAILING_MOVES);
    OneMoreMove(load, s, FailingMoves(c, FAILING_MOVES), StartStep(true));
  }

  /**
   It happens: the service thread's own report of a stop comes before `Start` reports the service
   running, and the service stays reported as running although nothing runs.
   */
  lemma RunningMayBeReportedLast(load: Loader, file: ConfFile, c: Choice)
    requires !c.initOk
    ensures var end := RunService(load, InitialService(load, file), Overtaking(c));
      && Quiet(end)
      && end.console.reports ==
         [Report(StartPending, 1, ByStart), Report(Halted, 0, ByThread), Report(Running, 0, ByStart)]
  {
    var s := InitialService(load, file);
    var starts := [StartStep(true), StartStep(true)];
    var rest := FailingMoves(c, FAILING_MOVES) + [StartStep(true)];
    TwoMoves(load, s, StartStep(true), StartStep(true));
    var created := RunService(load, s, starts);
    assert created.console.reports == [Report(StartPending, 1, ByStart)];
    OvertakenEnd(load, created, c);
    assert Overtaking(c) == starts + rest;
    RunServiceConcat(load, s, starts, rest);
    EveryServiceRun(load, file, starts + rest);
    StillMeansQuiet(RunService(load, s, starts + rest));
  }

  lemma {:induction false} RunServiceConcat(load: Loader, s: Service, a: seq<Move>, b: seq<Move>)
    ensures RunService(load, s, a + b) == RunService(load, RunService(load, s, a), b)
    decreases |b|
  {
    if b == [] {
      assert a + b == a;
    } else {
      assert (a + b)[..|a + b| - 1] == a + b[..|b| - 1];
      RunServiceConcat(load, s, a, b[..|b| - 1]);
    }
  }

  // ---------- Check points ----------

  function PendingReports(reports: seq<Report>): nat {
    if reports == [] then 0
    else PendingReports(reports[..|reports| - 1]) + (if IsPending(reports[|reports| - 1].state) then 1 else 0)
  }

  function CheckPointAt(reports: seq<Report>, i: nat): nat
    requires i < |reports|
  {
    if IsPending(reports[i].state) then (PendingReports(reports[..i]) + 1) % TWO_32 else 0
  }

  ghost predicate EachCounts(reports: seq<Report>) {
    forall i | 0 <= i < |reports| :: reports[i].checkPoint == CheckPointAt(reports, i)
  }

  /** The k-th pending report carries check point k, as far as 32 bits go; all others carry 0. */
  ghost predicate CheckPointsCount(c: Console) {
    && c.nextCheckPoint == (PendingReports(c.reports) + 1) % TWO_32
    && EachCounts(c.reports)
  }

  lemma CountUp(n: nat)
    ensures ((n + 1) % TWO_32 + 1) % TWO_32 == (n + 2) % TWO_32
  {
  }

  lemma CheckPointStays(reports: seq<Report>, more: Report, i: nat)
    requires i < |reports|
    ensures CheckPointAt(reports + [more], i) == CheckPointAt(reports, i)
  {
    assert (reports + [more])[..i] == reports[..i];
  }

  lemma PendingOneMore(reports: seq<Report>, more: Report)
    ensures PendingReports(reports + [more]) == PendingReports(reports) + if IsPending(more.state) then 1 else 0
    ensures CheckPointAt(reports + [more], |reports|) ==
      if IsPending(more.state) then (PendingReports(reports) + 1) % TWO_32 else 0
  {
    assert (reports + [more])[..|reports|] == reports;
  }

  lemma EachCountsOneMore(reports: seq<Report>, more: Report)
    requires EachCounts(reports) && more.checkPoint == CheckPointAt(reports + [more], |reports|)
    ensures EachCounts(reports + [more])
  {
    forall i | 0 <= i < |reports + [more]|
      ensures (reports + [more])[i].checkPoint == CheckPointAt(reports + [more], i)
    {
      if i < |reports| { CheckPointStays(reports, more, i); }
    }
  }

  lemma ReportCounts(c: Console, state: ServiceState, reporter: Reporter)
    requires CheckPointsCount(c)
    ensures CheckPointsCount(Reported(c, state, reporter))
  {
    var more := Report(state, if IsPending(state) then c.nextCheckPoint else 0, reporter);
    PendingOneMore(c.reports, more);
    EachCountsOneMore(c.reports, more);
    CountUp(PendingReports(c.reports));
  }

  lemma {:induction false} CheckPointsCountAlways(load: Loader, file: ConfFile, moves: seq<Move>)
    ensures CheckPointsCount(RunService(load, InitialService(load, file), moves).console)
    decreases |moves|
  {
    if moves != [] {
      var n := |moves| - 1;
      CheckPointsCountAlways(load, file, moves[..n]);
      var s := RunService(load, InitialService(load, file), moves[..n]);
      match ReportOf(s.threads, moves[n])
      case None =>
      case Some((state, reporter)) => ReportCounts(s.console, state, reporter);
    }
  }

  lemma {:induction false} PendingReportsGrow(reports: seq<Report>, i: nat, j: nat)
    requires i <= j <= |reports|
    ensures PendingReports(reports[..i]) <= PendingReports(reports[..j])
    ensures i < j && IsPending(reports[i].state) ==> PendingReports(reports[..i]) < PendingReports(reports[..j])
    decreases j
  {
    if i < j {
      assert reports[..j][..j - 1] == reports[..j - 1];
      PendingReportsGrow(reports, i, j - 1);
    }
  }

  lemma CountedCheckPointsIncrease(c: Console, i: nat, j: nat)
    requires CheckPointsCount(c) && PendingReports(c.reports) < TWO_32 && i < j < |c.reports|
    ensures c.reports[j].checkPoint == 0 <==> !IsPending(c.reports[j].state)
    ensures IsPending(c.reports[i].state) && IsPending(c.reports[j].state) ==>
      c.reports[i].checkPoint < c.reports[j].checkPoint
  {
    PendingReportsGrow(c.reports, i, j);
    PendingReportsGrow(c.reports, j, |c.reports|);
    assert c.reports[..|c.reports|] == c.reports;
  }

  /** Check points are 0 exactly in reports of a settled state and grow strictly over the others. */
  lemma CheckPointsIncrease(load: Loader, file: ConfFile, moves: seq<Move>, i: nat, j: nat)
    requires var reports := RunService(load, InitialService(load, file), moves).console.reports;
      PendingReports(reports) < TWO_32 && i < j < |reports|
    ensures var reports := RunService(load, InitialService(load, file), moves).console.reports;
      && (reports[j].checkPoint == 0 <==> reports[j].state in {Running, Halted})
      && (IsPending(reports[i].state) && IsPending(reports[j].state) ==> reports[i].checkPoint < reports[j].checkPoint)
  {
    CheckPointsCountAlways(load, file, moves);
    CountedCheckPointsIncrease(RunService(load, InitialService(load, file), moves).console, i, j);
  }
}
