/**
 The broker shell of src/core/broker_shell.cpp as a step machine: a program counter for the
 thread inside `Run`, whose steps are the code between two points where another thread may
 get in, interleaved at will with the requests of other threads and the passing of time.
 The trace records, in order, everything the theorems speak about.
 */
module ShellMachine {
  import opened Wrappers
  import opened ConfigSpec

  // ---------- The cooldown timer ----------

  /** A timer that was never started counts as expired. */
  datatype Timer = Idle | Armed(deadline: nat) {
    function Remaining(now: nat): nat {
      if Armed? && now < deadline then deadline - now else 0
    }

    /** Exactly at the deadline the library may answer either way. */
    predicate IsExpired(now: nat, atDeadline: bool) {
      Idle? || Past(deadline, now, atDeadline)
    }
  }

  predicate Past(deadline: nat, now: nat, atDeadline: bool) {
    deadline < now || (deadline == now && atDeadline)
  }

  function Start(now: nat, cooldown: nat): Timer {
    Armed(now + cooldown)
  }

  // ---------- States ----------

  /** Where the thread inside `Run` stands, once it has found the shell ready. */
  datatype PC =
    | Initializing        // about to initialise the RDMnet library
    | LoopTop             // `if (startup_broker)`
    | StartingUp          // flag cleared, about to start the broker if it is enabled
    | CheckingShutdown    // `if (shutdown_requested_)`
    | CheckingRestart     // `TimeToRestartBroker()`
    | StoppingForRestart  // restart decided, about to shut the broker down
    | Loading             // `LoadBrokerConfig()`
    | Applying            // `ApplySettingsChanges()` and `startup_broker = true`
    | Sleeping
    | FinalStop           // out of the loop
    | Deinitializing
    | Finished(result: bool)

  /** Between the decision to restart and the application of the settings then loaded. */
  predicate InRestartWindow(pc: PC) {
    pc in {StoppingForRestart, Loading, Applying}
  }

  datatype Event =
    | Requested(at: nat, cooldown: nat)      // RequestRestart
    | ScopeNotified(at: nat, scope: string)  // HandleScopeChanged, a request without cooldown
    | ShutdownAsked                          // AsyncShutdown
    | Fired(at: nat)                         // TimeToRestartBroker returned true
    | LibraryUp                              // rdmnet::Init succeeded
    | LibraryDown                            // rdmnet::Deinit
    | StartupCalled(settings: Settings, ok: bool)
    | ShutdownCalled
    | Loaded(config: Config)                 // LoadBrokerConfig
    | Applied                                // ApplySettingsChanges
  {
    predicate IsRequest() {
      Requested? || ScopeNotified?
    }

    function Cooldown(): nat {
      if Requested? then cooldown else 0
    }
  }

  /** The events of a trace that satisfy `f`, in order. */
  function Filter(f: Event -> bool, trace: seq<Event>): seq<Event> {
    if trace == [] then []
    else
      var rest, last := Filter(f, trace[..|trace| - 1]), trace[|trace| - 1];
      if f(last) then rest + [last] else rest
  }

  lemma FilterOneMore(f: Event -> bool, trace: seq<Event>, e: Event)
    ensures Filter(f, trace + [e]) == if f(e) then Filter(f, trace) + [e] else Filter(f, trace)
  {
    assert (trace + [e])[..|trace|] == trace;
  }

  const REQUESTS: Event -> bool := (e: Event) => e.IsRequest()
  const FIRINGS: Event -> bool := (e: Event) => e.Fired?
  const STARTUPS: Event -> bool := (e: Event) => e.StartupCalled?

  datatype State = State(
    pc: PC,
    startupBroker: bool,
    config: Config,
    brokerRunning: bool,
    restartRequested: bool,
    timer: Timer,
    newScope: string,
    shutdownRequested: bool,
    now: nat,
    trace: seq<Event>)

  /** What loading each file gives; `LoadedConfig` of the platform at hand. */
  type Loader = ConfFile -> Config

  /** The shell once `Init` has returned. */
  function Initial(load: Loader, file: ConfFile): State {
    var config := load(file);
    State(Initializing, true, config, false, false, Idle, "", false, 0, [Loaded(config)])
  }

  // ---------- Steps ----------

  /** What the outside world answers to the next step of the shell thread. */
  datatype Choice = Choice(initOk: bool, startupOk: bool, atDeadline: bool, file: ConfFile)

  datatype Label =
    | Shell(choice: Choice)
    | Request(cooldown: nat)
    | ScopeChange(scope: string)
    | AsyncShutdown
    | Tick(ms: nat)

  /** What a step adds to the trace. */
  function Emitted(load: Loader, s: State, l: Label): Option<Event> {
    match l
    case Request(cooldown) => Some(Requested(s.now, cooldown))
    case ScopeChange(scope) => Some(ScopeNotified(s.now, scope))
    case AsyncShutdown => Some(ShutdownAsked)
    case Tick(_) => None
    case Shell(c) =>
      match s.pc
      case Initializing => if c.initOk then Some(LibraryUp) else None
      case StartingUp =>
        if s.config.enableBroker then Some(StartupCalled(s.config.settings, c.startupOk)) else None
      case CheckingRestart => if TimeToRestart(s, c) then Some(Fired(s.now)) else None
      case StoppingForRestart | FinalStop => if s.config.enableBroker then Some(ShutdownCalled) else None
      case Loading => Some(Loaded(load(c.file)))
      case Applying => Some(Applied)
      case Deinitializing => Some(LibraryDown)
      case _ => None
  }

  predicate TimeToRestart(s: State, c: Choice) {
    s.restartRequested && s.timer.IsExpired(s.now, c.atDeadline)
  }

  function LockedRequest(s: State, cooldown: nat): State {
    s.(restartRequested := true,
       timer := if cooldown > s.timer.Remaining(s.now) then Start(s.now, cooldown) else s.timer)
  }

  function ApplyChanges(s: State): State {
    if s.newScope == "" then s
    else s.(config := s.config.(settings := s.config.settings.(scope := s.newScope)), newScope := "")
  }

  function ShellMove(load: Loader, s: State, c: Choice): State {
    match s.pc
    case Initializing => s.(pc := if c.initOk then LoopTop else Finished(false))
    case LoopTop => s.(pc := if s.startupBroker then StartingUp else CheckingShutdown, startupBroker := false)
    case StartingUp =>
      if !s.config.enableBroker then s.(pc := CheckingShutdown)
      else if c.startupOk then s.(pc := CheckingShutdown, brokerRunning := true)
      else s.(pc := CheckingShutdown, config := s.config.(enableBroker := false))
    case CheckingShutdown => s.(pc := if s.shutdownRequested then FinalStop else CheckingRestart)
    case CheckingRestart =>
      if TimeToRestart(s, c) then s.(pc := StoppingForRestart, restartRequested := false) else s.(pc := Sleeping)
    case StoppingForRestart => s.(pc := Loading, brokerRunning := !s.config.enableBroker && s.brokerRunning)
    case Loading => s.(pc := Applying, config := load(c.file))
    case Applying => ApplyChanges(s).(pc := Sleeping, startupBroker := true)
    case Sleeping => s.(pc := LoopTop)
    case FinalStop => s.(pc := Deinitializing, brokerRunning := !s.config.enableBroker && s.brokerRunning)
    case Deinitializing => s.(pc := Finished(true))
    case Finished(_) => s
  }

  function Move(load: Loader, s: State, l: Label): State {
    match l
    case Shell(c) => ShellMove(load, s, c)
    case Request(cooldown) => LockedRequest(s, cooldown)
    case ScopeChange(scope) => LockedRequest(s, 0).(newScope := scope)
    case AsyncShutdown => s.(shutdownRequested := true)
    case Tick(ms) => s.(now := s.now + ms)
  }

  function Record(trace: seq<Event>, e: Option<Event>): seq<Event> {
    match e case None => trace case Some(event) => trace + [event]
  }

  function Next(load: Loader, s: State, l: Label): State {
    Move(load, s, l).(trace := Record(s.trace, Emitted(load, s, l)))
  }

  /** A run: the given steps one after the other. */
  function Run(load: Loader, s: State, labels: seq<Label>): State
    decreases |labels|
  {
    if labels == [] then s
    else Next(load, Run(load, s, labels[..|labels| - 1]), labels[|labels| - 1])
  }

  lemma {:induction false} RunConcat(load: Loader, s: State, a: seq<Label>, b: seq<Label>)
    ensures Run(load, s, a + b) == Run(load, Run(load, s, a), b)
    decreases |b|
  {
    if b == [] {
      assert a + b == a;
    } else {
      assert (a + b)[..|a + b| - 1] == a + b[..|b| - 1];
      RunConcat(load, s, a, b[..|b| - 1]);
    }
  }

  lemma RunOneMore(load: Loader, s: State, labels: seq<Label>, l: Label)
    ensures Run(load, s, labels + [l]) == Next(load, Run(load, s, labels), l)
  {
    assert (labels + [l])[..|labels|] == labels;
  }
}
