/**
 The broker shell of src/core/broker_shell.cpp as an object: its fields, its lock-protected
 methods and the loop of `Run`, with other threads let in between any two atomic blocks.
 Every method is tied to the step machine, so what holds of its runs holds of this code.
 `pc` and `trace` only mirror where `Run` stands and what happened.
 */
module BrokerShell {
  import opened Wrappers
  import opened Platform
  import opened ConfigSpec
  import opened BrokerConfig
  import opened ShellMachine
  import opened ShellSafety
  import opened ShellShutdown

  /** The broker of the RDMnet library, as far as the shell can see it. */
  class Broker {
    var running: bool

    constructor ()
      ensures !running
    {
      running := false;
    }

    method Startup(succeeds: bool) returns (ok: bool)
      requires !running
      modifies this
      ensures ok == running == succeeds
    {
      running := succeeds;
      ok := succeeds;
    }

    method Shutdown()
      requires running
      modifies this
      ensures !running
    {
      running := false;
    }
  }

  ghost function LoaderOf(p: Platform): Loader {
    file => LoadedConfig(p, file)
  }

  type Interference = l: Label | !l.Shell? witness AsyncShutdown

  /** What happens around the shell's steps: the answers to the k-th one, and what others do after it. */
  datatype World = World(choices: nat -> Choice, interference: nat -> seq<Interference>)

  /** The world's interleaving up to and including what follows the shell's first `k` steps. */
  function Interleaving(world: World, k: nat): seq<Label> {
    if k == 0 then []
    else Interleaving(world, k - 1) + [Shell(world.choices(k - 1))] + world.interference(k - 1)
  }

  lemma {:induction false} OthersAddNoSteps(labels: seq<Label>, acts: seq<Interference>)
    ensures ShellSteps(labels + acts) == ShellSteps(labels)
    decreases |acts|
  {
    if acts == [] {
      assert labels + acts == labels;
    } else {
      var n := |acts| - 1;
      OthersAddNoSteps(labels, acts[..n]);
      assert (labels + acts)[..|labels + acts| - 1] == labels + acts[..n];
    }
  }

  lemma {:induction false} StepsOfInterleaving(world: World, k: nat)
    ensures ShellSteps(Interleaving(world, k)) == k
  {
    if 0 < k {
      StepsOfInterleaving(world, k - 1);
      var before := Interleaving(world, k - 1);
      assert (before + [Shell(world.choices(k - 1))])[..|before|] == before;
      OthersAddNoSteps(before + [Shell(world.choices(k - 1))], world.interference(k - 1));
    }
  }

  /** The i-th step of the shell and all that others do after it are in there, in their place. */
  lemma {:induction false} InterleavingHoldsAll(world: World, i: nat, k: nat)
    requires i < k
    ensures var at, acts := |Interleaving(world, i)|, world.interference(i);
      && at + 1 + |acts| <= |Interleaving(world, k)|
      && Interleaving(world, k)[at] == Shell(world.choices(i))
      && Interleaving(world, k)[at + 1..at + 1 + |acts|] == acts
  {
    if i < k - 1 { InterleavingHoldsAll(world, i, k - 1); }
  }

  class BrokerShell {
    const platform: Platform
    const brokerConfig: BrokerConfig
    const broker: Broker
    var readyToRun: bool
    var restartTimer: Timer
    var restartRequested: bool
    var shutdownRequested: bool
    var newScope: string
    var startupBroker: bool  // the local variable of `Run`
    var now: nat             // the clock behind the timer
    ghost var pc: PC
    ghost var trace: seq<Event>

    ghost predicate Valid() {
      brokerConfig.platform == platform && platform.parseJson("") == None
    }

    ghost function Load(): Loader {
      LoaderOf(platform)
    }

    ghost function View(): State
      reads this, brokerConfig, broker
    {
      State(pc, startupBroker, brokerConfig.Value(), broker.running, restartRequested, restartTimer,
            newScope, shutdownRequested, now, trace)
    }

    constructor (platform: Platform, settings: Settings)
      requires platform.parseJson("") == None
      ensures Valid() && this.platform == platform && !readyToRun && !broker.running
      ensures fresh(brokerConfig) && fresh(broker)
    {
      this.platform := platform;
      this.brokerConfig := new BrokerConfig(platform, settings, 0, false);
      this.broker := new Broker();
      readyToRun, restartTimer, restartRequested, shutdownRequested := false, Idle, false, false;
      newScope, startupBroker, now := "", true, 0;
      pc, trace := Initializing, [];
    }

    /** `logOpens` and `logStarts` are what the operating system interface and the logger answer. */
    method Init(logOpens: bool, logStarts: bool, file: ConfFile) returns (ready: bool)
      requires Valid() && !readyToRun && !broker.running && pc == Initializing && trace == []
      requires startupBroker && !restartRequested && restartTimer == Idle && newScope == ""
      requires !shutdownRequested && now == 0
      modifies this, brokerConfig
      ensures ready == readyToRun == (logOpens && logStarts)
      ensures ready ==> View() == Initial(Load(), file)
      ensures !ready ==> View() == old(View())
    {
      if logOpens {
        if logStarts {
          LoadBrokerConfig(file);
          trace := [Loaded(LoadedConfig(platform, file))];
          readyToRun := true;
        }
      }
      ready := readyToRun;
    }

    /** History plays no part: earlier settings, failed startups and scope overrides are gone. */
    method LoadBrokerConfig(file: ConfFile)
      requires Valid()
      modifies brokerConfig
      ensures brokerConfig.Value() == LoadedConfig(platform, file)
    {
      brokerConfig.SetDefaults();
      NoInterfacesByDefault(platform);

      var text := "";
      match file {
        case Unopened => brokerConfig.enableBroker := false;
        case Opened(characters) => text := characters;
      }

      var parseRes := brokerConfig.Read(text);
      if parseRes != Ok && parseRes != InvalidSetting {
        brokerConfig.enableBroker := false;
      }
    }

    // ---------- What other threads call ----------

    method RequestRestart(cooldownMs: nat)
      modifies this`restartRequested, this`restartTimer, this`trace
      ensures View() == Next(Load(), old(View()), Request(cooldownMs))
    {
      LockedRequestRestart(cooldownMs);
      trace := trace + [Requested(now, cooldownMs)];
    }

    method HandleScopeChanged(scope: string)
      modifies this`newScope, this`restartRequested, this`restartTimer, this`trace
      ensures View() == Next(Load(), old(View()), ScopeChange(scope))
    {
      newScope := scope;
      LockedRequestRestart(0);
      trace := trace + [ScopeNotified(now, scope)];
    }

    method AsyncShutdown()
      modifies this`shutdownRequested, this`trace
      ensures View() == Next(Load(), old(View()), Label.AsyncShutdown)
    {
      shutdownRequested := true;
      trace := trace + [ShutdownAsked];
    }

    method LockedRequestRestart(cooldownMs: nat)
      modifies this`restartRequested, this`restartTimer
      ensures View() == LockedRequest(old(View()), cooldownMs)
    {
      restartRequested := true;
      if cooldownMs > restartTimer.Remaining(now) {  // an earlier cooldown is not cut short
        restartTimer := Start(now, cooldownMs);
      }
    }

    method Act(l: Interference)
      modifies this`newScope, this`restartRequested, this`restartTimer, this`shutdownRequested, this`now, this`trace
      ensures View() == Next(Load(), old(View()), l)
    {
      match l
      case Request(cooldown) => RequestRestart(cooldown);
      case ScopeChange(scope) => HandleScopeChanged(scope);
      case AsyncShutdown => AsyncShutdown();
      case Tick(ms) => now := now + ms;
    }

    /** Other threads have their way for a while, after the shell has come here from `start`. */
    method Interfere(acts: seq<Interference>, ghost start: State, ghost labels: seq<Label>)
      requires View() == ShellMachine.Run(Load(), start, labels) && BrokerMatches(View())
      modifies this`newScope, this`restartRequested, this`restartTimer, this`shutdownRequested, this`now, this`trace
      ensures View() == ShellMachine.Run(Load(), start, labels + acts) && BrokerMatches(View())
    {
      assert labels + acts[..0] == labels;
      for i := 0 to |acts|
        invariant View() == ShellMachine.Run(Load(), start, labels + acts[..i]) && BrokerMatches(View())
      {
        assert labels + acts[..i + 1] == labels + acts[..i] + [acts[i]];
        RunOneMore(Load(), start, labels + acts[..i], acts[i]);
        BrokerMatchesNext(Load(), View(), acts[i]);
        Act(acts[i]);
      }
      assert acts[..|acts|] == acts;
    }

    // ---------- The blocks of the run loop ----------

    method TimeToRestartBroker(c: Choice) returns (fire: bool)
      requires pc == CheckingRestart
      modifies this`restartRequested, this`pc, this`trace
      ensures View() == Next(Load(), old(View()), Shell(c))
      ensures pc == if fire then StoppingForRestart else Sleeping
      ensures var over :=
          match restartTimer
          case Idle => true
          case Armed(deadline) => deadline < now || (deadline == now && c.atDeadline);
        fire <==> old(restartRequested) && over
    {
      if restartRequested && restartTimer.IsExpired(now, c.atDeadline) {
        restartRequested := false;
        pc, trace := StoppingForRestart, trace + [Fired(now)];
        return true;
      }
      pc := Sleeping;
      return false;
    }

    method ApplySettingsChanges(c: Choice)
      requires pc == Applying
      modifies this`newScope, this`startupBroker, this`pc, this`trace, brokerConfig`settings
      ensures View() == Next(Load(), old(View()), Shell(c))
      ensures pc == Sleeping
    {
      if newScope != "" {
        brokerConfig.settings := brokerConfig.settings.(scope := newScope);
        newScope := "";
      }
      startupBroker := true;
      pc, trace := Sleeping, trace + [Applied];
    }

    method StartBrokerIfEnabled(c: Choice)
      requires pc == StartingUp && BrokerMatches(View())
      modifies this`pc, this`trace, brokerConfig`enableBroker, broker
      ensures View() == Next(Load(), old(View()), Shell(c))
      ensures pc == CheckingShutdown
    {
      pc := CheckingShutdown;
      if brokerConfig.enableBroker {
        trace := trace + [StartupCalled(brokerConfig.settings, c.startupOk)];
        var res := broker.Startup(c.startupOk);
        if !res { brokerConfig.enableBroker := false; }
      }
    }

    method StopBrokerIfEnabled(c: Choice)
      requires pc in {StoppingForRestart, FinalStop} && BrokerMatches(View())
      modifies this`pc, this`trace, broker
      ensures View() == Next(Load(), old(View()), Shell(c))
      ensures pc == if old(pc) == FinalStop then Deinitializing else Loading
    {
      pc := if pc == FinalStop then Deinitializing else Loading;
      if brokerConfig.enableBroker {
        trace := trace + [ShutdownCalled];
        broker.Shutdown();
      }
    }

    method ReloadConfig(c: Choice)
      requires Valid() && pc == Loading
      modifies this`pc, this`trace, brokerConfig
      ensures View() == Next(Load(), old(View()), Shell(c))
      ensures pc == Applying
    {
      LoadBrokerConfig(c.file);
      pc, trace := Applying, trace + [Loaded(brokerConfig.Value())];
    }

    method EnterLibrary(c: Choice) returns (ok: bool)
      requires pc == Initializing
      modifies this`pc, this`trace
      ensures View() == Next(Load(), old(View()), Shell(c))
      ensures ok == c.initOk && pc == if ok then LoopTop else Finished(false)
    {
      ok := c.initOk;
      if ok { pc, trace := LoopTop, trace + [LibraryUp]; } else { pc := Finished(false); }
    }

    method LeaveLibrary(c: Choice)
      requires pc == Deinitializing
      modifies this`pc, this`trace
      ensures View() == Next(Load(), old(View()), Shell(c)) && pc == Finished(true)
    {
      pc, trace := Finished(true), trace + [LibraryDown];
    }

    method StartupDue(c: Choice) returns (due: bool)
      requires pc == LoopTop
      modifies this`pc, this`startupBroker
      ensures View() == Next(Load(), old(View()), Shell(c))
      ensures pc == if due then StartingUp else CheckingShutdown
    {
      due := startupBroker;
      pc := if due then StartingUp else CheckingShutdown;
      startupBroker := false;
    }

    method ShutdownDue(c: Choice) returns (due: bool)
      requires pc == CheckingShutdown
      modifies this`pc
      ensures View() == Next(Load(), old(View()), Shell(c))
      ensures pc == if due then FinalStop else CheckingRestart
    {
      due := shutdownRequested;
      pc := if due then FinalStop else CheckingRestart;
    }

    method Sleep(c: Choice)
      requires pc == Sleeping
      modifies this`pc
      ensures View() == Next(Load(), old(View()), Shell(c)) && pc == LoopTop
    {
      pc := LoopTop;
    }

    // ---------- Their composition ----------

    /** The shell has come here from `start` by its first `k` steps in this world. */
    ghost predicate Came(start: State, world: World, k: nat)
      reads this, brokerConfig, broker
    {
      Valid() && View() == ShellMachine.Run(Load(), start, Interleaving(world, k)) && BrokerMatches(View())
    }

    /** Books the k-th shell step, just taken from `before`, and lets the other threads in. */
    method Account(world: World, k: nat, ghost start: State, ghost before: State) returns (k': nat)
      requires Valid() && before == ShellMachine.Run(Load(), start, Interleaving(world, k)) && BrokerMatches(before)
      requires View() == Next(Load(), before, Shell(world.choices(k)))
      modifies this`newScope, this`restartRequested, this`restartTimer, this`shutdownRequested, this`now, this`trace
      ensures k' == k + 1 && Came(start, world, k')
    {
      ghost var labels := Interleaving(world, k);
      RunOneMore(Load(), start, labels, Shell(world.choices(k)));
      BrokerMatchesNext(Load(), before, Shell(world.choices(k)));
      Interfere(world.interference(k), start, labels + [Shell(world.choices(k))]);
      k' := k + 1;
    }

    /** The top of the loop: start the broker if that is due. */
    method TopOfLoop(world: World, k: nat, ghost start: State) returns (k': nat)
      requires Came(start, world, k) && pc == LoopTop
      modifies this, brokerConfig, broker
      ensures Came(start, world, k') && pc == CheckingShutdown && readyToRun == old(readyToRun) && k < k'
    {
      var due := StartupDue(world.choices(k));
      k' := Account(world, k, start, old(View()));
      if due {
        ghost var before := View();
        StartBrokerIfEnabled(world.choices(k'));
        k' := Account(world, k', start, before);
      }
    }

    /** The rest of the loop, up to and including the sleep, or out of it. */
    method BottomOfLoop(world: World, k: nat, ghost start: State) returns (leave: bool, k': nat)
      requires Came(start, world, k) && pc == CheckingShutdown
      modifies this, brokerConfig, broker
      ensures Came(start, world, k') && readyToRun == old(readyToRun)
      ensures pc == (if leave then FinalStop else LoopTop) && (leave || k + 3 <= k')
    {
      leave, k' := CheckShutdown(world, k, start);
      if !leave {
        var fire;
        fire, k' := Poll(world, k', start);
        if fire { k' := Restart(world, k', start); }
        k' := GoToSleep(world, k', start);
      }
    }

    method CheckShutdown(world: World, k: nat, ghost start: State) returns (leave: bool, k': nat)
      requires Came(start, world, k) && pc == CheckingShutdown
      modifies this
      ensures Came(start, world, k') && readyToRun == old(readyToRun) && k' == k + 1
      ensures pc == if leave then FinalStop else CheckingRestart
    {
      leave := ShutdownDue(world.choices(k));
      k' := Account(world, k, start, old(View()));
    }

    method Poll(world: World, k: nat, ghost start: State) returns (fire: bool, k': nat)
      requires Came(start, world, k) && pc == CheckingRestart
      modifies this
      ensures Came(start, world, k') && readyToRun == old(readyToRun) && k' == k + 1
      ensures pc == if fire then StoppingForRestart else Sleeping
    {
      fire := TimeToRestartBroker(world.choices(k));
      k' := Account(world, k, start, old(View()));
    }

    method GoToSleep(world: World, k: nat, ghost start: State) returns (k': nat)
      requires Came(start, world, k) && pc == Sleeping
      modifies this
      ensures Came(start, world, k') && pc == LoopTop && readyToRun == old(readyToRun) && k' == k + 1
    {
      Sleep(world.choices(k));
      k' := Account(world, k, start, old(View()));
    }

    method Restart(world: World, k: nat, ghost start: State) returns (k': nat)
      requires Came(start, world, k) && pc == StoppingForRestart
      modifies this, brokerConfig, broker
      ensures Came(start, world, k') && pc == Sleeping && readyToRun == old(readyToRun) && k' == k + 3
    {
      k' := StopBroker(world, k, start);
      k' := Reload(world, k', start);
      k' := Apply(world, k', start);
    }

    method StopBroker(world: World, k: nat, ghost start: State) returns (k': nat)
      requires Came(start, world, k) && pc in {StoppingForRestart, FinalStop}
      modifies this, broker
      ensures Came(start, world, k') && readyToRun == old(readyToRun) && k' == k + 1
      ensures pc == if old(pc) == FinalStop then Deinitializing else Loading
    {
      StopBrokerIfEnabled(world.choices(k));
      k' := Account(world, k, start, old(View()));
    }

    method Reload(world: World, k: nat, ghost start: State) returns (k': nat)
      requires Came(start, world, k) && pc == Loading
      modifies this, brokerConfig
      ensures Came(start, world, k') && pc == Applying && readyToRun == old(readyToRun) && k' == k + 1
    {
      ReloadConfig(world.choices(k));
      k' := Account(world, k, start, old(View()));
    }

    method Apply(world: World, k: nat, ghost start: State) returns (k': nat)
      requires Came(start, world, k) && pc == Applying
      modifies this, brokerConfig
      ensures Came(start, world, k') && pc == Sleeping && readyToRun == old(readyToRun) && k' == k + 1
    {
      ApplySettingsChanges(world.choices(k));
      k' := Account(world, k, start, old(View()));
    }

    method OpenUp(world: World, ghost start: State) returns (ok: bool, k': nat)
      requires Came(start, world, 0) && pc == Initializing
      modifies this
      ensures Came(start, world, k') && readyToRun == old(readyToRun) && k' == 1
      ensures pc == if ok then LoopTop else Finished(false)
    {
      ok := EnterLibrary(world.choices(0));
      k' := Account(world, 0, start, old(View()));
    }

    method CloseDown(world: World, k: nat, ghost start: State) returns (k': nat)
      requires Came(start, world, k) && pc == FinalStop
      modifies this, broker
      ensures Came(start, world, k') && pc == Finished(true) && readyToRun == old(readyToRun) && k' == k + 2
    {
      k' := StopBroker(world, k, start);
      ghost var before := View();
      LeaveLibrary(world.choices(k'));
      k' := Account(world, k', start, before);
    }

    /**
     `Run`, watched for at most `patience` passes through its loop, which has no bound of its
     own. In every world it is the machine's run for that world's interleaving, and the broker is
     only ever started when stopped and stopped when running. Without an end in sight all passes
     are taken; a shutdown requested beforehand brings the end within two.
     */
    method Run(world: World, patience: nat) returns (result: bool, ended: bool, steps: nat)
      requires Valid() && (readyToRun ==> pc == Initializing && BrokerMatches(View()))
      modifies this, brokerConfig, broker
      ensures View() == ShellMachine.Run(Load(), old(View()), Interleaving(world, steps))
      ensures !old(readyToRun) ==> ended && !result && steps == 0
      ensures old(readyToRun) ==> (if ended then pc == Finished(result) else pc == LoopTop && 4 * patience < steps)
      ensures old(shutdownRequested) && 2 <= patience ==> ended
    {
      if !readyToRun { return false, true, 0; }

      ghost var start := View();
      var ok, k := OpenUp(world, start);
      if !ok { return false, true, k; }

      var leave := false;
      for i := 0 to patience
        invariant pc == LoopTop && !leave && Came(start, world, k) && 4 * i < k
      {
        k := TopOfLoop(world, k, start);
        leave, k := BottomOfLoop(world, k, start);
        if leave { break; }
      }
      if !leave {
        if start.shutdownRequested {
          StepsOfInterleaving(world, k);
          ShutdownEndsTheLoop(Load(), start, Interleaving(world, k));
        }
        return false, false, k;
      }

      k := CloseDown(world, k, start);
      return true, true, k;
    }
  }

  lemma NoInterfacesByDefault(p: Platform)
    ensures DefaultConfig(p).settings.listenInterfaces == []
  {
    DefaultConfigAt(p, ListenInterfacesKey);
  }
}
