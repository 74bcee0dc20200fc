/**
 After `AsyncShutdown` the run loop comes to its end within a bounded number of its own steps,
 whatever other requests still arrive.
 */
module ShellShutdown {
  import opened ConfigSpec
  import opened ShellMachine
  import opened ShellScenarios

  /** An upper bound on the shell steps left once shutdown is requested. */
  function Rank(s: State): nat {
    match s.pc
    case Finished(_) => 0
    case Deinitializing => 1
    case FinalStop => 2
    case CheckingShutdown => 3
    case StartingUp => 4
    case LoopTop => if s.startupBroker then 5 else 4
    case Sleeping => 6
    case Applying => 7
    case Loading => 8
    case StoppingForRestart => 9
    case CheckingRestart => 10
    case Initializing => 6
  }

  const MAX_RANK := 10

  function Startups(trace: seq<Event>): nat {
    |Filter(STARTUPS, trace)|
  }

  function Firings(trace: seq<Event>): nat {
    |Filter(FIRINGS, trace)|
  }

  lemma CountOneMore(trace: seq<Event>, e: Event)
    ensures Startups(trace + [e]) == Startups(trace) + if e.StartupCalled? then 1 else 0
    ensures Firings(trace + [e]) == Firings(trace) + if e.Fired? then 1 else 0
  {
    FilterOneMore(STARTUPS, trace, e);
    FilterOneMore(FIRINGS, trace, e);
  }

  /** Startups that can still happen: one if one is due, or if a restart is about to make it due. */
  function StartupsLeft(s: State): nat {
    match s.pc
    case Initializing | StartingUp => 1
    case CheckingRestart | StoppingForRestart | Loading | Applying => 1
    case LoopTop | Sleeping => if s.startupBroker then 1 else 0
    case _ => 0
  }

  /** Restarts that can still be decided: only by a poll already past the shutdown check. */
  function FiringsLeft(s: State): nat {
    if s.pc == CheckingRestart then 1 else 0
  }

  function ShellSteps(labels: seq<Label>): nat {
    if labels == [] then 0
    else ShellSteps(labels[..|labels| - 1]) + (if labels[|labels| - 1].Shell? then 1 else 0)
  }

  lemma RankFalls(load: Loader, s: State, l: Label)
    requires s.shutdownRequested
    ensures var s' := Move(load, s, l);
      && s'.shutdownRequested
      && Rank(s') <= Rank(s)
      && (l.Shell? && 0 < Rank(s) ==> Rank(s') < Rank(s))
  {
    match l
    case Shell(c) => match s.pc { case Applying => case _ => }
    case _ =>
  }

  lemma BudgetsFall(load: Loader, s: State, l: Label)
    requires s.shutdownRequested
    ensures var s' := Next(load, s, l);
      && Startups(s'.trace) + StartupsLeft(s') <= Startups(s.trace) + StartupsLeft(s)
      && Firings(s'.trace) + FiringsLeft(s') <= Firings(s.trace) + FiringsLeft(s)
  {
    match Emitted(load, s, l) {
      case None =>
      case Some(e) =>
        CountOneMore(s.trace, e);
    }
    BudgetsCoverEmission(load, s, l);
  }

  lemma BudgetsCoverEmission(load: Loader, s: State, l: Label)
    requires s.shutdownRequested
    ensures var s' := Move(load, s, l);
      match Emitted(load, s, l)
      case Some(StartupCalled(_, _)) => StartupsLeft(s') < StartupsLeft(s) && FiringsLeft(s') <= FiringsLeft(s)
      case Some(Fired(_)) => FiringsLeft(s') < FiringsLeft(s) && StartupsLeft(s') <= StartupsLeft(s)
      case _ => StartupsLeft(s') <= StartupsLeft(s) && FiringsLeft(s') <= FiringsLeft(s)
  {
    match l
    case Shell(c) => match s.pc { case Applying => case _ => }
    case _ =>
  }

  lemma {:induction false} RankCountsSteps(load: Loader, s: State, labels: seq<Label>)
    requires s.shutdownRequested
    ensures var end := Run(load, s, labels);
      end.shutdownRequested && (Rank(end) == 0 || Rank(end) + ShellSteps(labels) <= Rank(s))
    decreases |labels|
  {
    if labels != [] {
      var n := |labels| - 1;
      RankCountsSteps(load, s, labels[..n]);
      RankFalls(load, Run(load, s, labels[..n]), labels[n]);
    }
  }

  lemma {:induction false} BudgetsCoverRun(load: Loader, s: State, labels: seq<Label>)
    requires s.shutdownRequested
    ensures var end := Run(load, s, labels);
      && Startups(end.trace) + StartupsLeft(end) <= Startups(s.trace) + StartupsLeft(s)
      && Firings(end.trace) + FiringsLeft(end) <= Firings(s.trace) + FiringsLeft(s)
    decreases |labels|
  {
    if labels != [] {
      var n := |labels| - 1;
      BudgetsCoverRun(load, s, labels[..n]);
      RankCountsSteps(load, s, labels[..n]);
      BudgetsFall(load, Run(load, s, labels[..n]), labels[n]);
    }
  }

  /**
   From the moment shutdown is requested: at most one more startup and one more restart, and
   the loop has ended once the shell has taken as many steps as the rank says, ten at most.
   */
  lemma ShutdownEndsTheLoop(load: Loader, s: State, labels: seq<Label>)
    requires s.shutdownRequested
    ensures var end := Run(load, s, labels);
      && (ShellSteps(labels) >= Rank(s) ==> end.pc.Finished?)
      && Rank(s) <= MAX_RANK
      && Startups(end.trace) <= Startups(s.trace) + StartupsLeft(s) <= Startups(s.trace) + 1
      && Firings(end.trace) <= Firings(s.trace) + FiringsLeft(s) <= Firings(s.trace) + 1
  {
    RankCountsSteps(load, s, labels);
    BudgetsCoverRun(load, s, labels);
  }

  /** A shutdown request that comes in just before a poll that restarts the broker. */
  function ShutdownBeforePoll(c: Choice): seq<Label> {
    UpAndThen(c, Request(0)) + [AsyncShutdown]
  }

  /** All bounds are met, from the very start: one more restart, one more startup, ten steps. */
  lemma BoundsAreMet(load: Loader, file: ConfFile, c: Choice)
    requires AllGoesWell(load, file, c)
    ensures var s := Run(load, Initial(load, file), ShutdownBeforePoll(c));
      && s.shutdownRequested && Rank(s) == MAX_RANK
      && Firings(Run(load, s, Steps(c, 10)).trace) == Firings(s.trace) + 1
      && Startups(Run(load, s, Steps(c, 10)).trace) == Startups(s.trace) + 1
      && !Run(load, s, Steps(c, 9)).pc.Finished? && Run(load, s, Steps(c, 10)).pc.Finished?
  {
    UpAndThenAt(load, file, c, Request(0));
    RunOneMore(load, Initial(load, file), UpAndThen(c, Request(0)), AsyncShutdown);
    var s := Run(load, Initial(load, file), ShutdownBeforePoll(c));
    LastRestart(load, s, c);
    UndisturbedIsARun(load, s, c, 9);
    UndisturbedIsARun(load, s, c, 10);
    CountOn(s.trace, LastEvents(s.now, load(c.file)));
    LastCounts(s.now, load(c.file));
  }

  function LastEvents(now: nat, config: Config): seq<Event> {
    [Fired(now), ShutdownCalled, Loaded(config)]
    + [Applied, StartupCalled(config.settings, true)]
    + [ShutdownCalled, LibraryDown]
  }

  lemma LastCounts(now: nat, config: Config)
    ensures Startups(LastEvents(now, config)) == Firings(LastEvents(now, config)) == 1
  {
    var decided: seq<Event> := [] + [Fired(now)] + [ShutdownCalled] + [Loaded(config)];
    CountOneMore([], Fired(now));
    CountOneMore([] + [Fired(now)], ShutdownCalled);
    CountOneMore([] + [Fired(now)] + [ShutdownCalled], Loaded(config));
    CountOneMore(decided, Applied);
    CountOneMore(decided + [Applied], StartupCalled(config.settings, true));
    var started := decided + [Applied] + [StartupCalled(config.settings, true)];
    CountOneMore(started, ShutdownCalled);
    CountOneMore(started + [ShutdownCalled], LibraryDown);
    assert LastEvents(now, config) == started + [ShutdownCalled] + [LibraryDown];
  }

  lemma LastRestart(load: Loader, s: State, c: Choice)
    requires s.pc == CheckingRestart && s.config.enableBroker && TimeToRestart(s, c)
    requires s.shutdownRequested && s.newScope == "" && c.startupOk && load(c.file).enableBroker
    ensures Undisturbed(load, s, c, 9).pc == Deinitializing
    ensures Undisturbed(load, s, c, 10).pc == Finished(true)
    ensures Undisturbed(load, s, c, 10).trace == s.trace + LastEvents(s.now, load(c.file))
  {
    FireAndLoad(load, s, c);
    var loaded := Undisturbed(load, s, c, 3);
    ApplyAndStart(load, loaded, c);
    var started := Undisturbed(load, loaded, c, 4);
    StopAtLast(load, started, c);
    UndisturbedTwice(load, s, c, 3, 6);
    UndisturbedTwice(load, s, c, 3, 7);
    UndisturbedTwice(load, loaded, c, 4, 2);
    UndisturbedTwice(load, loaded, c, 4, 3);
  }

  lemma StopAtLast(load: Loader, s: State, c: Choice)
    requires s.pc == CheckingShutdown && s.shutdownRequested && s.config.enableBroker
    ensures Undisturbed(load, s, c, 2).pc == Deinitializing
    ensures Undisturbed(load, s, c, 3) == s.(
      pc := Finished(true), brokerRunning := false, trace := s.trace + [ShutdownCalled, LibraryDown])
  {
    var s1 := Next(load, s, Shell(c));
    assert s1 == s.(pc := FinalStop);
    var s2 := Next(load, s1, Shell(c));
    assert s2 == s.(pc := Deinitializing, brokerRunning := false, trace := s.trace + [ShutdownCalled]);
    assert Undisturbed(load, s, c, 2) == Undisturbed(load, s1, c, 1) == Undisturbed(load, s2, c, 0) == s2;
    var s3 := Next(load, s2, Shell(c));
    assert s.trace + [ShutdownCalled] + [LibraryDown] == s.trace + [ShutdownCalled, LibraryDown];
    assert Undisturbed(load, s, c, 3) == Undisturbed(load, s1, c, 2) == Undisturbed(load, s2, c, 1);
    assert Undisturbed(load, s2, c, 1) == Undisturbed(load, s3, c, 0) == s3;
  }

  lemma {:induction false} CountOn(trace: seq<Event>, more: seq<Event>)
    ensures Startups(trace + more) == Startups(trace) + Startups(more)
    ensures Firings(trace + more) == Firings(trace) + Firings(more)
    decreases |more|
  {
    if more == [] {
      assert trace + more == trace;
    } else {
      var n := |more| - 1;
      CountOn(trace, more[..n]);
      assert trace + more == trace + more[..n] + [more[n]];
      CountOneMore(trace + more[..n], more[n]);
      CountOneMore(more[..n], more[n]);
      assert more == more[..n] + [more[n]];
    }
  }
}
