/**
 Runs of the shell written out: the stretches in which nobody else gets in, and runs from the
 initial state put together from them. They show that what the theorems allow does happen.
 */
module ShellScenarios {
  import opened ConfigSpec
  import opened ShellMachine

  /** `n` steps of the shell, all with the same answers from outside. */
  function Steps(c: Choice, n: nat): seq<Label> {
    seq(n, _ => Shell(c))
  }

  /** The same stretch unrolled from its front. */
  function Undisturbed(load: Loader, s: State, c: Choice, n: nat): State
    decreases n
  {
    if n == 0 then s else Undisturbed(load, Next(load, s, Shell(c)), c, n - 1)
  }

  lemma {:induction false} UndisturbedIsARun(load: Loader, s: State, c: Choice, n: nat)
    ensures Undisturbed(load, s, c, n) == Run(load, s, Steps(c, n))
    decreases n
  {
    if n == 0 {
      assert Steps(c, n) == [];
    } else {
      UndisturbedIsARun(load, Next(load, s, Shell(c)), c, n - 1);
      assert [Shell(c)] + Steps(c, n - 1) == Steps(c, n);
      RunConcat(load, s, [Shell(c)], Steps(c, n - 1));
      assert [Shell(c)][..0] == [];
    }
  }

  lemma {:induction false} UndisturbedTwice(load: Loader, s: State, c: Choice, m: nat, n: nat)
    ensures Undisturbed(load, s, c, m + n) == Undisturbed(load, Undisturbed(load, s, c, m), c, n)
    decreases m
  {
    if m > 0 { UndisturbedTwice(load, Next(load, s, Shell(c)), c, m - 1, n); }
  }

  // ---------- Stretches ----------

  /** The settings in force when a scope notified by others may be waiting. */
  function Override(settings: Settings, notice: string): Settings {
    if notice == "" then settings else settings.(scope := notice)
  }

  /** From the application of settings past the startup. */
  lemma ApplyAndStart(load: Loader, s: State, c: Choice)
    requires s.pc == Applying && s.config.enableBroker && c.startupOk
    ensures var settings := Override(s.config.settings, s.newScope);
      Undisturbed(load, s, c, 4) == s.(
        pc := CheckingShutdown, startupBroker := false, brokerRunning := true, newScope := "",
        config := s.config.(settings := settings),
        trace := s.trace + [Applied, StartupCalled(settings, true)])
  {
    var settings := Override(s.config.settings, s.newScope);
    var s1 := Next(load, s, Shell(c));
    assert s1 == s.(pc := Sleeping, startupBroker := true, newScope := "",
                    config := s.config.(settings := settings), trace := s.trace + [Applied]);
    var s2 := Next(load, s1, Shell(c));
    assert s2 == s1.(pc := LoopTop);
    var s3 := Next(load, s2, Shell(c));
    assert s3 == s1.(pc := StartingUp, startupBroker := false);
    var s4 := Next(load, s3, Shell(c));
    assert s.trace + [Applied] + [StartupCalled(settings, true)] == s.trace + [Applied, StartupCalled(settings, true)];
    assert s4 == s3.(pc := CheckingShutdown, brokerRunning := true,
                     trace := s.trace + [Applied, StartupCalled(settings, true)]);
    assert Undisturbed(load, s3, c, 1) == Undisturbed(load, s4, c, 0) == s4;
    assert Undisturbed(load, s, c, 4) == Undisturbed(load, s3, c, 1) by {
      assert Undisturbed(load, s, c, 4) == Undisturbed(load, s1, c, 3);
      assert Undisturbed(load, s1, c, 3) == Undisturbed(load, s2, c, 2);
    }
  }

  lemma LoopOn(load: Loader, s: State, c: Choice)
    requires s.pc == CheckingShutdown && !s.shutdownRequested
    ensures Undisturbed(load, s, c, 1) == s.(pc := CheckingRestart)
  {
    assert Undisturbed(load, s, c, 1) == Undisturbed(load, Next(load, s, Shell(c)), c, 0);
  }

  /** From the decision to restart to the application of settings. */
  lemma StopAndLoad(load: Loader, s: State, c: Choice)
    requires s.pc == StoppingForRestart && s.config.enableBroker
    ensures Undisturbed(load, s, c, 2) == s.(
      pc := Applying, brokerRunning := false, config := load(c.file),
      trace := s.trace + [ShutdownCalled, Loaded(load(c.file))])
  {
    var s1 := Next(load, s, Shell(c));
    assert s1 == s.(pc := Loading, brokerRunning := false, trace := s.trace + [ShutdownCalled]);
    var s2 := Next(load, s1, Shell(c));
    assert s.trace + [ShutdownCalled] + [Loaded(load(c.file))] == s.trace + [ShutdownCalled, Loaded(load(c.file))];
    assert Undisturbed(load, s, c, 2) == Undisturbed(load, s1, c, 1) == Undisturbed(load, s2, c, 0) == s2;
  }

  /** From a poll that fires to the decision to restart. */
  lemma Fire(load: Loader, s: State, c: Choice)
    requires s.pc == CheckingRestart && TimeToRestart(s, c)
    ensures Undisturbed(load, s, c, 1)
      == s.(pc := StoppingForRestart, restartRequested := false, trace := s.trace + [Fired(s.now)])
  {
    assert Undisturbed(load, s, c, 1) == Undisturbed(load, Next(load, s, Shell(c)), c, 0);
  }

  /** From a poll that fires to the application of settings. */
  lemma FireAndLoad(load: Loader, s: State, c: Choice)
    requires s.pc == CheckingRestart && s.config.enableBroker && TimeToRestart(s, c)
    ensures Undisturbed(load, s, c, 3) == s.(
      pc := Applying, restartRequested := false, brokerRunning := false, config := load(c.file),
      trace := s.trace + [Fired(s.now), ShutdownCalled, Loaded(load(c.file))])
  {
    Fire(load, s, c);
    var decided := Undisturbed(load, s, c, 1);
    StopAndLoad(load, decided, c);
    UndisturbedTwice(load, s, c, 1, 2);
    assert s.trace + [Fired(s.now)] + [ShutdownCalled, Loaded(load(c.file))]
        == s.trace + [Fired(s.now), ShutdownCalled, Loaded(load(c.file))];
  }

  // ---------- Runs from the start ----------

  /** The answers from outside in a run in which nothing goes wrong. */
  predicate AllGoesWell(load: Loader, file: ConfFile, c: Choice) {
    c.initOk && c.startupOk && load(file).enableBroker && load(c.file).enableBroker
  }

  function UpTrace(config: Config): seq<Event> {
    [Loaded(config), LibraryUp, StartupCalled(config.settings, true)]
  }

  lemma BringUp(load: Loader, file: ConfFile, c: Choice)
    requires AllGoesWell(load, file, c)
    ensures Undisturbed(load, Initial(load, file), c, 4)
      == State(CheckingRestart, false, load(file), true, false, Idle, "", false, 0, UpTrace(load(file)))
  {
    var s := Initial(load, file);
    var s1 := Next(load, s, Shell(c));
    assert s1 == s.(pc := LoopTop, trace := [Loaded(load(file)), LibraryUp]);
    var s2 := Next(load, s1, Shell(c));
    assert s2 == s1.(pc := StartingUp, startupBroker := false);
    var s3 := Next(load, s2, Shell(c));
    assert s3 == s2.(pc := CheckingShutdown, brokerRunning := true, trace := UpTrace(load(file)));
    LoopOn(load, s3, c);
    assert Undisturbed(load, s, c, 4) == Undisturbed(load, s3, c, 1) by {
      assert Undisturbed(load, s, c, 4) == Undisturbed(load, s1, c, 3);
      assert Undisturbed(load, s1, c, 3) == Undisturbed(load, s2, c, 2);
    }
  }

  /** The broker comes up, and somebody asks for something just before the shell polls. */
  function UpAndThen(c: Choice, l: Label): seq<Label> {
    Steps(c, 4) + [l]
  }

  lemma UpAndThenAt(load: Loader, file: ConfFile, c: Choice, l: Label)
    requires AllGoesWell(load, file, c)
    ensures Run(load, Initial(load, file), UpAndThen(c, l))
      == Next(load, State(CheckingRestart, false, load(file), true, false, Idle, "", false, 0, UpTrace(load(file))), l)
  {
    BringUp(load, file, c);
    UndisturbedIsARun(load, Initial(load, file), c, 4);
    RunOneMore(load, Initial(load, file), Steps(c, 4), l);
  }
}
