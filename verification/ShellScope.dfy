/**
 Which settings, and which scope above all, the broker is started with: those of the file
 loaded last, except for a scope notified since the restart before, which holds for one start.
 */
module ShellScope {
  import opened Wrappers
  import opened ConfigSpec
  import opened ShellMachine
  import opened ShellScenarios

  const NOTICES_AND_APPLICATIONS: Event -> bool := (e: Event) => e.ScopeNotified? || e.Applied?

  /** The last scope notified since settings were last applied, or "" if there is none. */
  function LastNotice(trace: seq<Event>): string {
    var both := Filter(NOTICES_AND_APPLICATIONS, trace);
    if both != [] && both[|both| - 1].ScopeNotified? then both[|both| - 1].scope else ""
  }

  const LOADS: Event -> bool := (e: Event) => e.Loaded?

  lemma LoadsAreLoads(trace: seq<Event>)
    ensures forall i | 0 <= i < |Filter(LOADS, trace)| :: Filter(LOADS, trace)[i].Loaded?
  {
  }

  /** The settings of the file loaded last. */
  function LastLoaded(trace: seq<Event>): Option<Settings> {
    LoadsAreLoads(trace);
    var loads := Filter(LOADS, trace);
    if loads == [] then None else Some(loads[|loads| - 1].config.settings)
  }

  /** The settings that were put in force by the last `ApplySettingsChanges`. */
  function InForce(trace: seq<Event>): Option<Settings> {
    if trace == [] then None
    else
      var before := trace[..|trace| - 1];
      if trace[|trace| - 1].Applied? then
        (match LastLoaded(before)
         case Some(settings) => Some(Override(settings, LastNotice(before)))
         case None => None)
      else InForce(before)
  }

  predicate HasApplied(trace: seq<Event>) {
    exists i :: 0 <= i < |trace| && trace[i].Applied?
  }

  /** What a startup at the end of this trace is to use. */
  function Effective(trace: seq<Event>): Option<Settings> {
    if HasApplied(trace) then InForce(trace) else LastLoaded(trace)
  }

  ghost predicate StartupsUseEffective(trace: seq<Event>) {
    forall j | 0 <= j < |trace| && trace[j].StartupCalled? :: Effective(trace[..j]) == Some(trace[j].settings)
  }

  ghost predicate ScopeTracked(s: State) {
    && s.newScope == LastNotice(s.trace)
    && (if s.pc == Applying then LastLoaded(s.trace) else Effective(s.trace)) == Some(s.config.settings)
    && StartupsUseEffective(s.trace)
  }

  lemma EffectiveOneMore(trace: seq<Event>, e: Event)
    ensures LastNotice(trace + [e])
      == if e.ScopeNotified? then e.scope else if e.Applied? then "" else LastNotice(trace)
    ensures LastLoaded(trace + [e]) == if e.Loaded? then Some(e.config.settings) else LastLoaded(trace)
    ensures e.Applied? && LastLoaded(trace).Some? ==>
      Effective(trace + [e]) == Some(Override(LastLoaded(trace).value, LastNotice(trace)))
    ensures !e.Applied? && !e.Loaded? ==> Effective(trace + [e]) == Effective(trace)
  {
    FilterOneMore(NOTICES_AND_APPLICATIONS, trace, e);
    FilterOneMore(LOADS, trace, e);
    assert (trace + [e])[..|trace|] == trace;
    assert (trace + [e])[|trace|] == e;
    if HasApplied(trace) {
      var i :| 0 <= i < |trace| && trace[i].Applied?;
      assert (trace + [e])[i].Applied?;
    }
  }

  lemma StartupsOneMore(trace: seq<Event>, e: Event)
    requires StartupsUseEffective(trace)
    requires e.StartupCalled? ==> Effective(trace) == Some(e.settings)
    ensures StartupsUseEffective(trace + [e])
  {
    var trace' := trace + [e];
    forall j | 0 <= j < |trace'| && trace'[j].StartupCalled?
      ensures Effective(trace'[..j]) == Some(trace'[j].settings)
    {
      assert trace'[..j] == trace[..j];
      if j == |trace| { assert trace[..j] == trace; }
    }
  }

  /** The part of a step that matters here. */
  ghost predicate MovesScope(s: State, e: Option<Event>, s': State) {
    match e
    case Some(ScopeNotified(_, scope)) => s'.newScope == scope && s'.config == s.config && s'.pc == s.pc
    case Some(Loaded(config)) =>
      s.pc == Loading && s'.pc == Applying && s'.config == config && s'.newScope == s.newScope
    case Some(Applied) =>
      && s.pc == Applying && s'.pc == Sleeping && s'.newScope == ""
      && s'.config.settings == Override(s.config.settings, s.newScope)
    case Some(StartupCalled(settings, _)) =>
      && s.pc == StartingUp && s'.pc != Applying && s'.newScope == s.newScope
      && settings == s.config.settings == s'.config.settings
    case _ =>
      && s'.config.settings == s.config.settings && s'.newScope == s.newScope
      && (s'.pc == Applying <==> s.pc == Applying)
  }

  lemma ShellMovesScope(load: Loader, s: State, c: Choice)
    ensures MovesScope(s, Emitted(load, s, Shell(c)), ShellMove(load, s, c))
  {
    match s.pc
    case StartingUp =>
    case Loading =>
    case Applying =>
    case _ =>
  }

  lemma OthersMoveScope(load: Loader, s: State, l: Label)
    requires !l.Shell?
    ensures MovesScope(s, Emitted(load, s, l), Move(load, s, l))
  {
  }

  lemma ScopeNext(load: Loader, s: State, l: Label)
    requires ScopeTracked(s)
    ensures ScopeTracked(Next(load, s, l))
  {
    if l.Shell? { ShellMovesScope(load, s, l.choice); } else { OthersMoveScope(load, s, l); }
    match Emitted(load, s, l)
    case None =>
    case Some(e) =>
      EffectiveOneMore(s.trace, e);
      StartupsOneMore(s.trace, e);
  }

  lemma InitialScopeTracked(load: Loader, file: ConfFile)
    ensures ScopeTracked(Initial(load, file))
  {
    var e := Loaded(load(file));
    assert [] + [e] == [e];
    EffectiveOneMore([], e);
    StartupsOneMore([], e);
    assert !HasApplied([e]);
  }

  lemma {:induction false} EveryRunTracksScope(load: Loader, file: ConfFile, labels: seq<Label>)
    ensures ScopeTracked(Run(load, Initial(load, file), labels))
    decreases |labels|
  {
    if labels == [] {
      InitialScopeTracked(load, file);
    } else {
      var n := |labels| - 1;
      EveryRunTracksScope(load, file, labels[..n]);
      ScopeNext(load, Run(load, Initial(load, file), labels[..n]), labels[n]);
    }
  }

  // ---------- Every application follows a load of its own restart ----------

  predicate IsRestartStage(e: Event) {
    e.Fired? || e.Loaded? || e.Applied?
  }

  /** The shell decided to restart at `f`, and nothing of that restart has happened since. */
  ghost predicate DecidedAt(trace: seq<Event>, f: nat) {
    f < |trace| && trace[f].Fired? && forall i | f < i < |trace| :: !IsRestartStage(trace[i])
  }

  /** The shell decided to restart at `f` and has since loaded the file once, at `l`. */
  ghost predicate ReloadedAt(trace: seq<Event>, f: nat, l: nat) {
    && f < l < |trace| && trace[f].Fired? && trace[l].Loaded?
    && forall i | f < i < |trace| && i != l :: !IsRestartStage(trace[i])
  }

  ghost predicate Reloaded(trace: seq<Event>) {
    exists f: nat, l: nat :: ReloadedAt(trace, f, l)
  }

  ghost predicate StagesTracked(s: State) {
    && (s.pc in {StoppingForRestart, Loading} ==> exists f: nat :: DecidedAt(s.trace, f))
    && (s.pc == Applying ==> Reloaded(s.trace))
    && forall a | 0 <= a < |s.trace| && s.trace[a].Applied? :: Reloaded(s.trace[..a])
  }

  lemma StagesOneMore(trace: seq<Event>, e: Event)
    ensures e.Fired? ==> DecidedAt(trace + [e], |trace|)
    ensures e.Loaded? ==> forall f: nat | DecidedAt(trace, f) :: ReloadedAt(trace + [e], f, |trace|)
    ensures !IsRestartStage(e) ==> forall f: nat | DecidedAt(trace, f) :: DecidedAt(trace + [e], f)
    ensures !IsRestartStage(e) ==> forall f: nat, l: nat | ReloadedAt(trace, f, l) :: ReloadedAt(trace + [e], f, l)
  {
  }

  /** How the program counter goes with the stages of a restart. */
  lemma StageMove(load: Loader, s: State, l: Label)
    ensures var pc' := Move(load, s, l).pc;
      match Emitted(load, s, l)
      case Some(Fired(_)) => pc' == StoppingForRestart
      case Some(Loaded(_)) => s.pc == Loading && pc' == Applying
      case Some(Applied) => s.pc == Applying && pc' == Sleeping
      case _ =>
        && (pc' in {StoppingForRestart, Loading} ==> s.pc in {StoppingForRestart, Loading})
        && (pc' == Applying ==> s.pc == Applying)
  {
    match l
    case Shell(c) => match s.pc { case Applying => case _ => }
    case _ =>
  }

  lemma ApplicationsOneMore(trace: seq<Event>, e: Event)
    requires forall a | 0 <= a < |trace| && trace[a].Applied? :: Reloaded(trace[..a])
    requires e.Applied? ==> Reloaded(trace)
    ensures forall a | 0 <= a < |trace + [e]| && (trace + [e])[a].Applied? :: Reloaded((trace + [e])[..a])
  {
    forall a | 0 <= a < |trace + [e]| && (trace + [e])[a].Applied? ensures Reloaded((trace + [e])[..a]) {
      assert (trace + [e])[..a] == trace[..a];
      if a == |trace| { assert trace[..a] == trace; }
    }
  }

  lemma StagesNext(load: Loader, s: State, l: Label)
    requires StagesTracked(s)
    ensures StagesTracked(Next(load, s, l))
  {
    StageMove(load, s, l);
    var pc' := Move(load, s, l).pc;
    match Emitted(load, s, l)
    case None =>
    case Some(e) =>
      StagesOneMore(s.trace, e);
      ApplicationsOneMore(s.trace, e);
      assert Next(load, s, l).trace == s.trace + [e] && Next(load, s, l).pc == pc';
  }

  lemma {:induction false} EveryRunTracksStages(load: Loader, file: ConfFile, labels: seq<Label>)
    ensures StagesTracked(Run(load, Initial(load, file), labels))
    decreases |labels|
  {
    if labels != [] {
      var n := |labels| - 1;
      EveryRunTracksStages(load, file, labels[..n]);
      StagesNext(load, Run(load, Initial(load, file), labels[..n]), labels[n]);
    }
  }

  lemma {:induction false} LastLoadedSince(trace: seq<Event>, l: nat, n: nat)
    requires l < n <= |trace| && trace[l].Loaded? && forall i | l < i < n :: !trace[i].Loaded?
    ensures LastLoaded(trace[..n]) == Some(trace[l].config.settings)
    decreases n
  {
    assert trace[..n] == trace[..n - 1] + [trace[n - 1]];
    EffectiveOneMore(trace[..n - 1], trace[n - 1]);
    if l < n - 1 { LastLoadedSince(trace, l, n - 1); }
  }

  // ---------- What follows ----------

  lemma {:induction false} InForceSince(trace: seq<Event>, a: nat, j: nat)
    requires a < j <= |trace| && trace[a].Applied? && forall k | a < k < j :: !trace[k].Applied?
    ensures InForce(trace[..j]) ==
      match LastLoaded(trace[..a])
      case Some(settings) => Some(Override(settings, LastNotice(trace[..a])))
      case None => None
    decreases j
  {
    assert trace[..j][..j - 1] == trace[..j - 1];
    if a < j - 1 { InForceSince(trace, a, j - 1); }
  }

  lemma SettingsOfStartup(trace: seq<Event>, a: nat, j: nat)
    requires a < j < |trace| && trace[a].Applied? && trace[j].StartupCalled?
    requires forall k | a < k < j :: !trace[k].Applied?
    requires StartupsUseEffective(trace) && Reloaded(trace[..a])
    ensures exists f: nat, l: nat ::
      && ReloadedAt(trace[..a], f, l)
      && LastLoaded(trace[..a]) == Some(trace[l].config.settings)
      && trace[j].settings == Override(trace[l].config.settings, LastNotice(trace[..a]))
  {
    InForceSince(trace, a, j);
    assert Effective(trace[..j]) == Some(trace[j].settings);
    assert trace[..j][a].Applied?;
    var f: nat, l: nat :| ReloadedAt(trace[..a], f, l);
    assert trace[l] == trace[..a][l];
    assert forall i | l < i < a :: trace[..a][i] == trace[i] && !IsRestartStage(trace[i]);
    LastLoadedSince(trace, l, a);
  }

  /**
   A startup after a restart uses the settings of the one file loaded between the decision to
   restart and their application, with the last scope notified since the previous application,
   if that is not empty. Whatever was notified before does not count any more: an override lasts
   for one restart.
   */
  lemma StartupAfterRestart(load: Loader, file: ConfFile, labels: seq<Label>, a: nat, j: nat)
    requires var trace := Run(load, Initial(load, file), labels).trace;
      && a < j < |trace| && trace[a].Applied? && trace[j].StartupCalled?
      && forall k | a < k < j :: !trace[k].Applied?
    ensures var trace := Run(load, Initial(load, file), labels).trace;
      exists f: nat, l: nat ::
        && ReloadedAt(trace[..a], f, l)
        && LastLoaded(trace[..a]) == Some(trace[l].config.settings)
        && trace[j].settings == Override(trace[l].config.settings, LastNotice(trace[..a]))
  {
    EveryRunTracksScope(load, file, labels);
    EveryRunTracksStages(load, file, labels);
    SettingsOfStartup(Run(load, Initial(load, file), labels).trace, a, j);
  }

  /** The first startup ignores notified scopes altogether. */
  lemma FirstStartup(load: Loader, file: ConfFile, labels: seq<Label>, j: nat)
    requires var trace := Run(load, Initial(load, file), labels).trace;
      j < |trace| && trace[j].StartupCalled? && forall k | 0 <= k < j :: !trace[k].Applied?
    ensures var trace := Run(load, Initial(load, file), labels).trace;
      Some(trace[j].settings) == LastLoaded(trace[..j])
  {
    EveryRunTracksScope(load, file, labels);
    var trace := Run(load, Initial(load, file), labels).trace;
    assert Effective(trace[..j]) == Some(trace[j].settings);
  }

  // ---------- A scope that arrives inside the restart window ----------

  ghost predicate NobodyAsks(labels: seq<Label>) {
    forall l | l in labels :: !l.Request? && !l.ScopeChange?
  }

  const APPLICATIONS: Event -> bool := (e: Event) => e.Applied?

  ghost predicate NoneSince(f: Event -> bool, trace: seq<Event>, from: nat) {
    forall i | from <= i < |trace| :: !f(trace[i])
  }

  lemma NoneSinceBefore(f: Event -> bool, trace: seq<Event>, e: Option<Event>, from: nat)
    requires NoneSince(f, Record(trace, e), from)
    ensures NoneSince(f, trace, from)
    ensures e.Some? && from <= |trace| ==> !f(e.value)
  {
    var trace' := Record(trace, e);
    assert forall i | 0 <= i < |trace| :: trace'[i] == trace[i];
    assert e.Some? ==> trace'[|trace|] == e.value;
  }

  /** From the arrival of a scope to its application, as long as nobody asks for anything more. */
  ghost predicate NoticeWaits(s: State, scope: string, arrivedInWindow: bool) {
    && s.newScope == scope
    && if arrivedInWindow then InRestartWindow(s.pc) && s.restartRequested
       else InRestartWindow(s.pc) ==> !s.restartRequested
  }

  lemma NoticeStillWaits(load: Loader, s: State, l: Label, scope: string, arrivedInWindow: bool)
    requires NoticeWaits(s, scope, arrivedInWindow) && !l.Request? && !l.ScopeChange?
    requires Emitted(load, s, l) != Some(Applied)
    ensures NoticeWaits(Move(load, s, l), scope, arrivedInWindow)
  {
    match l
    case Shell(c) => match s.pc { case CheckingRestart => case Applying => case _ => }
    case _ =>
  }

  lemma {:induction false} NoticeWaitsOn(load: Loader, s: State, scope: string, later: seq<Label>)
    requires scope != "" && NobodyAsks(later)
    requires var noticed := Next(load, s, ScopeChange(scope));
      NoneSince(APPLICATIONS, Run(load, noticed, later).trace, |noticed.trace|)
    ensures var noticed := Next(load, s, ScopeChange(scope)); var end := Run(load, noticed, later);
      |noticed.trace| <= |end.trace| && NoticeWaits(end, scope, InRestartWindow(s.pc))
    decreases |later|
  {
    if later != [] {
      var n := |later| - 1;
      var noticed := Next(load, s, ScopeChange(scope));
      var before := Run(load, noticed, later[..n]);
      NoneSinceBefore(APPLICATIONS, before.trace, Emitted(load, before, later[n]), |noticed.trace|);
      NoticeWaitsOn(load, s, scope, later[..n]);
      NoticeStillWaits(load, before, later[n], scope, InRestartWindow(s.pc));
    }
  }

  /**
   A notified scope is in force from the next application on. If nobody asks for anything
   meanwhile, the restart that its own notification requested is then still to come exactly
   when the notification arrived between the decision to restart and that application.
   */
  lemma OwnRestartIsStillToComeExactlyWhen(load: Loader, s: State, scope: string, later: seq<Label>, c: Choice)
    requires scope != "" && NobodyAsks(later)
    requires var noticed := Next(load, s, ScopeChange(scope)); var end := Run(load, noticed, later);
      NoneSince(APPLICATIONS, end.trace, |noticed.trace|) && end.pc == Applying
    ensures var applied := Next(load, Run(load, Next(load, s, ScopeChange(scope)), later), Shell(c));
      && applied.config.settings.scope == scope && applied.newScope == ""
      && (applied.restartRequested <==> InRestartWindow(s.pc))
  {
    NoticeWaitsOn(load, s, scope, later);
  }

  lemma UnaskedMove(load: Loader, s: State, l: Label)
    requires !s.restartRequested && !InRestartWindow(s.pc) && !l.Request? && !l.ScopeChange?
    ensures var s' := Move(load, s, l);
      !s'.restartRequested && !InRestartWindow(s'.pc) && s'.config.settings == s.config.settings
  {
    match l
    case Shell(c) => match s.pc { case StartingUp => case _ => }
    case _ =>
  }

  /** With no restart to come, the settings in force stay until somebody asks for one. */
  lemma {:induction false} SettingsStayUntilAsked(load: Loader, s: State, later: seq<Label>)
    requires !s.restartRequested && !InRestartWindow(s.pc) && NobodyAsks(later)
    ensures var end := Run(load, s, later);
      !end.restartRequested && !InRestartWindow(end.pc) && end.config.settings == s.config.settings
    decreases |later|
  {
    if later != [] {
      var n := |later| - 1;
      SettingsStayUntilAsked(load, s, later[..n]);
      UnaskedMove(load, Run(load, s, later[..n]), later[n]);
    }
  }

  lemma FlagMove(load: Loader, s: State, l: Label)
    requires s.restartRequested
    ensures Move(load, s, l).restartRequested || Emitted(load, s, l) == Some(Fired(s.now))
  {
    match l
    case Shell(c) => match s.pc { case Applying => case _ => }
    case _ =>
  }

  /** With one to come, the flag stays up until the shell fires, whatever else happens. */
  lemma {:induction false} FlagStaysUntilFired(load: Loader, s: State, later: seq<Label>)
    requires s.restartRequested
    requires NoneSince(FIRINGS, Run(load, s, later).trace, |s.trace|)
    ensures Run(load, s, later).restartRequested && |s.trace| <= |Run(load, s, later).trace|
    decreases |later|
  {
    if later != [] {
      var n := |later| - 1;
      var before := Run(load, s, later[..n]);
      NoneSinceBefore(FIRINGS, before.trace, Emitted(load, before, later[n]), |s.trace|);
      FlagStaysUntilFired(load, s, later[..n]);
      FlagMove(load, before, later[n]);
    }
  }

  /** The broker comes up, a restart is decided, and a scope arrives before the broker is shut down. */
  function NoticeInWindow(c: Choice, scope: string): seq<Label> {
    UpAndThen(c, Request(0)) + Steps(c, 1) + [ScopeChange(scope)]
  }

  lemma NoticeInWindowAt(load: Loader, file: ConfFile, c: Choice, scope: string)
    requires AllGoesWell(load, file, c)
    ensures Run(load, Initial(load, file), NoticeInWindow(c, scope))
      == State(StoppingForRestart, false, load(file), true, true, Idle, scope, false, 0,
               UpTrace(load(file)) + [Requested(0, 0), Fired(0), ScopeNotified(0, scope)])
  {
    var s := Initial(load, file);
    UpAndThenAt(load, file, c, Request(0));
    var asked := Run(load, s, UpAndThen(c, Request(0)));
    Fire(load, asked, c);
    UndisturbedIsARun(load, asked, c, 1);
    RunConcat(load, s, UpAndThen(c, Request(0)), Steps(c, 1));
    RunOneMore(load, s, UpAndThen(c, Request(0)) + Steps(c, 1), ScopeChange(scope));
    assert UpTrace(load(file)) + [Requested(0, 0)] + [Fired(0)] + [ScopeNotified(0, scope)]
        == UpTrace(load(file)) + [Requested(0, 0), Fired(0), ScopeNotified(0, scope)];
  }

  /**
   So it happens, from the very start: the broker notifies a scope after the decision to restart
   it, the scope is used once, and the restart that its own notification requested brings back
   the scope of the file.
   */
  lemma WindowOverrideIsUndoneByItsOwnRestart(load: Loader, file: ConfFile, c: Choice, scope: string)
    requires AllGoesWell(load, file, c) && scope != ""
    ensures Run(load, Initial(load, file), NoticeInWindow(c, scope)).brokerRunning
    ensures var reloaded := load(c.file);
      Run(load, Initial(load, file), NoticeInWindow(c, scope) + Steps(c, 14)).trace == UpTrace(load(file))
        + [Requested(0, 0), Fired(0), ScopeNotified(0, scope)]
        + [ShutdownCalled, Loaded(reloaded)]
        + [Applied, StartupCalled(reloaded.settings.(scope := scope), true)]
        + [Fired(0), ShutdownCalled, Loaded(reloaded)]
        + [Applied, StartupCalled(reloaded.settings, true)]
  {
    NoticeInWindowAt(load, file, c, scope);
    var s := Run(load, Initial(load, file), NoticeInWindow(c, scope));
    StopAndLoad(load, s, c);
    OverrideIsUndone(load, Undisturbed(load, s, c, 2), c);
    UndisturbedTwice(load, s, c, 2, 12);
    UndisturbedIsARun(load, s, c, 14);
    RunConcat(load, Initial(load, file), NoticeInWindow(c, scope), Steps(c, 14));
  }

  /** The second half of that run, from the application of settings on. */
  lemma OverrideIsUndone(load: Loader, s: State, c: Choice)
    requires s.pc == Applying && s.config.enableBroker && s.newScope != ""
    requires TimeToRestart(s, c) && !s.shutdownRequested
    requires c.startupOk && load(c.file).enableBroker
    ensures Undisturbed(load, s, c, 12).trace == s.trace
      + [Applied, StartupCalled(s.config.settings.(scope := s.newScope), true)]
      + [Fired(s.now), ShutdownCalled, Loaded(load(c.file))]
      + [Applied, StartupCalled(load(c.file).settings, true)]
  {
    ApplyAndStart(load, s, c);
    var started := Undisturbed(load, s, c, 4);
    LoopOn(load, started, c);
    var polling := Undisturbed(load, started, c, 1);
    FireAndLoad(load, polling, c);
    var loaded := Undisturbed(load, polling, c, 3);
    ApplyAndStart(load, loaded, c);
    UndisturbedTwice(load, s, c, 4, 8);
    UndisturbedTwice(load, started, c, 1, 7);
    UndisturbedTwice(load, polling, c, 3, 4);
  }
}
