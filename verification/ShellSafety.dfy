/**
 Every run of the broker shell keeps the broker library's rules: whatever the interleaving of
 requests, the pattern of failing startups and the content of the files that are loaded.
 */
module ShellSafety {
  import opened Wrappers
  import opened ConfigSpec
  import opened ShellMachine

  const LIBRARY_CALLS: Event -> bool :=
    (e: Event) => e.LibraryUp? || e.LibraryDown? || e.StartupCalled? || e.ShutdownCalled?

  const STARTS_AND_STOPS: Event -> bool :=
    (e: Event) => (e.StartupCalled? && e.ok) || e.ShutdownCalled?

  // ---------- The invariant ----------

  /**
   The running broker and the `enable_broker` setting agree while no startup is due. In mid-loop
   they part: from the moment a restart has stopped the broker until the next startup is over.
   */
  predicate BrokerMatches(s: State) {
    match s.pc
    case LoopTop | Sleeping => s.brokerRunning == (!s.startupBroker && s.config.enableBroker)
    case CheckingShutdown | CheckingRestart | StoppingForRestart | FinalStop =>
      !s.startupBroker && s.brokerRunning == s.config.enableBroker
    case Initializing => s.startupBroker && !s.brokerRunning
    case StartingUp | Loading | Applying => !s.startupBroker && !s.brokerRunning
    case Deinitializing | Finished(_) => !s.brokerRunning
  }

  /** Successful startups and shutdowns take turns, a startup first. */
  ghost predicate StrictlyAlternates(calls: seq<Event>) {
    forall i | 0 <= i < |calls| :: calls[i].StartupCalled? <==> i % 2 == 0
  }

  /** `Init` comes first and once, `Deinit` last; everything else lies between. */
  ghost predicate Bracketed(calls: seq<Event>) {
    && (forall i | 0 <= i < |calls| :: calls[i].LibraryUp? <==> i == 0)
    && (forall i | 0 <= i < |calls| && calls[i].LibraryDown? :: i == |calls| - 1)
  }

  datatype Phase = BeforeInit | Inside | AfterDeinit

  function PhaseOf(pc: PC): Phase {
    match pc
    case Initializing => BeforeInit
    case Finished(result) => if result then AfterDeinit else BeforeInit
    case _ => Inside
  }

  ghost predicate CallsMatch(trace: seq<Event>, phase: Phase, running: bool) {
    var calls, turns := Filter(LIBRARY_CALLS, trace), Filter(STARTS_AND_STOPS, trace);
    && Bracketed(calls)
    && StrictlyAlternates(turns)
    && (running <==> |turns| % 2 == 1)
    && (phase == BeforeInit <==> calls == [])
    && (phase == AfterDeinit <==> calls != [] && calls[|calls| - 1].LibraryDown?)
  }

  ghost predicate SafeState(s: State) {
    BrokerMatches(s) && CallsMatch(s.trace, PhaseOf(s.pc), s.brokerRunning)
  }

  lemma BrokerMatchesNext(load: Loader, s: State, l: Label)
    requires BrokerMatches(s)
    ensures BrokerMatches(Next(load, s, l))
  {
  }

  /** Each call is made in the right phase and with the broker in the right state. */
  ghost predicate CallFits(e: Option<Event>, phase: Phase, running: bool, phase': Phase, running': bool) {
    match e
    case Some(LibraryUp) => phase == BeforeInit && phase' == Inside && !running && !running'
    case Some(LibraryDown) => phase == Inside && phase' == AfterDeinit && !running && !running'
    case Some(StartupCalled(_, ok)) => phase == phase' == Inside && !running && running' == ok
    case Some(ShutdownCalled) => phase == phase' == Inside && running && !running'
    case _ => phase == phase' && running == running'
  }

  lemma StepMakesFittingCall(load: Loader, s: State, l: Label)
    requires BrokerMatches(s)
    ensures var s' := Next(load, s, l);
      CallFits(Emitted(load, s, l), PhaseOf(s.pc), s.brokerRunning, PhaseOf(s'.pc), s'.brokerRunning)
  {
  }

  lemma FittingCallKeepsOrder(trace: seq<Event>, e: Event, phase: Phase, running: bool, phase': Phase, running': bool)
    requires CallsMatch(trace, phase, running)
    requires CallFits(Some(e), phase, running, phase', running')
    ensures CallsMatch(trace + [e], phase', running')
  {
    FilterOneMore(LIBRARY_CALLS, trace, e);
    FilterOneMore(STARTS_AND_STOPS, trace, e);
  }

  lemma SafeNext(load: Loader, s: State, l: Label)
    requires SafeState(s)
    ensures SafeState(Next(load, s, l))
  {
    BrokerMatchesNext(load, s, l);
    StepMakesFittingCall(load, s, l);
    var s' := Next(load, s, l);
    match Emitted(load, s, l)
    case None =>
    case Some(e) =>
      FittingCallKeepsOrder(s.trace, e, PhaseOf(s.pc), s.brokerRunning, PhaseOf(s'.pc), s'.brokerRunning);
  }

  /** In every reachable state the calls alternate and are bracketed, and on exit the broker is stopped. */
  lemma {:induction false} EveryRunIsSafe(load: Loader, file: ConfFile, labels: seq<Label>)
    ensures var end := Run(load, Initial(load, file), labels);
      SafeState(end) && (end.pc.Finished? ==> !end.brokerRunning)
    decreases |labels|
  {
    if labels == [] {
      FilterOneMore(LIBRARY_CALLS, [], Loaded(load(file)));
      FilterOneMore(STARTS_AND_STOPS, [], Loaded(load(file)));
      assert [] + [Loaded(load(file))] == [Loaded(load(file))];
    } else {
      var n := |labels| - 1;
      EveryRunIsSafe(load, file, labels[..n]);
      SafeNext(load, Run(load, Initial(load, file), labels[..n]), labels[n]);
    }
  }
}
