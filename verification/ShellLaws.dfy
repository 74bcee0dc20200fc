/**
 The shell's behaviour said in plain comparisons and lists of events: when a poll restarts, when
 the loop is left, which configuration is in force, and what the clock shows.
 */
module ShellLaws {
  import opened Wrappers
  import opened ConfigSpec
  import opened ShellMachine
  import opened ShellRequests

  // ---------- When a poll restarts the broker ----------

  /** A request that no restart has answered yet. */
  ghost predicate Unanswered(trace: seq<Event>, i: nat) {
    && i < |trace| && (trace[i].Requested? || trace[i].ScopeNotified?)
    && forall k | i < k < |trace| :: !trace[k].Fired?
  }

  lemma {:induction false} PendingMeansUnanswered(trace: seq<Event>)
    ensures Pending(trace) <==> exists i: nat :: Unanswered(trace, i)
    decreases |trace|
  {
    if trace == [] {
      assert Filter(REQUESTS_AND_FIRINGS, trace) == [];
    } else {
      var n := |trace| - 1;
      var earlier, last := trace[..n], trace[n];
      assert trace == earlier + [last];
      CountsOneMore(earlier, last);
      PendingMeansUnanswered(earlier);
      if last.IsRequest() {
        assert Unanswered(trace, n);
      } else if !last.Fired? {
        forall i: nat ensures Unanswered(earlier, i) <==> Unanswered(trace, i) {
          assert i < n ==> trace[i] == earlier[i];
          assert forall k | i < k < n :: trace[k] == earlier[k];
        }
      }
    }
  }

  /** The cooldown asked for in `trace[i]` ends before `now`, or right then if that counts as over. */
  predicate CooldownOver(e: Event, now: nat, atDeadline: bool) {
    e.Requested? && 0 < e.cooldown ==> e.at + e.cooldown < now || (atDeadline && e.at + e.cooldown == now)
  }

  lemma PastMeansOver(trace: seq<Event>, now: nat, atDeadline: bool)
    ensures AllCooldownsPast(trace, now, atDeadline)
      <==> forall i | 0 <= i < |trace| :: CooldownOver(trace[i], now, atDeadline)
  {
    if AllCooldownsPast(trace, now, atDeadline) {
      forall i | 0 <= i < |trace| ensures CooldownOver(trace[i], now, atDeadline) {
        if trace[i].Requested? && 0 < trace[i].cooldown { assert HasCooldown(trace[i]); }
      }
    } else {
      var i :| 0 <= i < |trace| && HasCooldown(trace[i])
        && !(CooldownEnd(trace[i]) < now || (CooldownEnd(trace[i]) == now && atDeadline));
      assert !CooldownOver(trace[i], now, atDeadline);
    }
  }

  /**
   A poll restarts the broker exactly when a request is unanswered and every cooldown ever asked
   for is over; otherwise the shell sleeps.
   */
  lemma PollIsOnTime(load: Loader, file: ConfFile, labels: seq<Label>, c: Choice)
    requires Run(load, Initial(load, file), labels).pc == CheckingRestart
    ensures var s := Run(load, Initial(load, file), labels);
      Next(load, s, Shell(c)).pc ==
        if (exists i: nat :: Unanswered(s.trace, i))
           && forall i | 0 <= i < |s.trace| :: CooldownOver(s.trace[i], s.now, c.atDeadline)
        then StoppingForRestart else Sleeping
  {
    var s := Run(load, Initial(load, file), labels);
    RestartsExactlyWhen(load, file, labels, c);
    PendingMeansUnanswered(s.trace);
    PastMeansOver(s.trace, s.now, c.atDeadline);
  }

  /** The first poll after the last deadline restarts; one before any deadline does not. */
  lemma PollsAroundTheDeadline(load: Loader, file: ConfFile, labels: seq<Label>, c: Choice, i: nat)
    requires Run(load, Initial(load, file), labels).pc == CheckingRestart
    requires Unanswered(Run(load, Initial(load, file), labels).trace, i)
    ensures var s := Run(load, Initial(load, file), labels);
      && ((forall k | 0 <= k < |s.trace| && s.trace[k].Requested? :: s.trace[k].at + s.trace[k].cooldown < s.now)
          ==> Next(load, s, Shell(c)).pc == StoppingForRestart)
      && ((exists k :: 0 <= k < |s.trace| && s.trace[k].Requested? && s.now < s.trace[k].at + s.trace[k].cooldown)
          ==> Next(load, s, Shell(c)).pc == Sleeping)
  {
    PollIsOnTime(load, file, labels, c);
    var s := Run(load, Initial(load, file), labels);
    EveryRunIsTracked(load, file, labels);
    if k :| 0 <= k < |s.trace| && s.trace[k].Requested? && s.now < s.trace[k].at + s.trace[k].cooldown {
      assert IsTimed(s.trace[k]);
      assert !CooldownOver(s.trace[k], s.now, c.atDeadline);
    }
  }

  // ---------- When the loop is left ----------

  ghost predicate Asked(trace: seq<Event>) {
    exists i :: 0 <= i < |trace| && trace[i] == ShutdownAsked
  }

  ghost predicate EndsWhenAsked(s: State) {
    && (s.shutdownRequested <==> Asked(s.trace))
    && (s.pc in {FinalStop, Deinitializing, Finished(true)} ==> s.shutdownRequested)
  }

  lemma AskedOneMore(trace: seq<Event>, e: Option<Event>)
    ensures Asked(Record(trace, e)) <==> Asked(trace) || e == Some(ShutdownAsked)
  {
    var trace' := Record(trace, e);
    assert forall i | 0 <= i < |trace| :: trace'[i] == trace[i];
    assert e.Some? ==> trace'[|trace|] == e.value;
  }

  lemma EndsWhenAskedNext(load: Loader, s: State, l: Label)
    requires EndsWhenAsked(s)
    ensures EndsWhenAsked(Next(load, s, l))
  {
    AskedOneMore(s.trace, Emitted(load, s, l));
    match l
    case Shell(c) => match s.pc { case Applying => case _ => }
    case _ =>
  }

  /** The loop is left for good only after `AsyncShutdown`: no restart, failure or reload ends it. */
  lemma {:induction false} LoopEndsOnlyWhenAsked(load: Loader, file: ConfFile, labels: seq<Label>)
    ensures EndsWhenAsked(Run(load, Initial(load, file), labels))
    decreases |labels|
  {
    if labels != [] {
      var n := |labels| - 1;
      LoopEndsOnlyWhenAsked(load, file, labels[..n]);
      EndsWhenAskedNext(load, Run(load, Initial(load, file), labels[..n]), labels[n]);
    }
  }

  // ---------- Which configuration is in force ----------

  /** Whether the broker is to run: as the file loaded last says, unless a startup has failed since. */
  function EnabledBy(trace: seq<Event>): bool {
    if trace == [] then false
    else
      match trace[|trace| - 1]
      case Loaded(config) => config.enableBroker
      case StartupCalled(_, ok) => ok && EnabledBy(trace[..|trace| - 1])
      case _ => EnabledBy(trace[..|trace| - 1])
  }

  /** The log mask of the file loaded last. */
  function MaskBy(trace: seq<Event>): int {
    if trace == [] then 0
    else
      match trace[|trace| - 1]
      case Loaded(config) => config.logMask
      case _ => MaskBy(trace[..|trace| - 1])
  }

  ghost predicate ConfigMoves(c: Config, e: Option<Event>, c': Config) {
    match e
    case Some(Loaded(config)) => c' == config
    case Some(StartupCalled(_, ok)) => c'.logMask == c.logMask && c'.enableBroker == (ok && c.enableBroker)
    case _ => c'.logMask == c.logMask && c'.enableBroker == c.enableBroker
  }

  lemma ConfigMove(load: Loader, s: State, l: Label)
    ensures ConfigMoves(s.config, Emitted(load, s, l), Move(load, s, l).config)
  {
    match l
    case Shell(c) => match s.pc { case StartingUp => case Applying => case _ => }
    case _ =>
  }

  ghost predicate ConfigTracked(c: Config, trace: seq<Event>) {
    c.enableBroker == EnabledBy(trace) && c.logMask == MaskBy(trace)
  }

  lemma ConfigOneMore(c: Config, trace: seq<Event>, e: Option<Event>, c': Config)
    requires ConfigTracked(c, trace) && ConfigMoves(c, e, c')
    ensures ConfigTracked(c', Record(trace, e))
  {
    if e.Some? { assert (trace + [e.value])[..|trace|] == trace; }
  }

  lemma {:induction false} ConfigFollowsTheFile(load: Loader, file: ConfFile, labels: seq<Label>)
    ensures var s := Run(load, Initial(load, file), labels); ConfigTracked(s.config, s.trace)
    decreases |labels|
  {
    if labels != [] {
      var n := |labels| - 1;
      ConfigFollowsTheFile(load, file, labels[..n]);
      var s := Run(load, Initial(load, file), labels[..n]);
      ConfigMove(load, s, labels[n]);
      ConfigOneMore(s.config, s.trace, Emitted(load, s, labels[n]), Move(load, s, labels[n]).config);
    }
  }

  // ---------- What others do to the shell ----------

  /** The milliseconds that pass in a run. */
  function TimePassed(labels: seq<Label>): nat {
    if labels == [] then 0
    else
      var last := labels[|labels| - 1];
      TimePassed(labels[..|labels| - 1]) + if last.Tick? then last.ms else 0
  }

  lemma ClockNext(load: Loader, s: State, l: Label)
    ensures Next(load, s, l).now == s.now + if l.Tick? then l.ms else 0
  {
    match l
    case Shell(c) => match s.pc { case Applying => case _ => }
    case _ =>
  }

  lemma {:induction false} ClockShowsTimePassed(load: Loader, s: State, labels: seq<Label>)
    ensures Run(load, s, labels).now == s.now + TimePassed(labels)
    decreases |labels|
  {
    if labels != [] {
      var n := |labels| - 1;
      ClockShowsTimePassed(load, s, labels[..n]);
      ClockNext(load, Run(load, s, labels[..n]), labels[n]);
    }
  }

  /** Each request is recorded as it was made, and nothing but a request is recorded as one. */
  lemma RequestsAreRecorded(load: Loader, s: State, l: Label)
    ensures var trace' := Next(load, s, l).trace;
      match l
      case Request(cooldown) => trace' == s.trace + [Requested(s.now, cooldown)]
      case ScopeChange(scope) => trace' == s.trace + [ScopeNotified(s.now, scope)]
      case AsyncShutdown => trace' == s.trace + [ShutdownAsked]
      case Tick(_) => trace' == s.trace
      case Shell(_) =>
        trace' == s.trace
        || exists e: Event :: trace' == s.trace + [e] && !e.Requested? && !e.ScopeNotified? && !e.ShutdownAsked?
  {
    match l
    case Shell(c) =>
      match Emitted(load, s, l) {
        case None =>
        case Some(e) =>
          assert Next(load, s, l).trace == s.trace + [e] && !e.Requested? && !e.ScopeNotified? && !e.ShutdownAsked?;
      }
    case _ =>
  }
}
