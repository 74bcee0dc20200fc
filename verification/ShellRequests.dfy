/**
 Restart requests, their cooldowns and the firings that answer them, over every run: when
 exactly the shell restarts, how far apart restarts are, and that no request is lost.
 */
module ShellRequests {
  import opened ConfigSpec
  import opened ShellMachine

  predicate IsTimed(e: Event) {
    e.IsRequest() || e.Fired?
  }

  const REQUESTS_AND_FIRINGS: Event -> bool := (e: Event) => IsTimed(e)

  /** The last of all requests and firings is a request. */
  function Pending(trace: seq<Event>): bool {
    var both := Filter(REQUESTS_AND_FIRINGS, trace);
    both != [] && both[|both| - 1].IsRequest()
  }

  predicate HasCooldown(e: Event) {
    e.IsRequest() && 0 < e.Cooldown()
  }

  function CooldownEnd(e: Event): nat
    requires e.IsRequest()
  {
    e.at + e.Cooldown()
  }

  /** Every cooldown ever requested is over. */
  ghost predicate AllCooldownsPast(trace: seq<Event>, now: nat, atDeadline: bool) {
    forall i | 0 <= i < |trace| && HasCooldown(trace[i]) ::
      CooldownEnd(trace[i]) < now || (CooldownEnd(trace[i]) == now && atDeadline)
  }

  // ---------- The invariant ----------

  /** The timer holds the latest of all cooldown ends. */
  ghost predicate TimerTracks(timer: Timer, trace: seq<Event>) {
    match timer
    case Idle => forall i | 0 <= i < |trace| :: !HasCooldown(trace[i])
    case Armed(deadline) =>
      && (forall i | 0 <= i < |trace| && HasCooldown(trace[i]) :: CooldownEnd(trace[i]) <= deadline)
      && (exists i :: 0 <= i < |trace| && HasCooldown(trace[i]) && CooldownEnd(trace[i]) == deadline)
  }

  ghost predicate TimesInOrder(trace: seq<Event>, now: nat) {
    && (forall i | 0 <= i < |trace| && IsTimed(trace[i]) :: trace[i].at <= now)
    && (forall i, j | 0 <= i < j < |trace| && IsTimed(trace[i]) && IsTimed(trace[j]) :: trace[i].at <= trace[j].at)
  }

  /** No firing ever came before the end of a cooldown requested earlier. */
  ghost predicate FiringsWait(trace: seq<Event>) {
    forall i, j | 0 <= i < j < |trace| && trace[i].IsRequest() && trace[j].Fired? ::
      CooldownEnd(trace[i]) <= trace[j].at
  }

  ghost predicate TimesTracked(timer: Timer, trace: seq<Event>, now: nat) {
    TimerTracks(timer, trace) && TimesInOrder(trace, now) && FiringsWait(trace)
  }

  ghost predicate RequestsTracked(s: State) {
    && TimesTracked(s.timer, s.trace, s.now)
    && s.restartRequested == Pending(s.trace)
    && |Filter(FIRINGS, s.trace)| + (if s.restartRequested then 1 else 0) <= |Filter(REQUESTS, s.trace)|
    && (s.newScope != "" ==> s.restartRequested || InRestartWindow(s.pc))
  }

  // ---------- Its preservation ----------

  lemma TimerTracksRequest(timer: Timer, trace: seq<Event>, now: nat, e: Event)
    requires TimerTracks(timer, trace) && e.IsRequest() && e.at == now
    ensures var timer' := if e.Cooldown() > timer.Remaining(now) then Start(now, e.Cooldown()) else timer;
      TimerTracks(timer', trace + [e])
  {
    var timer' := if e.Cooldown() > timer.Remaining(now) then Start(now, e.Cooldown()) else timer;
    var trace' := trace + [e];
    assert forall i | 0 <= i < |trace| :: trace'[i] == trace[i];
    assert trace'[|trace|] == e;
    if timer' == timer && timer.Armed? {
      var i :| 0 <= i < |trace| && HasCooldown(trace[i]) && CooldownEnd(trace[i]) == timer.deadline;
      assert HasCooldown(trace'[i]) && CooldownEnd(trace'[i]) == timer.deadline;
    } else if timer' != timer {
      assert HasCooldown(trace'[|trace|]) && CooldownEnd(trace'[|trace|]) == timer'.deadline;
    }
  }

  lemma TimerTracksOther(timer: Timer, trace: seq<Event>, e: Event)
    requires TimerTracks(timer, trace) && !e.IsRequest()
    ensures TimerTracks(timer, trace + [e])
  {
    var trace' := trace + [e];
    assert forall i | 0 <= i < |trace| :: trace'[i] == trace[i];
    if timer.Armed? {
      var i :| 0 <= i < |trace| && HasCooldown(trace[i]) && CooldownEnd(trace[i]) == timer.deadline;
      assert HasCooldown(trace'[i]) && CooldownEnd(trace'[i]) == timer.deadline;
    }
  }

  /** An expired timer means that every cooldown so far is over, and the converse. */
  lemma ExpiredMeansAllPast(timer: Timer, trace: seq<Event>, now: nat, atDeadline: bool)
    requires TimerTracks(timer, trace)
    ensures timer.IsExpired(now, atDeadline) <==> AllCooldownsPast(trace, now, atDeadline)
  {
  }

  lemma FiringWaits(s: State, c: Choice)
    requires RequestsTracked(s) && TimeToRestart(s, c)
    ensures FiringsWait(s.trace + [Fired(s.now)])
  {
    ExpiredMeansAllPast(s.timer, s.trace, s.now, c.atDeadline);
    forall i | 0 <= i < |s.trace| && s.trace[i].IsRequest() ensures CooldownEnd(s.trace[i]) <= s.now {
      assert IsTimed(s.trace[i]);
      assert HasCooldown(s.trace[i]) ==> CooldownEnd(s.trace[i]) <= s.now;
    }
  }

  lemma FiringsStillWait(trace: seq<Event>, e: Event)
    requires FiringsWait(trace) && !e.Fired?
    ensures FiringsWait(trace + [e])
  {
  }

  lemma TimesStayInOrder(trace: seq<Event>, now: nat, e: Event)
    requires TimesInOrder(trace, now) && (IsTimed(e) ==> e.at == now)
    ensures TimesInOrder(trace + [e], now)
  {
  }

  lemma CountsOneMore(trace: seq<Event>, e: Event)
    ensures Pending(trace + [e]) == if IsTimed(e) then e.IsRequest() else Pending(trace)
    ensures |Filter(FIRINGS, trace + [e])| == |Filter(FIRINGS, trace)| + if e.Fired? then 1 else 0
    ensures |Filter(REQUESTS, trace + [e])| == |Filter(REQUESTS, trace)| + if e.IsRequest() then 1 else 0
  {
    FilterOneMore(REQUESTS_AND_FIRINGS, trace, e);
    FilterOneMore(FIRINGS, trace, e);
    FilterOneMore(REQUESTS, trace, e);
  }

  lemma RequestKeepsTimes(timer: Timer, trace: seq<Event>, now: nat, e: Event)
    requires TimesTracked(timer, trace, now) && e.IsRequest() && e.at == now
    ensures var timer' := if e.Cooldown() > timer.Remaining(now) then Start(now, e.Cooldown()) else timer;
      TimesTracked(timer', trace + [e], now)
  {
    TimerTracksRequest(timer, trace, now, e);
    TimesStayInOrder(trace, now, e);
    FiringsStillWait(trace, e);
  }

  lemma RequestTracked(load: Loader, s: State, l: Label)
    requires RequestsTracked(s) && (l.Request? || l.ScopeChange?)
    ensures RequestsTracked(Next(load, s, l))
  {
    var e := Emitted(load, s, l).value;
    RequestKeepsTimes(s.timer, s.trace, s.now, e);
    CountsOneMore(s.trace, e);
  }

  lemma FiringTracked(load: Loader, s: State, c: Choice)
    requires RequestsTracked(s) && s.pc == CheckingRestart && TimeToRestart(s, c)
    ensures RequestsTracked(Next(load, s, Shell(c)))
  {
    var e := Fired(s.now);
    TimerTracksOther(s.timer, s.trace, e);
    TimesStayInOrder(s.trace, s.now, e);
    CountsOneMore(s.trace, e);
    FiringWaits(s, c);
  }

  predicate TouchesRequests(s: State, l: Label) {
    match l
    case Request(_) | ScopeChange(_) => true
    case Shell(c) => s.pc == CheckingRestart && TimeToRestart(s, c)
    case _ => false
  }

  lemma OtherMove(load: Loader, s: State, l: Label)
    requires !TouchesRequests(s, l)
    ensures var s' := Move(load, s, l);
      && s'.timer == s.timer && s'.restartRequested == s.restartRequested && s.now <= s'.now
      && (s'.newScope != "" ==> s'.newScope == s.newScope && (InRestartWindow(s.pc) ==> InRestartWindow(s'.pc)))
  {
    match l
    case Shell(c) =>
      match s.pc {
        case Applying => assert Move(load, s, l).newScope == "";
        case _ =>
      }
    case _ =>
  }

  lemma OtherEmits(load: Loader, s: State, l: Label)
    requires !TouchesRequests(s, l)
    ensures match Emitted(load, s, l) case Some(e) => !IsTimed(e) case None => true
  {
  }

  lemma OtherTracked(load: Loader, s: State, l: Label)
    requires RequestsTracked(s) && !TouchesRequests(s, l)
    ensures RequestsTracked(Next(load, s, l))
  {
    OtherMove(load, s, l);
    OtherEmits(load, s, l);
    var now' := Next(load, s, l).now;
    assert TimesInOrder(s.trace, now');
    match Emitted(load, s, l)
    case None =>
    case Some(e) =>
      TimerTracksOther(s.timer, s.trace, e);
      TimesStayInOrder(s.trace, now', e);
      CountsOneMore(s.trace, e);
      FiringsStillWait(s.trace, e);
  }

  lemma TrackedNext(load: Loader, s: State, l: Label)
    requires RequestsTracked(s)
    ensures RequestsTracked(Next(load, s, l))
  {
    if l.Request? || l.ScopeChange? {
      RequestTracked(load, s, l);
    } else if TouchesRequests(s, l) {
      FiringTracked(load, s, l.choice);
    } else {
      OtherTracked(load, s, l);
    }
  }

  lemma {:induction false} EveryRunIsTracked(load: Loader, file: ConfFile, labels: seq<Label>)
    ensures RequestsTracked(Run(load, Initial(load, file), labels))
    decreases |labels|
  {
    if labels == [] {
      assert [] + [Loaded(load(file))] == [Loaded(load(file))];
      CountsOneMore([], Loaded(load(file)));
    } else {
      var n := |labels| - 1;
      EveryRunIsTracked(load, file, labels[..n]);
      TrackedNext(load, Run(load, Initial(load, file), labels[..n]), labels[n]);
    }
  }

  // ---------- What follows ----------

  /**
   When the shell polls, it restarts exactly when some request came after the last restart and
   the cooldown of every request so far is over. A request without cooldown shortens nothing.
   */
  lemma RestartsExactlyWhen(load: Loader, file: ConfFile, labels: seq<Label>, c: Choice)
    requires Run(load, Initial(load, file), labels).pc == CheckingRestart
    ensures var s := Run(load, Initial(load, file), labels);
      Next(load, s, Shell(c)).pc == StoppingForRestart
      <==> Pending(s.trace) && AllCooldownsPast(s.trace, s.now, c.atDeadline)
  {
    var s := Run(load, Initial(load, file), labels);
    EveryRunIsTracked(load, file, labels);
    ExpiredMeansAllPast(s.timer, s.trace, s.now, c.atDeadline);
  }

  /** Two restarts are at least as far apart as any cooldown requested between them. */
  lemma RestartsAreSpaced(load: Loader, file: ConfFile, labels: seq<Label>, i: nat, k: nat, j: nat)
    requires var trace := Run(load, Initial(load, file), labels).trace;
      i < k < j < |trace| && trace[i].Fired? && trace[k].IsRequest() && trace[j].Fired?
    ensures var trace := Run(load, Initial(load, file), labels).trace;
      trace[i].at + trace[k].Cooldown() <= trace[j].at
  {
    EveryRunIsTracked(load, file, labels);
    var trace := Run(load, Initial(load, file), labels).trace;
    assert IsTimed(trace[i]) && IsTimed(trace[k]);
  }

  /**
   Nothing is lost or stranded: a scope waiting to be applied has a restart on its way, a
   request not yet answered keeps the flag set, and restarts never outnumber requests.
   */
  lemma RequestsAreNeverLost(load: Loader, file: ConfFile, labels: seq<Label>)
    ensures var s := Run(load, Initial(load, file), labels);
      && (s.newScope != "" ==> s.restartRequested || InRestartWindow(s.pc))
      && (s.restartRequested <==> Pending(s.trace))
      && |Filter(FIRINGS, s.trace)| <= |Filter(REQUESTS, s.trace)|
  {
    EveryRunIsTracked(load, file, labels);
  }
}
