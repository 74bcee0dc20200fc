/**
 Log rotation: what shifting the backup files does to a directory, with any copy allowed to
 fail, and what a sequence of service sessions leaves behind. Slot 0 is the current log,
 slot i the file with suffix `.i`; `max` is the highest suffix that is ever written.
 */
module LogRotation {
  import opened Wrappers

  type Log = seq<string>
  type Files = map<nat, Log>

  /** How a copy ends: a failed one leaves the destination as it was or in any other state. */
  datatype CopyOutcome = Copied | Untouched | Garbled(left: Option<Log>)

  /** The outcome the file system has in store for the copy out of each slot. */
  type Faults = nat -> CopyOutcome

  function CopyUp(files: Files, slot: nat, outcome: CopyOutcome): Files
    requires slot in files
  {
    match outcome
    case Copied => files[slot + 1 := files[slot]]
    case Untouched => files
    case Garbled(Some(log)) => files[slot + 1 := log]
    case Garbled(None) => files - {slot + 1}
  }

  // ---------- What rotation is meant to do ----------

  /** Slots below `gap` are all in use, and `gap` itself is free unless it is `max`. */
  ghost predicate IsGap(files: Files, max: nat, gap: nat) {
    && gap <= max
    && (forall i: nat | i < gap :: i in files)
    && (gap < max ==> gap !in files)
  }

  lemma GapIsUnique(files: Files, max: nat, a: nat, b: nat)
    requires IsGap(files, max, a) && IsGap(files, max, b)
    ensures a == b
  {
  }

  /** The logs of slots `from` to `gap` - 1 moved up one slot each, the highest first. */
  function Shifted(files: Files, gap: nat, from: nat): (r: Files)
    requires forall i: nat | from <= i < gap :: i in files
    ensures files.Keys <= r.Keys
    decreases gap - from
  {
    if from >= gap then files else CopyUp(Shifted(files, gap, from + 1), from, Copied)
  }

  /** Slot by slot: the moved slots hold what was one below, all others what they held. */
  lemma {:induction false} ShiftedAt(files: Files, gap: nat, from: nat, i: nat)
    requires forall k: nat | from <= k < gap :: k in files
    ensures i in Shifted(files, gap, from) <==> i in files || from < i <= gap
    ensures i in Shifted(files, gap, from) ==>
      Shifted(files, gap, from)[i] == if from < i <= gap then files[i - 1] else files[i]
    decreases gap - from
  {
    if from < gap {
      ShiftedAt(files, gap, from + 1, i);
      ShiftedAt(files, gap, from + 1, from);
    }
  }

  /** The highest slot below `gap` whose copy fails; copying starts at the top. */
  function FirstFault(faults: Faults, gap: nat): (j: Option<nat>)
    ensures j.Some? ==> j.value < gap && faults(j.value) != Copied
    ensures forall i: nat | i < gap && (j.Some? ==> j.value < i) :: faults(i) == Copied
  {
    if gap == 0 then None
    else if faults(gap - 1) != Copied then Some(gap - 1)
    else FirstFault(faults, gap - 1)
  }

  /** The directory after rotating: complete, or stopped by the first failing copy. */
  function Rotated(files: Files, gap: nat, faults: Faults): Files
    requires forall i: nat | i < gap :: i in files
  {
    match FirstFault(faults, gap)
    case None => Shifted(files, gap, 0)
    case Some(j) => CopyUp(Shifted(files, gap, j + 1), j, faults(j))
  }

  /** Copying has come down to slot `n`, so far without a fault. */
  ghost predicate CopiedDownTo(files: Files, gap: nat, faults: Faults, n: nat, now: Files)
    requires forall i: nat | i < gap :: i in files
  {
    n <= gap && now == Shifted(files, gap, n) && FirstFault(faults, gap) == FirstFault(faults, n)
  }

  lemma CopyOneMore(files: Files, gap: nat, faults: Faults, n: nat, now: Files)
    requires forall i: nat | i < gap :: i in files
    requires n < gap && CopiedDownTo(files, gap, faults, n + 1, now)
    ensures n in now
    ensures faults(n) == Copied ==> CopiedDownTo(files, gap, faults, n, CopyUp(now, n, faults(n)))
    ensures faults(n) != Copied ==>
      FirstFault(faults, gap) == Some(n) && CopyUp(now, n, faults(n)) == Rotated(files, gap, faults)
  {
  }

  lemma CopiedAll(files: Files, gap: nat, faults: Faults, now: Files)
    requires forall i: nat | i < gap :: i in files
    requires CopiedDownTo(files, gap, faults, 0, now)
    ensures FirstFault(faults, gap) == None && now == Rotated(files, gap, faults)
  {
  }

  // ---------- Conservation ----------

  /**
   Wherever rotation stops, the logs above the failing slot are one slot up, those up to it
   are where they were, and all slots beyond the reach of rotation are unchanged. The only
   log that can disappear is the one in slot `max`, and only when no slot below is free.
   */
  lemma RotationConservesLogs(files: Files, max: nat, gap: nat, faults: Faults, i: nat)
    requires IsGap(files, max, gap) && i in files
    ensures var after := Rotated(files, gap, faults);
      var j := FirstFault(faults, gap);
      && (i < gap && (j.Some? ==> j.value < i) ==> i + 1 in after && after[i + 1] == files[i])
      && (j.Some? && i <= j.value ==> i in after && after[i] == files[i])
      && (gap < i ==> i in after && after[i] == files[i])
      && (i == gap ==> gap == max)
  {
    RotatedAt(files, gap, faults, i);
    RotatedAt(files, gap, faults, i + 1);
  }

  lemma CopyUpElsewhere(files: Files, slot: nat, outcome: CopyOutcome, i: nat)
    requires slot in files && i != slot + 1
    ensures i in CopyUp(files, slot, outcome) <==> i in files
    ensures i in files ==> CopyUp(files, slot, outcome)[i] == files[i]
  {
  }

  /** What a copy leaves at its destination. */
  ghost predicate LeftAt(files: Files, i: nat, outcome: CopyOutcome, after: Files) {
    match outcome
    case Copied => 0 < i && i - 1 in files && i in after && after[i] == files[i - 1]
    case Untouched => (i in after <==> i in files) && (i in after ==> after[i] == files[i])
    case Garbled(None) => i !in after
    case Garbled(Some(log)) => i in after && after[i] == log
  }

  lemma CopyUpDestination(files: Files, slot: nat, outcome: CopyOutcome)
    requires slot in files
    ensures LeftAt(files, slot + 1, outcome, CopyUp(files, slot, outcome))
  {
  }

  /** The rotated directory slot by slot, the destination of the failing copy included. */
  lemma RotatedAt(files: Files, gap: nat, faults: Faults, i: nat)
    requires forall k: nat | k < gap :: k in files
    ensures var j, after := FirstFault(faults, gap), Rotated(files, gap, faults);
      if j.Some? && i == j.value + 1 then
        faults(j.value) != Copied && LeftAt(files, i, faults(j.value), after)
      else
        var moved := 0 < i <= gap && (j.Some? ==> j.value + 1 < i);
        && (i in after <==> i in files || moved)
        && (i in after ==> after[i] == if moved then files[i - 1] else files[i])
  {
    match FirstFault(faults, gap)
    case None => ShiftedAt(files, gap, 0, i);
    case Some(j) =>
      ShiftedAt(files, gap, j + 1, i);
      if i != j + 1 {
        CopyUpElsewhere(Shifted(files, gap, j + 1), j, faults(j), i);
      } else {
        CopyUpDestination(Shifted(files, gap, j + 1), j, faults(j));
      }
  }

  /** No log is made up either: apart from a garbled destination, every log was there before. */
  lemma RotationInventsNothing(files: Files, max: nat, gap: nat, faults: Faults, i: nat)
    requires IsGap(files, max, gap) && i in Rotated(files, gap, faults)
    ensures var j := FirstFault(faults, gap);
      var log := Rotated(files, gap, faults)[i];
      || (i in files && files[i] == log)
      || (0 < i <= gap && (j.Some? ==> j.value + 1 < i) && i - 1 in files && files[i - 1] == log)
      || (j.Some? && i == j.value + 1 && faults(j.value) == Garbled(Some(log)))
  {
    ShiftedAt(files, gap, match FirstFault(faults, gap) case None => 0 case Some(j) => j + 1, i);
  }

  /** A complete rotation shifts everything below the first gap and nothing else. */
  lemma CompleteRotation(files: Files, max: nat, gap: nat, faults: Faults, i: nat)
    requires IsGap(files, max, gap) && FirstFault(faults, gap) == None
    ensures var after := Rotated(files, gap, faults);
      && (i in after <==> i in files || (i == gap && 0 < gap))
      && (i in after ==> after[i] == if 0 < i <= gap then files[i - 1] else files[i])
  {
    ShiftedAt(files, gap, 0, i);
  }

  // ---------- Service sessions ----------

  /** What one run of the service writes: the opening line, then its messages. */
  datatype Session = Session(opening: string, messages: seq<string>)

  function LogOf(s: Session): Log {
    [s.opening] + s.messages
  }

  /** Slot 0 is truncated for the new session once the old logs have been shifted. */
  function Opened(files: Files, gap: nat, opening: string): Files
    requires forall i: nat | i < gap :: i in files
  {
    Shifted(files, gap, 0)[0 := [opening]]
  }

  function Append(files: Files, message: string): Files
    requires 0 in files
  {
    files[0 := files[0] + [message]]
  }

  function {:induction false} AppendAll(files: Files, messages: seq<string>): (r: Files)
    requires 0 in files
    ensures r == files[0 := files[0] + messages]
  {
    if messages == [] then
      assert files[0] + [] == files[0];
      files
    else
      var last := |messages| - 1;
      var r := Append(AppendAll(files, messages[..last]), messages[last]);
      assert messages[..last] + [messages[last]] == messages;
      assert files[0] + messages[..last] + [messages[last]] == files[0] + messages;
      r
  }

  function FirstGap(files: Files, max: nat): (gap: nat)
    ensures IsGap(files, max, gap)
  {
    FirstGapFrom(files, max, 0)
  }

  function FirstGapFrom(files: Files, max: nat, start: nat): (gap: nat)
    requires start <= max && forall i: nat | i < start :: i in files
    ensures IsGap(files, max, gap)
    decreases max - start
  {
    if start < max && start in files then FirstGapFrom(files, max, start + 1) else start
  }

  function AfterSession(before: Files, session: Session, max: nat): Files {
    AppendAll(Opened(before, FirstGap(before, max), session.opening), session.messages)
  }

  /** The directory after the given sessions, first to last, starting from nothing. */
  function AfterSessions(sessions: seq<Session>, max: nat): Files
  {
    if sessions == [] then map[]
    else
      AfterSession(AfterSessions(sessions[..|sessions| - 1], max), sessions[|sessions| - 1], max)
  }

  /** The newest logs, newest first, one for each slot up to `max`. */
  function Recent(sessions: seq<Session>, max: nat): Files {
    map i: nat | i < |sessions| && i <= max :: LogOf(Back(sessions, i))
  }

  /** The session `i` before the last one. */
  function Back(sessions: seq<Session>, i: nat): Session
    requires i < |sessions|
  {
    sessions[|sessions| - 1 - i]
  }

  lemma GapOfRecent(sessions: seq<Session>, max: nat)
    ensures FirstGap(Recent(sessions, max), max) == if |sessions| < max then |sessions| else max
  {
    var gap := if |sessions| < max then |sessions| else max;
    assert IsGap(Recent(sessions, max), max, gap);
    GapIsUnique(Recent(sessions, max), max, gap, FirstGap(Recent(sessions, max), max));
  }

  lemma ShiftedRecent(earlier: seq<Session>, session: Session, max: nat, i: nat)
    requires 0 < i
    ensures var before := Recent(earlier, max);
      var shifted, wanted := Shifted(before, FirstGap(before, max), 0), Recent(earlier + [session], max);
      (i in shifted <==> i in wanted) && (i in wanted ==> shifted[i] == wanted[i])
  {
    GapOfRecent(earlier, max);
    ShiftedAt(Recent(earlier, max), FirstGap(Recent(earlier, max), max), 0, i);
    if i <= |earlier| && i <= max {
      assert Back(earlier + [session], i) == Back(earlier, i - 1);
    }
  }

  lemma ReopenedSlot(files: Files, first: Log, messages: seq<string>)
    ensures AppendAll(files[0 := first], messages) == files[0 := first + messages]
  {
    assert files[0 := first][0 := first + messages] == files[0 := first + messages];
  }

  lemma OneMoreSession(earlier: seq<Session>, session: Session, max: nat)
    ensures AfterSession(Recent(earlier, max), session, max) == Recent(earlier + [session], max)
  {
    var before := Recent(earlier, max);
    var shifted, wanted := Shifted(before, FirstGap(before, max), 0), Recent(earlier + [session], max);
    ReopenedSlot(shifted, [session.opening], session.messages);
    var after := shifted[0 := LogOf(session)];
    forall i: nat ensures (i in after <==> i in wanted) && (i in wanted ==> after[i] == wanted[i]) {
      if 0 < i { ShiftedRecent(earlier, session, max, i); }
    }
    assert after == wanted;
  }

  /** However often the service has started, slot i holds exactly the log of i sessions ago. */
  lemma {:induction false} DirectoryHoldsRecentSessions(sessions: seq<Session>, max: nat)
    ensures AfterSessions(sessions, max) == Recent(sessions, max)
  {
    if sessions == [] {
      assert Recent(sessions, max) == map[];
    } else {
      var n := |sessions| - 1;
      DirectoryHoldsRecentSessions(sessions[..n], max);
      OneMoreSession(sessions[..n], sessions[n], max);
      assert sessions[..n] + [sessions[n]] == sessions;
    }
  }
}
