/**
 The two log file implementations, src/macos/mac_broker_os_interface.cpp and
 src/windows/win_broker_os_interface.cpp, over one directory that they change file by file.
 Their loops search and count differently; both are proved against `LogRotation.Rotated`.
 */
module OsInterfaces {
  import opened Wrappers
  import opened LogRotation
  import opened LogHistory

  class LogDirectory {
    var files: Files

    constructor ()
      ensures files == map[]
    {
      files := map[];
    }
  }

  /** A file system copy through two descriptors: either may fail to open, or the copy break off. */
  datatype DescriptorCopy = DescriptorCopy(srcOpens: bool, destOpens: bool, copies: bool, partial: Log) {
    function Outcome(): CopyOutcome {
      if !srcOpens || !destOpens then Untouched
      else if !copies then Garbled(Some(partial))
      else Copied
    }
  }

  function MacFaults(copies: nat -> DescriptorCopy): Faults {
    (slot: nat) => copies(slot).Outcome()
  }

  /** What the system calls of one macOS `OpenLogFile` will answer. */
  datatype MacSystem = MacSystem(
    copies: nat -> DescriptorCopy, createOpens: bool, createCloses: bool, streamOpens: bool)

  class MacBrokerOsInterface {
    const dir: LogDirectory
    const max: nat
    var logOpen: bool
    var streamGood: bool  // what is written to a stream that is not good is lost

    constructor (dir: LogDirectory, max: nat)
      ensures this.dir == dir && this.max == max && !logOpen && streamGood
    {
      this.dir, this.max, logOpen, streamGood := dir, max, false, true;
    }

    method RotateLog(slot: nat, copy: DescriptorCopy) returns (success: bool)
      modifies dir
      ensures success <==> slot in old(dir.files) && copy.Outcome() == Copied
      ensures success <==> slot in old(dir.files) && copy.srcOpens && copy.destOpens && copy.copies
      ensures success ==> dir.files == old(dir.files)[slot + 1 := old(dir.files)[slot]]
      ensures !success ==>
        dir.files == old(dir.files) || (copy.destOpens && dir.files == old(dir.files)[slot + 1 := copy.partial])
      ensures dir.files ==
        if slot in old(dir.files) then CopyUp(old(dir.files), slot, copy.Outcome()) else old(dir.files)
    {
      success := false;
      if slot in dir.files && copy.srcOpens {
        var log := dir.files[slot];
        if copy.destOpens {
          dir.files := dir.files[slot + 1 := []];  // created, or truncated
          if copy.copies {
            dir.files := dir.files[slot + 1 := log];
            success := true;
          } else {
            dir.files := dir.files[slot + 1 := copy.partial];
          }
          assert dir.files == CopyUp(old(dir.files), slot, copy.Outcome());
        }
      }
    }

    /** The first loop of `RotateLogs`: the search starts at slot 0. */
    method FindGap() returns (rotateNumber: nat)
      ensures rotateNumber == FirstGap(dir.files, max)
    {
      rotateNumber := 0;
      while rotateNumber < max
        invariant rotateNumber <= max
        invariant forall i: nat | i < rotateNumber :: i in dir.files
      {
        if rotateNumber !in dir.files { break; }
        rotateNumber := rotateNumber + 1;
      }
      GapIsUnique(dir.files, max, rotateNumber, FirstGap(dir.files, max));
    }

    method RotateLogs(copies: nat -> DescriptorCopy) returns (success: bool)
      modifies dir
      ensures var gap := FirstGap(old(dir.files), max);
        && dir.files == Rotated(old(dir.files), gap, MacFaults(copies))
        && (success <==> FirstFault(MacFaults(copies), gap) == None)
    {
      var gap := FindGap();
      success := CopyDown(gap, copies);
    }

    /** The second loop of `RotateLogs`: the counter is decremented before it is compared. */
    method CopyDown(gap: nat, copies: nat -> DescriptorCopy) returns (success: bool)
      requires forall i: nat | i < gap :: i in dir.files
      modifies dir
      ensures dir.files == Rotated(old(dir.files), gap, MacFaults(copies))
      ensures success <==> FirstFault(MacFaults(copies), gap) == None
    {
      ghost var before, faults := dir.files, MacFaults(copies);
      var rotateNumber := gap - 1;
      while rotateNumber >= 0
        invariant -1 <= rotateNumber < gap
        invariant CopiedDownTo(before, gap, faults, rotateNumber + 1, dir.files)
      {
        CopyOneMore(before, gap, faults, rotateNumber, dir.files);
        var rotated := RotateLog(rotateNumber, copies(rotateNumber));
        if !rotated { return false; }
        rotateNumber := rotateNumber - 1;
      }
      CopiedAll(before, gap, faults, dir.files);
      return true;
    }

    /** Opening a stream that is open already fails and leaves it open, but nothing is written any more. */
    method OpenLogFile(opening: string, warning: string, system: MacSystem) returns (ok: bool)
      modifies this, dir
      ensures ok <==> system.createOpens && system.createCloses
      ensures logOpen <==> old(logOpen) || (ok && system.streamOpens)
      ensures streamGood <==> if ok then !old(logOpen) && system.streamOpens else old(streamGood)
      ensures var gap, faults := FirstGap(old(dir.files), max), MacFaults(system.copies);
        var rotated := Rotated(old(dir.files), gap, faults);
        dir.files ==
          if !system.createOpens then rotated
          else if !ok || !streamGood then (if 0 in rotated then rotated else rotated[0 := []])
          else rotated[0 := [opening] + if FirstFault(faults, gap) == None then [] else [warning]]
    {
      var rotated := RotateLogs(system.copies);

      if !system.createOpens { return false; }
      if 0 !in dir.files { dir.files := dir.files[0 := []]; }
      if !system.createCloses { return false; }

      streamGood := !logOpen && system.streamOpens;
      if streamGood {
        logOpen := true;
        dir.files := dir.files[0 := []];
        dir.files := dir.files[0 := dir.files[0] + [opening]];
        assert dir.files[0] == [opening] == [opening] + [];
        if !rotated { dir.files := dir.files[0 := dir.files[0] + [warning]]; }
      }
      return true;
    }

    method HandleLogMessage(message: string)
      requires logOpen && streamGood ==> 0 in dir.files
      modifies dir
      ensures dir.files == if logOpen && streamGood then Append(old(dir.files), message) else old(dir.files)
    {
      if logOpen && streamGood { dir.files := dir.files[0 := dir.files[0] + [message]]; }
    }
  }

  /** `CopyFile` answers with an outcome and, when it fails, an error code. */
  datatype CopyFileAnswer = CopyFileAnswer(outcome: CopyOutcome, lastError: int)

  function WindowsFaults(copies: nat -> CopyFileAnswer): Faults {
    (slot: nat) => copies(slot).outcome
  }

  /** Where the Windows search stops: it looks at slot 0 once and then starts from slot 1. */
  function WindowsGap(files: Files, max: nat): (gap: nat)
    ensures forall i: nat | i < gap :: i in files
  {
    if 0 !in files then 0
    else if max < 1 then 1
    else FirstGapFrom(files, max, 1)
  }

  /** The two searches agree exactly when some backup is allowed at all, or there is nothing to back up. */
  lemma SearchesAgreeExactlyWhen(files: Files, max: nat)
    ensures WindowsGap(files, max) == FirstGap(files, max) <==> 0 < max || 0 !in files
  {
    if 0 < max && 0 in files {
      GapIsUnique(files, max, WindowsGap(files, max), FirstGap(files, max));
    }
  }

  datatype WindowsSystem = WindowsSystem(
    programDataKnown: bool, directoriesExist: bool, copies: nat -> CopyFileAnswer, fileOpens: bool)

  class WindowsBrokerOsInterface {
    const dir: LogDirectory
    const max: nat
    var logOpen: bool

    constructor (dir: LogDirectory, max: nat)
      ensures this.dir == dir && this.max == max && !logOpen
    {
      this.dir, this.max, logOpen := dir, max, false;
    }

    /** The search of `RotateLogs`, which looks at slot 0 beforehand and starts at slot 1. */
    method FindGap() returns (rotateNumber: nat)
      requires 0 in dir.files
      ensures rotateNumber == WindowsGap(dir.files, max)
    {
      rotateNumber := 1;
      while rotateNumber < max
        invariant 1 <= rotateNumber && (rotateNumber <= max || rotateNumber == 1)
        invariant forall i: nat | i < rotateNumber :: i in dir.files
      {
        if rotateNumber !in dir.files { break; }
        rotateNumber := rotateNumber + 1;
      }
      if 0 < max { GapIsUnique(dir.files, max, rotateNumber, WindowsGap(dir.files, max)); }
    }

    method RotateLogs(copies: nat -> CopyFileAnswer) returns (error: int)
      modifies dir
      ensures var gap := WindowsGap(old(dir.files), max);
        && dir.files == Rotated(old(dir.files), gap, WindowsFaults(copies))
        && error == match FirstFault(WindowsFaults(copies), gap)
                    case None => 0
                    case Some(j) => copies(j).lastError
    {
      if 0 !in dir.files {
        return 0;
      }
      var gap := FindGap();
      error := CopyDown(gap, copies);
    }

    /** The copying of `RotateLogs`: the counter is compared before it is decremented. */
    method CopyDown(gap: nat, copies: nat -> CopyFileAnswer) returns (error: int)
      requires forall i: nat | i < gap :: i in dir.files
      modifies dir
      ensures dir.files == Rotated(old(dir.files), gap, WindowsFaults(copies))
      ensures error == match FirstFault(WindowsFaults(copies), gap)
                       case None => 0
                       case Some(j) => copies(j).lastError
    {
      ghost var before, faults := dir.files, WindowsFaults(copies);
      var rotateNumber := gap;
      var more := rotateNumber > 0;
      rotateNumber := rotateNumber - 1;
      while more
        invariant -1 <= rotateNumber < gap && (more <==> 0 <= rotateNumber)
        invariant CopiedDownTo(before, gap, faults, rotateNumber + 1, dir.files)
        decreases rotateNumber
      {
        CopyOneMore(before, gap, faults, rotateNumber, dir.files);
        var answer := copies(rotateNumber);
        dir.files := CopyUp(dir.files, rotateNumber, answer.outcome);
        if answer.outcome != Copied { return answer.lastError; }
        more := rotateNumber > 0;
        rotateNumber := rotateNumber - 1;
      }
      CopiedAll(before, gap, faults, dir.files);
      return 0;
    }

    method OpenLogFile(opening: string, warning: string, system: WindowsSystem) returns (ok: bool)
      modifies this, dir
      ensures ok <==> !old(logOpen) && system.programDataKnown && system.directoriesExist && system.fileOpens
      ensures logOpen <==> ok || old(logOpen)
      ensures var gap, faults := WindowsGap(old(dir.files), max), WindowsFaults(system.copies);
        var rotated := Rotated(old(dir.files), gap, faults);
        dir.files ==
          if old(logOpen) || !system.programDataKnown || !system.directoriesExist then old(dir.files)
          else if !ok then rotated
          else rotated[0 := [opening] + match FirstFault(faults, gap)
                                        case None => []
                                        case Some(j) => if system.copies(j).lastError != 0 then [warning] else []]
    {
      if logOpen { return false; }
      if !system.programDataKnown { return false; }
      if !system.directoriesExist { return false; }

      var rotateResult := RotateLogs(system.copies);

      if !system.fileOpens { return false; }
      logOpen := true;
      dir.files := dir.files[0 := []];
      dir.files := dir.files[0 := dir.files[0] + [opening]];
      assert dir.files[0] == [opening] == [opening] + [];
      if rotateResult != 0 { dir.files := dir.files[0 := dir.files[0] + [warning]]; }
      return true;
    }

    method HandleLogMessage(message: string)
      requires logOpen ==> 0 in dir.files
      modifies dir
      ensures dir.files == if logOpen then Append(old(dir.files), message) else old(dir.files)
    {
      if logOpen { dir.files := dir.files[0 := dir.files[0] + [message]]; }
    }
  }

  // ---------- The two loops side by side ----------

  /**
   From equal directories, with equal outcomes of the copies, the two `RotateLogs` leave equal
   directories and fail alike, although they search, count and stop differently.
   */
  method RotateSideBySide(mac: MacBrokerOsInterface, windows: WindowsBrokerOsInterface,
                          macCopies: nat -> DescriptorCopy, windowsCopies: nat -> CopyFileAnswer)
    returns (success: bool, error: int)
    requires mac.dir != windows.dir && mac.dir.files == windows.dir.files && 0 < mac.max == windows.max
    requires forall slot: nat :: macCopies(slot).Outcome() == windowsCopies(slot).outcome
    requires forall slot: nat :: windowsCopies(slot).outcome != Copied ==> windowsCopies(slot).lastError != 0
    modifies mac.dir, windows.dir
    ensures mac.dir.files == windows.dir.files
    ensures success <==> error == 0
  {
    SearchesAgreeExactlyWhen(mac.dir.files, mac.max);
    SameFaults(MacFaults(macCopies), WindowsFaults(windowsCopies), FirstGap(mac.dir.files, mac.max));
    success := mac.RotateLogs(macCopies);
    error := windows.RotateLogs(windowsCopies);
  }

  lemma {:induction false} SameFaults(a: Faults, b: Faults, gap: nat)
    requires forall slot: nat :: a(slot) == b(slot)
    ensures FirstFault(a, gap) == FirstFault(b, gap)
  {
    if 0 < gap { SameFaults(a, b, gap - 1); }
  }

  // ---------- Many service starts ----------

  datatype Machine = OnMac(mac: MacSystem) | OnWindows(windows: WindowsSystem)

  /** What one service run amounts to, if it gets as far as touching the directory. */
  function StartOf(before: Files, session: Session, warning: string, max: nat, machine: Machine): Option<Start> {
    match machine
    case OnMac(system) =>
      var faults := MacFaults(system.copies);
      var gap := FirstGap(before, max);
      var warned := FirstFault(faults, gap).Some?;
      Some(Start(faults,
        if !system.createOpens then None
        else if !system.createCloses || !system.streamOpens then
          (if 0 in Rotated(before, gap, faults) then None else Some([]))
        else Some(Written(session, if warned then [warning] else []))))
    case OnWindows(system) =>
      if !system.programDataKnown || !system.directoriesExist then None
      else
        var faults := WindowsFaults(system.copies);
        var warned :=
          match FirstFault(faults, FirstGap(before, max))
          case None => false
          case Some(j) => system.copies(j).lastError != 0;
        Some(Start(faults, if system.fileOpens then Some(Written(session, if warned then [warning] else [])) else None))
  }

  /** The opening line, a warning if there is one, and the messages. */
  function Written(session: Session, warnings: seq<string>): Log {
    [session.opening] + warnings + session.messages
  }

  function After(before: Files, start: Option<Start>, max: nat): Files {
    match start case None => before case Some(s) => AfterStart(before, s, max)
  }

  /** One run of the service with whatever may go wrong, and the messages it handles. */
  method RunSession(dir: LogDirectory, session: Session, warning: string, max: nat, machine: Machine)
    requires 0 < max
    modifies dir
    ensures dir.files == After(old(dir.files), StartOf(old(dir.files), session, warning, max, machine), max)
  {
    match machine {
      case OnMac(system) => RunMacSession(dir, session, warning, max, system);
      case OnWindows(system) => RunWindowsSession(dir, session, warning, max, system);
    }
  }

  method RunMacSession(dir: LogDirectory, session: Session, warning: string, max: nat, system: MacSystem)
    modifies dir
    ensures dir.files == After(old(dir.files), StartOf(old(dir.files), session, warning, max, OnMac(system)), max)
  {
    var service := new MacBrokerOsInterface(dir, max);
    var ok := service.OpenLogFile(session.opening, warning, system);
    ghost var atStart := dir.files;
    for i := 0 to |session.messages|
      invariant (service.logOpen <==> ok && system.streamOpens) && (service.logOpen ==> service.streamGood)
      invariant service.logOpen ==> 0 in atStart
      invariant dir.files == if service.logOpen then AppendAll(atStart, session.messages[..i]) else atStart
    {
      assert session.messages[..i + 1][..i] == session.messages[..i];
      service.HandleLogMessage(session.messages[i]);
    }
    assert session.messages[..|session.messages|] == session.messages;
  }

  method RunWindowsSession(dir: LogDirectory, session: Session, warning: string, max: nat, system: WindowsSystem)
    requires 0 < max
    modifies dir
    ensures dir.files == After(old(dir.files), StartOf(old(dir.files), session, warning, max, OnWindows(system)), max)
  {
    SearchesAgreeExactlyWhen(dir.files, max);
    var service := new WindowsBrokerOsInterface(dir, max);
    var ok := service.OpenLogFile(session.opening, warning, system);
    ghost var atStart := dir.files;
    for i := 0 to |session.messages|
      invariant service.logOpen == ok
      invariant ok ==> 0 in atStart
      invariant dir.files == if ok then AppendAll(atStart, session.messages[..i]) else atStart
    {
      assert session.messages[..i + 1][..i] == session.messages[..i];
      service.HandleLogMessage(session.messages[i]);
    }
    assert session.messages[..|session.messages|] == session.messages;
  }

  /** The starts that the given sessions amount to, each on its own machine. */
  function StartsOf(sessions: seq<Session>, warning: string, max: nat, machines: nat -> Machine): seq<Start> {
    if sessions == [] then []
    else
      var n := |sessions| - 1;
      var earlier := StartsOf(sessions[..n], warning, max, machines);
      match StartOf(AfterStarts(earlier, max), sessions[n], warning, max, machines(n))
      case None => earlier
      case Some(start) => earlier + [start]
  }

  lemma OneMoreStart(starts: seq<Start>, start: Start, max: nat)
    ensures AfterStarts(starts + [start], max) == AfterStart(AfterStarts(starts, max), start, max)
  {
    assert (starts + [start])[..|starts|] == starts;
  }

  /** Any number of sessions from an empty directory, with the platforms mixed and anything going wrong. */
  method RunSessions(sessions: seq<Session>, warning: string, max: nat, machines: nat -> Machine)
    returns (dir: LogDirectory)
    requires 0 < max
    ensures fresh(dir) && dir.files == AfterStarts(StartsOf(sessions, warning, max, machines), max)
    ensures (forall n: nat :: Flawless(machines(n))) ==> dir.files == Recent(sessions, max)
  {
    dir := new LogDirectory();
    assert sessions[..0] == [];
    for i := 0 to |sessions|
      invariant fresh(dir) && dir.files == AfterStarts(StartsOf(sessions[..i], warning, max, machines), max)
    {
      assert sessions[..i + 1][..i] == sessions[..i];
      ghost var starts := StartsOf(sessions[..i], warning, max, machines);
      ghost var start := StartOf(dir.files, sessions[i], warning, max, machines(i));
      if start.Some? { OneMoreStart(starts, start.value, max); }
      RunSession(dir, sessions[i], warning, max, machines(i));
    }
    assert sessions[..|sessions|] == sessions;
    if forall n: nat :: Flawless(machines(n)) {
      FlawlessHistory(sessions, warning, max, machines);
      DirectoryHoldsRecentSessions(sessions, max);
    }
  }

  // ---------- When nothing goes wrong ----------

  ghost predicate Flawless(machine: Machine) {
    match machine
    case OnMac(system) =>
      && system.createOpens && system.createCloses && system.streamOpens
      && forall slot: nat :: MacFaults(system.copies)(slot) == Copied
    case OnWindows(system) =>
      && system.programDataKnown && system.directoriesExist && system.fileOpens
      && forall slot: nat :: WindowsFaults(system.copies)(slot) == Copied
  }

  lemma {:induction false} NoFaults(faults: Faults, gap: nat)
    requires forall slot: nat :: faults(slot) == Copied
    ensures FirstFault(faults, gap) == None
  {
    if 0 < gap { NoFaults(faults, gap - 1); }
  }

  lemma FlawlessStart(before: Files, session: Session, warning: string, max: nat, machine: Machine)
    requires Flawless(machine)
    ensures var start := StartOf(before, session, warning, max, machine);
      start.Some? && AfterStart(before, start.value, max) == AfterSession(before, session, max)
  {
    var gap := FirstGap(before, max);
    match machine {
      case OnMac(system) => NoFaults(MacFaults(system.copies), gap);
      case OnWindows(system) => NoFaults(WindowsFaults(system.copies), gap);
    }
    assert Written(session, []) == LogOf(session) by { assert [session.opening] + [] == [session.opening]; }
    ReopenedSlot(Shifted(before, gap, 0), [session.opening], session.messages);
  }

  lemma {:induction false} FlawlessHistory(sessions: seq<Session>, warning: string, max: nat, machines: nat -> Machine)
    requires forall n: nat :: Flawless(machines(n))
    ensures AfterStarts(StartsOf(sessions, warning, max, machines), max) == AfterSessions(sessions, max)
    decreases |sessions|
  {
    if sessions != [] {
      var n := |sessions| - 1;
      FlawlessHistory(sessions[..n], warning, max, machines);
      var before := AfterSessions(sessions[..n], max);
      FlawlessStart(before, sessions[n], warning, max, machines(n));
      OneMoreStart(StartsOf(sessions[..n], warning, max, machines),
                   StartOf(before, sessions[n], warning, max, machines(n)).value, max);
    }
  }

  // ---------- One service start ----------

  /**
   Rotation alone never drops the newest log, but the start that follows truncates slot 0:
   the previous session's log survives the start exactly when rotation completed.
   */
  lemma NewestLogSurvivesExactlyWhen(files: Files, max: nat, gap: nat, faults: Faults, truncated: Log)
    requires IsGap(files, max, gap) && 0 < max && 0 in files
    requires truncated != files[0] && forall i: nat | 0 < i && i in files :: files[i] != files[0]
    requires forall j: nat :: faults(j) != Garbled(Some(files[0]))
    ensures var started := Rotated(files, gap, faults)[0 := truncated];
      (exists i: nat :: i in started && started[i] == files[0]) <==> FirstFault(faults, gap) == None
  {
    var rotated := Rotated(files, gap, faults);
    var started := rotated[0 := truncated];
    match FirstFault(faults, gap)
    case None =>
      RotationConservesLogs(files, max, gap, faults, 0);
      assert 1 in started && started[1] == files[0];
    case Some(j) =>
      forall i: nat | i in started ensures started[i] != files[0] {
        ShiftedAt(files, gap, j + 1, i);
      }
  }
}
