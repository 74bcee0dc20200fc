/**
 What many service starts leave behind when anything may go wrong: any copy of any rotation,
 and the opening of any log. Which session each slot goes back to, and in what order.
 */
module LogHistory {
  import opened Wrappers
  import opened LogRotation

  /** One start: what its rotation meets, and the log then written to slot 0, if it could be opened. */
  datatype Start = Start(faults: Faults, log: Option<Log>)

  function AfterStart(before: Files, start: Start, max: nat): Files {
    var rotated := Rotated(before, FirstGap(before, max), start.faults);
    match start.log case None => rotated case Some(log) => rotated[0 := log]
  }

  /** The directory after the given starts, first to last, starting from nothing. */
  function AfterStarts(starts: seq<Start>, max: nat): Files {
    if starts == [] then map[]
    else AfterStart(AfterStarts(starts[..|starts| - 1], max), starts[|starts| - 1], max)
  }

  /** The slot that a slot of the rotated directory was filled from, perhaps by a copy that broke off. */
  function Whence(faults: Faults, gap: nat, i: nat): nat {
    match FirstFault(faults, gap)
    case None => if 0 < i <= gap then i - 1 else i
    case Some(j) =>
      if j + 1 < i <= gap || (i == j + 1 && faults(j).Garbled?) then i - 1 else i
  }

  /** What rotation puts into a slot was there before, or a copy that broke off has left it. */
  lemma WhenceHolds(files: Files, max: nat, gap: nat, faults: Faults, i: nat)
    requires IsGap(files, max, gap) && i in Rotated(files, gap, faults)
    ensures var log, from := Rotated(files, gap, faults)[i], Whence(faults, gap, i);
      && from in files
      && (log == files[from] || exists slot: nat :: faults(slot) == Garbled(Some(log)))
  {
    match FirstFault(faults, gap)
    case None => ShiftedAt(files, gap, 0, i);
    case Some(j) =>
      ShiftedAt(files, gap, j + 1, i);
      if i != j + 1 { CopyUpElsewhere(Shifted(files, gap, j + 1), j, faults(j), i); }
  }

  lemma WhenceKeepsOrder(faults: Faults, gap: nat, i: nat, k: nat)
    requires i <= k
    ensures Whence(faults, gap, i) <= Whence(faults, gap, k) <= k <= Whence(faults, gap, k) + 1
  {
  }

  /** The number of the start that a slot's log goes back to. */
  function Origin(starts: seq<Start>, max: nat, i: nat): nat
    decreases |starts|
  {
    if starts == [] then 0
    else
      var n := |starts| - 1;
      if i == 0 && starts[n].log.Some? then n
      else Origin(starts[..n], max, Whence(starts[n].faults, FirstGap(AfterStarts(starts[..n], max), max), i))
  }

  /** Some copy in the past broke off and left this behind. */
  ghost predicate LeftBehind(starts: seq<Start>, log: Log) {
    exists m: nat, slot: nat :: m < |starts| && starts[m].faults(slot) == Garbled(Some(log))
  }

  lemma LeftBehindStays(starts: seq<Start>, n: nat, log: Log)
    requires n <= |starts| && LeftBehind(starts[..n], log)
    ensures LeftBehind(starts, log)
  {
    var m: nat, slot: nat :| m < n && starts[..n][m].faults(slot) == Garbled(Some(log));
    assert starts[m].faults(slot) == Garbled(Some(log));
  }

  /** Slot `i` holds the log that start `k` wrote, or the remains of some copy that broke off. */
  ghost predicate HoldsLogOf(starts: seq<Start>, k: nat, log: Log) {
    (k < |starts| && starts[k].log == Some(log)) || LeftBehind(starts, log)
  }

  /**
   Whatever goes wrong, each file holds the log of its session of origin, which wrote it at least
   `i` starts ago, or the remains of a broken copy.
   */
  lemma {:induction false} EveryFileHasAnOrigin(starts: seq<Start>, max: nat, i: nat)
    requires i in AfterStarts(starts, max)
    ensures var k := Origin(starts, max, i);
      i + k < |starts| && HoldsLogOf(starts, k, AfterStarts(starts, max)[i])
    decreases |starts|
  {
    var n := |starts| - 1;
    var before, log := AfterStarts(starts[..n], max), AfterStarts(starts, max)[i];
    if i > 0 || starts[n].log == None {
      var gap, faults := FirstGap(before, max), starts[n].faults;
      var from := Whence(faults, gap, i);
      WhenceHolds(before, max, gap, faults, i);
      WhenceKeepsOrder(faults, gap, i, i);
      EveryFileHasAnOrigin(starts[..n], max, from);
      if log != before[from] {
        var slot: nat :| faults(slot) == Garbled(Some(log));
        assert starts[n].faults(slot) == Garbled(Some(log));
      } else if LeftBehind(starts[..n], log) {
        LeftBehindStays(starts, n, log);
      }
    }
  }

  /** However rotations fail, the files stay in order: a higher slot never holds a newer log. */
  lemma {:induction false} OlderLogsInHigherSlots(starts: seq<Start>, max: nat, i: nat, k: nat)
    requires i <= k && i in AfterStarts(starts, max) && k in AfterStarts(starts, max)
    ensures Origin(starts, max, k) <= Origin(starts, max, i)
    decreases |starts|
  {
    var n := |starts| - 1;
    var before, faults := AfterStarts(starts[..n], max), starts[n].faults;
    if i == 0 && starts[n].log.Some? {
      EveryFileHasAnOrigin(starts, max, k);
    } else {
      var gap := FirstGap(before, max);
      WhenceHolds(before, max, gap, faults, i);
      WhenceHolds(before, max, gap, faults, k);
      WhenceKeepsOrder(faults, gap, i, k);
      OlderLogsInHigherSlots(starts[..n], max, Whence(faults, gap, i), Whence(faults, gap, k));
    }
  }

  /** When no copy leaves remains, every file is the whole log of one session. */
  lemma WithoutRemainsEveryFileIsWhole(starts: seq<Start>, max: nat, i: nat)
    requires i in AfterStarts(starts, max)
    requires forall m: nat, slot: nat | m < |starts| :: starts[m].faults(slot) in {Copied, Untouched}
    ensures Origin(starts, max, i) < |starts|
    ensures starts[Origin(starts, max, i)].log == Some(AfterStarts(starts, max)[i])
  {
    EveryFileHasAnOrigin(starts, max, i);
  }
}
