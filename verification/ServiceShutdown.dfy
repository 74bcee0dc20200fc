/**
 Once the control handler has asked for a shutdown, its wait for the service thread comes to an
 end: the thread and the watcher it waits for get there in a bounded number of moves.
 */
module ServiceShutdown {
  import opened ConfigSpec
  import opened ShellMachine
  import opened ShellShutdown
  import opened ServiceMachine

  /** An upper bound on the moves of a watcher whose flag is up. */
  function WatcherRank(w: WatcherPC): nat {
    match w
    case Unborn | Gone => 0
    case TearingDown => 1
    case CheckingFlag => 2
    case Waiting | SettingUp => 3
  }

  const MAX_WATCHER_RANK := 3

  /** An upper bound on the moves that bring the service thread to its end. */
  function ThreadRank(t: Threads, shellRank: nat): nat {
    match t.thread
    case NotCreated | Ended => 0
    case ReportingFailure => 1
    case JoiningAddr => 2 + WatcherRank(t.addr)
    case StoppingAddr => 3 + MAX_WATCHER_RANK
    case JoiningConf => 4 + MAX_WATCHER_RANK + WatcherRank(t.conf)
    case StoppingConf => 5 + 2 * MAX_WATCHER_RANK
    case InShell => 6 + 2 * MAX_WATCHER_RANK + shellRank
    case SpawningConf => 7 + 2 * MAX_WATCHER_RANK + MAX_RANK
    case SpawningAddr => 8 + 2 * MAX_WATCHER_RANK + MAX_RANK
  }

  const MAX_THREAD_RANK := 8 + 2 * MAX_WATCHER_RANK + MAX_RANK

  /** A move of the service thread, or of the watcher that it is waiting for. */
  predicate BringsOn(t: Threads, m: Move) {
    if t.thread == JoiningConf && !Joinable(t.conf) then m.ConfStep?
    else if t.thread == JoiningAddr && !Joinable(t.addr) then m.AddrStep?
    else m.ThreadStep?
  }

  /** How many moves of a run bring the service thread on. */
  function MovesOn(load: Loader, s: Service, moves: seq<Move>): nat
    decreases |moves|
  {
    if moves == [] then 0
    else
      var n := |moves| - 1;
      MovesOn(load, s, moves[..n]) + if BringsOn(RunService(load, s, moves[..n]).threads, moves[n]) then 1 else 0
  }

  /** The thread has been created, if it ever will be, and the shell knows that it is to end. */
  ghost predicate OnTheWayOut(s: Service) {
    ServiceInOrder(s) && AfterCreation(s.threads) && s.shell.shutdownRequested
  }

  function ServiceRank(s: Service): (r: nat)
    ensures r <= MAX_THREAD_RANK
  {
    ThreadRank(s.threads, Rank(s.shell))
  }

  lemma ThreadsMoveOn(t: Threads, pc: PC, pc': PC, rank: nat, rank': nat, m: Move)
    requires ThreadsInOrder(t, pc) && AfterCreation(t)
    requires rank' <= rank <= MAX_RANK
    requires t.thread == InShell && m.ThreadStep? && !pc.Finished? ==> rank' < rank
    ensures var t' := NextThreads(t, pc, m);
      && ThreadRank(t', rank') <= ThreadRank(t, rank)
      && (BringsOn(t, m) && Live(t) ==> ThreadRank(t', rank') < ThreadRank(t, rank))
  {
    match t.thread
    case JoiningConf =>
    case JoiningAddr =>
    case InShell =>
    case _ =>
  }

  lemma ServiceRankFalls(load: Loader, s: Service, m: Move)
    requires OnTheWayOut(s)
    ensures var s' := NextService(load, s, m);
      && ServiceRank(s') <= ServiceRank(s)
      && (BringsOn(s.threads, m) && Live(s.threads) ==> ServiceRank(s') < ServiceRank(s))
  {
    var shell' := NextShell(load, s.shell, ShellInput(s.threads, s.shell.pc, m));
    match ShellInput(s.threads, s.shell.pc, m) {
      case None =>
      case Some(l) => RankFalls(load, s.shell, l);
    }
    ThreadsMoveOn(s.threads, s.shell.pc, shell'.pc, Rank(s.shell), Rank(shell'), m);
  }

  lemma StillOnTheWayOut(load: Loader, s: Service, m: Move)
    requires OnTheWayOut(s)
    ensures OnTheWayOut(NextService(load, s, m))
    ensures !Live(s.threads) ==> !Live(NextService(load, s, m).threads)
  {
    OrderStays(load, s, m);
    AskedForGood(load, s.shell, s.threads, m);
    if !Live(s.threads) { StillForGood(s.threads, s.shell.pc, m); }
  }

  /** `n` moves that bring the thread on have been made since the rank was `rank`. */
  ghost predicate RankCounts(s: Service, rank: nat, n: nat) {
    OnTheWayOut(s) && (!Live(s.threads) || ServiceRank(s) + n <= rank)
  }

  lemma RankCountsOneMore(load: Loader, s: Service, rank: nat, n: nat, m: Move)
    requires RankCounts(s, rank, n)
    ensures RankCounts(NextService(load, s, m), rank, n + if BringsOn(s.threads, m) then 1 else 0)
  {
    StillOnTheWayOut(load, s, m);
    ServiceRankFalls(load, s, m);
  }

  lemma {:induction false} ServiceRankCountsMoves(load: Loader, s: Service, moves: seq<Move>)
    requires OnTheWayOut(s)
    ensures RankCounts(RunService(load, s, moves), ServiceRank(s), MovesOn(load, s, moves))
    decreases |moves|
  {
    if moves != [] {
      var n := |moves| - 1;
      ServiceRankCountsMoves(load, s, moves[..n]);
      RankCountsOneMore(load, RunService(load, s, moves[..n]), ServiceRank(s), MovesOn(load, s, moves[..n]), moves[n]);
    }
  }

  /**
   Once the control handler waits for a thread that was created, or for one that could not be,
   the wait is over after as many moves that bring the thread on as its rank says, 24 at most,
   whatever else happens in between. In every state before, such a move is the next one of some
   thread that is not itself waiting.
   */
  lemma HandlersWaitEnds(load: Loader, file: ConfFile, moves: seq<Move>, later: seq<Move>)
    requires var t := RunService(load, InitialService(load, file), moves).threads;
      t.handler == WaitingForThread && AfterCreation(t)
    ensures var s := RunService(load, InitialService(load, file), moves);
      && ServiceRank(s) <= MAX_THREAD_RANK
      && (MovesOn(load, s, later) >= ServiceRank(s) ==> Still(RunService(load, s, later).threads))
  {
    EveryServiceRun(load, file, moves);
    var s := RunService(load, InitialService(load, file), moves);
    ServiceRankCountsMoves(load, s, later);
  }
}
