/**
 The shell inside the service: whatever the threads of the service do, it goes through a run of
 the shell machine, so what holds of every such run holds in the service.
 */
module ServiceShell {
  import opened ConfigSpec
  import opened ShellMachine
  import opened ShellSafety
  import opened ShellRequests
  import opened ServiceMachine

  /** What the moves of the service feed to its shell. */
  function Inputs(load: Loader, s: Service, moves: seq<Move>): seq<Label>
    decreases |moves|
  {
    if moves == [] then []
    else
      var n := |moves| - 1;
      var before := RunService(load, s, moves[..n]);
      var earlier := Inputs(load, s, moves[..n]);
      match ShellInput(before.threads, before.shell.pc, moves[n])
      case None => earlier
      case Some(l) => earlier + [l]
  }

  lemma {:induction false} ServiceRunsItsShell(load: Loader, s: Service, moves: seq<Move>)
    ensures RunService(load, s, moves).shell == Run(load, s.shell, Inputs(load, s, moves))
    decreases |moves|
  {
    if moves != [] {
      var n := |moves| - 1;
      ServiceRunsItsShell(load, s, moves[..n]);
      var before := RunService(load, s, moves[..n]);
      match ShellInput(before.threads, before.shell.pc, moves[n])
      case None =>
      case Some(l) => RunOneMore(load, s.shell, Inputs(load, s, moves[..n]), l);
    }
  }

  /** In every run of the service, the shell inside keeps the library's rules and its requests in order. */
  lemma ServiceKeepsShellInvariants(load: Loader, file: ConfFile, moves: seq<Move>)
    ensures var shell := RunService(load, InitialService(load, file), moves).shell;
      SafeState(shell) && RequestsTracked(shell)
  {
    var s := InitialService(load, file);
    ServiceRunsItsShell(load, s, moves);
    EveryRunIsSafe(load, file, Inputs(load, s, moves));
    EveryRunIsTracked(load, file, Inputs(load, s, moves));
  }

  lemma {:induction false} TraceGrows(load: Loader, s: Service, moves: seq<Move>)
    ensures s.shell.trace <= RunService(load, s, moves).shell.trace
    decreases |moves|
  {
    if moves != [] { TraceGrows(load, s, moves[..|moves| - 1]); }
  }

  /**
   From the moment a network change is noticed, no restart comes before the network cooldown is
   over, whatever else requests one: not even a changed file or scope, which have no cooldown.
   */
  lemma RestartsWaitForTheNetwork(load: Loader, file: ConfFile, moves: seq<Move>, watched: Watched,
                                  later: seq<Move>, j: nat)
    requires var before := RunService(load, InitialService(load, file), moves);
      var end := RunService(load, NextService(load, before, AddrStep(watched)), later);
      && Requests(before.threads.addr, watched)
      && |before.shell.trace| <= j < |end.shell.trace| && end.shell.trace[j].Fired?
    ensures var before := RunService(load, InitialService(load, file), moves);
      var end := RunService(load, NextService(load, before, AddrStep(watched)), later);
      before.shell.now + NETWORK_CHANGE_COOLDOWN_MS <= end.shell.trace[j].at
  {
    var s := InitialService(load, file);
    var before := RunService(load, s, moves);
    var noticed := NextService(load, before, AddrStep(watched));
    var end := RunService(load, noticed, later);
    OneMoreMove(load, s, moves, AddrStep(watched));
    RunServiceConcat(load, s, moves + [AddrStep(watched)], later);
    ServiceKeepsShellInvariants(load, file, moves + [AddrStep(watched)] + later);
    TraceGrows(load, noticed, later);
    var request := Requested(before.shell.now, NETWORK_CHANGE_COOLDOWN_MS);
    assert noticed.shell.trace == before.shell.trace + [request];
    assert end.shell.trace[|before.shell.trace|] == request;
  }
}
