/**
 The parts of src/windows/broker_service.cpp that write to the service object in place: the
 status it reports, and the two watcher functions that turn notifications into restart requests.
 */
module BrokerService {
  import opened Wrappers
  import opened ShellMachine
  import opened ServiceMachine
  import opened BrokerShell

  datatype WaitStatus = WaitObject | WaitTimeout | WaitError

  /** What a wait, together with setting up the next one, amounts to for the watcher. */
  function Seen(status: WaitStatus, nextOk: bool): Watched {
    match status
    case WaitObject => Signalled(nextOk)
    case WaitTimeout => Fine
    case WaitError => Failed
  }

  class BrokerService {
    const brokerShell: BrokerShell
    var currentState: ServiceState
    var win32ExitCode: int
    var serviceSpecificExitCode: int
    var checkPoint: nat
    var nextCheckPoint: nat         // the static counter
    ghost var reports: seq<Report>  // what the service control manager has received

    constructor (brokerShell: BrokerShell)
      ensures this.brokerShell == brokerShell
      ensures View() == Console(1, [])
    {
      this.brokerShell := brokerShell;
      currentState, win32ExitCode, serviceSpecificExitCode, checkPoint := StartPending, 0, 0, 0;
      nextCheckPoint, reports := 1, [];
    }

    ghost function View(): Console
      reads this
    {
      Console(nextCheckPoint, reports)
    }

    method SetServiceStatus(state: ServiceState, win32Error: int, specificError: int, ghost reporter: Reporter)
      modifies this
      ensures View() == Reported(old(View()), state, reporter)
      ensures currentState == state && win32ExitCode == win32Error && serviceSpecificExitCode == specificError
      ensures reports == old(reports) + [Report(state, checkPoint, reporter)]
    {
      currentState := state;
      win32ExitCode := win32Error;
      serviceSpecificExitCode := specificError;
      if state == Running || state == Halted {
        checkPoint := 0;
      } else {
        checkPoint := nextCheckPoint;
        nextCheckPoint := (nextCheckPoint + 1) % TWO_32;
      }
      reports := reports + [Report(state, checkPoint, reporter)];
    }

    /** A network change asks for a restart with a cooldown; true means go on watching. */
    method ProcessAddrChanges(status: WaitStatus, nextOk: bool) returns (again: bool)
      modifies brokerShell
      ensures brokerShell.View() == NextShell(brokerShell.Load(), old(brokerShell.View()),
        if Requests(Waiting, Seen(status, nextOk)) then Some(Request(NETWORK_CHANGE_COOLDOWN_MS)) else None)
      ensures again <==> WatcherMove(Waiting, Seen(status, nextOk), false) == CheckingFlag
      ensures again <==> status == WaitTimeout || (status == WaitObject && nextOk)
      ensures brokerShell.View() ==
        if status == WaitObject then Next(brokerShell.Load(), old(brokerShell.View()), Request(5000))
        else old(brokerShell.View())
    {
      match status
      case WaitObject =>
        brokerShell.RequestRestart(NETWORK_CHANGE_COOLDOWN_MS);
        return nextOk;
      case WaitTimeout => return true;
      case WaitError => return false;
    }

    /** A change of the configuration file asks for a restart without cooldown. */
    method ProcessConfigChanges(handleValid: bool, status: WaitStatus, nextOk: bool) returns (again: bool)
      modifies brokerShell
      ensures var seen := if handleValid then Seen(status, nextOk) else Failed;
        && brokerShell.View() == NextShell(brokerShell.Load(), old(brokerShell.View()),
             if Requests(Waiting, seen) then Some(Request(0)) else None)
        && (again <==> WatcherMove(Waiting, seen, false) == CheckingFlag)
      ensures again <==> handleValid && (status == WaitTimeout || (status == WaitObject && nextOk))
      ensures brokerShell.View() ==
        if handleValid && status == WaitObject then Next(brokerShell.Load(), old(brokerShell.View()), Request(0))
        else old(brokerShell.View())
    {
      if !handleValid { return false; }
      match status {
        case WaitObject =>
          brokerShell.RequestRestart(0);
          if !nextOk { return false; }
        case WaitTimeout =>
        case WaitError => return false;
      }
      return true;
    }
  }
}
