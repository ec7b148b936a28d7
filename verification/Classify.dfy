/** Exit classification (`crates/openvhost-proc/src/state.rs`). */
module Classify {
  import opened Prelude
  import opened Events

  /** How a reaped process ended. */
  datatype ExitStatus = Code(code: int) | Signal
  {
    predicate Success() {
      this == Code(0)
    }

    function CodeOf(): Option<int> {
      match this
      case Code(c) => Some(c)
      case Signal => None
    }
  }

  /** Which of the two terminal paths a run took. */
  datatype Finish = Plain | NeverReady

  function ClassifyExit(stopRequested: bool, status: Option<ExitStatus>, stderrTail: seq<string>): ServiceState {
    if stopRequested then Stopped
    else match status
      case Some(s) => if s.Success() then Stopped else Failed(s.CodeOf(), stderrTail)
      case None => Failed(None, stderrTail)
  }

  function ClassifyExitDuringProbe(stopRequested: bool, status: Option<ExitStatus>, stderrTail: seq<string>)
    : ServiceState
  {
    if stopRequested then Stopped
    else Failed(match status case Some(s) => s.CodeOf() case None => None, stderrTail)
  }

  function Verdict(fin: Finish, stopRequested: bool, status: Option<ExitStatus>, stderrTail: seq<string>)
    : ServiceState
  {
    match fin
    case Plain => ClassifyExit(stopRequested, status, stderrTail)
    case NeverReady => ClassifyExitDuringProbe(stopRequested, status, stderrTail)
  }
}
