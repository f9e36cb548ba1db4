/**
 * What the outside world does to a migrator.  Every request is answered, answered by an exception, or
 * cut short because the process is killed; in the last two cases it may still have taken effect.
 */
module Replies {
  import opened Jobs

  /** Exceptions as `_handle` tells them apart; Graph carries the terminal status it maps to. */
  datatype Exn = Throttled | Graph(status: Status) | ControlPlane | Other

  datatype Reply = Ok | Fail(exn: Exn, applied: bool) | Kill(applied: bool)

  predicate TookEffect(r: Reply) {
    r.Ok? || r.applied
  }

  datatype Exit = Go | Raised(exn: Exn) | Killed

  /** Of a Graph request. */
  function GraphExit(r: Reply): Exit {
    match r
    case Ok => Go
    case Fail(exn, _) => Raised(exn)
    case Kill(_) => Killed
  }

  /** Of a control-plane request: whatever it raises is not a Graph error. */
  function ControlExit(r: Reply): Exit {
    match r
    case Ok => Go
    case Fail(exn, _) => Raised(if exn == ControlPlane then ControlPlane else Other)
    case Kill(_) => Killed
  }

  /** One try at copying or importing an item; `Transient` is what is retried, `auth` a rejected token. */
  datatype Attempt = Succeeded | Transient(auth: bool) | Fatal(status: Status) | Unexpected | Dead

  /** One heartbeat: is the checkpoint due, how do its requests end, does its poll see a cancellation. */
  datatype Beat = Beat(flushDue: bool, flush: Reply, items: Reply, cancelSeen: bool, progress: Reply)
}
