/**
 * The D1 `jobs` table: one row per (migration user, workload).
 *
 * Each SQL statement is one atomic row update, written here as a function on the row.
 */
module Jobs {
  import opened Wrappers

  datatype Workload = Exchange | OneDrive

  datatype Status =
    | Queued | Provisioning | Running | BackingOff | DeltaPending | DeltaRunning
    | Completed | Cancelled | Paused
    | AuthExpired | PermissionRevoked | QuotaExceeded | Failed

  predicate Terminal(s: Status) {
    s in {Completed, Cancelled, AuthExpired, PermissionRevoked, QuotaExceeded, Failed}
  }

  /** A retry is accepted only from these. */
  predicate Retryable(s: Status) {
    s in {AuthExpired, PermissionRevoked, QuotaExceeded, Failed}
  }

  type JobId = nat
  type Time = int

  datatype Row = Row(
    user: nat,
    workload: Workload,
    status: Status,
    phaseText: Option<string>,
    progress: int,
    progressTotal: Option<int>,
    bytes: int,
    bytesTotal: Option<int>,
    deltaToken: Option<string>,
    checkpoint: Option<string>,
    attempts: nat,
    dispatchSeq: nat,
    deltaPasses: nat,
    lastProgressAt: Option<Time>,
    startedAt: Option<Time>,
    completedAt: Option<Time>,
    errorClass: Option<string>,
    errorDetail: Option<string>,
    createdAt: Time,
    updatedAt: Time)

  /** A progress report; the outer `None` of a nested option means that the field was not sent. */
  datatype Progress = Progress(
    status: Status,
    phaseText: Option<string>,
    progress: Option<int>,
    progressTotal: Option<Option<int>>,
    bytes: Option<int>,
    bytesTotal: Option<Option<int>>,
    deltaToken: Option<Option<string>>)

  /** A report of nothing but a status. */
  function StatusOnly(s: Status): Progress {
    Progress(s, None, None, None, None, None, None)
  }

  function Coalesce<T>(a: Option<T>, b: Option<T>): Option<T> {
    if a.Some? then a else b
  }

  function OrElse<T>(a: Option<T>, b: T): T {
    if a.Some? then a.value else b
  }

  // ----- the row updates, one per SQL statement -----

  function Inserted(user: nat, workload: Workload, seqNo: nat, now: Time): Row {
    Row(user, workload, Queued, None, 0, None, 0, None, None, None, 0, seqNo, 0, None, None, None, None, None, now, now)
  }

  /** The conflict branch of `create`: what earlier runs left is wiped, except the phase text. */
  function Reset(r: Row, now: Time): Row {
    Inserted(r.user, r.workload, r.dispatchSeq + 1, now).(phaseText := r.phaseText, createdAt := r.createdAt)
  }

  function WithStatus(r: Row, s: Status, errorClass: Option<string>, errorDetail: Option<string>, now: Time): Row {
    r.(status := s,
       errorClass := errorClass,
       errorDetail := errorDetail,
       startedAt := Coalesce(r.startedAt, if s in {Provisioning, Running} then Some(now) else r.startedAt),
       completedAt := if Terminal(s) then Some(now) else r.completedAt,
       updatedAt := now)
  }

  function WithProgress(r: Row, p: Progress, now: Time): Row {
    r.(status := p.status,
       phaseText := Coalesce(p.phaseText, r.phaseText),
       progress := OrElse(p.progress, r.progress),
       progressTotal := OrElse(p.progressTotal, r.progressTotal),
       bytes := OrElse(p.bytes, r.bytes),
       bytesTotal := OrElse(p.bytesTotal, r.bytesTotal),
       deltaToken := OrElse(p.deltaToken, r.deltaToken),
       startedAt := Coalesce(r.startedAt, Some(now)),
       lastProgressAt := Some(now),
       updatedAt := now)
  }

  function WithCheckpoint(r: Row, blob: string, progress: int, bytes: int, now: Time): Row {
    r.(checkpoint := Some(blob), progress := progress, bytes := bytes, updatedAt := now)
  }

  function Retried(r: Row, now: Time): Row {
    r.(status := Queued, attempts := r.attempts + 1, dispatchSeq := r.dispatchSeq + 1,
       errorClass := None, errorDetail := None, updatedAt := now)
  }

  function DeltaQueued(r: Row, now: Time): Row {
    r.(status := DeltaPending, dispatchSeq := r.dispatchSeq + 1, deltaPasses := r.deltaPasses + 1, updatedAt := now)
  }
}
