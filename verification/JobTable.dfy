/**
 * The jobs table as a state machine: every row is what its history of writes says it is, field by field.
 */
module JobTable {
  import opened Wrappers
  import opened Jobs

  /** A write to an existing row. */
  datatype Op =
    | Recreate(now: Time)
    | SetStatus(status: Status, errorClass: Option<string>, errorDetail: Option<string>, now: Time)
    | SetProgress(p: Progress, now: Time)
    | SetCheckpoint(blob: string, progress: int, bytes: int, now: Time)
    | Retry(now: Time)
    | Delta(now: Time)

  function ApplyOp(r: Row, op: Op): Row {
    match op
    case Recreate(now) => Reset(r, now)
    case SetStatus(st, errorClass, detail, now) => WithStatus(r, st, errorClass, detail, now)
    case SetProgress(p, now) => WithProgress(r, p, now)
    case SetCheckpoint(blob, progress, bytes, now) => WithCheckpoint(r, blob, progress, bytes, now)
    case Retry(now) => Retried(r, now)
    case Delta(now) => DeltaQueued(r, now)
  }

  function Init(ops: seq<Op>): seq<Op>
    requires ops != []
  {
    ops[..|ops| - 1]
  }

  function Last(ops: seq<Op>): Op
    requires ops != []
  {
    ops[|ops| - 1]
  }

  function RowAfter(r: Row, ops: seq<Op>): Row {
    if ops == [] then r else ApplyOp(RowAfter(r, Init(ops)), Last(ops))
  }

  lemma RowAfterMore(r: Row, ops: seq<Op>, op: Op)
    ensures RowAfter(r, ops + [op]) == ApplyOp(RowAfter(r, ops), op)
  {
    assert Init(ops + [op]) == ops;
  }

  lemma SameOwner(r: Row, op: Op)
    ensures
      var t := ApplyOp(r, op);
      t.user == r.user && t.workload == r.workload && t.createdAt == r.createdAt
  {
  }

  // ----- the fields, each read off the history -----

  /** The writes since the job was last created. */
  function SinceCreate(ops: seq<Op>): seq<Op> {
    if ops == [] || Last(ops).Recreate? then [] else SinceCreate(Init(ops)) + [Last(ops)]
  }

  function CountDispatches(ops: seq<Op>): nat {
    if ops == [] then 0
    else CountDispatches(Init(ops)) + if Last(ops).Recreate? || Last(ops).Retry? || Last(ops).Delta? then 1 else 0
  }

  function CountRetries(ops: seq<Op>): nat {
    if ops == [] then 0 else CountRetries(Init(ops)) + if Last(ops).Retry? then 1 else 0
  }

  function CountDeltas(ops: seq<Op>): nat {
    if ops == [] then 0 else CountDeltas(Init(ops)) + if Last(ops).Delta? then 1 else 0
  }

  predicate Starts(op: Op) {
    op.SetProgress? || (op.SetStatus? && op.status in {Provisioning, Running})
  }

  /** The time of the first write that starts the job. */
  function FirstStart(ops: seq<Op>): Option<Time> {
    if ops == [] then None else if Starts(ops[0]) then Some(ops[0].now) else FirstStart(ops[1..])
  }

  /** The time of the last status write that was terminal; a progress write is not one. */
  function LastEnd(ops: seq<Op>): Option<Time> {
    if ops == [] then None
    else if Last(ops).SetStatus? && Terminal(Last(ops).status) then Some(Last(ops).now)
    else LastEnd(Init(ops))
  }

  function LastProgressTime(ops: seq<Op>): Option<Time> {
    if ops == [] then None else if Last(ops).SetProgress? then Some(Last(ops).now) else LastProgressTime(Init(ops))
  }

  function LastStatus(ops: seq<Op>): Status {
    if ops == [] then Queued
    else match Last(ops)
      case SetStatus(st, _, _, _) => st
      case SetProgress(p, _) => p.status
      case SetCheckpoint(_, _, _, _) => LastStatus(Init(ops))
      case Delta(_) => DeltaPending
      case _ => Queued
  }

  /** A delta dispatch keeps the error of the pass before it. */
  function LastErrorClass(ops: seq<Op>): Option<string> {
    if ops == [] then None
    else if Last(ops).SetStatus? then Last(ops).errorClass
    else if Last(ops).Retry? then None
    else LastErrorClass(Init(ops))
  }

  function LastErrorDetail(ops: seq<Op>): Option<string> {
    if ops == [] then None
    else if Last(ops).SetStatus? then Last(ops).errorDetail
    else if Last(ops).Retry? then None
    else LastErrorDetail(Init(ops))
  }

  /** The phase text of the last report that carried one, in this life of the job or an earlier one. */
  function LastPhase(ops: seq<Op>): Option<string> {
    if ops == [] then None
    else if Last(ops).SetProgress? && Last(ops).p.phaseText.Some? then Last(ops).p.phaseText
    else LastPhase(Init(ops))
  }

  function LastToken(ops: seq<Op>): Option<string> {
    if ops == [] then None
    else if Last(ops).SetProgress? && Last(ops).p.deltaToken.Some? then Last(ops).p.deltaToken.value
    else LastToken(Init(ops))
  }

  function LastProgressTotal(ops: seq<Op>): Option<int> {
    if ops == [] then None
    else if Last(ops).SetProgress? && Last(ops).p.progressTotal.Some? then Last(ops).p.progressTotal.value
    else LastProgressTotal(Init(ops))
  }

  function LastBytesTotal(ops: seq<Op>): Option<int> {
    if ops == [] then None
    else if Last(ops).SetProgress? && Last(ops).p.bytesTotal.Some? then Last(ops).p.bytesTotal.value
    else LastBytesTotal(Init(ops))
  }

  function LastCheckpoint(ops: seq<Op>): Option<string> {
    if ops == [] then None
    else if Last(ops).SetCheckpoint? then Some(Last(ops).blob) else LastCheckpoint(Init(ops))
  }

  /** The progress counter is written by progress reports that carry it and by every checkpoint. */
  function LastCount(ops: seq<Op>): int {
    if ops == [] then 0
    else if Last(ops).SetProgress? then OrElse(Last(ops).p.progress, LastCount(Init(ops)))
    else if Last(ops).SetCheckpoint? then Last(ops).progress
    else LastCount(Init(ops))
  }

  function LastBytes(ops: seq<Op>): int {
    if ops == [] then 0
    else if Last(ops).SetProgress? then OrElse(Last(ops).p.bytes, LastBytes(Init(ops)))
    else if Last(ops).SetCheckpoint? then Last(ops).bytes
    else LastBytes(Init(ops))
  }

  lemma {:induction false} FirstStartLater(ops: seq<Op>, op: Op)
    ensures
      FirstStart(ops + [op]) ==
      if FirstStart(ops).Some? then FirstStart(ops) else if Starts(op) then Some(op.now) else None
  {
    if ops == [] {
      assert (ops + [op])[1..] == [];
    } else {
      assert (ops + [op])[1..] == ops[1..] + [op];
      FirstStartLater(ops[1..], op);
    }
  }

  /** What the recent writes say, on top of what survives a new creation. */
  function FromHistory(first: Row, ops: seq<Op>): Row {
    var recent := SinceCreate(ops);
    Row(first.user, first.workload, LastStatus(recent), LastPhase(ops), LastCount(recent), LastProgressTotal(recent),
        LastBytes(recent), LastBytesTotal(recent), LastToken(recent), LastCheckpoint(recent), CountRetries(recent),
        first.dispatchSeq + CountDispatches(ops), CountDeltas(recent), LastProgressTime(recent), FirstStart(recent),
        LastEnd(recent), LastErrorClass(recent), LastErrorDetail(recent), first.createdAt,
        if ops == [] then first.updatedAt else Last(ops).now)
  }

  /**
   * Every field of a row, from its history alone: the sequence number counts all dispatches and the
   * phase text is the last one ever sent; everything else forgets what happened before the job was
   * last created.
   */
  lemma {:induction false} RowIsHistory(user: nat, workload: Workload, seqNo: nat, created: Time, ops: seq<Op>)
    ensures
      var r := Inserted(user, workload, seqNo, created);
      RowAfter(r, ops) == FromHistory(r, ops)
  {
    if ops != [] {
      var first := Inserted(user, workload, seqNo, created);
      RowIsHistory(user, workload, seqNo, created, Init(ops));
      if Last(ops).Recreate? {
        RecreateIsHistory(first, ops);
      } else {
        WriteIsHistory(first, ops);
      }
    }
  }

  /** Creating again wipes what the writes since the last creation have left. */
  lemma RecreateIsHistory(first: Row, ops: seq<Op>)
    requires ops != [] && Last(ops).Recreate?
    ensures FromHistory(first, ops) == ApplyOp(FromHistory(first, Init(ops)), Last(ops))
  {
    assert SinceCreate(ops) == [];
  }

  lemma WriteIsHistory(first: Row, ops: seq<Op>)
    requires ops != [] && !Last(ops).Recreate?
    ensures FromHistory(first, ops) == ApplyOp(FromHistory(first, Init(ops)), Last(ops))
  {
    var before := SinceCreate(Init(ops));
    var recent := SinceCreate(ops);
    assert recent == before + [Last(ops)] && Init(recent) == before && Last(recent) == Last(ops);
    FirstStartLater(before, Last(ops));
  }

  /** The end stamp survives a retry: a running job can carry the end of the attempt before. */
  lemma RetryKeepsEndStamp(r: Row, now: Time, later: Time)
    ensures
      var t := RowAfter(r, [SetStatus(Failed, None, None, now), Retry(now), SetStatus(Running, None, None, later)]);
      t.status == Running && t.completedAt == Some(now)
  {
    var ops := [SetStatus(Failed, None, None, now), Retry(now), SetStatus(Running, None, None, later)];
    RowAfterMore(r, [], ops[0]);
    RowAfterMore(r, ops[..1], ops[1]);
    RowAfterMore(r, ops[..2], ops[2]);
    assert [] + [ops[0]] == ops[..1] && ops[..1] + [ops[1]] == ops[..2] && ops[..2] + [ops[2]] == ops;
  }

  /** A job created again still shows the phase text of its earlier life. */
  lemma RecreateKeepsPhaseText(r: Row, text: string, now: Time, later: Time)
    ensures
      var report := StatusOnly(Running).(phaseText := Some(text));
      var t := RowAfter(r, [SetProgress(report, now), Recreate(later)]);
      t.status == Queued && t.phaseText == Some(text)
  {
    var report := StatusOnly(Running).(phaseText := Some(text));
    var ops := [SetProgress(report, now), Recreate(later)];
    RowAfterMore(r, [], ops[0]);
    RowAfterMore(r, ops[..1], ops[1]);
    assert [] + [ops[0]] == ops[..1] && ops[..1] + [ops[1]] == ops;
  }

  // ----- the table -----

  ghost predicate Unique(rows: map<JobId, Row>) {
    forall a, b |
      a in rows && b in rows && rows[a].user == rows[b].user && rows[a].workload == rows[b].workload ::
      a == b
  }

  /** A row is what its writes make of the row that was inserted. */
  predicate RowFollows(row: Row, first: Row, ops: seq<Op>) {
    && first == Inserted(row.user, row.workload, first.dispatchSeq, row.createdAt)
    && row == RowAfter(first, ops)
  }

  /** So is every row of the table. */
  ghost predicate FollowsHistory(rows: map<JobId, Row>, first: map<JobId, Row>, history: map<JobId, seq<Op>>) {
    && rows.Keys == first.Keys == history.Keys
    && forall id | id in rows :: RowFollows(rows[id], first[id], history[id])
  }

  /** An update of one row: `WHERE id = ?` touches nothing if there is none. */
  function Updated(rows: map<JobId, Row>, id: JobId, op: Op): map<JobId, Row> {
    if id in rows then rows[id := ApplyOp(rows[id], op)] else rows
  }

  lemma RowFollowsOn(row: Row, first: Row, ops: seq<Op>, op: Op)
    requires RowFollows(row, first, ops)
    ensures RowFollows(ApplyOp(row, op), first, ops + [op])
  {
    SameOwner(row, op);
    RowAfterMore(first, ops, op);
  }

  lemma UpdateFollows(rows: map<JobId, Row>, first: map<JobId, Row>, history: map<JobId, seq<Op>>, id: JobId, op: Op)
    requires id in rows && FollowsHistory(rows, first, history)
    ensures FollowsHistory(Updated(rows, id, op), first, history[id := history[id] + [op]])
  {
    RowFollowsOn(rows[id], first[id], history[id], op);
  }

  lemma UpdateUnique(rows: map<JobId, Row>, id: JobId, op: Op)
    requires id in rows && Unique(rows)
    ensures Unique(Updated(rows, id, op))
  {
    SameOwner(rows[id], op);
  }

  class Table {
    var rows: map<JobId, Row>
    ghost var first: map<JobId, Row>  // each row as it was inserted
    ghost var history: map<JobId, seq<Op>>

    ghost predicate Valid()
      reads this
    {
      Unique(rows) && FollowsHistory(rows, first, history)
    }

    constructor ()
      ensures Valid() && rows == map[]
    {
      rows, first, history := map[], map[], map[];
    }

    /** All updates share this: the row, if there is one, and its history move together. */
    method Update(id: JobId, op: Op) returns (found: bool)
      requires Valid()
      modifies this
      ensures Valid()
      ensures found == (id in old(rows)) && rows == Updated(old(rows), id, op)
      ensures first == old(first)
      ensures history == if found then old(history)[id := old(history)[id] + [op]] else old(history)
    {
      found := id in rows;
      if found {
        UpdateFollows(rows, first, history, id, op);
        UpdateUnique(rows, id, op);
        rows := Updated(rows, id, op);
        history := history[id := history[id] + [op]];
      }
    }

    /** The row of a user and workload, if any; the unique constraint makes it the only one. */
    method Find(user: nat, workload: Workload) returns (r: Option<JobId>)
      requires Valid()
      ensures r.Some? ==> r.value in rows && rows[r.value].user == user && rows[r.value].workload == workload
      ensures r.None? ==> forall id | id in rows :: rows[id].user != user || rows[id].workload != workload
    {
      var left := rows.Keys;
      while left != {}
        invariant left <= rows.Keys
        invariant forall id | id in rows && id !in left :: rows[id].user != user || rows[id].workload != workload
        decreases |left|
      {
        var id :| id in left;
        if rows[id].user == user && rows[id].workload == workload { return Some(id); }
        left := left - {id};
      }
      r := None;
    }

    /** Insert, or on conflict reset the one row of this user and workload; its id and sequence number are returned. */
    method Create(user: nat, workload: Workload, newId: JobId, firstSeq: nat, now: Time) returns (id: JobId, seqNo: nat)
      requires Valid() && newId !in rows
      modifies this
      ensures Valid() && id in rows
      ensures rows[id].user == user && rows[id].workload == workload && rows[id].dispatchSeq == seqNo
      ensures
        if id in old(rows) then rows == Updated(old(rows), id, Recreate(now))
        else id == newId && rows == old(rows)[id := Inserted(user, workload, firstSeq, now)]
      ensures id in old(rows) <==>
        exists k :: k in old(rows) && old(rows)[k].user == user && old(rows)[k].workload == workload
    {
      var found := Find(user, workload);
      if found.Some? {
        id := found.value;
        var _ := Update(id, Recreate(now));
      } else {
        id := newId;
        rows := rows[id := Inserted(user, workload, firstSeq, now)];
        first, history := first[id := rows[id]], history[id := []];
      }
      seqNo := rows[id].dispatchSeq;
    }

    method UpdateStatus(id: JobId, status: Status, errorClass: Option<string>, errorDetail: Option<string>, now: Time)
      requires Valid()
      modifies this
      ensures Valid() && rows == Updated(old(rows), id, SetStatus(status, errorClass, errorDetail, now))
    {
      var _ := Update(id, SetStatus(status, errorClass, errorDetail, now));
    }

    method UpdateProgress(id: JobId, p: Progress, now: Time)
      requires Valid()
      modifies this
      ensures Valid() && rows == Updated(old(rows), id, SetProgress(p, now))
    {
      var _ := Update(id, SetProgress(p, now));
    }

    method UpdateCheckpoint(id: JobId, blob: string, progress: int, bytes: int, now: Time)
      requires Valid()
      modifies this
      ensures Valid() && rows == Updated(old(rows), id, SetCheckpoint(blob, progress, bytes, now))
    {
      var _ := Update(id, SetCheckpoint(blob, progress, bytes, now));
    }

    /** The new sequence number, or 0 if there is no such job. */
    method PrepareRetry(id: JobId, now: Time) returns (seqNo: nat)
      requires Valid()
      modifies this
      ensures Valid() && rows == Updated(old(rows), id, Retry(now))
      ensures seqNo == if id in old(rows) then old(rows)[id].dispatchSeq + 1 else 0
    {
      var found := Update(id, Retry(now));
      seqNo := if found then rows[id].dispatchSeq else 0;
    }

    method PrepareDelta(id: JobId, now: Time) returns (seqNo: nat)
      requires Valid()
      modifies this
      ensures Valid() && rows == Updated(old(rows), id, Delta(now))
      ensures seqNo == if id in old(rows) then old(rows)[id].dispatchSeq + 1 else 0
    {
      var found := Update(id, Delta(now));
      seqNo := if found then rows[id].dispatchSeq else 0;
    }
  }
}
