/**
 * The dispatch / lease / status protocol between the control plane and the one engine.
 *
 * A step is what happens between two awaits.  The UI plane writes a job row and only then
 * sends the dispatch message, so a written but unsent message is `owed`.  The queue delivers
 * at least once: any un-acked message may be claimed (again), whatever became of its lease.
 * Every engine request may be applied and yet raise (the response is lost), and the engine
 * may crash between any two steps.
 */
module Protocol {
  import opened Wrappers
  import opened Jobs
  import opened Replies

  datatype Pass = Full | Delta

  /** A job dispatch message.  `dispatchSeq` is the row's after the write that caused it. */
  datatype Msg = Msg(job: JobId, pass: Pass, dispatchSeq: nat)

  predicate GraphStatus(s: Status) {
    s in {AuthExpired, PermissionRevoked, QuotaExceeded, Failed}
  }

  /** Where an ack is issued from. */
  datatype Site = Stale | Normal | AfterGraphError | AfterLastResort

  /** The engine, suspended at the await it is named after. */
  datatype Engine =
    | Down
    | Idle
    | Configuring(m: Msg)                // get_config
    | Fetching(m: Msg)                   // resume_job
    | Releasing(m: Msg)                  // queue.retry
    | Warming(m: Msg)                    // ensure_tenant_id
    | Starting(m: Msg)                   // update_status(running)
    | Working(m: Msg)                    // inside the migrator
    | Flushing(m: Msg, final: Status)    // store.flush, the migrator has returned `final`
    | Finishing(m: Msg, st: Status)      // update_status(cancelled or final)
    | Acking(m: Msg, site: Site)         // queue.ack
    | BackingOffWrite(m: Msg)            // report_progress(backing_off), suppressed
    | GraphFlushing(m: Msg, st: Status)  // flush_items and store.flush, suppressed
    | GraphFailing(m: Msg, st: Status)   // update_status(exc.job_status)
    | LastResort(m: Msg)                 // update_status(failed), suppressed

  /** A message is in hand. */
  predicate Held(e: Engine) { !e.Down? && !e.Idle? }

  datatype Event =
    | Claimed(m: Msg)
    | ReadStatus(job: JobId, st: Status)
    | WroteStatus(job: JobId, st: Status)
    | TriedLastResort(job: JobId)
    | Acked(m: Msg, site: Site)

  datatype State = State(
    rows: map<JobId, Row>,
    queue: set<Msg>,            // un-acked messages, leased or not
    owed: set<Msg>,             // row written, send still to come
    retryChecked: multiset<JobId>,  // retry requests between their status check and their write
    engine: Engine,
    stop: bool,                 // the stop event
    cancelled: bool,            // ctx.cancelled of the job in hand
    now: Time,
    log: seq<Event>)            // history, read by no step

  datatype Label =
    | UiCreate(user: nat, workload: Workload, id: JobId)
    | UiCancel(job: JobId)
    | UiRetryCheck(job: JobId)
    | UiRetry(job: JobId)
    | UiDelta(job: JobId)
    | UiSend(m: Msg)
    | Tick(now: Time)
    | RequestStop
    | Crash
    | Restart
    | Exit
    | Claim(m: Msg)
    | Await                               // the pending request succeeds and changes no status
    | Write(applied: bool, ok: bool)      // a pending status or progress write
    | CancelCheck
    | Return(final: Status)
    | DoAck(applied: bool, ok: bool)
    | Raise(exn: Exn)                     // the pending request raises and changed nothing

  function Init(): State {
    State(map[], {}, {}, multiset{}, Down, false, false, 0, [])
  }

  function RunningStatus(m: Msg): Status {
    if m.pass.Delta? then DeltaRunning else Running
  }

  // ----- control plane -----

  predicate SameOwner(r: Row, user: nat, workload: Workload) {
    r.user == user && r.workload == workload
  }

  /** The unique row of a user and workload, if `id` names it; otherwise `id` must be fresh. */
  predicate CreateTarget(rows: map<JobId, Row>, user: nat, workload: Workload, id: JobId) {
    if id in rows then SameOwner(rows[id], user, workload)
    else forall k | k in rows :: !SameOwner(rows[k], user, workload)
  }

  function Dispatched(s: State, id: JobId, row: Row, pass: Pass): State {
    s.(rows := s.rows[id := row], owed := s.owed + {Msg(id, pass, row.dispatchSeq)})
  }

  /** Only the row of `id` differs, and not in its dispatch_seq. */
  predicate SameButRow(s: State, t: State, id: JobId) {
    && t.queue == s.queue && t.owed == s.owed && t.stop == s.stop && t.cancelled == s.cancelled
    && t.rows.Keys == s.rows.Keys
    && (forall j | j in s.rows && j != id :: t.rows[j] == s.rows[j])
    && (id in s.rows ==> t.rows[id].dispatchSeq == s.rows[id].dispatchSeq)
  }

  function SetRow(s: State, id: JobId, row: Row): State {
    s.(rows := s.rows[id := row])
  }

  // ----- exceptions -----

  /** The awaits inside the `try` of `_handle`. */
  predicate InTry(e: Engine) {
    e.Warming? || e.Starting? || e.Working? || e.Flushing? || e.Finishing? || (e.Acking? && e.site == Normal)
  }

  function CatchTry(m: Msg, exn: Exn): Engine {
    match exn
    case Throttled => BackingOffWrite(m)
    case Graph(st) => GraphFlushing(m, st)
    case _ => LastResort(m)
  }

  function Catch(e: Engine, exn: Exn): Engine
    requires Held(e)
  {
    if InTry(e) then CatchTry(e.m, exn)
    else match e
      case Fetching(m) => if exn.ControlPlane? then Releasing(m) else Idle
      case BackingOffWrite(m) => Releasing(m)
      case GraphFlushing(m, st) => GraphFailing(m, st)
      case LastResort(m) => Acking(m, AfterLastResort)
      case _ => Idle  // out of _handle, caught by the loop of run
  }

  /** The three-way branch after the migrator returned and the checkpoint was flushed. */
  function Branch(s: State, m: Msg, final: Status): Engine {
    if s.cancelled then Finishing(m, Cancelled)
    else if s.stop && final != Completed then Idle
    else Finishing(m, final)
  }

  // ----- steps -----

  predicate Enabled(s: State, l: Label) {
    match l
    case UiCreate(user, workload, id) => CreateTarget(s.rows, user, workload, id)
    case UiCancel(job) => job in s.rows
    case UiRetryCheck(job) => job in s.rows && Retryable(s.rows[job].status)
    case UiRetry(job) => job in s.retryChecked && job in s.rows
    case UiDelta(job) => job in s.rows
    case UiSend(m) => m in s.owed
    case Tick(now) => s.now <= now
    case RequestStop => !s.engine.Down?
    case Crash => !s.engine.Down?
    case Restart => s.engine.Down?
    case Exit => s.engine.Idle? && s.stop
    case Claim(m) => s.engine.Idle? && !s.stop && m in s.queue
    case Await =>
      s.engine.Configuring? || s.engine.Fetching? || s.engine.Releasing? || s.engine.Warming? ||
      s.engine.Flushing? || s.engine.GraphFlushing?
    case Write(applied, ok) => Writing(s.engine) && (ok ==> applied)
    case CancelCheck => s.engine.Working? && s.engine.m.job in s.rows
    case Return(final) =>
      s.engine.Working? && s.engine.m.job in s.rows &&
      (final == Completed ||
       (final == RunningStatus(s.engine.m) && s.rows[s.engine.m.job].workload == Exchange && (s.stop || s.cancelled)))
    case DoAck(applied, ok) => s.engine.Acking?
    case Raise(exn) =>
      Held(s.engine) &&
      // only Graph calls, made inside the migrator, raise Graph errors
      (exn.Throttled? || exn.Graph? ==> s.engine.Working?) &&
      (exn.Graph? ==> GraphStatus(exn.status))
  }

  function AwaitDone(s: State): State
    requires Enabled(s, Await)
  {
    var e := s.engine;
    if e.Configuring? then s.(engine := Fetching(e.m))
    else if e.Fetching? then Fetched(s, e.m)
    else if e.Warming? then s.(engine := Starting(e.m))
    else if e.Flushing? then s.(engine := Branch(s, e.m, e.final))
    else if e.GraphFlushing? then s.(engine := GraphFailing(e.m, e.st))
    else s.(engine := Idle)  // Releasing
  }

  /** The row has been read: a terminal one means a stale dispatch, otherwise a new context starts. */
  function Fetched(s: State, m: Msg): State {
    if m.job !in s.rows then s.(engine := Releasing(m))
    else
      var st := s.rows[m.job].status;
      s.(engine := if Terminal(st) then Acking(m, Stale) else Warming(m), cancelled := false)
  }

  predicate Writing(e: Engine) {
    e.Starting? || e.Working? || e.Finishing? || e.BackingOffWrite? || e.GraphFailing? || e.LastResort?
  }

  function WrittenStatus(e: Engine): Status
    requires Writing(e)
  {
    if e.Starting? || e.Working? then RunningStatus(e.m)
    else if e.BackingOffWrite? then BackingOff
    else if e.LastResort? then Failed
    else e.st
  }

  /** Inside the migrator and when backing off it is a progress write, elsewhere a status write. */
  function WrittenRow(r: Row, e: Engine, now: Time): Row
    requires Writing(e)
  {
    if e.Working? || e.BackingOffWrite?
    then WithProgress(r, StatusOnly(WrittenStatus(e)), now)
    else
      var error := if e.GraphFailing? || e.LastResort? then Some("error") else None;
      WithStatus(r, WrittenStatus(e), error, error, now)
  }

  function AfterWrite(e: Engine, ok: bool): Engine
    requires Writing(e)
  {
    if e.BackingOffWrite? then Releasing(e.m)
    else if e.LastResort? then Acking(e.m, AfterLastResort)
    else if !ok then Catch(e, Other)
    else if e.Finishing? then Acking(e.m, Normal)
    else if e.GraphFailing? then Acking(e.m, AfterGraphError)
    else Working(e.m)
  }

  function WriteDone(s: State, applied: bool, ok: bool): (t: State)
    requires Writing(s.engine)
    ensures SameButRow(s, t, s.engine.m.job)
  {
    var e := s.engine;
    var id := e.m.job;
    var t := if applied && id in s.rows then SetRow(s, id, WrittenRow(s.rows[id], e, s.now)) else s;
    t.(engine := AfterWrite(e, ok))
  }

  /** What a step adds to the history. */
  function EventsOf(s: State, l: Label): (es: seq<Event>)
    requires Enabled(s, l)
  {
    var e := s.engine;
    if l.Claim? then [Claimed(l.m)]
    else if l.Await? && e.Fetching? && e.m.job in s.rows then [ReadStatus(e.m.job, s.rows[e.m.job].status)]
    else if (l.Write? || l.Raise?) && e.LastResort? then [TriedLastResort(e.m.job)]
    else if l.Write? && l.applied then [WroteStatus(e.m.job, WrittenStatus(e))]
    else if l.DoAck? then [Acked(e.m, e.site)]
    else []
  }

  function Apply(s: State, l: Label): State
    requires Enabled(s, l)
  {
    Move(s, l).(log := s.log + EventsOf(s, l))
  }

  function Move(s: State, l: Label): State
    requires Enabled(s, l)
  {
    match l
    case UiCreate(user, workload, id) =>
      Dispatched(s, id, if id in s.rows then Reset(s.rows[id], s.now) else Inserted(user, workload, 1, s.now), Full)
    case UiCancel(job) => SetRow(s, job, WithStatus(s.rows[job], Cancelled, None, None, s.now))
    case UiRetryCheck(job) => s.(retryChecked := s.retryChecked + multiset{job})
    case UiRetry(job) =>
      Dispatched(s, job, Retried(s.rows[job], s.now), Full).(retryChecked := s.retryChecked - multiset{job})
    case UiDelta(job) => Dispatched(s, job, DeltaQueued(s.rows[job], s.now), Delta)
    case UiSend(m) => s.(owed := s.owed - {m}, queue := s.queue + {m})
    case Tick(now) => s.(now := now)
    case RequestStop => s.(stop := true)
    case Crash => s.(engine := Down)
    case Restart => s.(engine := Idle, stop := false)
    case Exit => s.(engine := Down)
    case Claim(m) => s.(engine := Configuring(m))
    case Await => AwaitDone(s)
    case Write(applied, ok) => WriteDone(s, applied, ok)
    case CancelCheck =>
      s.(cancelled := s.cancelled || Terminal(s.rows[s.engine.m.job].status))
    case Return(final) => s.(engine := Flushing(s.engine.m, final))
    case DoAck(applied, ok) =>
      (if applied then s.(queue := s.queue - {s.engine.m}) else s)
        .(engine := if ok then Idle else Catch(s.engine, Other))
    case Raise(exn) => s.(engine := Catch(s.engine, exn))
  }

  /** The one failure the design leaves uncovered: the last-resort write itself fails. */
  predicate LastResortLost(s: State, l: Label) {
    s.engine.LastResort? && (l.Raise? || (l.Write? && !l.applied))
  }

  /** A run from the initial state, growing at the end. */
  datatype Run = Start | Then(prev: Run, last: Label)

  predicate Valid(r: Run)
    decreases r, 0
  {
    r.Start? || (Valid(r.prev) && Enabled(End(r.prev), r.last))
  }

  function End(r: Run): State
    requires Valid(r)
    decreases r, 1
  {
    if r.Start? then Init() else Apply(End(r.prev), r.last)
  }

  /** Every last-resort write reached the table. */
  predicate LastResortHolds(r: Run)
    requires Valid(r)
  {
    r.Start? || (LastResortHolds(r.prev) && !LastResortLost(End(r.prev), r.last))
  }

  // ----- the safety property and its invariant -----

  predicate Dispatchable(s: State, j: JobId) {
    exists m :: m in s.queue + s.owed && m.job == j
  }

  /** A job somebody waits for that nothing will ever pick up. */
  predicate Stranded(s: State, j: JobId) {
    j in s.rows && !Terminal(s.rows[j].status) && !Dispatchable(s, j)
  }

  /** The job needs no message, or has one other than `m`. */
  predicate SafeWithout(s: State, m: Msg) {
    m.job in s.rows &&
    (Terminal(s.rows[m.job].status) || exists x :: x in s.queue + s.owed && x.job == m.job && x != m)
  }

  predicate MsgInv(s: State) {
    && s.queue !! s.owed
    && forall m | m in s.queue + s.owed :: m.job in s.rows && m.dispatchSeq <= s.rows[m.job].dispatchSeq
  }

  /** What the await alone says about the message in hand and the flags. */
  predicate ControlInv(s: State) {
    var e := s.engine;
    Held(e) ==>
      && e.m.job in s.rows
      && e.m.dispatchSeq <= s.rows[e.m.job].dispatchSeq
      && e.m !in s.owed
      && (e.Flushing? ==> e.final == Completed || s.stop || s.cancelled)
      && (e.Finishing? ==> e.st == if s.cancelled then Cancelled else Completed)
      && (e.GraphFlushing? || e.GraphFailing? ==> GraphStatus(e.st))
  }

  /** Holds in every run. */
  predicate Base(s: State) {
    MsgInv(s) && ControlInv(s)
  }

  /** The message in hand is still in the queue, unless its job no longer needs it. */
  predicate HandSafe(s: State) {
    var e := s.engine;
    Held(e) ==>
      if e.Acking? then SafeWithout(s, e.m)
      else if e.LastResort? then e.m in s.queue || SafeWithout(s, e.m)
      else e.m in s.queue
  }

  predicate NoneStranded(s: State) {
    forall j | j in s.rows :: Terminal(s.rows[j].status) || Dispatchable(s, j)
  }

  predicate Inv(s: State) {
    Base(s) && NoneStranded(s) && HandSafe(s)
  }

  // ----- every step keeps the invariant -----

  predicate UiLabel(l: Label) {
    l.UiCreate? || l.UiCancel? || l.UiRetryCheck? || l.UiRetry? || l.UiDelta? || l.UiSend?
  }

  lemma UiKeepsBase(s: State, l: Label)
    requires Base(s) && Enabled(s, l) && UiLabel(l)
    ensures Base(Apply(s, l))
  {
  }

  lemma EngineKeepsBase(s: State, l: Label)
    requires Base(s) && Enabled(s, l) && !UiLabel(l)
    ensures Base(Apply(s, l))
  {
    if l.Write? {
      RewriteKeepsMsgs(s, Apply(s, l), s.engine.m.job);
      WriteKeepsControl(s, l.applied, l.ok);
    } else {
      RereadKeepsMsgs(s, Apply(s, l));
      if l.Await? {
        AwaitKeepsControl(s);
      } else if l.Raise? || l.DoAck? {
        FailKeepsControl(s, l);
      } else {
        MoveKeepsControl(s, l);
      }
    }
  }

  lemma AwaitKeepsControl(s: State)
    requires Base(s) && Enabled(s, Await)
    ensures ControlInv(Apply(s, Await))
  {
  }

  lemma FailKeepsControl(s: State, l: Label)
    requires Base(s) && Enabled(s, l) && (l.Raise? || l.DoAck?)
    ensures ControlInv(Apply(s, l))
  {
  }

  lemma MoveKeepsControl(s: State, l: Label)
    requires Base(s) && Enabled(s, l) && !UiLabel(l) && !l.Write? && !l.Await? && !l.Raise? && !l.DoAck?
    ensures ControlInv(Apply(s, l))
  {
  }

  lemma RewriteKeepsMsgs(s: State, t: State, j: JobId)
    requires MsgInv(s) && SameButRow(s, t, j)
    ensures MsgInv(t)
  {
  }

  lemma RereadKeepsMsgs(s: State, t: State)
    requires MsgInv(s) && t.rows == s.rows && t.owed == s.owed && t.queue <= s.queue
    ensures MsgInv(t)
  {
  }

  lemma WriteKeepsControl(s: State, applied: bool, ok: bool)
    requires ControlInv(s) && Enabled(s, Write(applied, ok))
    ensures ControlInv(Apply(s, Write(applied, ok)))
  {
    var t := WriteDone(s, applied, ok);
    assert SameButRow(s, t, s.engine.m.job);
  }

  lemma StepKeepsBase(s: State, l: Label)
    requires Base(s) && Enabled(s, l)
    ensures Base(Apply(s, l))
  {
    if UiLabel(l) { UiKeepsBase(s, l); } else { EngineKeepsBase(s, l); }
  }

  lemma DispatchKeeps(s: State, id: JobId, row: Row, pass: Pass)
    requires Inv(s)
    requires id in s.rows ==> row.dispatchSeq == s.rows[id].dispatchSeq + 1
    requires id in s.rows ==> row.workload == s.rows[id].workload
    ensures NoneStranded(Dispatched(s, id, row, pass)) && HandSafe(Dispatched(s, id, row, pass))
  {
    var t := Dispatched(s, id, row, pass);
    var added := Msg(id, pass, row.dispatchSeq);
    assert added in t.owed;
    forall j | j in t.rows ensures Terminal(t.rows[j].status) || Dispatchable(t, j) {
      if j != id && !Terminal(s.rows[j].status) {
        var m :| m in s.queue + s.owed && m.job == j;
        assert m in t.queue + t.owed;
      }
    }
    if Held(s.engine) && SafeWithout(s, s.engine.m) {
      StaysSafe(s, t, s.engine.m, added);
    }
  }

  lemma StaysSafe(s: State, t: State, m: Msg, added: Msg)
    requires SafeWithout(s, m)
    requires s.queue + s.owed + {added} == t.queue + t.owed
    requires m.job in t.rows && added != m
    requires added.job != m.job ==> t.rows[m.job] == s.rows[m.job]
    ensures SafeWithout(t, m)
  {
    if added.job == m.job {
      assert added in t.queue + t.owed;
    } else if !Terminal(s.rows[m.job].status) {
      var x :| x in s.queue + s.owed && x.job == m.job && x != m;
      assert x in t.queue + t.owed;
    }
  }

  /** Replacing a row by one that is terminal, or whose job is still dispatchable. */
  lemma RewriteKeeps(s: State, t: State, j: JobId)
    requires NoneStranded(s) && j in s.rows && SameButRow(s, t, j)
    requires Terminal(t.rows[j].status) || Dispatchable(s, j)
    ensures NoneStranded(t)
    ensures forall m | SafeWithout(s, m) && (m.job == j ==> Terminal(t.rows[j].status)) :: SafeWithout(t, m)
  {
    forall k | k in t.rows ensures Terminal(t.rows[k].status) || Dispatchable(t, k) {
      if !Terminal(t.rows[k].status) {
        assert Dispatchable(s, k);
      }
    }
  }

  lemma AckKeeps(s: State, applied: bool, ok: bool)
    requires Inv(s) && Enabled(s, DoAck(applied, ok))
    ensures NoneStranded(Apply(s, DoAck(applied, ok))) && HandSafe(Apply(s, DoAck(applied, ok)))
  {
    var m := s.engine.m;
    var t := Apply(s, DoAck(applied, ok));
    assert SafeWithout(s, m);
    forall j | j in t.rows ensures Terminal(t.rows[j].status) || Dispatchable(t, j) {
      if !Terminal(s.rows[j].status) {
        var x :| x in s.queue + s.owed && x.job == j && x != m;
        assert x in t.queue + t.owed;
      }
    }
    if !Terminal(s.rows[m.job].status) {
      var x :| x in s.queue + s.owed && x.job == m.job && x != m;
      assert x in t.queue + t.owed;
    }
    assert SafeWithout(t, m);
  }

  lemma WriteKeeps(s: State, applied: bool, ok: bool)
    requires Inv(s) && Enabled(s, Write(applied, ok)) && !LastResortLost(s, Write(applied, ok))
    ensures NoneStranded(Apply(s, Write(applied, ok))) && HandSafe(Apply(s, Write(applied, ok)))
  {
    var t := Apply(s, Write(applied, ok));
    var m := s.engine.m;
    if applied {
      if !s.engine.LastResort? {
        assert m in s.queue + s.owed;
      }
      RewriteKeeps(s, t, m.job);
    }
  }

  lemma UiKeeps(s: State, l: Label)
    requires Inv(s) && Enabled(s, l)
    requires UiLabel(l)
    ensures NoneStranded(Apply(s, l)) && HandSafe(Apply(s, l))
  {
    var t := Apply(s, l);
    if l.UiCreate? {
      var row := if l.id in s.rows then Reset(s.rows[l.id], s.now) else Inserted(l.user, l.workload, 1, s.now);
      DispatchKeeps(s, l.id, row, Full);
    } else if l.UiRetry? {
      DispatchKeeps(s, l.job, Retried(s.rows[l.job], s.now), Full);
    } else if l.UiDelta? {
      DispatchKeeps(s, l.job, DeltaQueued(s.rows[l.job], s.now), Delta);
    } else if l.UiCancel? {
      RewriteKeeps(s, t, l.job);
    } else {
      assert s.queue + s.owed == t.queue + t.owed;
      assert forall j | j in t.rows :: Dispatchable(s, j) ==> Dispatchable(t, j);
      assert Held(s.engine) && SafeWithout(s, s.engine.m) ==> SafeWithout(t, t.engine.m);
    }
  }

  lemma StepKeepsInv(s: State, l: Label)
    requires Inv(s) && Enabled(s, l) && !LastResortLost(s, l)
    ensures Inv(Apply(s, l))
  {
    StepKeepsBase(s, l);
    if UiLabel(l) {
      UiKeeps(s, l);
    } else if l.Write? {
      WriteKeeps(s, l.applied, l.ok);
    } else if l.DoAck? {
      AckKeeps(s, l.applied, l.ok);
    } else {
      QuietKeeps(s, l);
    }
  }

  /** The steps that touch neither rows nor messages. */
  lemma QuietKeeps(s: State, l: Label)
    requires Inv(s) && Enabled(s, l) && !LastResortLost(s, l)
    requires !UiLabel(l) && !l.Write? && !l.DoAck?
    ensures NoneStranded(Apply(s, l)) && HandSafe(Apply(s, l))
  {
    QuietCovers(s, l);
    if l.Await? {
      AwaitHand(s);
    } else if l.Raise? {
      RaiseHand(s, l.exn);
    } else {
      MoveHand(s, l);
    }
  }

  lemma QuietCovers(s: State, l: Label)
    requires NoneStranded(s) && Enabled(s, l) && !UiLabel(l) && !l.Write? && !l.DoAck?
    ensures NoneStranded(Apply(s, l))
  {
    SameCoverage(s, Apply(s, l));
  }

  lemma SameCoverage(s: State, t: State)
    requires NoneStranded(s) && t.rows == s.rows && t.queue == s.queue && t.owed == s.owed
    ensures NoneStranded(t)
  {
    forall j | j in t.rows ensures Terminal(t.rows[j].status) || Dispatchable(t, j) {
      if Dispatchable(s, j) {
        var m :| m in s.queue + s.owed && m.job == j;
        assert m in t.queue + t.owed;
      }
    }
  }

  lemma AwaitHand(s: State)
    requires Inv(s) && Enabled(s, Await)
    ensures HandSafe(Apply(s, Await))
  {
  }

  lemma RaiseHand(s: State, exn: Exn)
    requires Inv(s) && Enabled(s, Raise(exn)) && !s.engine.LastResort?
    ensures HandSafe(Apply(s, Raise(exn)))
  {
  }

  lemma MoveHand(s: State, l: Label)
    requires Inv(s) && Enabled(s, l)
    requires !UiLabel(l) && !l.Write? && !l.DoAck? && !l.Await? && !l.Raise?
    ensures HandSafe(Apply(s, l))
  {
  }

  // ----- runs -----

  lemma {:induction false} RunKeepsBase(r: Run)
    requires Valid(r)
    ensures Base(End(r)) && LogInv(End(r))
  {
    if r.Then? {
      RunKeepsBase(r.prev);
      StepKeepsBase(End(r.prev), r.last);
      StepKeepsLogInv(End(r.prev), r.last);
    }
  }

  lemma {:induction false} RunKeepsInv(r: Run)
    requires Valid(r) && LastResortHolds(r)
    ensures Inv(End(r))
  {
    if r.Then? {
      RunKeepsInv(r.prev);
      StepKeepsInv(End(r.prev), r.last);
    }
  }

  /** No job is ever stranded, in any run whose last-resort writes reach the table. */
  lemma NoStrandedJob(r: Run, j: JobId)
    requires Valid(r) && LastResortHolds(r)
    ensures !Stranded(End(r), j)
  {
    RunKeepsInv(r);
  }

  /**
   * When the last-resort write is attempted and the message then acked, the job is left stranded
   * exactly if the write was lost, the row was still open and no other message of the job is around.
   */
  lemma LastResortExact(s: State, applied: bool, acked: bool, j: JobId)
    requires Inv(s) && s.engine.LastResort?
    ensures
      var m := s.engine.m;
      var t := Apply(Apply(s, Write(applied, false)), DoAck(true, acked));
      Stranded(t, j) <==>
        j == m.job && !applied && !Terminal(s.rows[j].status) &&
        forall x | x in s.queue + s.owed && x.job == j :: x == m
  {
    var m := s.engine.m;
    var u := Apply(s, Write(applied, false));
    var t := Apply(u, DoAck(true, acked));
    assert t.queue + t.owed >= (s.queue + s.owed) - {m};
    if j in s.rows && !Terminal(t.rows[j].status) {
      var x :| x in s.queue + s.owed && x.job == j;
      if x != m {
        assert x in t.queue + t.owed;
      } else if exists y :: y in s.queue + s.owed && y.job == j && y != m {
        var y :| y in s.queue + s.owed && y.job == j && y != m;
        assert y in t.queue + t.owed;
      }
    }
  }

  /** A dispatch message is never one that is queued, owed or in hand: dispatch_seq tells them apart. */
  lemma DispatchIsNew(r: Run, l: Label)
    requires Valid(r)
    requires l.UiCreate? || l.UiRetry? || l.UiDelta?
    requires Enabled(End(r), l)
    ensures
      var s := End(r);
      var sent := Apply(s, l).owed - s.owed;
      |sent| == 1 && sent !! s.queue && (Held(s.engine) ==> s.engine.m !in sent)
  {
    RunKeepsBase(r);
    DispatchAdds(End(r), l);
  }

  lemma DispatchAdds(s: State, l: Label)
    requires Base(s) && Enabled(s, l) && (l.UiCreate? || l.UiRetry? || l.UiDelta?)
    ensures
      var sent := Apply(s, l).owed - s.owed;
      |sent| == 1 && sent !! s.queue && (Held(s.engine) ==> s.engine.m !in sent)
  {
    var m := SentBy(s, l);
    assert Apply(s, l).owed - s.owed == {m};
  }

  lemma SentBy(s: State, l: Label) returns (m: Msg)
    requires Base(s) && Enabled(s, l) && (l.UiCreate? || l.UiRetry? || l.UiDelta?)
    ensures Apply(s, l).owed == s.owed + {m}
    ensures m !in s.owed && m !in s.queue && (Held(s.engine) ==> s.engine.m != m)
  {
    var id := if l.UiCreate? then l.id else l.job;
    var row :=
      if l.UiCreate? then
        (if id in s.rows then Reset(s.rows[id], s.now) else Inserted(l.user, l.workload, 1, s.now))
      else if l.UiRetry? then Retried(s.rows[id], s.now)
      else DeltaQueued(s.rows[id], s.now);
    m := Msg(id, if l.UiDelta? then Delta else Full, row.dispatchSeq);
  }

  /** Leaving the `try` normally writes CANCELLED if a cancellation was observed and COMPLETED otherwise. */
  lemma NormalExitStatus(r: Run)
    requires Valid(r) && End(r).engine.Finishing?
    ensures
      var s := End(r);
      s.engine.st == (if s.cancelled then Cancelled else Completed)
  {
    RunKeepsBase(r);
  }

  // ----- every ack is justified -----

  predicate Justifies(e: Event, m: Msg, site: Site) {
    match site
    case Stale => e.ReadStatus? && e.job == m.job && Terminal(e.st)
    case Normal => e.WroteStatus? && e.job == m.job && Terminal(e.st)
    case AfterGraphError => e.WroteStatus? && e.job == m.job && GraphStatus(e.st)
    case AfterLastResort => e.TriedLastResort? && e.job == m.job
  }

  /** Some event since the message was claimed justifies acking it from `site`. */
  predicate Justified(log: seq<Event>, m: Msg, site: Site) {
    exists i :: 0 <= i < |log| && Justifies(log[i], m, site) && forall k | i < k < |log| :: !log[k].Claimed?
  }

  predicate LogInv(s: State) {
    && (s.engine.Acking? ==> Justified(s.log, s.engine.m, s.engine.site))
    && (forall k | 0 <= k < |s.log| && s.log[k].Acked? :: Justified(s.log[..k], s.log[k].m, s.log[k].site))
  }

  /** A step either adds no event and starts no ack, or its one event justifies the ack it starts. */
  lemma EventJustifies(s: State, l: Label)
    requires Base(s) && Enabled(s, l)
    ensures
      var e := Apply(s, l).engine;
      var es := EventsOf(s, l);
      && (es == [] && e.Acking? ==> s.engine == e)
      && (es != [] && e.Acking? ==> |es| == 1 && Justifies(es[0], e.m, e.site))
  {
    if l.Raise? || l.Write? || l.Await? || l.DoAck? {
    } else {
      assert EventsOf(s, l) == [] || Apply(s, l).engine.Configuring?;
    }
  }

  lemma StepKeepsLogInv(s: State, l: Label)
    requires Base(s) && LogInv(s) && Enabled(s, l)
    ensures LogInv(Apply(s, l))
  {
    var t := Apply(s, l);
    EventJustifies(s, l);
    forall k | 0 <= k < |t.log| && t.log[k].Acked? ensures Justified(t.log[..k], t.log[k].m, t.log[k].site) {
      if k < |s.log| {
        assert t.log[..k] == s.log[..k];
      } else {
        assert t.log[..k] == s.log;
      }
    }
    if t.engine.Acking? {
      if EventsOf(s, l) == [] {
        assert t.log == s.log;
      } else {
        assert Justifies(t.log[|s.log|], t.engine.m, t.engine.site);
      }
    }
  }

  /**
   * Every ack follows, within the handling of the same message, a terminal status read (stale
   * dispatch), a terminal status write that reached the table, or the last-resort attempt.
   */
  lemma EveryAckJustified(r: Run, k: nat)
    requires Valid(r)
    requires k < |End(r).log| && End(r).log[k].Acked?
    ensures
      var log := End(r).log;
      Justified(log[..k], log[k].m, log[k].site)
  {
    RunKeepsBase(r);
  }

  // ----- what the design does not prevent -----

  /** A set of states that contains the initial one and whatever a step leads to, lost last-resort writes aside. */
  ghost predicate Closed(reach: iset<State>) {
    Init() in reach &&
    forall s, l :: s in reach && Enabled(s, l) && !LastResortLost(s, l) ==> Apply(s, l) in reach
  }

  ghost function Reachable(): iset<State> {
    iset r: Run | Valid(r) && LastResortHolds(r) :: End(r)
  }

  /** The end states of runs are such a set, so what the traces below reach is the end of a run. */
  lemma ReachableClosed()
    ensures Closed(Reachable())
  {
    assert End(Start) in Reachable();
    forall s, l | s in Reachable() && Enabled(s, l) && !LastResortLost(s, l) ensures Apply(s, l) in Reachable() {
      var r: Run :| Valid(r) && LastResortHolds(r) && End(r) == s;
      assert Valid(Then(r, l)) && LastResortHolds(Then(r, l)) && End(Then(r, l)) == Apply(s, l);
    }
  }

  /** Only job 0 exists and the engine stands at await `e`. */
  predicate At(s: State, e: Engine, st: Status, seqNo: nat, queue: set<Msg>) {
    s.engine == e && s.rows.Keys == {0} && s.rows[0].status == st && s.rows[0].dispatchSeq == seqNo &&
    SameOwner(s.rows[0], 7, OneDrive) && s.queue == queue && s.owed == {} && !s.stop && !s.cancelled
  }

  const FIRST := Msg(0, Full, 1)
  const SECOND := Msg(0, Full, 2)

  lemma Created(reach: iset<State>) returns (t: State)
    requires Closed(reach)
    ensures t in reach && At(t, Idle, Queued, 1, {FIRST})
  {
    var s1 := Apply(Init(), UiCreate(7, OneDrive, 0));
    assert s1.owed == {FIRST};
    var s2 := Apply(s1, UiSend(FIRST));
    assert s2.queue == {FIRST} && s2.owed == {};
    t := Apply(s2, Restart);
  }

  /** Claiming: the row is read; a terminal one leads to a stale ack. */
  lemma ClaimSegment(reach: iset<State>, s: State, m: Msg) returns (t: State)
    requires Closed(reach) && s in reach && 0 in s.rows
    requires At(s, Idle, s.rows[0].status, s.rows[0].dispatchSeq, s.queue) && m in s.queue && m.job == 0
    ensures t in reach
    ensures
      var e := if Terminal(s.rows[0].status) then Acking(m, Stale) else Warming(m);
      At(t, e, s.rows[0].status, s.rows[0].dispatchSeq, s.queue)
  {
    var s1 := Apply(s, Claim(m));
    var s2 := Apply(s1, Await);
    assert s2.engine == Fetching(m);
    t := Apply(s2, Await);
  }

  /** From the warm-up into the migrator. */
  lemma WarmSegment(reach: iset<State>, s: State, m: Msg) returns (t: State)
    requires Closed(reach) && s in reach && 0 in s.rows && m.job == 0 && m.pass == Full
    requires At(s, Warming(m), s.rows[0].status, s.rows[0].dispatchSeq, s.queue)
    ensures t in reach && At(t, Working(m), Running, s.rows[0].dispatchSeq, s.queue)
  {
    var s1 := Apply(s, Await);
    t := Apply(s1, Write(true, true));
  }

  /** The migrator returns COMPLETED and the status is written. */
  lemma CompleteSegment(reach: iset<State>, s: State, m: Msg) returns (t: State)
    requires Closed(reach) && s in reach && 0 in s.rows && m.job == 0
    requires At(s, Working(m), s.rows[0].status, s.rows[0].dispatchSeq, s.queue)
    ensures t in reach && At(t, Acking(m, Normal), Completed, s.rows[0].dispatchSeq, s.queue)
  {
    var s1 := Apply(s, Return(Completed));
    var s2 := Apply(s1, Await);
    assert s2.engine == Finishing(m, Completed);
    t := Apply(s2, Write(true, true));
  }

  /** A successful ack. */
  lemma AckSegment(reach: iset<State>, s: State, m: Msg) returns (t: State)
    requires Closed(reach) && s in reach && 0 in s.rows && s.engine.Acking?
    requires At(s, Acking(m, s.engine.site), s.rows[0].status, s.rows[0].dispatchSeq, s.queue)
    ensures t in reach && At(t, Idle, s.rows[0].status, s.rows[0].dispatchSeq, s.queue - {m})
    ensures t.log == s.log + [Acked(m, s.engine.site)]
  {
    t := Apply(s, DoAck(true, true));
  }

  lemma LostSegment(s: State)
    requires At(s, LastResort(FIRST), Queued, 1, {FIRST})
    ensures Stranded(Apply(Apply(s, Raise(Other)), DoAck(true, true)), 0)
  {
    var t := Apply(Apply(s, Raise(Other)), DoAck(true, true));
    assert t.queue + t.owed == {};
  }

  /** Losing one last-resort write is enough to strand a job. */
  lemma LostLastResortStrands() returns (s: State)
    ensures s in Reachable() && s.engine.LastResort?
    ensures Stranded(Apply(Apply(s, Raise(Other)), DoAck(true, true)), 0)
  {
    var reach := Reachable();
    ReachableClosed();
    s := Created(reach);
    s := ClaimSegment(reach, s, FIRST);
    s := Apply(s, Raise(Other));
    LostSegment(s);
  }

  lemma OverwriteSegment(reach: iset<State>, s: State) returns (cancelled: State, t: State)
    requires Closed(reach) && s in reach && At(s, Working(FIRST), Running, 1, {FIRST})
    ensures cancelled in reach && At(cancelled, Working(FIRST), Cancelled, 1, {FIRST})
    ensures t in reach && At(t, Working(FIRST), Running, 1, {FIRST})
  {
    cancelled := Apply(s, UiCancel(0));
    t := Apply(cancelled, Write(true, true));
  }

  /** A cancellation accepted while the engine works is overwritten by a progress write; the job completes. */
  lemma CancelOverwritten() returns (cancelled: State, s: State)
    ensures cancelled in Reachable() && At(cancelled, Working(FIRST), Cancelled, 1, {FIRST})
    ensures s in Reachable() && At(s, Idle, Completed, 1, {})
  {
    var reach := Reachable();
    ReachableClosed();
    s := Created(reach);
    s := ClaimSegment(reach, s, FIRST);
    s := WarmSegment(reach, s, FIRST);
    cancelled, s := OverwriteSegment(reach, s);
    s := CompleteSegment(reach, s, FIRST);
    s := AckSegment(reach, s, FIRST);
    assert {FIRST} - {FIRST} == {};
  }

  /** The first message is worked off and its ack pending when the job is issued again. */
  lemma ReissueSegment(reach: iset<State>) returns (t: State)
    requires Closed(reach)
    ensures t in reach && At(t, Acking(FIRST, Normal), Queued, 2, {FIRST, SECOND})
  {
    var s := Created(reach);
    s := ClaimSegment(reach, s, FIRST);
    s := WarmSegment(reach, s, FIRST);
    s := CompleteSegment(reach, s, FIRST);
    t := CreateAgain(reach, s, Acking(FIRST, Normal));
  }

  lemma CreateAgain(reach: iset<State>, s: State, e: Engine) returns (t: State)
    requires Closed(reach) && s in reach && 0 in s.rows && At(s, e, s.rows[0].status, 1, {FIRST})
    ensures t in reach && At(t, e, Queued, 2, {FIRST, SECOND})
  {
    var s1 := Apply(s, UiCreate(7, OneDrive, 0));
    assert s1.owed == {SECOND};
    t := Apply(s1, UiSend(SECOND));
    assert t.owed == {};
  }

  /** The ack reaches the queue but its response is lost. */
  lemma AckResponseLost(reach: iset<State>, s: State) returns (t: State)
    requires Closed(reach) && s in reach && At(s, Acking(FIRST, Normal), Queued, 2, {FIRST, SECOND})
    ensures t in reach && At(t, LastResort(FIRST), Queued, 2, {SECOND})
  {
    t := Apply(s, DoAck(true, false));
    assert {FIRST, SECOND} - {FIRST} == {SECOND};
  }

  /** The last resort succeeds: FAILED is written over whatever the row says, and the message is acked. */
  lemma LastResortSegment(reach: iset<State>, s: State, m: Msg) returns (t: State)
    requires Closed(reach) && s in reach && 0 in s.rows && m.job == 0
    requires At(s, LastResort(m), s.rows[0].status, s.rows[0].dispatchSeq, s.queue)
    ensures t in reach && At(t, Idle, Failed, s.rows[0].dispatchSeq, s.queue - {m})
  {
    var s1 := Apply(s, Write(true, true));
    t := AckSegment(reach, s1, m);
  }

  /**
   * A job issued again while the engine acks the old message: the last resort overwrites the new
   * `queued`, and the new message is acked as stale without any work.
   */
  lemma ReissueSwallowed() returns (s: State)
    ensures s in Reachable() && At(s, Idle, Failed, 2, {}) && 0 < |s.log|
    ensures s.log[|s.log| - 1] == Acked(SECOND, Stale)
  {
    var reach := Reachable();
    ReachableClosed();
    s := ReissueSegment(reach);
    s := AckResponseLost(reach, s);
    s := LastResortSegment(reach, s, FIRST);
    assert {SECOND} - {FIRST} == {SECOND};
    s := StaleSegment(reach, s);
  }

  lemma WorkingAgain(reach: iset<State>) returns (t: State)
    requires Closed(reach)
    ensures t in reach && At(t, Working(FIRST), Queued, 2, {FIRST, SECOND})
  {
    var s := Created(reach);
    s := ClaimSegment(reach, s, FIRST);
    s := WarmSegment(reach, s, FIRST);
    t := CreateAgain(reach, s, Working(FIRST));
  }

  /** A job issued again while the engine works on it: every request succeeds, and the new message is acked as stale. */
  lemma ReissueWhileWorking() returns (s: State)
    ensures s in Reachable() && At(s, Idle, Completed, 2, {}) && 0 < |s.log|
    ensures s.log[|s.log| - 1] == Acked(SECOND, Stale)
  {
    var reach := Reachable();
    ReachableClosed();
    s := WorkingAgain(reach);
    s := CompleteSegment(reach, s, FIRST);
    s := AckSegment(reach, s, FIRST);
    assert {FIRST, SECOND} - {FIRST} == {SECOND};
    s := StaleSegment(reach, s);
  }

  lemma StaleSegment(reach: iset<State>, s: State) returns (t: State)
    requires Closed(reach) && s in reach && 0 in s.rows && Terminal(s.rows[0].status)
    requires At(s, Idle, s.rows[0].status, 2, {SECOND})
    ensures t in reach && At(t, Idle, s.rows[0].status, 2, {}) && 0 < |t.log|
    ensures t.log[|t.log| - 1] == Acked(SECOND, Stale)
  {
    t := ClaimSegment(reach, s, SECOND);
    t := AckSegment(reach, t, SECOND);
    assert {SECOND} - {SECOND} == {};
  }
}
