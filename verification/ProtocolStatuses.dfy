/**
 * What the statuses in the table tell: which pass was claimed and asked for, and which exit the engine took.
 */
module ProtocolStatuses {
  import opened Wrappers
  import opened Jobs
  import opened Replies
  import opened Protocol
  import opened ProtocolOutcomes

  // ----- the message in hand is the one claimed last -----

  function LastClaim(log: seq<Event>): Option<Msg> {
    if log == [] then None
    else if log[|log| - 1].Claimed? then Some(log[|log| - 1].m)
    else LastClaim(log[..|log| - 1])
  }

  predicate ClaimInHand(s: State) {
    Held(s.engine) ==> LastClaim(s.log) == Some(s.engine.m)
  }

  lemma OneEvent(s: State, l: Label)
    requires Enabled(s, l)
    ensures Apply(s, l).log == s.log + EventsOf(s, l)
    ensures |EventsOf(s, l)| <= 1
    ensures l.Claim? ==> EventsOf(s, l) == [Claimed(l.m)]
    ensures !l.Claim? ==> EventsOf(s, l) == [] || !EventsOf(s, l)[0].Claimed?
  {
  }

  lemma ClaimSame(log: seq<Event>, es: seq<Event>)
    requires |es| <= 1 && (es == [] || !es[0].Claimed?)
    ensures LastClaim(log + es) == LastClaim(log)
  {
    if es == [] {
      assert log + es == log;
    } else {
      assert (log + es)[..|log|] == log;
    }
  }

  lemma HandStays(s: State, l: Label)
    requires Enabled(s, l) && !l.Claim? && Held(Apply(s, l).engine)
    ensures Held(s.engine) && Apply(s, l).engine.m == s.engine.m
  {
  }

  lemma {:induction false} RunClaimInHand(r: Run)
    requires Valid(r)
    ensures ClaimInHand(End(r))
  {
    if r.Then? {
      RunClaimInHand(r.prev);
      var s := End(r.prev);
      OneEvent(s, r.last);
      if r.last.Claim? {
        assert (s.log + [Claimed(r.last.m)])[..|s.log|] == s.log;
      } else if Held(End(r).engine) {
        HandStays(s, r.last);
        ClaimSame(s.log, EventsOf(s, r.last));
      }
    }
  }

  // ----- the running statuses tell the pass -----

  /** `running` is written for a full pass that was claimed last, `delta_running` for a delta pass. */
  predicate TellsPass(before: seq<Event>, x: Event) {
    x.WroteStatus? && x.st in {Running, DeltaRunning} ==>
      var m := LastClaim(before);
      m.Some? && m.value.job == x.job && m.value.pass == if x.st == Running then Full else Delta
  }

  lemma WriteTellsPass(s: State, l: Label)
    requires Base(s) && ClaimInHand(s) && Enabled(s, l)
    ensures EventsOf(s, l) != [] ==> TellsPass(s.log, EventsOf(s, l)[0])
  {
  }

  /** Over every run: each running status in the history tells the pass of the message claimed last before it. */
  lemma {:induction false} RunningTellsPass(r: Run, k: nat)
    requires Valid(r) && k < |End(r).log|
    ensures TellsPass(End(r).log[..k], End(r).log[k])
  {
    if r.Then? {
      var s := End(r.prev);
      OneEvent(s, r.last);
      if k < |s.log| {
        RunningTellsPass(r.prev, k);
        assert End(r).log[..k] == s.log[..k];
      } else {
        RunKeepsBase(r.prev);
        RunClaimInHand(r.prev);
        WriteTellsPass(s, r.last);
        assert End(r).log[..k] == s.log;
      }
    }
  }

  // ----- and the pass tells what was asked for -----

  predicate IsDispatch(l: Label) {
    l.UiCreate? || l.UiRetry? || l.UiDelta?
  }

  /** The step that owed the message. */
  predicate Owes(q: Run, l: Label, m: Msg) {
    Valid(Then(q, l)) && m in End(Then(q, l)).owed && m !in End(q).owed
  }

  /** Only a dispatch of its job owes a message, and its pass is Delta exactly if that is a delta request. */
  lemma OwesPass(q: Run, l: Label, m: Msg)
    requires Owes(q, l, m)
    ensures IsDispatch(l) && m.job == JobOf(l) && (m.pass.Delta? <==> l.UiDelta?)
    ensures m.job in End(Then(q, l)).rows && m.dispatchSeq == End(Then(q, l)).rows[m.job].dispatchSeq
  {
    OwesStep(End(q), l, m);
  }

  lemma OwesStep(s: State, l: Label, m: Msg)
    requires Enabled(s, l) && m in Apply(s, l).owed && m !in s.owed
    ensures IsDispatch(l) && m.job == JobOf(l) && (m.pass.Delta? <==> l.UiDelta?)
    ensures m.job in Apply(s, l).rows && m.dispatchSeq == Apply(s, l).rows[m.job].dispatchSeq
  {
  }

  predicate WasOwed(r: Run, m: Msg)
    requires Valid(r)
  {
    r.Then? && (Owes(r.prev, r.last, m) || WasOwed(r.prev, m))
  }

  predicate Around(s: State, m: Msg) {
    m in s.queue + s.owed || (Held(s.engine) && s.engine.m == m) || Claimed(m) in s.log
  }

  lemma AroundBefore(s: State, l: Label, m: Msg)
    requires Enabled(s, l) && Around(Apply(s, l), m)
    ensures Around(s, m) || (m in Apply(s, l).owed && m !in s.owed)
  {
    OneEvent(s, l);
    if !l.Claim? && Held(Apply(s, l).engine) {
      HandStays(s, l);
    }
    if m in Apply(s, l).queue + Apply(s, l).owed {
      MessagesBefore(s, l, m);
    }
  }

  lemma MessagesBefore(s: State, l: Label, m: Msg)
    requires Enabled(s, l) && m in Apply(s, l).queue + Apply(s, l).owed
    ensures m in s.queue + s.owed || (m in Apply(s, l).owed && m !in s.owed)
  {
  }

  /** Every message queued, owed, in hand or ever claimed was owed by a step of the run. */
  lemma {:induction false} MessagesWereOwed(r: Run, m: Msg)
    requires Valid(r) && Around(End(r), m)
    ensures WasOwed(r, m)
  {
    if r.Then? {
      AroundBefore(End(r.prev), r.last, m);
      if Around(End(r.prev), m) {
        MessagesWereOwed(r.prev, m);
      }
    }
  }

  /** The run has a delta request of the job, or a create or retry request of it. */
  predicate AskedFor(r: Run, j: JobId, delta: bool) {
    r.Then? && ((IsDispatch(r.last) && JobOf(r.last) == j && r.last.UiDelta? == delta) || AskedFor(r.prev, j, delta))
  }

  lemma {:induction false} OwedWasAsked(r: Run, m: Msg)
    requires Valid(r) && WasOwed(r, m)
    ensures AskedFor(r, m.job, m.pass.Delta?)
  {
    if Owes(r.prev, r.last, m) {
      OwesPass(r.prev, r.last, m);
    } else {
      OwedWasAsked(r.prev, m);
    }
  }

  lemma {:induction false} LastClaimIsIn(log: seq<Event>)
    requires LastClaim(log).Some?
    ensures Claimed(LastClaim(log).value) in log
  {
    if !log[|log| - 1].Claimed? {
      LastClaimIsIn(log[..|log| - 1]);
    }
  }

  /** No job is ever reported `delta_running` without a delta request, nor `running` without a create or retry. */
  lemma RunningWasAsked(r: Run, j: JobId, k: nat)
    requires Valid(r) && k < |End(r).log|
    requires End(r).log[k] == WroteStatus(j, Running) || End(r).log[k] == WroteStatus(j, DeltaRunning)
    ensures AskedFor(r, j, End(r).log[k].st == DeltaRunning)
  {
    var log := End(r).log;
    RunningTellsPass(r, k);
    LastClaimIsIn(log[..k]);
    var m := LastClaim(log[..k]).value;
    assert Claimed(m) in log;
    MessagesWereOwed(r, m);
    OwedWasAsked(r, m);
  }

  // ----- every status tells the exit -----

  /** How a step changes the cause. */
  function NewCause(s: State, l: Label, before: Option<Exn>): Option<Exn> {
    if l.Claim? then None
    else if !InTry(s.engine) then before
    else if l.Raise? then Some(l.exn)
    else if (l.Write? || l.DoAck?) && !l.ok then Some(Other)
    else before
  }

  /** What ended the `try` of the handling, if anything did: a lost answer counts as an exception of no class. */
  function Cause(r: Run): Option<Exn>
    requires Valid(r)
  {
    if r.Start? then None else NewCause(End(r.prev), r.last, Cause(r.prev))
  }

  predicate CauseFits(e: Engine, cause: Option<Exn>) {
    && (e.Configuring? || e.Fetching? || InTry(e) ==> cause == None)
    && (e.BackingOffWrite? ==> cause == Some(Throttled))
    && (cause == Some(Throttled) && Held(e) ==> e.BackingOffWrite? || e.Releasing?)
    && (e.GraphFlushing? || e.GraphFailing? ==> cause == Some(Graph(e.st)))
    && (e.LastResort? ==> cause == Some(ControlPlane) || cause == Some(Other))
  }

  lemma StepCauseFits(s: State, l: Label, before: Option<Exn>)
    requires Enabled(s, l) && CauseFits(s.engine, before)
    ensures CauseFits(Apply(s, l).engine, NewCause(s, l, before))
  {
    if UiLabel(l) {
      UiCause(s, l, before);
    } else if l.Await? {
      AwaitCause(s, before);
    } else if l.Raise? || l.Write? || l.DoAck? {
      FailCause(s, l, before);
    } else {
      MoveCause(s, l, before);
    }
  }

  lemma UiCause(s: State, l: Label, before: Option<Exn>)
    requires Enabled(s, l) && CauseFits(s.engine, before) && UiLabel(l)
    ensures CauseFits(Apply(s, l).engine, NewCause(s, l, before))
  {
  }

  lemma AwaitCause(s: State, before: Option<Exn>)
    requires Enabled(s, Await) && CauseFits(s.engine, before)
    ensures CauseFits(Apply(s, Await).engine, before)
  {
  }

  lemma FailCause(s: State, l: Label, before: Option<Exn>)
    requires Enabled(s, l) && CauseFits(s.engine, before) && (l.Raise? || l.Write? || l.DoAck?)
    ensures CauseFits(Apply(s, l).engine, NewCause(s, l, before))
  {
  }

  lemma MoveCause(s: State, l: Label, before: Option<Exn>)
    requires Enabled(s, l) && CauseFits(s.engine, before)
    requires !UiLabel(l) && !l.Await? && !l.Raise? && !l.Write? && !l.DoAck?
    ensures CauseFits(Apply(s, l).engine, NewCause(s, l, before))
  {
  }

  lemma {:induction false} RunCauseFits(r: Run)
    requires Valid(r)
    ensures CauseFits(End(r).engine, Cause(r))
  {
    if r.Then? {
      RunCauseFits(r.prev);
      StepCauseFits(End(r.prev), r.last, Cause(r.prev));
    }
  }

  /** The status each exit calls for. */
  function StatusFor(cause: Option<Exn>, m: Msg, finishing: bool, cancelled: bool): Status {
    match cause
    case None =>
      if finishing then (if cancelled then Cancelled else Completed)
      else if m.pass.Delta? then DeltaRunning else Running
    case Some(Throttled) => BackingOff
    case Some(Graph(st)) => st
    case Some(_) => Failed
  }

  lemma WrittenFits(s: State, cause: Option<Exn>)
    requires Base(s) && Writing(s.engine) && CauseFits(s.engine, cause)
    ensures WrittenStatus(s.engine) == StatusFor(cause, s.engine.m, s.engine.Finishing?, s.cancelled)
  {
  }

  /**
   * Every write of the engine sets the status that its exit calls for: running or delta_running by the
   * claimed pass while nothing went wrong, then cancelled or completed; backing_off after throttling, the
   * status of the Graph error after one, and failed after anything else.
   */
  lemma StatusByCause(r: Run, ok: bool)
    requires Valid(r) && Writing(End(r).engine)
    ensures
      var s := End(r);
      var claimed := LastClaim(s.log);
      && claimed == Some(s.engine.m) && claimed.value.job in Apply(s, Write(true, ok)).rows
      && Apply(s, Write(true, ok)).rows[claimed.value.job].status ==
           StatusFor(Cause(r), claimed.value, s.engine.Finishing?, s.cancelled)
  {
    var s := End(r);
    RunKeepsBase(r);
    RunClaimInHand(r);
    RunCauseFits(r);
    WrittenFits(s, Cause(r));
    WriteSets(s, true, ok, s.engine.m.job);
  }

  /** What a write does to the error columns and the progress stamp. */
  predicate WriteLeaves(before: Row, after: Row, progress: bool, error: bool, now: Time) {
    if progress then
      && after.errorClass == before.errorClass && after.errorDetail == before.errorDetail
      && after.lastProgressAt == Some(now)
    else
      && after.lastProgressAt == before.lastProgressAt
      && (after.errorClass.Some? <==> error) && (after.errorDetail.Some? <==> error)
  }

  /**
   * A report from inside the migrator, and the one before backing off, is a progress write: it keeps the
   * error and stamps the progress.  Every other write is a status write: it names an error exactly if
   * something went wrong, and clears it otherwise.
   */
  lemma ErrorByCause(r: Run, ok: bool)
    requires Valid(r) && Writing(End(r).engine)
    ensures
      var s := End(r);
      var j := s.engine.m.job;
      var t := Apply(s, Write(true, ok));
      && j in s.rows && j in t.rows
      && WriteLeaves(s.rows[j], t.rows[j], s.engine.Working? || Cause(r) == Some(Throttled), Cause(r).Some?, s.now)
  {
    RunKeepsBase(r);
    RunCauseFits(r);
    RowAfterWrite(End(r), ok);
  }

  lemma RowAfterWrite(s: State, ok: bool)
    requires Writing(s.engine) && s.engine.m.job in s.rows
    ensures
      var j := s.engine.m.job;
      j in Apply(s, Write(true, ok)).rows && Apply(s, Write(true, ok)).rows[j] == WrittenRow(s.rows[j], s.engine, s.now)
  {
  }

  // ----- how a handling ends -----

  /** After throttling a handling ends only by handing the lease of its message back, unless the process dies. */
  lemma ThrottledHandsBack(r: Run)
    requires Valid(r) && r.Then? && Cause(r.prev) == Some(Throttled) && !r.last.Crash?
    requires Held(End(r.prev).engine) && !Held(End(r).engine)
    ensures End(r.prev).engine == Releasing(End(r.prev).engine.m)
    ensures LastClaim(End(r.prev).log) == Some(End(r.prev).engine.m) && End(r).queue == End(r.prev).queue
  {
    RunCauseFits(r.prev);
    RunClaimInHand(r.prev);
    BackingOffEnds(End(r.prev), r.last);
  }

  lemma BackingOffEnds(s: State, l: Label)
    requires Enabled(s, l) && !l.Crash? && (s.engine.BackingOffWrite? || s.engine.Releasing?)
    requires !Held(Apply(s, l).engine)
    ensures s.engine.Releasing? && Apply(s, l).queue == s.queue
  {
  }

  /** Once the migrator has returned, a job is left to a redelivery just under a stop with the pass not completed. */
  lemma DeferredIff(s: State)
    requires s.engine.Flushing?
    ensures
      var e := Apply(s, Await).engine;
      && (e == Idle <==> s.stop && !s.cancelled && s.engine.final != Completed)
      && (e != Idle ==> e == Finishing(s.engine.m, if s.cancelled then Cancelled else s.engine.final))
  {
  }

  // ----- one job for each user and workload -----

  /** Over every run, whatever ids the requests carry. */
  lemma {:induction false} OwnersUnique(r: Run, i: JobId, j: JobId)
    requires Valid(r) && i in End(r).rows && j in End(r).rows && i != j
    ensures !SameOwner(End(r).rows[i], End(r).rows[j].user, End(r).rows[j].workload)
  {
    if r.Then? {
      var s := End(r.prev);
      OwnersStay(s, r.last);
      if i in s.rows && j in s.rows {
        OwnersUnique(r.prev, i, j);
      }
    }
  }

  /** No step changes the owner of a row, and a create request reaches the row of its own user and workload. */
  lemma OwnersStay(s: State, l: Label)
    requires Enabled(s, l)
    ensures forall j | j in s.rows ::
      j in Apply(s, l).rows && SameOwner(Apply(s, l).rows[j], s.rows[j].user, s.rows[j].workload)
    ensures forall j | j in Apply(s, l).rows && j !in s.rows ::
      l.UiCreate? && l.id == j && forall k | k in s.rows :: !SameOwner(s.rows[k], l.user, l.workload)
    ensures l.UiCreate? ==> l.id in Apply(s, l).rows && SameOwner(Apply(s, l).rows[l.id], l.user, l.workload)
  {
    if l.UiCreate? {
      CreateOwner(s, l.user, l.workload, l.id);
    } else if l.Write? {
      WriteOwner(s, l.applied, l.ok);
    } else if l.UiCancel? || l.UiRetry? || l.UiDelta? {
      UpdateOwner(s, l);
    } else {
      MoveKeepsRows(s, l);
    }
  }

  lemma UpdateOwner(s: State, l: Label)
    requires Enabled(s, l) && (l.UiCancel? || l.UiRetry? || l.UiDelta?)
    ensures
      var t := Apply(s, l);
      t.rows.Keys == s.rows.Keys && forall j | j in s.rows :: SameOwner(t.rows[j], s.rows[j].user, s.rows[j].workload)
  {
  }

  lemma MoveKeepsRows(s: State, l: Label)
    requires Enabled(s, l) && !l.UiCreate? && !l.UiCancel? && !l.UiRetry? && !l.UiDelta? && !l.Write?
    ensures Apply(s, l).rows == s.rows
  {
  }

  lemma CreateOwner(s: State, user: nat, workload: Workload, id: JobId)
    requires Enabled(s, UiCreate(user, workload, id))
    ensures
      var t := Apply(s, UiCreate(user, workload, id));
      && t.rows.Keys == s.rows.Keys + {id} && SameOwner(t.rows[id], user, workload)
      && (id !in s.rows ==> forall k | k in s.rows :: !SameOwner(s.rows[k], user, workload))
      && forall j | j in s.rows && j != id :: t.rows[j] == s.rows[j]
  {
  }

  lemma WriteOwner(s: State, applied: bool, ok: bool)
    requires Enabled(s, Write(applied, ok))
    ensures
      var t := Apply(s, Write(applied, ok));
      t.rows.Keys == s.rows.Keys && forall j | j in s.rows :: SameOwner(t.rows[j], s.rows[j].user, s.rows[j].workload)
  {
    assert SameButRow(s, WriteDone(s, applied, ok), s.engine.m.job);
  }

  // ----- which statuses end a job -----

  /** A job is over unless it waits, works, backs off or is paused. */
  lemma TerminalIff(st: Status)
    ensures
      Terminal(st) <==>
      st !in {Queued, Provisioning, Running, BackingOff, DeltaPending, DeltaRunning, Paused}
  {
  }

  /** A retry is accepted exactly for the ends a Graph error can have, neither completed nor cancelled. */
  lemma RetryableIff(st: Status)
    ensures Retryable(st) <==> Terminal(st) && st != Completed && st != Cancelled
    ensures Retryable(st) <==> GraphStatus(st)
  {
  }
}
