/**
 * When a cancellation stands, and when a dispatch is worked off: exact conditions over all runs.
 */
module ProtocolOutcomes {
  import opened Wrappers
  import opened Jobs
  import opened Replies
  import opened Protocol

  // ----- what a run goes on from -----

  predicate Extends(p: Run, r: Run) {
    p == r || (r.Then? && Extends(p, r.prev))
  }

  lemma {:induction false} PrefixValid(p: Run, r: Run)
    requires Valid(r) && Extends(p, r)
    ensures Valid(p)
  {
    if p != r {
      PrefixValid(p, r.prev);
    }
  }

  lemma {:induction false} LogGrows(p: Run, r: Run)
    requires Valid(p) && Valid(r) && Extends(p, r)
    ensures End(p).log <= End(r).log
  {
    if p != r {
      LogGrows(p, r.prev);
    }
  }

  predicate DispatchOf(l: Label, j: JobId) {
    (l.UiCreate? && l.id == j) || (l.UiRetry? && l.job == j) || (l.UiDelta? && l.job == j)
  }

  predicate CancelOf(l: Label, j: JobId) {
    l.UiCancel? && l.job == j
  }

  predicate NoDispatch(p: Run, r: Run, j: JobId)
    requires Extends(p, r)
  {
    p == r || (NoDispatch(p, r.prev, j) && !DispatchOf(r.last, j))
  }

  // ----- which steps lose a cancellation -----

  predicate IsCancelled(s: State, j: JobId) {
    j in s.rows && s.rows[j].status == Cancelled
  }

  /** A new dispatch, or a write for the job that reaches the table and says anything else. */
  predicate LosesCancel(s: State, l: Label, j: JobId)
    requires Enabled(s, l)
  {
    DispatchOf(l, j) || (l.Write? && l.applied && s.engine.m.job == j && WrittenStatus(s.engine) != Cancelled)
  }

  lemma CancelLostExactly(s: State, l: Label, j: JobId)
    requires Enabled(s, l) && IsCancelled(s, j)
    ensures IsCancelled(Apply(s, l), j) <==> !LosesCancel(s, l, j)
  {
    if l.Write? {
      WriteSets(s, l.applied, l.ok, j);
    }
  }

  /** A write sets the status of the job in hand, if it reaches the table, and of no other. */
  lemma WriteSets(s: State, applied: bool, ok: bool, j: JobId)
    requires Enabled(s, Write(applied, ok)) && j in s.rows
    ensures
      var t := Apply(s, Write(applied, ok));
      && j in t.rows
      && t.rows[j].status == if applied && s.engine.m.job == j then WrittenStatus(s.engine) else s.rows[j].status
  {
  }

  /** The job reads `cancelled` after every step since `p`. */
  predicate CancelledSince(p: Run, r: Run, j: JobId)
    requires Valid(r) && Extends(p, r)
  {
    IsCancelled(End(r), j) && (p == r || CancelledSince(p, r.prev, j))
  }

  predicate NothingLoses(p: Run, r: Run, j: JobId)
    requires Valid(r) && Extends(p, r)
  {
    p == r || (NothingLoses(p, r.prev, j) && !LosesCancel(End(r.prev), r.last, j))
  }

  /** An accepted cancellation stays exactly as long as no such step is taken. */
  lemma {:induction false} CancelStaysIff(p: Run, r: Run, j: JobId)
    requires Valid(p) && Valid(r) && Extends(p, r) && IsCancelled(End(p), j)
    ensures CancelledSince(p, r, j) <==> NothingLoses(p, r, j)
  {
    if p != r {
      CancelStaysIff(p, r.prev, j);
      if NothingLoses(p, r.prev, j) {
        CancelLostExactly(End(r.prev), r.last, j);
      }
    }
  }

  // ----- a cancellation nobody in hand can lose -----

  /** The engine is past reading the row and may still write it. */
  predicate MayWrite(e: Engine) {
    InTry(e) || e.BackingOffWrite? || e.GraphFlushing? || e.GraphFailing? || e.LastResort?
  }

  predicate Settled(s: State, j: JobId) {
    IsCancelled(s, j) && !(MayWrite(s.engine) && s.engine.m.job == j)
  }

  /** A settled cancellation is undone by the next dispatch of the job and by nothing else. */
  lemma SettledUntilDispatch(s: State, l: Label, j: JobId)
    requires Enabled(s, l) && Settled(s, j)
    ensures Settled(Apply(s, l), j) <==> !DispatchOf(l, j)
  {
    CancelLostExactly(s, l, j);
    if l.Await? {
      AwaitSettled(s, j);
    } else if !UiLabel(l) {
      StillNoWrite(s, l, j);
    }
  }

  lemma AwaitSettled(s: State, j: JobId)
    requires Enabled(s, Await) && Settled(s, j)
    ensures Settled(Apply(s, Await), j)
  {
  }

  lemma StillNoWrite(s: State, l: Label, j: JobId)
    requires Enabled(s, l) && Settled(s, j) && !UiLabel(l) && !l.Await?
    ensures !(MayWrite(Apply(s, l).engine) && Apply(s, l).engine.m.job == j)
  {
  }

  /** An ack under way since before the `n`-th event is of no later claim. */
  predicate NoNewClaim(log: seq<Event>, n: nat, k: nat)
    requires k <= |log|
  {
    forall i | n <= i < k :: !log[i].Claimed?
  }

  /** Since the `n`-th event the job was not written, and only acked as stale or by an ack already under way. */
  predicate LeftAlone(s: State, j: JobId, n: nat) {
    && (forall k | n <= k < |s.log| && s.log[k].WroteStatus? :: s.log[k].job != j)
    && (forall k | n <= k < |s.log| && s.log[k].Acked? && s.log[k].m.job == j ::
          s.log[k].site == Stale || NoNewClaim(s.log, n, k))
    && (s.engine.Acking? && s.engine.m.job == j ==> s.engine.site == Stale || NoNewClaim(s.log, n, |s.log|))
  }

  lemma StepLeavesAlone(s: State, l: Label, j: JobId, n: nat)
    requires Enabled(s, l) && Settled(s, j) && LeftAlone(s, j, n) && n <= |s.log|
    ensures LeftAlone(Apply(s, l), j, n)
  {
    var t := Apply(s, l);
    assert t.log == s.log + EventsOf(s, l);
    AckPosition(s, l, j);
    SettledEvents(s, l, j);
    forall k | n <= k < |t.log| && t.log[k].Acked? && t.log[k].m.job == j
      ensures t.log[k].site == Stale || NoNewClaim(t.log, n, k)
    {
      if k < |s.log| && t.log[k].site != Stale {
        assert NoNewClaim(s.log, n, k);
      }
    }
  }

  /** With the cancellation settled, the job's message gets to an ack only as stale, and writes nothing. */
  lemma AckPosition(s: State, l: Label, j: JobId)
    requires Enabled(s, l) && Settled(s, j)
    ensures
      var e := Apply(s, l).engine;
      e.Acking? && e.m.job == j ==> (e == s.engine && EventsOf(s, l) == []) || e.site == Stale
  {
    if !UiLabel(l) {
      EngineAckPosition(s, l, j);
    }
  }

  lemma EngineAckPosition(s: State, l: Label, j: JobId)
    requires Enabled(s, l) && Settled(s, j) && !UiLabel(l)
    ensures
      var e := Apply(s, l).engine;
      e.Acking? && e.m.job == j ==> (e == s.engine && EventsOf(s, l) == []) || e.site == Stale
  {
  }

  lemma SettledEvents(s: State, l: Label, j: JobId)
    requires Enabled(s, l) && Settled(s, j)
    ensures |EventsOf(s, l)| <= 1
    ensures forall x | x in EventsOf(s, l) ::
      && !(x.WroteStatus? && x.job == j)
      && (x.Acked? ==> s.engine.Acking? && x == Acked(s.engine.m, s.engine.site))
  {
  }

  /**
   * A cancellation accepted while no message of the job is in hand past its fetch stays until the next
   * dispatch: until then the engine writes the job no more, and every message of it claimed meanwhile
   * is acked as stale.
   */
  lemma {:induction false} CancelStands(p: Run, r: Run, j: JobId)
    requires Valid(p) && Valid(r) && Extends(p, r) && NoDispatch(p, r, j)
    requires Settled(End(p), j)
    ensures Settled(End(r), j) && End(p).log <= End(r).log && LeftAlone(End(r), j, |End(p).log|)
  {
    if p != r {
      CancelStands(p, r.prev, j);
      SettledUntilDispatch(End(r.prev), r.last, j);
      StepLeavesAlone(End(r.prev), r.last, j, |End(p).log|);
    }
  }

  // ----- a cancellation somebody in hand can still lose -----

  /** The run goes on without a dispatch of the job, and the cancellation is gone. */
  predicate Loses(p: Run, r: Run, j: JobId) {
    Valid(r) && Extends(p, r) && NoDispatch(p, r, j) && !IsCancelled(End(r), j)
  }

  lemma WriteLoses(p: Run, r: Run, j: JobId)
    requires Valid(p) && Valid(r) && Extends(p, r) && NoDispatch(p, r, j) && j in End(r).rows
    requires Writing(End(r).engine) && End(r).engine.m.job == j && WrittenStatus(End(r).engine) != Cancelled
    ensures Loses(p, Then(r, Write(true, true)), j)
  {
    WriteSets(End(r), true, true, j);
  }

  /** One step to the pending write of an exit, which changes no row. */
  function TowardsWrite(e: Engine): Label {
    if e.GraphFlushing? then Await else Raise(Other)
  }

  lemma ReachesWrite(s: State)
    requires InTry(s.engine) || s.engine.GraphFlushing?
    ensures
      var l := TowardsWrite(s.engine);
      Enabled(s, l) && Apply(s, l).rows == s.rows &&
      Apply(s, l).engine == if InTry(s.engine) then LastResort(s.engine.m) else GraphFailing(s.engine.m, s.engine.st)
  {
  }

  lemma ExitsOverwrite(s: State)
    requires Base(s) && MayWrite(s.engine)
    ensures !InTry(s.engine) && !s.engine.GraphFlushing? ==> Writing(s.engine) && WrittenStatus(s.engine) != Cancelled
    ensures s.engine.GraphFlushing? ==> s.engine.st != Cancelled
  {
  }

  /** One step to a write at most, and the write: from anywhere past the fetch the cancellation can be lost. */
  lemma UnsettledLoses(p: Run, j: JobId) returns (r: Run)
    requires Valid(p) && IsCancelled(End(p), j) && !Settled(End(p), j)
    ensures Loses(p, r, j)
  {
    RunKeepsBase(p);
    ExitsOverwrite(End(p));
    var e := End(p).engine;
    if InTry(e) || e.GraphFlushing? {
      r := WriteAfterStep(p, j);
    } else {
      WriteLoses(p, p, j);
      r := Then(p, Write(true, true));
    }
  }

  lemma WriteAfterStep(p: Run, j: JobId) returns (r: Run)
    requires Valid(p) && IsCancelled(End(p), j)
    requires InTry(End(p).engine) || (End(p).engine.GraphFlushing? && End(p).engine.st != Cancelled)
    requires End(p).engine.m.job == j
    ensures Loses(p, r, j)
  {
    ReachesWrite(End(p));
    var q := Then(p, TowardsWrite(End(p).engine));
    assert End(q) == Apply(End(p), TowardsWrite(End(p).engine));
    assert NoDispatch(p, q, j) by {
      assert NoDispatch(p, p, j);
    }
    WriteLoses(p, q, j);
    r := Then(q, Write(true, true));
  }

  /**
   * An accepted cancellation is sure to stand until the next dispatch, whatever the engine goes through,
   * exactly if no message of the job is in hand past its fetch.
   */
  lemma CancelStandsIff(p: Run, j: JobId)
    requires Valid(p) && IsCancelled(End(p), j)
    ensures Settled(End(p), j) <==> forall r :: !Loses(p, r, j)
  {
    if Settled(End(p), j) {
      forall r ensures !Loses(p, r, j) {
        if Loses(p, r, j) {
          CancelStands(p, r, j);
        }
      }
    } else {
      var r := UnsettledLoses(p, j);
    }
  }

  // ----- a cancellation the engine has seen -----

  /** No message was claimed since `p`. */
  predicate SameHandling(p: Run, r: Run)
    requires Extends(p, r)
  {
    p == r || (SameHandling(p, r.prev) && !r.last.Claim?)
  }

  /** The handling of `m` goes on after a poll has seen the cancellation. */
  predicate Observed(s: State, m: Msg) {
    var e := s.engine;
    Held(e) ==>
      && e.m == m && s.cancelled && !e.Configuring? && !e.Fetching? && !e.Warming? && !e.Starting?
      && (e.Finishing? ==> e.st == Cancelled)
      && (e.Acking? && e.site == Normal ==> s.log != [] && s.log[|s.log| - 1] == WroteStatus(m.job, Cancelled))
  }

  lemma ObservedStays(s: State, l: Label, m: Msg)
    requires Enabled(s, l) && Observed(s, m) && !l.Claim?
    ensures Observed(Apply(s, l), m)
  {
    if !UiLabel(l) {
      EngineObserved(s, l, m);
    }
  }

  lemma EngineObserved(s: State, l: Label, m: Msg)
    requires Enabled(s, l) && Observed(s, m) && !l.Claim? && !UiLabel(l)
    ensures Observed(Apply(s, l), m)
  {
  }

  /** The run begins with a poll that sees the cancellation, and stays within that handling. */
  predicate AfterPoll(p: Run, r: Run, m: Msg) {
    && Valid(Then(p, CancelCheck)) && End(p).engine == Working(m) && IsCancelled(End(p), m.job)
    && Valid(r) && Extends(Then(p, CancelCheck), r) && SameHandling(Then(p, CancelCheck), r)
  }

  /**
   * Once a poll of the working engine has seen the cancellation, this handling leaves the `try` normally
   * only as cancelled: a normal ack is issued right after `cancelled` was written.
   */
  lemma {:induction false} PolledCancelEnds(p: Run, r: Run, m: Msg)
    requires AfterPoll(p, r, m)
    ensures Observed(End(r), m)
  {
    if r != Then(p, CancelCheck) {
      PolledCancelEnds(p, r.prev, m);
      ObservedStays(End(r.prev), r.last, m);
    }
  }

  /** The engine dies, or a request of it raises or is not answered. */
  predicate Trouble(l: Label) {
    l.Crash? || l.Raise? || (l.Write? && !l.ok) || (l.DoAck? && !l.ok)
  }

  predicate NoTrouble(p: Run, r: Run)
    requires Extends(p, r)
  {
    p == r || (NoTrouble(p, r.prev) && !Trouble(r.last))
  }

  /** On the way from the migrator to the normal ack. */
  predicate OnTheWayOut(e: Engine) {
    e.Working? || e.Flushing? || e.Finishing? || (e.Acking? && e.site == Normal)
  }

  lemma WayOutStep(s: State, l: Label, m: Msg)
    requires Enabled(s, l) && Observed(s, m) && Held(s.engine) && Held(Apply(s, l).engine)
    ensures OnTheWayOut(Apply(s, l).engine) <==> OnTheWayOut(s.engine) && !Trouble(l)
  {
    if !UiLabel(l) {
      EngineWayOut(s, l, m);
    }
  }

  lemma EngineWayOut(s: State, l: Label, m: Msg)
    requires Enabled(s, l) && Observed(s, m) && Held(s.engine) && Held(Apply(s, l).engine) && !UiLabel(l)
    ensures OnTheWayOut(Apply(s, l).engine) <==> OnTheWayOut(s.engine) && !Trouble(l)
  {
  }

  lemma HeldBefore(s: State, l: Label)
    requires Enabled(s, l) && !l.Claim? && Held(Apply(s, l).engine)
    ensures Held(s.engine)
  {
  }

  lemma {:induction false} WayOutIff(p: Run, r: Run, m: Msg)
    requires AfterPoll(p, r, m) && Held(End(r).engine)
    ensures OnTheWayOut(End(r).engine) <==> NoTrouble(Then(p, CancelCheck), r)
  {
    if r != Then(p, CancelCheck) {
      HeldBefore(End(r.prev), r.last);
      PolledCancelEnds(p, r.prev, m);
      WayOutIff(p, r.prev, m);
      WayOutStep(End(r.prev), r.last, m);
    }
  }

  /** The run ends with the answered normal ack, right after `cancelled` was written. */
  predicate EndedCancelled(r: Run, m: Msg)
    requires Valid(r) && r.Then?
  {
    var s := End(r.prev);
    && s.engine == Acking(m, Normal) && r.last.DoAck? && r.last.ok
    && s.log != [] && s.log[|s.log| - 1] == WroteStatus(m.job, Cancelled)
  }

  /**
   * The step that ends a handling whose poll saw the cancellation ends it as cancelled exactly if since
   * the poll the engine did not die and no request of it raised or went unanswered.
   */
  lemma PolledCancelIff(p: Run, r: Run, m: Msg)
    requires AfterPoll(p, r, m) && r != Then(p, CancelCheck)
    requires Held(End(r.prev).engine) && !Held(End(r).engine)
    ensures EndedCancelled(r, m) <==> NoTrouble(Then(p, CancelCheck), r)
  {
    PolledCancelEnds(p, r.prev, m);
    WayOutIff(p, r.prev, m);
    LastStep(End(r.prev), r.last, m);
  }

  lemma LastStep(s: State, l: Label, m: Msg)
    requires Enabled(s, l) && Observed(s, m) && Held(s.engine) && !Held(Apply(s, l).engine)
    ensures OnTheWayOut(s.engine) && !Trouble(l) <==> s.engine == Acking(m, Normal) && l.DoAck? && l.ok
  {
  }

  /** What the engine wrote last for the job since `p`, if the write took effect. */
  function LastWritten(p: Run, r: Run, j: JobId): Option<Status>
    requires Valid(r) && Extends(p, r)
  {
    if p == r then None
    else if r.last.Write? && r.last.applied && End(r.prev).engine.m.job == j
    then Some(WrittenStatus(End(r.prev).engine))
    else LastWritten(p, r.prev, j)
  }

  /** As long as the user leaves the job alone, it reads what was written last. */
  lemma {:induction false} LastWriteDecides(p: Run, r: Run, j: JobId)
    requires Valid(p) && Valid(r) && Extends(p, r) && LeftToEngine(p, r, j) && j in End(p).rows
    ensures j in End(r).rows
    ensures
      var written := LastWritten(p, r, j);
      End(r).rows[j].status == if written.Some? then written.value else End(p).rows[j].status
  {
    if p != r {
      LastWriteDecides(p, r.prev, j);
      StatusStays(End(r.prev), r.last, j);
    }
  }

  lemma StatusStays(s: State, l: Label, j: JobId)
    requires Enabled(s, l) && j in s.rows && !CancelOf(l, j) && !DispatchOf(l, j)
    ensures j in Apply(s, l).rows
    ensures
      Apply(s, l).rows[j].status ==
        if l.Write? && l.applied && s.engine.m.job == j then WrittenStatus(s.engine) else s.rows[j].status
  {
    if l.Write? {
      WriteSets(s, l.applied, l.ok, j);
    }
  }

  // ----- which steps end a job -----

  predicate IsOpen(s: State, j: JobId) {
    j in s.rows && !Terminal(s.rows[j].status)
  }

  /** A write that ends the job of the message in hand. */
  predicate EndsJob(s: State, l: Label, j: JobId)
    requires Enabled(s, l)
  {
    l.Write? && l.applied && s.engine.m.job == j && Terminal(WrittenStatus(s.engine))
  }

  lemma OpenUntilExactly(s: State, l: Label, j: JobId)
    requires Enabled(s, l) && IsOpen(s, j)
    ensures IsOpen(Apply(s, l), j) <==> !CancelOf(l, j) && !EndsJob(s, l, j)
  {
    if l.Write? {
      WriteSets(s, l.applied, l.ok, j);
    }
  }

  // ----- a dispatch that is never worked off -----

  function JobOf(l: Label): JobId
    requires l.UiCreate? || l.UiRetry? || l.UiDelta?
  {
    if l.UiCreate? then l.id else l.job
  }

  /** The message a dispatch owes. */
  function Sent(s: State, l: Label): Msg
    requires Enabled(s, l) && (l.UiCreate? || l.UiRetry? || l.UiDelta?)
  {
    Msg(JobOf(l), if l.UiDelta? then Delta else Full, Apply(s, l).rows[JobOf(l)].dispatchSeq)
  }

  lemma SentIsNew(s: State, l: Label)
    requires Base(s) && Enabled(s, l) && (l.UiCreate? || l.UiRetry? || l.UiDelta?)
    ensures
      var t := Apply(s, l);
      var m := Sent(s, l);
      && t.owed == s.owed + {m} && t.queue == s.queue && t.engine == s.engine && IsOpen(t, m.job)
      && m !in s.owed && m !in s.queue && (Held(s.engine) ==> s.engine.m != m)
  {
  }

  /** Since `p` the user neither cancelled nor dispatched the job again. */
  predicate LeftToEngine(p: Run, r: Run, j: JobId)
    requires Extends(p, r)
  {
    p == r || (LeftToEngine(p, r.prev, j) && !CancelOf(r.last, j) && !DispatchOf(r.last, j))
  }

  /** Since `p` no handling of `m` itself ended the job. */
  predicate Unserved(p: Run, r: Run, m: Msg)
    requires Valid(r) && Extends(p, r)
  {
    p == r || (Unserved(p, r.prev, m) && !(EndsJob(End(r.prev), r.last, m.job) && End(r.prev).engine.m == m))
  }

  /**
   * The message is about to be acked as stale though nobody but the engine touched the job and no work was done
   * for it.
   */
  predicate Swallowed(p: Run, r: Run, m: Msg) {
    Valid(r) && Extends(p, r) && LeftToEngine(p, r, m.job) && Unserved(p, r, m) && End(r).engine == Acking(m, Stale)
  }

  /** No message of the job is queued or owed, and none is in hand for the last resort. */
  predicate Clear(s: State, j: JobId) {
    (forall x | x in s.queue + s.owed :: x.job != j) && !(s.engine.LastResort? && s.engine.m.job == j)
  }

  /** A message in hand has left the queue only by an ack whose response was lost, or by the ack under way after it. */
  predicate HandQueued(s: State) {
    Held(s.engine) ==>
      s.engine.m in s.queue || s.engine.LastResort? || (s.engine.Acking? && s.engine.site == AfterLastResort)
  }

  lemma StepKeepsHandQueued(s: State, l: Label)
    requires HandQueued(s) && Enabled(s, l)
    ensures HandQueued(Apply(s, l))
  {
    if !UiLabel(l) {
      EngineKeepsHandQueued(s, l);
    }
  }

  lemma EngineKeepsHandQueued(s: State, l: Label)
    requires HandQueued(s) && Enabled(s, l) && !UiLabel(l)
    ensures HandQueued(Apply(s, l))
  {
  }

  lemma {:induction false} RunKeepsHandQueued(r: Run)
    requires Valid(r)
    ensures HandQueued(End(r))
  {
    if r.Then? {
      RunKeepsHandQueued(r.prev);
      StepKeepsHandQueued(End(r.prev), r.last);
    }
  }

  /** The job waits for `m` alone: it is open, and nothing else can be worked on or end it. */
  predicate WaitsFor(s: State, m: Msg) {
    && IsOpen(s, m.job)
    && (forall x | x in s.queue + s.owed && x.job == m.job :: x == m)
    && (Held(s.engine) && s.engine.m.job == m.job ==>
          s.engine.m == m || (s.engine.Acking? && s.engine.site == AfterLastResort))
    && s.engine != Acking(m, Stale)
  }

  lemma StepKeepsWaiting(s: State, l: Label, m: Msg)
    requires Enabled(s, l) && WaitsFor(s, m) && !CancelOf(l, m.job) && !DispatchOf(l, m.job)
    requires !(EndsJob(s, l, m.job) && s.engine.m == m)
    ensures WaitsFor(Apply(s, l), m)
  {
    OpenUntilExactly(s, l, m.job);
    if UiLabel(l) {
      UiKeepsWaiting(s, l, m);
    } else {
      EngineKeepsWaiting(s, l, m);
    }
  }

  lemma UiKeepsWaiting(s: State, l: Label, m: Msg)
    requires Enabled(s, l) && WaitsFor(s, m) && UiLabel(l) && !DispatchOf(l, m.job)
    requires IsOpen(Apply(s, l), m.job)
    ensures WaitsFor(Apply(s, l), m)
  {
  }

  lemma EngineKeepsWaiting(s: State, l: Label, m: Msg)
    requires Enabled(s, l) && WaitsFor(s, m) && !UiLabel(l)
    requires IsOpen(Apply(s, l), m.job)
    ensures WaitsFor(Apply(s, l), m)
  {
  }

  lemma {:induction false} RunKeepsWaiting(p: Run, r: Run, m: Msg)
    requires Valid(p) && Valid(r) && Extends(p, r) && WaitsFor(End(p), m)
    requires LeftToEngine(p, r, m.job) && Unserved(p, r, m)
    ensures WaitsFor(End(r), m)
  {
    if p != r {
      RunKeepsWaiting(p, r.prev, m);
      StepKeepsWaiting(End(r.prev), r.last, m);
    }
  }

  /** Dispatched with the way clear, a message is acked as stale only after its own handling has ended the job. */
  lemma ClearIsServed(q: Run, l: Label, r: Run)
    requires Valid(Then(q, l)) && (l.UiCreate? || l.UiRetry? || l.UiDelta?) && Clear(End(q), JobOf(l))
    ensures !Swallowed(Then(q, l), r, Sent(End(q), l))
  {
    var m := Sent(End(q), l);
    RunKeepsBase(q);
    RunKeepsHandQueued(q);
    SentIsNew(End(q), l);
    assert WaitsFor(End(Then(q, l)), m);
    if Swallowed(Then(q, l), r, m) {
      RunKeepsWaiting(Then(q, l), r, m);
    }
  }

  // ----- the run that swallows a message dispatched otherwise -----

  /** A run on the way to a stale ack of `m`. */
  predicate OnTheWay(p: Run, r: Run, m: Msg) {
    Valid(r) && Extends(p, r) && LeftToEngine(p, r, m.job) && Unserved(p, r, m)
  }

  lemma Onward(p: Run, r: Run, m: Msg, l: Label) returns (t: Run)
    requires OnTheWay(p, r, m) && Enabled(End(r), l) && !CancelOf(l, m.job) && !DispatchOf(l, m.job)
    requires !(EndsJob(End(r), l, m.job) && End(r).engine.m == m)
    ensures OnTheWay(p, t, m) && End(t) == Apply(End(r), l) && t == Then(r, l)
  {
    t := Then(r, l);
  }

  /** The tables are as they were, and the engine stands idle and unstopped. */
  predicate Ready(s: State, t: State) {
    t.rows == s.rows && t.queue == s.queue && t.owed == s.owed && t.engine == Idle && !t.stop
  }

  /** A crash and a restart, from anywhere. */
  lemma Restarted(p: Run, r: Run, m: Msg) returns (t: Run)
    requires OnTheWay(p, r, m)
    ensures OnTheWay(p, t, m) && Ready(End(r), End(t))
  {
    t := r;
    if !End(r).engine.Down? {
      t := Onward(p, t, m, Crash);
    }
    t := Onward(p, t, m, Restart);
  }

  /** An owed message is sent. */
  lemma Delivered(p: Run, r: Run, m: Msg, x: Msg) returns (t: Run)
    requires OnTheWay(p, r, m) && x in End(r).queue + End(r).owed
    ensures OnTheWay(p, t, m)
    ensures
      End(t) == if x in End(r).queue then End(r) else Apply(End(r), UiSend(x))
    ensures x in End(t).queue && End(r).queue <= End(t).queue
    ensures End(t).rows == End(r).rows && End(t).engine == End(r).engine
    ensures End(t).queue + End(t).owed == End(r).queue + End(r).owed && End(t).stop == End(r).stop
  {
    t := r;
    if x !in End(r).queue {
      t := Onward(p, t, m, UiSend(x));
    }
  }

  /** A message is claimed and its row read. */
  lemma Claimed(p: Run, r: Run, m: Msg, x: Msg) returns (t: Run)
    requires OnTheWay(p, r, m) && End(r).engine == Idle && !End(r).stop && x in End(r).queue && x.job in End(r).rows
    ensures OnTheWay(p, t, m) && End(t).rows == End(r).rows && End(t).queue == End(r).queue
    ensures End(t).engine == if IsOpen(End(r), x.job) then Warming(x) else Acking(x, Stale)
    ensures !End(t).stop && !End(t).cancelled
  {
    t := Onward(p, r, m, Claim(x));
    t := Onward(p, t, m, Await);
    t := Onward(p, t, m, Await);
  }

  /** From the warm-up the job is worked off, every request succeeding. */
  lemma WorkedOff(p: Run, r: Run, m: Msg, x: Msg) returns (t: Run)
    requires OnTheWay(p, r, m) && End(r).engine == Warming(x) && x != m && x.job in End(r).rows
    requires !End(r).stop && !End(r).cancelled
    ensures OnTheWay(p, t, m) && x.job in End(t).rows && !IsOpen(End(t), x.job)
    ensures End(t).queue == End(r).queue - {x} && End(t).engine == Idle && !End(t).stop
  {
    t := Started(p, r, m, x);
    t := Onward(p, t, m, Return(Completed));
    t := Onward(p, t, m, Await);
    assert End(t).engine == Finishing(x, Completed);
    t := Finished(p, t, m, x);
  }

  lemma Started(p: Run, r: Run, m: Msg, x: Msg) returns (t: Run)
    requires OnTheWay(p, r, m) && End(r).engine == Warming(x) && x.job in End(r).rows
    ensures OnTheWay(p, t, m) && End(t).engine == Working(x) && x.job in End(t).rows
    ensures End(t).queue == End(r).queue && End(t).stop == End(r).stop && End(t).cancelled == End(r).cancelled
  {
    t := Onward(p, r, m, Await);
    t := Onward(p, t, m, Write(true, true));
  }

  lemma Finished(p: Run, r: Run, m: Msg, x: Msg) returns (t: Run)
    requires OnTheWay(p, r, m) && End(r).engine == Finishing(x, Completed) && x != m && x.job in End(r).rows
    ensures OnTheWay(p, t, m) && x.job in End(t).rows && !IsOpen(End(t), x.job)
    ensures End(t).queue == End(r).queue - {x} && End(t).engine == Idle && End(t).stop == End(r).stop
  {
    t := Onward(p, r, m, Write(true, true));
    t := Onward(p, t, m, DoAck(true, true));
  }

  /** An older message still around is worked off first, and the new one is then stale. */
  lemma SwallowedByOlder(q: Run, l: Label, x: Msg) returns (r: Run)
    requires Valid(Then(q, l)) && (l.UiCreate? || l.UiRetry? || l.UiDelta?)
    requires x in End(q).queue + End(q).owed && x.job == JobOf(l)
    ensures Swallowed(Then(q, l), r, Sent(End(q), l))
  {
    var p, m := Then(q, l), Sent(End(q), l);
    RunKeepsBase(q);
    SentIsNew(End(q), l);
    r := Restarted(p, p, m);
    r := Delivered(p, r, m, m);
    r := Delivered(p, r, m, x);
    r := OneAfterTheOther(p, r, m, x);
  }

  lemma OneAfterTheOther(p: Run, r: Run, m: Msg, x: Msg) returns (t: Run)
    requires OnTheWay(p, r, m) && End(r).engine == Idle && !End(r).stop
    requires m in End(r).queue && x in End(r).queue && m != x && m.job == x.job
    requires m.job in End(r).rows && IsOpen(End(r), m.job)
    ensures OnTheWay(p, t, m) && End(t).engine == Acking(m, Stale)
  {
    t := Claimed(p, r, m, x);
    t := WorkedOff(p, t, m, x);
    t := Claimed(p, t, m, m);
  }

  /** The engine is about to write FAILED for an older message. */
  lemma SwallowedByLastResort(q: Run, l: Label) returns (r: Run)
    requires Valid(Then(q, l)) && (l.UiCreate? || l.UiRetry? || l.UiDelta?)
    requires End(q).engine.LastResort? && End(q).engine.m.job == JobOf(l)
    ensures Swallowed(Then(q, l), r, Sent(End(q), l))
  {
    var p, m := Then(q, l), Sent(End(q), l);
    RunKeepsBase(q);
    SentIsNew(End(q), l);
    r := Delivered(p, p, m, m);
    r := Failed(p, r, m);
    r := Restarted(p, r, m);
    r := Claimed(p, r, m, m);
  }

  lemma Failed(p: Run, r: Run, m: Msg) returns (t: Run)
    requires OnTheWay(p, r, m) && End(r).engine.LastResort? && End(r).engine.m != m && End(r).engine.m.job == m.job
    requires m.job in End(r).rows
    ensures OnTheWay(p, t, m) && m.job in End(t).rows && !IsOpen(End(t), m.job) && End(t).queue == End(r).queue
  {
    t := Onward(p, r, m, Write(true, true));
  }

  /**
   * A dispatch is sure to be worked off, as far as the user leaves the job to the engine, exactly if at
   * the write no older message of the job is queued or owed and none is in hand for the last resort:
   * then its message is never acked as stale before its own handling ended the job, and otherwise some
   * run does that.
   */
  lemma ServedIffClear(q: Run, l: Label)
    requires Valid(Then(q, l)) && (l.UiCreate? || l.UiRetry? || l.UiDelta?)
    ensures Clear(End(q), JobOf(l)) <==> forall r :: !Swallowed(Then(q, l), r, Sent(End(q), l))
  {
    if Clear(End(q), JobOf(l)) {
      forall r ensures !Swallowed(Then(q, l), r, Sent(End(q), l)) {
        ClearIsServed(q, l, r);
      }
    } else if x :| x in End(q).queue + End(q).owed && x.job == JobOf(l) {
      var r := SwallowedByOlder(q, l, x);
      assert Swallowed(Then(q, l), r, Sent(End(q), l));
    } else {
      var r := SwallowedByLastResort(q, l);
      assert Swallowed(Then(q, l), r, Sent(End(q), l));
    }
  }
}
