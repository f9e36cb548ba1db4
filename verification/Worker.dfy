/**
 * `EngineWorker._handle` as it is written: a straight line of requests under two `try`s.
 *
 * The worker drives the protocol's state itself: every request is one protocol step, taken after any
 * steps of other parties, and must be the step enabled at that point.  So whatever the requests are
 * answered, the code follows the protocol, and what is proved of every protocol run holds of it.
 * The contracts say which events a call adds to the history, reply by reply.
 */
module Worker {
  import opened Jobs
  import opened Replies
  import opened Protocol

  /** What other parties do while a request is in flight, and how it ends. */
  datatype Moment = Moment(others: seq<Label>, reply: Reply)

  /** What a migrator does between its start and its end, as far as the protocol can see. */
  datatype Inside = Report(at: Moment) | PollCancel(at: Moment)

  datatype Script = Script(
    config: Moment,
    fetch: Moment,
    release: Moment,
    warm: Moment,
    start: Moment,
    inside: seq<Inside>,
    end: Moment,          // the migrator returns or raises
    early: bool,          // and, having seen a stop, whether it says so
    flush: Moment,
    finish: Moment,
    ack: Moment,
    backOff: Moment,
    failFlush: Moment,
    failStatus: Moment,
    lastResort: Moment)

  /** Steps of the UI, the clock and the signal handler. */
  predicate Foreign(l: Label) {
    UiLabel(l) || l.Tick? || l.RequestStop?
  }

  /** Only a migrator raises Graph errors. */
  function Plain(exn: Exn): Exn {
    if exn.ControlPlane? then exn else Other
  }

  function PlainExit(r: Reply): Exit {
    match r
    case Ok => Go
    case Fail(exn, _) => Raised(Plain(exn))
    case Kill(_) => Killed
  }

  function RunOf(labels: seq<Label>): Run {
    if labels == [] then Start else Then(RunOf(labels[..|labels| - 1]), labels[|labels| - 1])
  }

  /** The three-way branch after the final flush. */
  function Chosen(m: Msg, final: Status, cancelled: bool, stop: bool): Engine {
    if cancelled then Finishing(m, Cancelled) else if stop && final != Completed then Idle else Finishing(m, final)
  }

  /** Where the engine is after an answered request that is no write, no ack and no fetch. */
  function Next(e: Engine, cancelled: bool, stop: bool): Engine {
    if e.Configuring? then Fetching(e.m)
    else if e.Warming? then Starting(e.m)
    else if e.GraphFlushing? then GraphFailing(e.m, e.st)
    else if e.Flushing? then Chosen(e.m, e.final, cancelled, stop)
    else Idle
  }

  /** At a request that writes no status, acks nothing and reads no job. */
  predicate Asking(e: Engine) {
    e.Configuring? || e.Releasing? || e.Warming? || e.Flushing? || e.GraphFlushing?
  }

  /** Where it is if such a request raises. */
  function Thrown(e: Engine): Engine {
    if e.Warming? || e.Flushing? then LastResort(e.m)
    else if e.GraphFlushing? then GraphFailing(e.m, e.st)
    else Idle
  }

  lemma ThrowMoves(s: State, exn: Exn)
    requires Asking(s.engine) && exn == Plain(exn)
    ensures Enabled(s, Raise(exn)) && Apply(s, Raise(exn)) == s.(engine := Thrown(s.engine))
  {
  }

  lemma FetchThrowMoves(s: State, m: Msg, exn: Exn)
    requires s.engine == Fetching(m) && exn == Plain(exn)
    ensures Enabled(s, Raise(exn))
    ensures Apply(s, Raise(exn)) == s.(engine := if exn.ControlPlane? then Releasing(m) else Idle)
  {
  }

  // ----- the events a request adds -----

  function PutEvents(job: JobId, st: Status, r: Reply): seq<Event> {
    if TookEffect(r) then [WroteStatus(job, st)] else []
  }

  function AckEvents(m: Msg, site: Site, r: Reply): seq<Event> {
    if r == Kill(false) then [] else [Acked(m, site)]
  }

  function TriedEvents(job: JobId, r: Reply): seq<Event> {
    if r == Kill(false) then [] else [TriedLastResort(job)]
  }

  /** A request that took effect is in the history whether or not its answer came, an ack or attempt even if refused. */
  lemma EventsTell(job: JobId, st: Status, m: Msg, site: Site, r: Reply)
    ensures PutEvents(job, st, r) == (if r.Ok? || r.applied then [WroteStatus(job, st)] else [])
    ensures AckEvents(m, site, r) == (if r.Kill? && !r.applied then [] else [Acked(m, site)])
    ensures TriedEvents(job, r) == (if r.Kill? && !r.applied then [] else [TriedLastResort(job)])
  {
  }

  /** The last-resort write is not lost while the engine lives on. */
  predicate Lands(r: Reply) {
    !(r.Fail? && !r.applied)
  }

  predicate AllOk(script: Script) {
    && script.config.reply.Ok? && script.fetch.reply.Ok? && script.warm.reply.Ok? && script.start.reply.Ok?
    && (forall i | 0 <= i < |script.inside| :: script.inside[i].at.reply.Ok?)
    && script.end.reply.Ok? && script.flush.reply.Ok? && script.finish.reply.Ok? && script.ack.reply.Ok?
  }

  /** No request of the handling is cut short by the death of the process. */
  predicate Survives(script: Script) {
    && !script.config.reply.Kill? && !script.fetch.reply.Kill? && !script.warm.reply.Kill? && !script.start.reply.Kill?
    && (forall i | 0 <= i < |script.inside| :: !script.inside[i].at.reply.Kill?)
    && !script.end.reply.Kill? && !script.flush.reply.Kill? && !script.finish.reply.Kill? && !script.ack.reply.Kill?
    && !script.backOff.reply.Kill? && !script.release.reply.Kill? && !script.failFlush.reply.Kill?
    && !script.failStatus.reply.Kill? && !script.lastResort.reply.Kill?
  }

  /** Writes of the job's running status, and nothing else. */
  predicate RunningOnly(m: Msg, es: seq<Event>) {
    forall e | e in es :: e == WroteStatus(m.job, RunningStatus(m))
  }

  /** The job is worked on, its end status is written, and the message is acked. */
  predicate WorkedOff(m: Msg, es: seq<Event>, st: Status) {
    && |es| >= 2 && RunningOnly(m, es[..|es| - 2])
    && es[|es| - 2] == WroteStatus(m.job, st) && es[|es| - 1] == Acked(m, Normal)
  }

  function FinishEvents(m: Msg, st: Status, script: Script): seq<Event> {
    PutEvents(m.job, st, script.finish.reply) +
    (if script.finish.reply.Ok? then AckEvents(m, Normal, script.ack.reply) else [])
  }

  /** The throttle exit never acks. */
  function BackOffEvents(m: Msg, script: Script): seq<Event> {
    PutEvents(m.job, BackingOff, script.backOff.reply)
  }

  /** The Graph error exit acks only after its status was written. */
  function FailEvents(m: Msg, st: Status, script: Script): seq<Event> {
    if script.failFlush.reply.Kill? then []
    else
      PutEvents(m.job, st, script.failStatus.reply) +
      (if script.failStatus.reply.Ok? then AckEvents(m, AfterGraphError, script.ack.reply) else [])
  }

  /** The last exit acks whatever became of its write. */
  function LastChanceEvents(m: Msg, script: Script): seq<Event> {
    TriedEvents(m.job, script.lastResort.reply) +
    (if script.lastResort.reply.Kill? then [] else AckEvents(m, AfterLastResort, script.ack.reply))
  }

  function RecoverEvents(m: Msg, exn: Exn, script: Script): seq<Event> {
    match exn
    case Throttled => BackOffEvents(m, script)
    case Graph(st) => FailEvents(m, st, script)
    case _ => LastChanceEvents(m, script)
  }

  lemma Joined(before: seq<Event>, a: seq<Event>, b: seq<Event>, after: seq<Event>)
    requires after == (before + a) + b
    ensures after == before + (a + b)
  {
  }

  predicate NoClaims(es: seq<Event>) {
    forall e | e in es :: !e.Claimed?
  }

  /** The job was ended as the flag says, or left to a redelivery because of a stop. */
  predicate WorkedOrLeft(m: Msg, es: seq<Event>, cancelled: bool, stop: bool) {
    WorkedOff(m, es, if cancelled then Cancelled else Completed) || (stop && RunningOnly(m, es))
  }

  lemma NoClaimsOn(a: seq<Event>, b: seq<Event>)
    requires NoClaims(a) && NoClaims(b)
    ensures NoClaims(a + b)
  {
  }

  lemma RecoverNoClaims(m: Msg, exn: Exn, script: Script)
    ensures NoClaims(RecoverEvents(m, exn, script))
  {
  }

  /** What the branch after the flush adds completes what the migrator wrote. */
  lemma Ended(m: Msg, worked: seq<Event>, more: seq<Event>, cancelled: bool, stop: bool)
    requires RunningOnly(m, worked)
    requires
      || more == [WroteStatus(m.job, if cancelled then Cancelled else Completed), Acked(m, Normal)]
      || (more == [] && stop)
    ensures WorkedOrLeft(m, worked + more, cancelled, stop)
  {
    assert more != [] ==> (worked + more)[..|worked|] == worked;
    assert more == [] ==> worked + more == worked;
  }

  /** What a handling with every request answered adds to the history. */
  predicate HandledWell(m: Msg, added: seq<Event>, cancelled: bool, stop: bool) {
    && added != [] && added[0].ReadStatus? && added[0].job == m.job
    && if Terminal(added[0].st) then added[1..] == [Acked(m, Stale)]
       else WorkedOrLeft(m, added[1..], cancelled, stop)
  }

  /** The messages are claimed in their order, each once, and an unhandled one stays queued. */
  predicate HandledUpTo(pulled: seq<(Msg, Script)>, n: nat, added: seq<Event>, queue: set<Msg>)
    requires n <= |pulled|
  {
    && (forall e | e in added && e.Claimed? :: exists i :: 0 <= i < n && e.m == pulled[i].0)
    && (forall i | 0 <= i < n :: Claimed(pulled[i].0) in added)
    && (forall i | n <= i < |pulled| :: pulled[i].0 in queue)
  }

  lemma OneMoreHandled(pulled: seq<(Msg, Script)>, n: nat, added: seq<Event>, queue: set<Msg>, more: seq<Event>,
                       left: set<Msg>)
    requires n < |pulled| && HandledUpTo(pulled, n, added, queue)
    requires forall i, j | 0 <= i < j < |pulled| :: pulled[i].0 != pulled[j].0
    requires more != [] && more[0] == Claimed(pulled[n].0) && NoClaims(more[1..]) && queue - {pulled[n].0} <= left
    ensures HandledUpTo(pulled, n + 1, added + more, left)
  {
    assert more == [more[0]] + more[1..];
    forall e | e in added + more && e.Claimed? ensures exists i :: 0 <= i < n + 1 && e.m == pulled[i].0 {
      if e in added {
        var i :| 0 <= i < n && e.m == pulled[i].0;
      } else {
        assert e == more[0];
      }
    }
  }

  class EngineWorker {
    var s: State
    ghost var labels: seq<Label>

    /** The state is that of the protocol run taken so far. */
    ghost predicate Inv()
      reads this
    {
      Valid(RunOf(labels)) && End(RunOf(labels)) == s
    }

    /** No last-resort write was lost so far. */
    ghost predicate Sound()
      reads this
    {
      Valid(RunOf(labels)) && LastResortHolds(RunOf(labels))
    }

    /** The run went on, its history grew by these events, and no message but `acked` left the queue. */
    twostate predicate Went(added: seq<Event>, acked: set<Msg>)
      reads this
    {
      old(labels) <= labels && s.log == old(s.log) + added && old(s.queue) - acked <= s.queue
    }

    /** The same without an event or an ack. */
    twostate predicate Waited()
      reads this
    {
      old(labels) <= labels && s.log == old(s.log) && old(s.queue) <= s.queue
    }

    constructor ()
      ensures Inv() && Sound() && s == Init()
    {
      s, labels := Init(), [];
    }

    method Step(l: Label)
      requires Inv() && Enabled(s, l)
      modifies this
      ensures Inv() && s == Apply(old(s), l) && labels == old(labels) + [l]
      ensures old(Sound()) && !LastResortLost(old(s), l) ==> Sound()
    {
      s := Apply(s, l);
      assert (labels + [l])[..|labels|] == labels;
      labels := labels + [l];
    }

    method StepForeign(l: Label)
      requires Inv() && Enabled(s, l) && Foreign(l)
      modifies this
      ensures Inv() && Waited() && (old(Sound()) ==> Sound())
      ensures s.engine == old(s.engine) && s.cancelled == old(s.cancelled) && (old(s.stop) ==> s.stop)
    {
      Step(l);
    }

    /** Steps of other parties; one that is not enabled does not happen. */
    method Others(ls: seq<Label>)
      requires Inv()
      modifies this
      ensures Inv() && Waited() && (old(Sound()) ==> Sound())
      ensures s.engine == old(s.engine) && s.cancelled == old(s.cancelled) && (old(s.stop) ==> s.stop)
    {
      for i := 0 to |ls|
        invariant Inv() && Waited() && (old(Sound()) ==> Sound())
        invariant s.engine == old(s.engine) && s.cancelled == old(s.cancelled) && (old(s.stop) ==> s.stop)
      {
        if Foreign(ls[i]) && Enabled(s, ls[i]) {
          StepForeign(ls[i]);
        }
      }
    }

    method Die()
      requires Inv() && !s.engine.Down?
      modifies this
      ensures Inv() && Waited() && (old(Sound()) ==> Sound())
      ensures s.engine == Down && s.cancelled == old(s.cancelled)
    {
      Step(Crash);
    }

    /** An exception that is no Graph error, outside the migrator. */
    method StepThrow(exn: Exn)
      requires Inv() && Asking(s.engine) && exn == Plain(exn)
      modifies this
      ensures Inv() && Waited() && (old(Sound()) ==> Sound())
      ensures s.engine == Thrown(old(s.engine)) && s.cancelled == old(s.cancelled)
    {
      ThrowMoves(s, exn);
      Step(Raise(exn));
    }

    method StepMigratorThrow(exn: Exn)
      requires Inv() && s.engine.Working? && (exn.Graph? ==> GraphStatus(exn.status))
      modifies this
      ensures Inv() && Waited() && (old(Sound()) ==> Sound())
      ensures s.engine == CatchTry(old(s.engine).m, exn)
    {
      Step(Raise(exn));
    }

    method StepAwait()
      requires Inv() && Asking(s.engine)
      modifies this
      ensures Inv() && Waited() && (old(Sound()) ==> Sound())
      ensures s.engine == Next(old(s.engine), s.cancelled, s.stop)
      ensures s.cancelled == old(s.cancelled) && s.stop == old(s.stop)
    {
      Step(Await);
    }

    method StepWrite(applied: bool, ok: bool)
      requires Inv() && Writing(s.engine) && !s.engine.LastResort? && (ok ==> applied)
      modifies this
      ensures Inv() && (old(Sound()) ==> Sound())
      ensures Went(if applied then [WroteStatus(old(s.engine).m.job, WrittenStatus(old(s.engine)))] else [], {})
      ensures s.engine == AfterWrite(old(s.engine), ok) && s.cancelled == old(s.cancelled)
    {
      Step(Write(applied, ok));
    }

    method StepLastResort(applied: bool)
      requires Inv() && s.engine.LastResort?
      modifies this
      ensures Inv() && (old(Sound()) && applied ==> Sound())
      ensures Went([TriedLastResort(old(s.engine).m.job)], {})
      ensures s.engine == Acking(old(s.engine).m, AfterLastResort)
    {
      Step(Write(applied, applied));
    }

    method StepAck(applied: bool, ok: bool)
      requires Inv() && s.engine.Acking?
      modifies this
      ensures Inv() && (old(Sound()) ==> Sound())
      ensures Went([Acked(old(s.engine).m, old(s.engine).site)], {old(s.engine).m})
      ensures s.engine == if ok then Idle else if old(s.engine).site.Normal? then LastResort(old(s.engine).m) else Idle
      ensures s.stop == old(s.stop) && s.cancelled == old(s.cancelled)
    {
      Step(DoAck(applied, ok));
    }

    /** A request that writes no status. */
    method Request(at: Moment) returns (r: Exit)
      requires Inv() && Asking(s.engine)
      modifies this
      ensures Inv() && Waited() && (old(Sound()) ==> Sound())
      ensures r == PlainExit(at.reply) && s.cancelled == old(s.cancelled)
      ensures s.engine ==
        if r.Go? then Next(old(s.engine), s.cancelled, s.stop)
        else if r.Raised? then Thrown(old(s.engine)) else Down
    {
      Others(at.others);
      r := PlainExit(at.reply);
      if r.Go? {
        StepAwait();
      } else if r.Raised? {
        StepThrow(r.exn);
      } else {
        Die();
      }
    }

    /** `resume_job`; a missing job is a failed fetch. */
    method ResumeJob(m: Msg, at: Moment) returns (r: Exit, st: Status)
      requires Inv() && s.engine == Fetching(m)
      modifies this
      ensures Inv() && (old(Sound()) ==> Sound())
      ensures r == PlainExit(at.reply) && Went(if r.Go? then [ReadStatus(m.job, st)] else [], {})
      ensures s.engine ==
        if r.Go? then (if Terminal(st) then Acking(m, Stale) else Warming(m))
        else if r == Raised(ControlPlane) then Releasing(m) else if r.Raised? then Idle else Down
    {
      st := Queued;
      Others(at.others);
      r := PlainExit(at.reply);
      if r.Go? {
        st := ReadJob(m);
      } else if r.Raised? {
        FetchThrow(m, r.exn);
      } else {
        Die();
      }
    }

    method ReadJob(m: Msg) returns (st: Status)
      requires Inv() && s.engine == Fetching(m)
      modifies this
      ensures Inv() && Went([ReadStatus(m.job, st)], {}) && (old(Sound()) ==> Sound())
      ensures s.engine == if Terminal(st) then Acking(m, Stale) else Warming(m)
    {
      RunKeepsBase(RunOf(labels));
      st := s.rows[m.job].status;
      Step(Await);
    }

    method FetchThrow(m: Msg, exn: Exn)
      requires Inv() && s.engine == Fetching(m) && exn == Plain(exn)
      modifies this
      ensures Inv() && Waited() && (old(Sound()) ==> Sound())
      ensures s.engine == if exn.ControlPlane? then Releasing(m) else Idle
    {
      FetchThrowMoves(s, m, exn);
      Step(Raise(exn));
    }

    /** A status or progress write; the protocol must expect this very status here. */
    method Put(job: JobId, st: Status, at: Moment) returns (r: Exit)
      requires Inv() && Writing(s.engine) && !s.engine.LastResort?
      requires s.engine.m.job == job && WrittenStatus(s.engine) == st
      modifies this
      ensures Inv() && Went(PutEvents(job, st, at.reply), {}) && (old(Sound()) ==> Sound())
      ensures r == (if at.reply.Ok? then Go else if at.reply.Fail? then Raised(Other) else Killed)
      ensures s.engine == if r.Killed? then Down else AfterWrite(old(s.engine), r.Go?)
      ensures s.cancelled == old(s.cancelled)
    {
      Others(at.others);
      if at.reply.Kill? {
        DieWriting(at.reply.applied);
        r := Killed;
      } else {
        StepWrite(TookEffect(at.reply), at.reply.Ok?);
        r := if at.reply.Ok? then Go else Raised(Other);
      }
    }

    method DieWriting(applied: bool)
      requires Inv() && Writing(s.engine) && !s.engine.LastResort?
      modifies this
      ensures Inv() && (old(Sound()) ==> Sound())
      ensures Went(if applied then [WroteStatus(old(s.engine).m.job, WrittenStatus(old(s.engine)))] else [], {})
      ensures s.engine == Down && s.cancelled == old(s.cancelled)
    {
      if applied { StepWrite(true, true); }
      Die();
    }

    method Ack(at: Moment) returns (r: Exit)
      requires Inv() && s.engine.Acking?
      modifies this
      ensures Inv() && Went(AckEvents(old(s.engine).m, old(s.engine).site, at.reply), {old(s.engine).m})
      ensures old(Sound()) ==> Sound()
      ensures r == (if at.reply.Ok? then Go else if at.reply.Fail? then Raised(Other) else Killed)
      ensures s.engine ==
        if r.Killed? then Down
        else if r.Raised? && old(s.engine).site.Normal? then LastResort(old(s.engine).m) else Idle
      ensures s.cancelled == old(s.cancelled)
    {
      Others(at.others);
      if at.reply.Kill? {
        DieAcking(at.reply.applied);
        r := Killed;
      } else {
        StepAck(TookEffect(at.reply), at.reply.Ok?);
        r := if at.reply.Ok? then Go else Raised(Other);
      }
    }

    method DieAcking(applied: bool)
      requires Inv() && s.engine.Acking?
      modifies this
      ensures Inv() && (old(Sound()) ==> Sound())
      ensures Went(if applied then [Acked(old(s.engine).m, old(s.engine).site)] else [], {old(s.engine).m})
      ensures s.engine == Down && s.cancelled == old(s.cancelled)
    {
      if applied { StepAck(true, true); }
      Die();
    }

    /** The last-resort write, whose exceptions are suppressed. */
    method PutLast(m: Msg, at: Moment) returns (r: Exit)
      requires Inv() && s.engine == LastResort(m)
      modifies this
      ensures Inv() && Went(TriedEvents(m.job, at.reply), {}) && (old(Sound()) && Lands(at.reply) ==> Sound())
      ensures r == if at.reply.Kill? then Killed else Go
      ensures s.engine == if r.Killed? then Down else Acking(m, AfterLastResort)
    {
      Others(at.others);
      if at.reply.Kill? {
        if at.reply.applied { StepLastResort(true); }
        Die();
        r := Killed;
      } else {
        StepLastResort(TookEffect(at.reply));
        r := Go;
      }
    }

    /** The migrator, from the outside: it reports, polls for a cancellation, and returns or raises. */
    method RunMigrator(m: Msg, script: Script) returns (r: Exit, final: Status, ghost added: seq<Event>)
      requires Inv() && s.engine == Working(m)
      modifies this
      ensures Inv() && Went(added, {}) && RunningOnly(m, added) && (old(Sound()) ==> Sound())
      ensures r.Killed? ==> s.engine == Down
      ensures r.Raised? ==> s.engine == CatchTry(m, r.exn)
      ensures r.Go? ==> s.engine == Flushing(m, final)
      ensures AllOk(script) ==> r.Go?
      ensures Survives(script) ==> !r.Killed?
    {
      r, final, added := Go, Completed, [];
      for i := 0 to |script.inside|
        invariant Inv() && Went(added, {}) && RunningOnly(m, added) && (old(Sound()) ==> Sound())
        invariant s.engine == Working(m)
      {
        match script.inside[i]
        case Report(at) =>
          r := Put(m.job, RunningStatus(m), at);
          Joined(old(s.log), added, PutEvents(m.job, RunningStatus(m), at.reply), s.log);
          added := added + PutEvents(m.job, RunningStatus(m), at.reply);
          if !r.Go? { return; }
        case PollCancel(at) =>
          r := Poll(m, at);
          if !r.Go? { return; }
      }
      r, final := Leave(m, script.end, script.early);
    }

    /** The cancel poll, whose exceptions are swallowed. */
    method Poll(m: Msg, at: Moment) returns (r: Exit)
      requires Inv() && s.engine == Working(m)
      modifies this
      ensures Inv() && Waited() && (old(Sound()) ==> Sound())
      ensures r == (if at.reply.Kill? then Killed else Go)
      ensures s.engine == if at.reply.Kill? then Down else Working(m)
    {
      Others(at.others);
      r := Go;
      if at.reply.Kill? {
        Die();
        r := Killed;
      } else if at.reply.Ok? {
        RunKeepsBase(RunOf(labels));
        Step(CancelCheck);
      }
    }

    /** The end of a migrator; only Exchange, and only if it saw a stop, returns anything but COMPLETED. */
    method Leave(m: Msg, at: Moment, early: bool) returns (r: Exit, final: Status)
      requires Inv() && s.engine == Working(m)
      modifies this
      ensures Inv() && Waited() && (old(Sound()) ==> Sound())
      ensures r.Killed? ==> s.engine == Down
      ensures r.Raised? ==> s.engine == CatchTry(m, r.exn)
      ensures r.Go? ==> s.engine == Flushing(m, final)
      ensures at.reply.Ok? ==> r.Go?
      ensures r.Killed? ==> at.reply.Kill?
    {
      final := Completed;
      Others(at.others);
      match at.reply
      case Ok =>
        final := StepReturn(m, early);
        r := Go;
      case Fail(exn, _) =>
        var raised := if exn.Graph? && !GraphStatus(exn.status) then Other else exn;
        StepMigratorThrow(raised);
        r := Raised(raised);
      case Kill(_) =>
        Die();
        r := Killed;
    }

    method StepReturn(m: Msg, early: bool) returns (final: Status)
      requires Inv() && s.engine == Working(m)
      modifies this
      ensures Inv() && Waited() && (old(Sound()) ==> Sound())
      ensures s.engine == Flushing(m, final)
    {
      RunKeepsBase(RunOf(labels));
      final := Completed;
      if early && s.rows[m.job].workload == Exchange && (s.stop || s.cancelled) { final := RunningStatus(m); }
      Step(Return(final));
    }

    method Begin(m: Msg, script: Script) returns (r: Exit, ghost added: seq<Event>)
      requires Inv() && s.engine == Warming(m)
      modifies this
      ensures Inv() && Went(added, {}) && RunningOnly(m, added) && (old(Sound()) ==> Sound())
      ensures r.Killed? ==> s.engine == Down
      ensures r.Raised? ==> s.engine == CatchTry(m, r.exn)
      ensures r.Go? ==> s.engine == Working(m)
      ensures AllOk(script) ==> r.Go?
      ensures Survives(script) ==> !r.Killed?
    {
      added := [];
      r := Request(script.warm);
      if !r.Go? { return; }
      added := PutEvents(m.job, RunningStatus(m), script.start.reply);
      r := Put(m.job, RunningStatus(m), script.start);
    }

    method Finish(m: Msg, st: Status, script: Script) returns (r: Exit)
      requires Inv() && s.engine == Finishing(m, st)
      modifies this
      ensures Inv() && Went(FinishEvents(m, st, script), {m}) && (old(Sound()) ==> Sound())
      ensures r.Killed? ==> s.engine == Down
      ensures r.Raised? ==> s.engine == CatchTry(m, r.exn)
      ensures r.Go? ==> s.engine == Idle && script.finish.reply.Ok? && script.ack.reply.Ok?
      ensures s.cancelled == old(s.cancelled)
      ensures script.finish.reply.Ok? && script.ack.reply.Ok? ==> r.Go?
      ensures Survives(script) ==> !r.Killed?
    {
      r := Put(m.job, st, script.finish);
      if !r.Go? { return; }
      r := Ack(script.ack);
    }

    /** From the final flush of the checkpoint on. */
    method Conclude(m: Msg, final: Status, script: Script) returns (r: Exit, ghost added: seq<Event>)
      requires Inv() && s.engine == Flushing(m, final)
      modifies this
      ensures Inv() && Went(added, {m}) && NoClaims(added) && (old(Sound()) ==> Sound())
      ensures r.Killed? ==> s.engine == Down
      ensures r.Raised? ==> s.engine == CatchTry(m, r.exn)
      ensures r.Go? ==> s.engine == Idle
      ensures r.Go? ==>
        || added == [WroteStatus(m.job, if s.cancelled then Cancelled else Completed), Acked(m, Normal)]
        || (added == [] && s.stop)
      ensures AllOk(script) ==> r.Go?
      ensures Survives(script) ==> !r.Killed?
    {
      added := [];
      r := FlushStore(m, final, script.flush);
      if !r.Go? { return; }
      r, added := Choose(m, final, script);
    }

    method FlushStore(m: Msg, final: Status, at: Moment) returns (r: Exit)
      requires Inv() && s.engine == Flushing(m, final)
      modifies this
      ensures Inv() && Waited() && (old(Sound()) ==> Sound())
      ensures r.Killed? ==> s.engine == Down
      ensures r.Raised? ==> s.engine == CatchTry(m, r.exn)
      ensures r.Go? ==> s.engine == Chosen(m, final, s.cancelled, s.stop)
      ensures at.reply.Ok? ==> r.Go?
      ensures r.Killed? ==> at.reply.Kill?
    {
      r := Request(at);
    }

    /** The three-way branch after the flush. */
    method Choose(m: Msg, final: Status, script: Script) returns (r: Exit, ghost added: seq<Event>)
      requires Inv() && s.engine == Chosen(m, final, s.cancelled, s.stop)
      modifies this
      ensures Inv() && Went(added, {m}) && NoClaims(added) && (old(Sound()) ==> Sound())
      ensures r.Killed? ==> s.engine == Down
      ensures r.Raised? ==> s.engine == CatchTry(m, r.exn)
      ensures r.Go? ==> s.engine == Idle
      ensures r.Go? ==>
        || added == [WroteStatus(m.job, if s.cancelled then Cancelled else Completed), Acked(m, Normal)]
        || (added == [] && s.stop)
      ensures script.finish.reply.Ok? && script.ack.reply.Ok? ==> r.Go?
      ensures Survives(script) ==> !r.Killed?
    {
      r, added := Go, [];
      if s.engine.Finishing? { NormalExitStatus(RunOf(labels)); }
      if s.cancelled {
        added := FinishEvents(m, Cancelled, script);
        r := Finish(m, Cancelled, script);
      } else if s.stop && final != Completed {
        // the lease is left to expire
      } else {
        added := FinishEvents(m, final, script);
        r := Finish(m, final, script);
      }
    }

    /** What is under the inner `try`. */
    method Work(m: Msg, script: Script) returns (r: Exit, ghost added: seq<Event>)
      requires Inv() && s.engine == Warming(m)
      modifies this
      ensures Inv() && Went(added, {m}) && NoClaims(added) && (old(Sound()) ==> Sound())
      ensures r.Killed? ==> s.engine == Down
      ensures r.Raised? ==> s.engine == CatchTry(m, r.exn)
      ensures r.Go? ==> s.engine == Idle && WorkedOrLeft(m, added, s.cancelled, s.stop)
      ensures AllOk(script) ==> r.Go?
      ensures Survives(script) ==> !r.Killed?
    {
      var final;
      r, final, added := Run(m, script);
      if !r.Go? { return; }
      ghost var worked, more := added, [];
      r, more := Conclude(m, final, script);
      Joined(old(s.log), worked, more, s.log);
      added := worked + more;
      NoClaimsOn(worked, more);
      if r.Go? { Ended(m, worked, more, s.cancelled, s.stop); }
    }

    /** Up to the migrator's end. */
    method Run(m: Msg, script: Script) returns (r: Exit, final: Status, ghost added: seq<Event>)
      requires Inv() && s.engine == Warming(m)
      modifies this
      ensures Inv() && Went(added, {}) && RunningOnly(m, added) && (old(Sound()) ==> Sound())
      ensures r.Killed? ==> s.engine == Down
      ensures r.Raised? ==> s.engine == CatchTry(m, r.exn)
      ensures r.Go? ==> s.engine == Flushing(m, final)
      ensures AllOk(script) ==> r.Go?
      ensures Survives(script) ==> !r.Killed?
    {
      final := Completed;
      r, added := Begin(m, script);
      if !r.Go? { return; }
      ghost var begun, more := added, [];
      r, final, more := RunMigrator(m, script);
      Joined(old(s.log), begun, more, s.log);
      added := begun + more;
    }

    /** `except ThrottledError`: back off, and hand the lease back for a later redelivery. */
    method BackOff(m: Msg, script: Script)
      requires Inv() && s.engine == BackingOffWrite(m)
      modifies this
      ensures Inv() && Went(BackOffEvents(m, script), {}) && (old(Sound()) ==> Sound())
      ensures s.engine == Idle || s.engine == Down
      ensures Survives(script) ==> s.engine == Idle
    {
      var r := Put(m.job, BackingOff, script.backOff);  // exceptions suppressed
      if r.Killed? { return; }
      var _ := Request(script.release);
    }

    /** `except GraphError`: a distinct terminal status, then the ack. */
    method Fail(m: Msg, st: Status, script: Script)
      requires Inv() && s.engine == GraphFlushing(m, st)
      modifies this
      ensures Inv() && Went(FailEvents(m, st, script), {m}) && (old(Sound()) ==> Sound())
      ensures s.engine == Idle || s.engine == Down
      ensures Survives(script) ==> s.engine == Idle
    {
      var r := Request(script.failFlush);  // exceptions suppressed
      if r.Killed? { return; }
      FailStatus(m, st, script);
    }

    method FailStatus(m: Msg, st: Status, script: Script)
      requires Inv() && s.engine == GraphFailing(m, st)
      modifies this
      ensures Inv() && (old(Sound()) ==> Sound())
      ensures Went(PutEvents(m.job, st, script.failStatus.reply) +
                   (if script.failStatus.reply.Ok? then AckEvents(m, AfterGraphError, script.ack.reply) else []), {m})
      ensures s.engine == Idle || s.engine == Down
      ensures Survives(script) ==> s.engine == Idle
    {
      var r := Put(m.job, st, script.failStatus);
      if !r.Go? { return; }
      r := Ack(script.ack);
    }

    /** `except Exception`: the ack follows whether or not the write succeeded. */
    method LastChance(m: Msg, script: Script)
      requires Inv() && s.engine == LastResort(m)
      modifies this
      ensures Inv() && Went(LastChanceEvents(m, script), {m})
      ensures old(Sound()) && Lands(script.lastResort.reply) ==> Sound()
      ensures s.engine == Idle || s.engine == Down
      ensures Survives(script) ==> s.engine == Idle
    {
      var r := PutLast(m, script.lastResort);
      if r.Killed? { return; }
      r := Ack(script.ack);
    }

    /** The `except` clauses of the inner `try`. */
    method Recover(m: Msg, exn: Exn, script: Script)
      requires Inv() && s.engine == CatchTry(m, exn)
      modifies this
      ensures Inv() && Went(RecoverEvents(m, exn, script), {m})
      ensures old(Sound()) && Lands(script.lastResort.reply) ==> Sound()
      ensures s.engine == Idle || s.engine == Down
      ensures Survives(script) ==> s.engine == Idle
    {
      match exn
      case Throttled => BackOff(m, script);
      case Graph(st) => Fail(m, st, script);
      case _ => LastChance(m, script);
    }

    /** From the status check on: a terminal row is acked as stale, without work. */
    method Serve(m: Msg, st: Status, script: Script) returns (ghost added: seq<Event>)
      requires Inv() && s.engine == if Terminal(st) then Acking(m, Stale) else Warming(m)
      modifies this
      ensures Inv() && Went(added, {m}) && NoClaims(added)
      ensures old(Sound()) && Lands(script.lastResort.reply) ==> Sound()
      ensures s.engine == Idle || s.engine == Down
      ensures Terminal(st) ==> added == AckEvents(m, Stale, script.ack.reply)
      ensures AllOk(script) && !Terminal(st) ==> s.engine == Idle && WorkedOrLeft(m, added, s.cancelled, s.stop)
      ensures AllOk(script) ==> s.engine == Idle
      ensures Survives(script) ==> s.engine == Idle
    {
      if Terminal(st) {
        var _ := Ack(script.ack);
        added := AckEvents(m, Stale, script.ack.reply);
      } else {
        added := WorkOrRecover(m, script);
      }
    }

    method WorkOrRecover(m: Msg, script: Script) returns (ghost added: seq<Event>)
      requires Inv() && s.engine == Warming(m)
      modifies this
      ensures Inv() && Went(added, {m}) && NoClaims(added)
      ensures old(Sound()) && Lands(script.lastResort.reply) ==> Sound()
      ensures s.engine == Idle || s.engine == Down
      ensures AllOk(script) ==> s.engine == Idle && WorkedOrLeft(m, added, s.cancelled, s.stop)
      ensures Survives(script) ==> s.engine == Idle
    {
      var r;
      r, added := Work(m, script);
      if r.Raised? {
        ghost var worked, more := added, RecoverEvents(m, r.exn, script);
        Recover(m, r.exn, script);
        Joined(old(s.log), worked, more, s.log);
        RecoverNoClaims(m, r.exn, script);
        NoClaimsOn(worked, more);
        added := worked + more;
      }
    }

    /** Configuration and job are fetched; a failed fetch hands the lease back. */
    method Open(m: Msg, script: Script) returns (ready: bool, st: Status)
      requires Inv() && s.engine == Configuring(m)
      modifies this
      ensures Inv() && Went(if ready then [ReadStatus(m.job, st)] else [], {}) && (old(Sound()) ==> Sound())
      ensures if ready then s.engine == (if Terminal(st) then Acking(m, Stale) else Warming(m))
              else s.engine == Idle || s.engine == Down
      ensures AllOk(script) ==> ready
      ensures Survives(script) ==> s.engine != Down
    {
      ready, st := false, Queued;
      var r := Request(script.config);
      if !r.Go? { return; }
      ready, st := Fetch(m, script);
    }

    method Fetch(m: Msg, script: Script) returns (ready: bool, st: Status)
      requires Inv() && s.engine == Fetching(m)
      modifies this
      ensures Inv() && Went(if ready then [ReadStatus(m.job, st)] else [], {}) && (old(Sound()) ==> Sound())
      ensures if ready then s.engine == (if Terminal(st) then Acking(m, Stale) else Warming(m))
              else s.engine == Idle || s.engine == Down
      ensures AllOk(script) ==> ready
      ensures Survives(script) ==> s.engine != Down
    {
      var r;
      r, st := ResumeJob(m, script.fetch);
      ready := r.Go?;
      if r == Raised(ControlPlane) { r := Request(script.release); }
    }

    /**
     * `_handle`, for a message just claimed: it follows the protocol to its end, or dies on the way.
     * With every request answered the job is either found ended, or ended and acked, or left because
     * of a stop.
     */
    method Handle(m: Msg, script: Script) returns (ghost added: seq<Event>)
      requires Inv() && s.engine == Configuring(m)
      modifies this
      ensures Inv() && Went(added, {m}) && NoClaims(added)
      ensures old(Sound()) && Lands(script.lastResort.reply) ==> Sound()
      ensures s.engine == Idle || s.engine == Down
      ensures AllOk(script) ==> s.engine == Idle && HandledWell(m, added, s.cancelled, s.stop)
      ensures Survives(script) ==> s.engine == Idle
    {
      var ready, st := Open(m, script);
      added := [];
      if !ready { return; }
      ghost var more := Serve(m, st, script);
      Joined(old(s.log), [ReadStatus(m.job, st)], more, s.log);
      added := [ReadStatus(m.job, st)] + more;
      assert added[1..] == more;
    }

    /**
     * The loop over pulled messages in `_tick`: they are handled one after another, none after a stop
     * request, and unless a last-resort write is lost on the way no job is stranded afterwards.
     */
    method HandleAll(pulled: seq<(Msg, Script)>) returns (n: nat, ghost added: seq<Event>)
      requires Inv() && s.engine == Idle
      requires forall i | 0 <= i < |pulled| :: pulled[i].0 in s.queue
      requires forall i, j | 0 <= i < j < |pulled| :: pulled[i].0 != pulled[j].0
      modifies this
      ensures Inv() && old(labels) <= labels && s.log == old(s.log) + added
      ensures s.engine == Idle || s.engine == Down
      ensures n <= |pulled| && HandledUpTo(pulled, n, added, s.queue)
      ensures n < |pulled| ==> s.stop || s.engine == Down
      ensures old(Sound()) && (forall p | p in pulled :: Lands(p.1.lastResort.reply)) ==>
        forall j :: !Stranded(s, j)
    {
      n, added := 0, [];
      while n < |pulled| && !s.stop && s.engine == Idle
        invariant n <= |pulled| && Inv() && (s.engine == Idle || s.engine == Down)
        invariant old(labels) <= labels && s.log == old(s.log) + added
        invariant HandledUpTo(pulled, n, added, s.queue)
        invariant old(Sound()) && (forall p | p in pulled :: Lands(p.1.lastResort.reply)) ==> Sound()
      {
        ghost var queue := s.queue;
        ghost var more := ClaimAndHandle(pulled[n].0, pulled[n].1);
        Joined(old(s.log), added, more, s.log);
        OneMoreHandled(pulled, n, added, queue, more, s.queue);
        assert pulled[n] in pulled;
        added := added + more;
        n := n + 1;
      }
      if Sound() {
        forall j ensures !Stranded(s, j) {
          NoStrandedJob(RunOf(labels), j);
        }
      }
    }

    method ClaimAndHandle(m: Msg, script: Script) returns (ghost added: seq<Event>)
      requires Inv() && s.engine == Idle && !s.stop && m in s.queue
      modifies this
      ensures Inv() && Went(added, {m})
      ensures old(Sound()) && Lands(script.lastResort.reply) ==> Sound()
      ensures s.engine == Idle || s.engine == Down
      ensures added != [] && added[0] == Claimed(m) && NoClaims(added[1..])
    {
      StepClaim(m);
      ghost var more := Handle(m, script);
      Joined(old(s.log), [Claimed(m)], more, s.log);
      added := [Claimed(m)] + more;
      assert added[1..] == more;
    }

    method StepClaim(m: Msg)
      requires Inv() && s.engine == Idle && !s.stop && m in s.queue
      modifies this
      ensures Inv() && Went([Claimed(m)], {}) && (old(Sound()) ==> Sound())
      ensures s.engine == Configuring(m)
    {
      Step(Claim(m));
    }
  }
}
