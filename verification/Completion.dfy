/**
 * When a finished pass is reported completed: its forced progress reports against the server's floor.
 */
module Completion {
  import opened Wrappers
  import opened Jobs
  import opened Replies
  import opened RateLimits
  import Drive = OneDrive
  import Mail = Exchange
  import Protocol

  // ----- the floor as the engine meets it -----

  /** The row's last stamp after these requests of a job. */
  function LastStamp(rs: seq<ProgressRequest>, min: real): Option<real> {
    var ts := Stamps(rs, min);
    if ts == [] then None else Some(ts[|ts| - 1])
  }

  predicate Passes(rs: seq<ProgressRequest>, min: real, next: ProgressRequest) {
    FloorPasses(LastStamp(rs, min), min, next.check)
  }

  /** The reply to one more request, nothing but the floor being in its way: a 429 raises. */
  function FloorReply(rs: seq<ProgressRequest>, min: real, next: ProgressRequest): Reply {
    if Passes(rs, min, next) then Ok else Fail(ControlPlane, false)
  }

  /** The requests of a job are made one after the other. */
  predicate InTime(rs: seq<ProgressRequest>) {
    && Serial(rs)
    && forall i, j | 0 <= i < j < |rs| :: rs[i].stamp <= rs[j].check
  }

  /** Once a request has passed, the row's stamp is never earlier than that request's. */
  lemma {:induction false} StampNotEarlier(rs: seq<ProgressRequest>, min: real, i: nat)
    requires InTime(rs) && i < |rs| && Passes(rs[..i], min, rs[i])
    ensures LastStamp(rs, min).Some? && LastStamp(rs, min).value >= rs[i].stamp
  {
    var n := |rs| - 1;
    if i < n {
      assert rs[..n][..i] == rs[..i];
      StampNotEarlier(rs[..n], min, i);
    }
  }

  // ----- one drive pass -----

  /** The reports of one pass: those of the job before it, its opening one, its heartbeats', its closing one. */
  datatype Reports = Reports(
    earlier: seq<ProgressRequest>, opening: ProgressRequest, beats: seq<ProgressRequest>, closing: ProgressRequest)

  function BeforeClosing(p: Reports): seq<ProgressRequest> {
    p.earlier + [p.opening] + p.beats
  }

  /** Both forced reports get past the floor. */
  predicate BothPass(p: Reports, min: real) {
    Passes(p.earlier, min, p.opening) && Passes(BeforeClosing(p), min, p.closing)
  }

  /** The script answers both forced reports as the floor does, and lets everything else of the pass succeed. */
  predicate OnlyTheFloor(s: Drive.State, c: Drive.Settings, feed: seq<Drive.Item>, script: Drive.Script, p: Reports,
                         min: real) {
    var body := Drive.Body(Drive.Rooted(s, c), c, feed, script);
    && script.opening == FloorReply(p.earlier, min, p.opening)
    && script.resolution == Ok && body.exit == Go
    && Drive.FlushItems(body.s, script.closingItems).exit == Go
    && script.closingProgress == FloorReply(BeforeClosing(p), min, p.closing)
    && script.closingFlush == Ok
  }

  /**
   * The drive pass returns COMPLETED exactly if both forced reports pass; otherwise the 429 leaves it as an
   * exception.
   */
  lemma PassEndsByFloor(s: Drive.State, c: Drive.Settings, feed: seq<Drive.Item>, script: Drive.Script, p: Reports,
                        min: real)
    requires OnlyTheFloor(s, c, feed, script, p, min)
    ensures Drive.Run(s, c, feed, script).exit == if BothPass(p, min) then Go else Raised(ControlPlane)
  {
  }

  // ----- one mailbox pass -----

  predicate OnlyTheFloorMail(s: Mail.State, c: Mail.Settings, src: Mail.Source, script: Mail.Script, p: Reports,
                             min: real) {
    var body := Mail.CopyMailboxes(s, c, src, 0, script.mailboxes);
    && script.opening == FloorReply(p.earlier, min, p.opening)
    && script.resolution == Ok && body.exit == Go && !body.stopped
    && Mail.FlushItems(body.s, script.closingItems).exit == Go
    && script.closingProgress == FloorReply(BeforeClosing(p), min, p.closing)
    && script.closingFlush == Ok
  }

  lemma MailPassEndsByFloor(s: Mail.State, c: Mail.Settings, src: Mail.Source, script: Mail.Script, p: Reports,
                            min: real)
    requires OnlyTheFloorMail(s, c, src, script, p, min)
    ensures
      var r := Mail.Run(s, c, src, script);
      !r.stopped && r.exit == if BothPass(p, min) then Go else Raised(ControlPlane)
  {
  }

  // ----- what becomes of the job -----

  predicate AtWork(s: Protocol.State) {
    s.engine.Working? && s.engine.m.job in s.rows && !s.cancelled
  }

  /**
   * The handler once the run has returned COMPLETED and the worker's flush has succeeded, or the run has raised
   * the 429.
   */
  function AfterRun(s: Protocol.State, returned: bool): (t: Protocol.State)
    requires AtWork(s)
    ensures t.engine == if returned then Protocol.Finishing(s.engine.m, Completed) else Protocol.LastResort(s.engine.m)
    ensures t.rows == s.rows
  {
    if returned then Protocol.Apply(Protocol.Apply(s, Protocol.Return(Completed)), Protocol.Await)
    else Protocol.Apply(s, Protocol.Raise(ControlPlane))
  }

  /** The job's status once the write that follows has landed. */
  function StatusAfter(s: Protocol.State, returned: bool): (st: Status)
    requires AtWork(s)
    ensures st == if returned then Completed else Failed
  {
    Protocol.WriteDone(AfterRun(s, returned), true, true).rows[s.engine.m.job].status
  }

  /**
   * A pass in which everything else succeeds leaves its job completed exactly if both forced reports get
   * past the floor, and failed otherwise, whatever it has copied.
   */
  lemma CompletedIff(s: Drive.State, c: Drive.Settings, feed: seq<Drive.Item>, script: Drive.Script, p: Reports,
                     min: real, handler: Protocol.State)
    requires OnlyTheFloor(s, c, feed, script, p, min) && AtWork(handler)
    ensures
      var exit := Drive.Run(s, c, feed, script).exit;
      && exit in {Go, Raised(ControlPlane)}
      && StatusAfter(handler, exit == Go) == if BothPass(p, min) then Completed else Failed
  {
    PassEndsByFloor(s, c, feed, script, p, min);
  }

  lemma MailCompletedIff(s: Mail.State, c: Mail.Settings, src: Mail.Source, script: Mail.Script, p: Reports, min: real,
                         handler: Protocol.State)
    requires OnlyTheFloorMail(s, c, src, script, p, min) && AtWork(handler)
    ensures
      var exit := Mail.Run(s, c, src, script).exit;
      && exit in {Go, Raised(ControlPlane)}
      && StatusAfter(handler, exit == Go) == if BothPass(p, min) then Completed else Failed
  {
    MailPassEndsByFloor(s, c, src, script, p, min);
  }

  // ----- which reports a closing report has to keep away from -----

  /** The request was accepted among these. */
  predicate Accepted(rs: seq<ProgressRequest>, min: real, i: nat)
    requires i < |rs|
  {
    Passes(rs[..i], min, rs[i])
  }

  /** Every accepted request is stamped at least the minimal interval before the next one is checked. */
  predicate AllEarly(rs: seq<ProgressRequest>, min: real, next: ProgressRequest) {
    forall i | 0 <= i < |rs| && Accepted(rs, min, i) :: next.check - rs[i].stamp >= min
  }

  /** The last stamp is that of an accepted request. */
  lemma {:induction false} LastIsAccepted(rs: seq<ProgressRequest>, min: real) returns (i: nat)
    requires LastStamp(rs, min).Some?
    ensures i < |rs| && Accepted(rs, min, i) && rs[i].stamp == LastStamp(rs, min).value
  {
    var n := |rs| - 1;
    if Passes(rs[..n], min, rs[n]) {
      i := n;
    } else {
      i := LastIsAccepted(rs[..n], min);
      assert rs[..n][..i] == rs[..i];
    }
  }

  /** A request passes exactly if it keeps its distance from every accepted one before it. */
  lemma PassesIff(rs: seq<ProgressRequest>, min: real, next: ProgressRequest)
    requires InTime(rs)
    ensures Passes(rs, min, next) <==> AllEarly(rs, min, next)
  {
    if Passes(rs, min, next) {
      forall i | 0 <= i < |rs| && Accepted(rs, min, i) ensures next.check - rs[i].stamp >= min {
        StampNotEarlier(rs, min, i);
      }
    } else {
      var i := LastIsAccepted(rs, min);
    }
  }

  lemma InTimePrefix(rs: seq<ProgressRequest>, more: seq<ProgressRequest>)
    requires InTime(rs + more)
    ensures InTime(rs)
  {
    assert forall k | 0 <= k < |rs| :: (rs + more)[k] == rs[k];
  }

  /**
   * Both forced reports of a pass get past the floor exactly if the opening one keeps its distance from
   * every accepted report of the job before it, and the closing one from every accepted report at all:
   * earlier ones, the opening one, and those of the heartbeats.
   */
  lemma BothPassIff(p: Reports, min: real)
    requires InTime(BeforeClosing(p))
    ensures BothPass(p, min) <==> AllEarly(p.earlier, min, p.opening) && AllEarly(BeforeClosing(p), min, p.closing)
  {
    assert BeforeClosing(p) == p.earlier + ([p.opening] + p.beats);
    InTimePrefix(p.earlier, [p.opening] + p.beats);
    PassesIff(p.earlier, min, p.opening);
    PassesIff(BeforeClosing(p), min, p.closing);
  }

  /**
   * A pass that comes to its closing report within the minimal interval of its opening one is not reported
   * completed.
   */
  lemma QuickPassFails(p: Reports, min: real)
    requires InTime(BeforeClosing(p)) && p.closing.check - p.opening.stamp < min
    ensures !BothPass(p, min)
  {
    var i := |p.earlier|;
    assert BeforeClosing(p)[..i] == p.earlier && BeforeClosing(p)[i] == p.opening;
    BothPassIff(p, min);
  }

  /** So is no pass, however long, that comes to it within that interval of an accepted heartbeat's report. */
  lemma LateBeatFails(p: Reports, min: real, k: nat)
    requires InTime(BeforeClosing(p)) && k < |p.beats| && Accepted(BeforeClosing(p), min, |p.earlier| + 1 + k)
    requires p.closing.check - p.beats[k].stamp < min
    ensures !BothPass(p, min)
  {
    assert BeforeClosing(p)[|p.earlier| + 1 + k] == p.beats[k];
    BothPassIff(p, min);
  }

  /** Nor one that opens within that interval of an accepted earlier report, as after a quick restart. */
  lemma QuickRestartFails(p: Reports, min: real, i: nat)
    requires InTime(BeforeClosing(p)) && i < |p.earlier| && Accepted(p.earlier, min, i)
    requires p.opening.check - p.earlier[i].stamp < min
    ensures !BothPass(p, min)
  {
    BothPassIff(p, min);
  }

  lemma OneStamp(r: ProgressRequest, min: real)
    ensures LastStamp([r], min) == Some(r.stamp)
  {
    assert [r][..0] == [];
    assert Stamps([r], min) == [r.stamp];
  }

  /** Without heartbeats, the first pass of a job is reported completed exactly if it lasts the minimal interval. */
  lemma FirstPassIff(p: Reports, min: real)
    requires p.earlier == [] && p.beats == []
    ensures BothPass(p, min) <==> p.closing.check - p.opening.stamp >= min
  {
    assert BeforeClosing(p) == [p.opening];
    OneStamp(p.opening, min);
  }

  // ----- the closing report comes right after a heartbeat -----

  /** A call of `update_progress`: decided at `now`, and the request it makes if it is not suppressed. */
  datatype Call = Call(now: real, force: bool, request: ProgressRequest)

  /** What the client remembers after these calls, every request they made having been accepted. */
  function ClientAfter(c: Client, localFloor: real, us: seq<Call>): Client {
    if us == [] then c
    else
      var u := us[|us| - 1];
      ClientStep(ClientAfter(c, localFloor, us[..|us| - 1]), localFloor, Update(u.now, u.force, true))
  }

  /** The calls that were not suppressed. */
  function Sent(c: Client, localFloor: real, us: seq<Call>): seq<Call> {
    if us == [] then []
    else
      var init, u := us[..|us| - 1], us[|us| - 1];
      Sent(c, localFloor, init) + if Suppressed(ClientAfter(c, localFloor, init), u.now, u.force) then [] else [u]
  }

  function Requests(us: seq<Call>): seq<ProgressRequest> {
    seq(|us|, i requires 0 <= i < |us| => us[i].request)
  }

  /** The client remembers the moment of its last call that was not suppressed. */
  lemma {:induction false} RemembersLast(c: Client, localFloor: real, us: seq<Call>)
    ensures ClientAfter(c, localFloor, us).minInterval == c.minInterval
    ensures
      var sent := Sent(c, localFloor, us);
      ClientAfter(c, localFloor, us).last == if sent == [] then c.last else Some(sent[|sent| - 1].now)
  {
    if us != [] {
      RemembersLast(c, localFloor, us[..|us| - 1]);
    }
  }

  /** The requests of the job before the closing report. */
  function Before(earlier: seq<ProgressRequest>, made: seq<Call>): seq<ProgressRequest> {
    earlier + Requests(made)
  }

  /** The pass has come to its closing report: none of its own reports was refused. */
  predicate NoneRefused(earlier: seq<ProgressRequest>, made: seq<Call>, min: real) {
    forall i | |earlier| <= i < |Before(earlier, made)| :: Accepted(Before(earlier, made), min, i)
  }

  /** The closing report then passes exactly if it keeps its distance from the last one made. */
  lemma ClosingIff(earlier: seq<ProgressRequest>, made: seq<Call>, min: real, closing: ProgressRequest)
    requires made != [] && NoneRefused(earlier, made, min)
    ensures Passes(Before(earlier, made), min, closing) <==> closing.check - made[|made| - 1].request.stamp >= min
  {
    var rs := Before(earlier, made);
    assert Accepted(rs, min, |rs| - 1);
    assert rs[|rs| - 1] == made[|made| - 1].request;
  }

  /**
   * A pass whose last act before the closing report was a heartbeat, the engine's floor being no longer
   * than the server's: it is reported completed only if that heartbeat's report was suppressed and the
   * closing one took longer to be checked than the last report that was made took to be stamped.
   */
  lemma ClosingAfterBeat(earlier: seq<ProgressRequest>, c: Client, localFloor: real, us: seq<Call>, beat: Call,
                         min: real, closing: ProgressRequest)
    requires c.minInterval <= min && !beat.force
    requires beat.now <= beat.request.stamp && closing.check - beat.now < min
    requires Sent(c, localFloor, us) != [] && NoneRefused(earlier, Sent(c, localFloor, us + [beat]), min)
    ensures
      var made := Sent(c, localFloor, us);
      var last := made[|made| - 1];
      Passes(Before(earlier, Sent(c, localFloor, us + [beat])), min, closing) ==>
        && Suppressed(ClientAfter(c, localFloor, us), beat.now, false)
        && closing.check - beat.now > last.request.stamp - last.now
  {
    assert (us + [beat])[..|us|] == us;
    RemembersLast(c, localFloor, us);
    ClosingIff(earlier, Sent(c, localFloor, us + [beat]), min, closing);
  }

  // ----- the two floors do not meet -----

  /**
   * The engine's own floor spaces the moments it decides to write, the server's the moments between a
   * stamp and the next check: an unforced report exactly one interval later is refused if its way was shorter.
   */
  lemma FloorsDisagree() returns (c: Client, opening: ProgressRequest, beat: ProgressRequest)
    ensures var min := MinInterval(None);
      && c == ClientRun(min, [Update(0.0, true, true)]) && !Suppressed(c, min, false)
      && 0.0 < opening.check < opening.stamp && min < beat.check < beat.stamp
      && InTime([opening, beat]) && FloorReply([opening], min, beat) == Fail(ControlPlane, false)
  {
    c := ClientRun(30.0, [Update(0.0, true, true)]);
    assert [Update(0.0, true, true)][..0] == [];
    opening, beat := ProgressRequest(0.3, 0.4), ProgressRequest(30.1, 30.2);
    OneStamp(opening, 30.0);
  }
}
