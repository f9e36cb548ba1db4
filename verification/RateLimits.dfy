/**
 * The write floors: the fixed-window request limiter, the server-side progress floor, and the
 * engine's own progress floor.
 */
module RateLimits {
  import opened Wrappers
  import opened Spacing

  // ===== the fixed-window limiter =====

  const WINDOW_MS := 60000
  const MAX_PER_WINDOW := 120

  datatype Bucket = Bucket(count: nat, resetAt: int)

  function Opened(b: Option<Bucket>, now: int): Bucket {
    if b.None? || now >= b.value.resetAt then Bucket(0, now + WINDOW_MS) else b.value
  }

  function Hit(b: Option<Bucket>, now: int): Bucket {
    var o := Opened(b, now);
    o.(count := o.count + 1)
  }

  predicate Admitted(b: Bucket) {
    b.count <= MAX_PER_WINDOW
  }

  class RateLimiter {
    var buckets: map<string, Bucket>

    constructor ()
      ensures buckets == map[]
    {
      buckets := map[];
    }

    function Of(key: string): Option<Bucket>
      reads this
    {
      if key in buckets then Some(buckets[key]) else None
    }

    method Request(key: string, now: int) returns (ok: bool)
      modifies this
      ensures buckets == old(buckets)[key := Hit(old(Of(key)), now)]
      ensures ok == Admitted(buckets[key])
    {
      var b := Of(key);
      if b.None? || now >= b.value.resetAt {
        b := Some(Bucket(0, now + WINDOW_MS));
      }
      var hit := b.value.(count := b.value.count + 1);
      buckets := buckets[key := hit];
      ok := hit.count <= MAX_PER_WINDOW;
    }
  }

  /** A request of one key: its time, the window it falls into and whether it was admitted. */
  datatype Mark = Mark(time: int, window: nat, ok: bool)

  /** The history of one key: `starts` are the times its windows were opened at. */
  datatype Log = Log(bucket: Option<Bucket>, starts: seq<int>, marks: seq<Mark>)

  function Requests(times: seq<int>): (l: Log)
    ensures |l.marks| == |times|
  {
    if times == [] then Log(None, [], [])
    else
      Next(Requests(times[..|times| - 1]), times[|times| - 1])
  }

  /** One more request at `now`. */
  function Next(l: Log, now: int): (t: Log)
    ensures |t.marks| == |l.marks| + 1
  {
    var b := Hit(l.bucket, now);
    var starts := if l.bucket.None? || now >= l.bucket.value.resetAt then l.starts + [now] else l.starts;
    Log(Some(b), starts, l.marks + [Mark(now, if starts == [] then 0 else |starts| - 1, Admitted(b))])
  }

  predicate InOrder(times: seq<int>) {
    forall i, j | 0 <= i < j < |times| :: times[i] <= times[j]
  }

  /** The admitted requests of window `w`. */
  function InWindow(marks: seq<Mark>, w: nat): nat {
    if marks == [] then 0
    else
      var m := marks[|marks| - 1];
      InWindow(marks[..|marks| - 1], w) + (if m.ok && m.window == w then 1 else 0)
  }

  /** The admitted requests with lo <= time <= hi. */
  function InSpan(marks: seq<Mark>, lo: int, hi: int): nat {
    if marks == [] then 0
    else
      var m := marks[|marks| - 1];
      InSpan(marks[..|marks| - 1], lo, hi) + (if m.ok && lo <= m.time <= hi then 1 else 0)
  }

  predicate WindowsApart(starts: seq<int>) {
    forall a, b | 0 <= a < b < |starts| :: starts[a] + WINDOW_MS <= starts[b]
  }

  predicate MarksPlaced(l: Log) {
    forall m | m in l.marks :: m.window < |l.starts| && l.starts[m.window] <= m.time < l.starts[m.window] + WINDOW_MS
  }

  /** The windows and the bucket fit together. */
  predicate Shape(l: Log) {
    && WindowsApart(l.starts) && MarksPlaced(l)
    && (l.bucket.None? <==> l.starts == [])
    && (l.bucket.Some? ==> l.bucket.value.resetAt == l.starts[|l.starts| - 1] + WINDOW_MS)
  }

  /** No window admits more than its share; the current one no more than its count. */
  ghost predicate Counts(l: Log) {
    && (forall w: nat :: InWindow(l.marks, w) <= MAX_PER_WINDOW)
    && (l.bucket.Some? && l.starts != [] ==> InWindow(l.marks, |l.starts| - 1) <= l.bucket.value.count)
  }

  lemma {:induction false} NoneInLaterWindow(marks: seq<Mark>, w: nat)
    requires forall m | m in marks :: m.window < w
    ensures InWindow(marks, w) == 0
  {
    if marks != [] {
      NoneInLaterWindow(marks[..|marks| - 1], w);
    }
  }

  lemma NextKeepsShape(l: Log, now: int)
    requires Shape(l) && (l.starts != [] ==> l.starts[|l.starts| - 1] <= now)
    ensures Shape(Next(l, now)) && Next(l, now).starts != [] && Next(l, now).starts[|Next(l, now).starts| - 1] <= now
  {
    var t := Next(l, now);
    assert l.starts <= t.starts;
    forall m | m in t.marks
      ensures m.window < |t.starts| && t.starts[m.window] <= m.time < t.starts[m.window] + WINDOW_MS
    {
      assert m in l.marks || m == t.marks[|l.marks|];
    }
  }

  lemma NextKeepsCounts(l: Log, now: int)
    requires Shape(l) && Counts(l)
    ensures Counts(Next(l, now))
  {
    var t := Next(l, now);
    NoneInLaterWindow(l.marks, |l.starts|);
    assert t.marks[..|l.marks|] == l.marks;
  }

  lemma {:induction false} RequestsKeepInv(times: seq<int>)
    requires InOrder(times)
    ensures Shape(Requests(times)) && Counts(Requests(times))
    ensures
      var starts := Requests(times).starts;
      times != [] ==> starts != [] && starts[|starts| - 1] <= times[|times| - 1]
  {
    if times != [] {
      var n := |times| - 1;
      RequestsKeepInv(times[..n]);
      NextKeepsShape(Requests(times[..n]), times[n]);
      NextKeepsCounts(Requests(times[..n]), times[n]);
    }
  }

  /** Each window admits at most 120 requests. */
  lemma WindowBound(times: seq<int>, w: nat)
    requires InOrder(times)
    ensures InWindow(Requests(times).marks, w) <= MAX_PER_WINDOW
  {
    RequestsKeepInv(times);
  }

  /** The requests of window `w`, admitted or not. */
  function Arrivals(marks: seq<Mark>, w: nat): set<int> {
    set i | 0 <= i < |marks| && marks[i].window == w
  }

  /** The bucket counts the requests of the current window, admitted or not, and no request is of a later one. */
  predicate CountsArrivals(l: Log) {
    && (forall m | m in l.marks :: m.window < |l.starts|)
    && (l.bucket.None? <==> l.starts == [])
    && (l.bucket.Some? ==> l.bucket.value.count == |Arrivals(l.marks, |l.starts| - 1)|)
  }

  lemma OneMoreArrives(marks: seq<Mark>, m: Mark)
    ensures |Arrivals(marks + [m], m.window)| == |Arrivals(marks, m.window)| + 1
  {
    assert Arrivals(marks + [m], m.window) == Arrivals(marks, m.window) + {|marks|};
  }

  lemma NoneBeyond(marks: seq<Mark>, w: nat)
    requires forall m | m in marks :: m.window < w
    ensures Arrivals(marks, w) == {}
  {
  }

  lemma NextCountsArrivals(l: Log, now: int)
    requires CountsArrivals(l)
    ensures CountsArrivals(Next(l, now))
    ensures
      var t := Next(l, now);
      t.marks[|l.marks|].ok <==> |Arrivals(t.marks, t.marks[|l.marks|].window)| <= 120
  {
    var t := Next(l, now);
    if t.starts != l.starts {
      NoneBeyond(l.marks, |t.starts| - 1);
    }
    OneMoreArrives(l.marks, t.marks[|l.marks|]);
  }

  lemma {:induction false} RequestsCountArrivals(times: seq<int>)
    ensures CountsArrivals(Requests(times))
  {
    if times != [] {
      var n := |times| - 1;
      RequestsCountArrivals(times[..n]);
      NextCountsArrivals(Requests(times[..n]), times[n]);
    }
  }

  /** Mark `i` tells the time of its request, and admits it if it is among the first 120 of its window. */
  predicate AdmitsRightly(marks: seq<Mark>, i: nat, time: int)
    requires i < |marks|
  {
    marks[i].time == time && (marks[i].ok <==> |Arrivals(marks[..i + 1], marks[i].window)| <= 120)
  }

  lemma LaterMarks(marks: seq<Mark>, more: seq<Mark>, i: nat, time: int)
    requires i < |marks| && AdmitsRightly(marks, i, time)
    ensures AdmitsRightly(marks + more, i, time)
  {
    assert (marks + more)[..i + 1] == marks[..i + 1];
  }

  lemma NextAdmitsRightly(l: Log, now: int)
    requires CountsArrivals(l)
    ensures AdmitsRightly(Next(l, now).marks, |l.marks|, now)
  {
    NextCountsArrivals(l, now);
    var marks := Next(l, now).marks;
    assert marks[..|l.marks| + 1] == marks;
  }

  /** A request is admitted exactly if it is among the first 120 of its window. */
  lemma {:induction false} AdmittedIff(times: seq<int>, i: nat)
    requires i < |times|
    ensures
      var marks := Requests(times).marks;
      marks[i].time == times[i] && (marks[i].ok <==> |Arrivals(marks[..i + 1], marks[i].window)| <= 120)
  {
    EveryMark(times, i);
  }

  lemma {:induction false} EveryMark(times: seq<int>, i: nat)
    requires i < |times|
    ensures AdmitsRightly(Requests(times).marks, i, times[i])
  {
    var n := |times| - 1;
    var l := Requests(times[..n]);
    if i < n {
      EveryMark(times[..n], i);
      LaterMarks(l.marks, Requests(times).marks[n..], i, times[i]);
    } else {
      RequestsCountArrivals(times[..n]);
      NextAdmitsRightly(l, times[n]);
    }
  }

  /** The first window opens with the first request, each later one with a request a minute or more after the last. */
  lemma {:induction false} StartsAreRequests(times: seq<int>, k: nat)
    requires InOrder(times) && k < |Requests(times).starts|
    ensures Requests(times).starts[k] in times
    ensures k > 0 ==> Requests(times).starts[k] >= Requests(times).starts[k - 1] + 60000
  {
    var n := |times| - 1;
    RequestsKeepInv(times);
    assert times == times[..n] + [times[n]];
    if k < |Requests(times[..n]).starts| {
      StartsAreRequests(times[..n], k);
    }
  }

  /** Every request is of the window that was open, or opened, when it came. */
  lemma WindowIsOpen(times: seq<int>, i: nat)
    requires InOrder(times) && i < |times|
    ensures
      var l := Requests(times);
      l.marks[i].window < |l.starts| && l.starts[l.marks[i].window] <= times[i] < l.starts[l.marks[i].window] + 60000
  {
    RequestsKeepInv(times);
    AdmittedIff(times, i);
    assert Requests(times).marks[i] in Requests(times).marks;
  }

  /** All marks of a 60 s span lie in two neighbouring windows. */
  lemma SpanTouchesTwo(l: Log, lo: int) returns (w: nat)
    requires Shape(l)
    ensures forall m | m in l.marks && lo <= m.time <= lo + WINDOW_MS :: m.window == w || m.window == w + 1
  {
    var n := |l.starts|;
    if n == 0 || l.starts[n - 1] + WINDOW_MS <= lo {
      w := 0;
      forall m | m in l.marks ensures m.time < lo {
        assert m.window == n - 1 || l.starts[m.window] + WINDOW_MS <= l.starts[n - 1];
      }
    } else {
      w := FirstOpen(l.starts, lo, n - 1);
      LaterWindowsFar(l.starts, lo, w);
    }
  }

  /** From the second window after one that is still open at `lo`, everything is more than a window later. */
  lemma LaterWindowsFar(starts: seq<int>, lo: int, w: nat)
    requires WindowsApart(starts) && w < |starts| && lo < starts[w] + WINDOW_MS
    ensures forall k | w + 2 <= k < |starts| :: lo + WINDOW_MS < starts[k]
  {
    forall k | w + 2 <= k < |starts| ensures lo + WINDOW_MS < starts[k] {
      assert starts[w] + WINDOW_MS <= starts[w + 1];
    }
  }

  lemma {:induction false} FirstOpen(starts: seq<int>, lo: int, k: nat) returns (a: nat)
    requires k < |starts| && lo < starts[k] + WINDOW_MS
    ensures a <= k && lo < starts[a] + WINDOW_MS && forall b | 0 <= b < a :: starts[b] + WINDOW_MS <= lo
    decreases k
  {
    a := k;
    if b: nat :| b < k && lo < starts[b] + WINDOW_MS {
      a := FirstOpen(starts, lo, b);
    }
  }

  lemma {:induction false} SpanInWindows(marks: seq<Mark>, lo: int, hi: int, w: nat)
    requires forall m | m in marks && lo <= m.time <= hi :: m.window == w || m.window == w + 1
    ensures InSpan(marks, lo, hi) <= InWindow(marks, w) + InWindow(marks, w + 1)
  {
    if marks != [] {
      SpanInWindows(marks[..|marks| - 1], lo, hi, w);
      assert marks[|marks| - 1] in marks;
    }
  }

  /** Any 60 s, ends included, admit at most 240 requests of one key. */
  lemma SpanBound240(times: seq<int>, lo: int)
    requires InOrder(times)
    ensures InSpan(Requests(times).marks, lo, lo + WINDOW_MS) <= 2 * MAX_PER_WINDOW
  {
    RequestsKeepInv(times);
    var l := Requests(times);
    var w := SpanTouchesTwo(l, lo);
    SpanInWindows(l.marks, lo, lo + WINDOW_MS, w);
  }

  // ===== the server-side progress floor =====

  /** `Number(MIN_POLL_INTERVAL_SEC) || 30`: not a number and zero both mean 30. */
  function MinInterval(configured: Option<real>): real {
    if configured.None? || configured.value == 0.0 then 30.0 else configured.value
  }

  lemma MinIntervalIs()
    ensures MinInterval(None) == 30.0 && MinInterval(Some(0.0)) == 30.0
    ensures forall x: real | x != 0.0 :: MinInterval(Some(x)) == x
  {
  }

  predicate FloorPasses(lastProgressAt: Option<real>, min: real, now: real) {
    lastProgressAt.Some? ==> now - lastProgressAt.value >= min
  }

  /** One progress request: checked at `check`, and stamped at `stamp` if it passes. */
  datatype ProgressRequest = ProgressRequest(check: real, stamp: real)

  class ProgressRow {
    var lastProgressAt: Option<real>

    constructor ()
      ensures lastProgressAt == None
    {
      lastProgressAt := None;
    }

    /** The middleware's check and then the row update. */
    method Write(r: ProgressRequest, min: real) returns (ok: bool)
      modifies this
      ensures ok == FloorPasses(old(lastProgressAt), min, r.check)
      ensures lastProgressAt == if ok then Some(r.stamp) else old(lastProgressAt)
    {
      if lastProgressAt.Some? {
        var elapsed := r.check - lastProgressAt.value;
        if elapsed < min { return false; }
      }
      lastProgressAt := Some(r.stamp);
      ok := true;
    }
  }

  /** The stamps of the accepted requests, oldest first. */
  function Stamps(rs: seq<ProgressRequest>, min: real): seq<real> {
    if rs == [] then []
    else
      var ts := Stamps(rs[..|rs| - 1], min);
      var r := rs[|rs| - 1];
      if FloorPasses(if ts == [] then None else Some(ts[|ts| - 1]), min, r.check) then ts + [r.stamp] else ts
  }

  /** One after another: each is stamped after its check. */
  predicate Serial(rs: seq<ProgressRequest>) {
    forall i | 0 <= i < |rs| :: rs[i].check <= rs[i].stamp
  }

  lemma {:induction false} StampsSpaced(rs: seq<ProgressRequest>, min: real)
    requires Serial(rs) && min > 0.0
    ensures Spaced(Stamps(rs, min), min)
  {
    if rs != [] {
      var n := |rs| - 1;
      StampsSpaced(rs[..n], min);
      var ts := Stamps(rs[..n], min);
      if Stamps(rs, min) != ts {
        SpacedAppend(ts, rs[n].stamp, min);
      }
    }
  }

  /** Any span of length T holds at most floor(T / min) + 1 accepted progress writes of a job. */
  lemma ProgressRate(rs: seq<ProgressRequest>, configured: Option<real>, from: real, length: real)
    requires Serial(rs) && MinInterval(configured) > 0.0 && length >= 0.0
    ensures
      var min := MinInterval(configured);
      CountIn(Stamps(rs, min), from, from + length) <= (length / min).Floor + 1
  {
    StampsSpaced(rs, MinInterval(configured));
    SpanBound(Stamps(rs, MinInterval(configured)), MinInterval(configured), from, length);
  }

  // ===== the engine's own floor =====

  /** What the client's progress bookkeeping is told, in clock order. */
  datatype ClientEvent =
    | SetMin(seconds: real)                            // the server's declared minimum
    | Update(now: real, force: bool, delivered: bool)  // update_progress; `delivered`: the request succeeds

  /** `unforced` lists the times of the writes that were sent without `force`; it is history. */
  datatype Client = Client(minInterval: real, last: Option<real>, unforced: seq<real>)

  function Suppressed(c: Client, now: real, force: bool): bool {
    !force && c.last.Some? && now - c.last.value < c.minInterval
  }

  function ClientStep(c: Client, localFloor: real, e: ClientEvent): Client {
    match e
    case SetMin(seconds) => c.(minInterval := if seconds < localFloor then localFloor else seconds)
    case Update(now, force, delivered) =>
      if Suppressed(c, now, force) || !delivered then c
      else c.(last := Some(now), unforced := if force then c.unforced else c.unforced + [now])
  }

  class ControlPlaneClient {
    const localFloor: real
    var minInterval: real
    var lastProgress: map<string, real>

    constructor (localFloor: real)
      ensures this.localFloor == localFloor == minInterval && lastProgress == map[]
    {
      this.localFloor, minInterval, lastProgress := localFloor, localFloor, map[];
    }

    ghost function Of(job: string, unforced: seq<real>): Client
      reads this
    {
      Client(minInterval, if job in lastProgress then Some(lastProgress[job]) else None, unforced)
    }

    method SetMinPollInterval(seconds: real)
      modifies this
      ensures lastProgress == old(lastProgress)
      ensures forall job, ts :: Of(job, ts) == ClientStep(old(Of(job, ts)), localFloor, SetMin(seconds))
    {
      minInterval := if seconds < localFloor then localFloor else seconds;
    }

    /** `delivered` is whether the request, if sent, succeeds; only then is its time remembered. */
    method UpdateProgress(job: string, now: real, force: bool, delivered: bool) returns (sent: bool)
      modifies this
      ensures sent == !Suppressed(old(Of(job, [])), now, force)
      ensures minInterval == old(minInterval)
      ensures lastProgress == if sent && delivered then old(lastProgress)[job := now] else old(lastProgress)
      ensures forall ts ::
          Of(job, []).last == ClientStep(old(Of(job, ts)), localFloor, Update(now, force, delivered)).last
    {
      if !force && job in lastProgress && now - lastProgress[job] < minInterval { return false; }
      if delivered { lastProgress := lastProgress[job := now]; }
      sent := true;
    }
  }

  function ClientRun(localFloor: real, es: seq<ClientEvent>): Client {
    if es == [] then Client(localFloor, None, [])
    else ClientStep(ClientRun(localFloor, es[..|es| - 1]), localFloor, es[|es| - 1])
  }

  /** The updates carry the readings of a monotonic clock. */
  predicate ClockOrder(es: seq<ClientEvent>) {
    forall i, j | 0 <= i < j < |es| && es[i].Update? && es[j].Update? :: es[i].now <= es[j].now
  }

  /** The remembered time is that of some update. */
  lemma {:induction false} LastIsPast(localFloor: real, es: seq<ClientEvent>)
    ensures ClientRun(localFloor, es).last.Some? ==>
      exists i :: 0 <= i < |es| && es[i].Update? && es[i].now == ClientRun(localFloor, es).last.value
  {
    if es != [] {
      var init := es[..|es| - 1];
      LastIsPast(localFloor, init);
      if ClientRun(localFloor, es).last == ClientRun(localFloor, init).last && ClientRun(localFloor, init).last.Some? {
        var i :| 0 <= i < |init| && init[i].Update? && init[i].now == ClientRun(localFloor, init).last.value;
        assert es[i] == init[i];
      }
    }
  }

  /** A forced write is never suppressed, an unforced one exactly within the interval of the last delivered one. */
  lemma SuppressedIff(c: Client, now: real, force: bool)
    ensures Suppressed(c, now, force) <==> !force && c.last.Some? && c.last.value > now - c.minInterval
  {
  }

  /** The interval is the larger of the two floors. */
  lemma LargerFloor(c: Client, localFloor: real, seconds: real)
    ensures
      var m := ClientStep(c, localFloor, SetMin(seconds)).minInterval;
      m >= localFloor && m >= seconds && (m == localFloor || m == seconds)
  {
  }

  /** However the server's minimum changes, unforced progress writes keep the local floor. */
  lemma {:induction false} UnforcedSpaced(localFloor: real, es: seq<ClientEvent>)
    requires localFloor > 0.0 && ClockOrder(es)
    ensures
      var c := ClientRun(localFloor, es);
      && c.minInterval >= localFloor
      && Spaced(c.unforced, localFloor)
      && (c.unforced != [] ==> c.last.Some? && c.unforced[|c.unforced| - 1] <= c.last.value)
  {
    if es != [] {
      var n := |es| - 1;
      var init := es[..n];
      UnforcedSpaced(localFloor, init);
      LastIsPast(localFloor, init);
      var c := ClientRun(localFloor, init);
      if c.last.Some? {
        var i :| 0 <= i < |init| && init[i].Update? && init[i].now == c.last.value;
        assert es[i] == init[i];
      }
      if ClientRun(localFloor, es).unforced != c.unforced {
        SpacedAppend(c.unforced, es[n].now, localFloor);
      }
    }
  }
}
