/**
 * ThrottleGovernor.record: the sliding window of outcomes per tenant and the controller that
 * shrinks and restores the tenant's capacity.
 */
module Governor {
  import opened Spacing
  import opened Throttle

  const WINDOW_SEC := 60.0
  const MAX_EVENTS := 200
  const COOLDOWN_SEC := 15.0

  datatype Event = Event(time: real, throttled: bool)

  /**
   * `adjusted` lists the times of the capacity changes and `due` counts the calls that were free to
   * make one; both are history, read by no step.
   */
  datatype Tenant = Tenant(sem: Sem, events: seq<Event>, lastAdjust: real, adjusted: seq<real>, due: nat)

  function NewTenant(cap: int): Tenant {
    Tenant(Fresh(cap), [], 0.0, [], 0)
  }

  // ----- the window -----

  function DropOld(es: seq<Event>, cutoff: real): seq<Event> {
    if es == [] || cutoff <= es[0].time then es else DropOld(es[1..], cutoff)
  }

  function DropExcess(es: seq<Event>): seq<Event> {
    if |es| <= MAX_EVENTS then es else DropExcess(es[1..])
  }

  function Trim(es: seq<Event>, now: real): seq<Event> {
    DropExcess(DropOld(es, now - WINDOW_SEC))
  }

  function Throttles(es: seq<Event>): nat {
    if es == [] then 0 else Throttles(es[..|es| - 1]) + (if es[|es| - 1].throttled then 1 else 0)
  }

  // ----- the controller -----

  predicate Due(t: Tenant, now: real) {
    COOLDOWN_SEC <= now - t.lastAdjust && 10 <= |t.events|
  }

  /** At least a tenth of the calls in the window were throttled. */
  predicate High(es: seq<Event>) {
    10 * Throttles(es) >= |es|
  }

  /** At most a fiftieth were. */
  predicate Low(es: seq<Event>) {
    50 * Throttles(es) <= |es|
  }

  function Adjusted(t: Tenant, target: int, now: real): (u: Tenant)
    requires SemInv(t.sem) && t.sem.target.None?
    ensures SemInv(u.sem)
  {
    var s := SetEffective(t.sem, target);
    if s.target.Some? then t.(sem := s)  // record is still waiting inside set_effective
    else t.(sem := s, lastAdjust := now, adjusted := t.adjusted + [now])
  }

  /** The controller, on a trimmed window; `cap` is the governor's per-tenant cap. */
  function Adapted(t: Tenant, cap: int, now: real): (u: Tenant)
    requires SemInv(t.sem) && t.sem.target.None?
    ensures SemInv(u.sem)
  {
    if !Due(t, now) then t
    else
      var v := t.(due := t.due + 1);
      if High(v.events) && v.sem.effective > 1 then Adjusted(v, v.sem.effective - 1, now)
      else if Low(v.events) && v.sem.effective < cap then Adjusted(v, v.sem.effective + 1, now)
      else v
  }

  /** One call of `record`. */
  function Record(t: Tenant, cap: int, now: real, throttled: bool): (u: Tenant)
    requires SemInv(t.sem) && t.sem.target.None?
    ensures SemInv(u.sem)
  {
    Adapted(t.(events := Trim(t.events + [Event(now, throttled)], now)), cap, now)
  }

  // ----- the governor as an object -----

  class ThrottleGovernor {
    const cap: int
    var tenants: map<string, Tenant>

    ghost predicate Valid()
      reads this
    {
      forall k | k in tenants :: SemInv(tenants[k].sem)
    }

    constructor (perTenant: int)
      ensures cap == Max(1, perTenant) && tenants == map[] && Valid()
    {
      cap := Max(1, perTenant);
      tenants := map[];
    }

    /** The tenant's structures, made on first use. */
    function Of(tenant: string): Tenant
      reads this
    {
      if tenant in tenants then tenants[tenant] else NewTenant(cap)
    }

    /** Blocks inside `set_effective` exactly if the new state still has a resize under way. */
    method RecordCall(tenant: string, throttled: bool, now: real)
      requires Valid() && Of(tenant).sem.target.None?
      modifies this
      ensures Valid()
      ensures tenants == old(tenants)[tenant := Record(old(Of(tenant)), cap, now, throttled)]
    {
      var t := Of(tenant);
      var events := Trimmed(t.events + [Event(now, throttled)], now);
      var u := Adapt(t.(events := events), cap, now);
      assert u == Record(t, cap, now, throttled);
      tenants := tenants[tenant := u];
    }
  }

  method Adapt(t: Tenant, cap: int, now: real) returns (u: Tenant)
    requires SemInv(t.sem) && t.sem.target.None?
    ensures u == Adapted(t, cap, now)
  {
    u := t;
    if now - t.lastAdjust < COOLDOWN_SEC || |t.events| < 10 { return; }
    u := u.(due := u.due + 1);
    var throttles := CountThrottles(t.events);
    if 10 * throttles >= |t.events| && t.sem.effective > 1 {
      u := Adjusted(u, t.sem.effective - 1, now);
    } else if 50 * throttles <= |t.events| && t.sem.effective < cap {
      u := Adjusted(u, t.sem.effective + 1, now);
    }
  }

  /** The two popping loops of `record`. */
  method Trimmed(appended: seq<Event>, now: real) returns (events: seq<Event>)
    ensures events == Trim(appended, now)
  {
    events := appended;
    var cutoff := now - WINDOW_SEC;
    while events != [] && events[0].time < cutoff
      invariant DropOld(events, cutoff) == DropOld(appended, cutoff)
    {
      events := events[1..];
    }
    while |events| > MAX_EVENTS
      invariant DropExcess(events) == Trim(appended, now)
    {
      events := events[1..];
    }
  }

  method CountThrottles(es: seq<Event>) returns (n: nat)
    ensures n == Throttles(es)
  {
    n := 0;
    for i := 0 to |es|
      invariant n == Throttles(es[..i])
    {
      assert es[..i + 1][..i] == es[..i];
      if es[i].throttled { n := n + 1; }
    }
    assert es[..|es|] == es;
  }

  // ----- the window is a function of the whole history -----

  predicate InOrder(h: seq<Event>) {
    forall i, j | 0 <= i < j < |h| :: h[i].time <= h[j].time
  }

  /** `w` is the longest suffix of the history with at most 200 events, none older than 60 s. */
  predicate IsWindow(w: seq<Event>, h: seq<Event>, now: real) {
    exists k :: 0 <= k <= |h| && w == h[k..] && Fits(h, k, now) && forall j | 0 <= j < k :: !Fits(h, j, now)
  }

  predicate Fits(h: seq<Event>, k: nat, now: real)
    requires k <= |h|
  {
    |h| - k <= 200 && forall i | k <= i < |h| :: now - 60.0 <= h[i].time
  }

  lemma {:induction false} DropOldFrom(h: seq<Event>, k: nat, cutoff: real) returns (m: nat)
    requires k <= |h| && InOrder(h)
    ensures k <= m <= |h| && DropOld(h[k..], cutoff) == h[m..]
    ensures forall i | m <= i < |h| :: cutoff <= h[i].time
    ensures forall i | k <= i < m :: h[i].time < cutoff
    decreases |h| - k
  {
    if k == |h| || cutoff <= h[k].time {
      m := k;
    } else {
      m := DropOldFrom(h, k + 1, cutoff);
      assert h[k..][1..] == h[k + 1..];
    }
  }

  lemma {:induction false} DropExcessFrom(h: seq<Event>, k: nat) returns (m: nat)
    requires k <= |h|
    ensures k <= m <= |h| && DropExcess(h[k..]) == h[m..]
    ensures |h| - m <= MAX_EVENTS && (m > k ==> |h| - m == MAX_EVENTS)
    decreases |h| - k
  {
    if |h| - k <= MAX_EVENTS {
      m := k;
    } else {
      m := DropExcessFrom(h, k + 1);
      assert h[k..][1..] == h[k + 1..];
    }
  }

  /** The deque, trimmed call by call, is the window over the whole history. */
  lemma TrimIsWindow(w: seq<Event>, h: seq<Event>, before: real, e: Event)
    requires InOrder(h + [e]) && before <= e.time && IsWindow(w, h, before)
    ensures IsWindow(Trim(w + [e], e.time), h + [e], e.time)
  {
    var g := h + [e];
    var k :| 0 <= k <= |h| && w == h[k..] && Fits(h, k, before) && forall j | 0 <= j < k :: !Fits(h, j, before);
    assert w + [e] == g[k..];
    var n := TrimFrom(g, k, e.time);
    forall j | 0 <= j < n ensures !Fits(g, j, e.time) {
      if j < k {
        StillTooLong(h, j, before, e);
      }
    }
  }

  lemma TrimFrom(g: seq<Event>, k: nat, now: real) returns (n: nat)
    requires InOrder(g) && k <= |g|
    ensures k <= n <= |g| && Trim(g[k..], now) == g[n..] && Fits(g, n, now)
    ensures forall j | k <= j < n :: !Fits(g, j, now)
  {
    var m := DropOldFrom(g, k, now - WINDOW_SEC);
    n := DropExcessFrom(g, m);
    forall j | k <= j < m ensures !Fits(g, j, now) {
      assert g[j].time < now - WINDOW_SEC;
    }
  }

  /** What was too long or too old before is so after one more call. */
  lemma StillTooLong(h: seq<Event>, j: nat, before: real, e: Event)
    requires j <= |h| && !Fits(h, j, before) && before <= e.time
    ensures !Fits(h + [e], j, e.time)
  {
    if |h| - j <= MAX_EVENTS {
      var i :| j <= i < |h| && !(before - WINDOW_SEC <= h[i].time);
      assert (h + [e])[i] == h[i];
    }
  }

  // ----- histories of records, one slot holder at most -----

  /** The engine runs one job at a time, so at most one slot of the tenant is held. */
  predicate Quiet(t: Tenant, cap: int) {
    && SemInv(t.sem) && t.sem.target.None? && t.sem.held <= 1 && t.sem.max == cap
  }

  /** A record never waits: the shrink by one finds a free permit. */
  lemma RecordNeverBlocks(t: Tenant, cap: int, now: real, throttled: bool)
    requires Quiet(t, cap)
    ensures
      var u := Record(t, cap, now, throttled);
      && Quiet(u, cap) && u.sem.held == t.sem.held
      && u.events == Trim(t.events + [Event(now, throttled)], now)
      && (if u.sem.effective == t.sem.effective then u.adjusted == t.adjusted && u.lastAdjust == t.lastAdjust
          else u.adjusted == t.adjusted + [now] && u.lastAdjust == now && t.lastAdjust + COOLDOWN_SEC <= now
               && (u.sem.effective == t.sem.effective + 1 || u.sem.effective == t.sem.effective - 1))
  {
  }

  /** Between two calls the slot may have been entered or left. */
  function Slotted(t: Tenant, inSlot: bool): Tenant {
    var held := if inSlot then 1 else 0;
    t.(sem := t.sem.(held := held, free := t.sem.max - t.sem.parked - held))
  }

  /** The tenant after a history of records; `slots` says which of them were made inside the slot. */
  function Replay(t: Tenant, cap: int, h: seq<Event>, slots: nat -> bool): Tenant
    requires Quiet(t, cap)
    ensures Quiet(Replay(t, cap, h, slots), cap)
    decreases |h|
  {
    if h == [] then t
    else
      var n := |h| - 1;
      var u := Slotted(Replay(t, cap, h[..n], slots), slots(n));
      RecordNeverBlocks(u, cap, h[n].time, h[n].throttled);
      Record(u, cap, h[n].time, h[n].throttled)
  }

  lemma LastEvents(t: Tenant, cap: int, h: seq<Event>, slots: nat -> bool)
    requires Quiet(t, cap) && h != []
    ensures
      var n := |h| - 1;
      Replay(t, cap, h, slots).events == Trim(Replay(t, cap, h[..n], slots).events + [h[n]], h[n].time)
  {
    var n := |h| - 1;
    var u := Slotted(Replay(t, cap, h[..n], slots), slots(n));
    assert Replay(t, cap, h, slots) == Record(u, cap, h[n].time, h[n].throttled);
    RecordNeverBlocks(u, cap, h[n].time, h[n].throttled);
    assert h[n] == Event(h[n].time, h[n].throttled);
  }

  /** After any calls in clock order the window is the longest admissible suffix of the full history. */
  lemma {:induction false} WindowRefinesHistory(cap: int, h: seq<Event>, slots: nat -> bool)
    requires cap >= 1 && InOrder(h) && h != []
    ensures IsWindow(Replay(NewTenant(cap), cap, h, slots).events, h, h[|h| - 1].time)
  {
    var n := |h| - 1;
    LastEvents(NewTenant(cap), cap, h, slots);
    assert h == h[..n] + [h[n]];
    if n == 0 {
      NoWindow(h[0].time);
      TrimIsWindow([], [], h[0].time, h[0]);
    } else {
      WindowRefinesHistory(cap, h[..n], slots);
      TrimIsWindow(Replay(NewTenant(cap), cap, h[..n], slots).events, h[..n], h[n - 1].time, h[n]);
    }
  }

  lemma NoWindow(now: real)
    ensures IsWindow([], [], now)
  {
    var none: seq<Event> := [];
    assert none == none[0..] && Fits(none, 0, now);
  }

  // ----- how often it adjusts -----

  /** The recorded times are a cooldown apart, and the last of them is remembered. */
  predicate AdjustedApart(t: Tenant) {
    && Spaced(t.adjusted, COOLDOWN_SEC)
    && (t.adjusted != [] ==> t.lastAdjust == t.adjusted[|t.adjusted| - 1])
  }

  lemma SpacedRecord(t: Tenant, cap: int, now: real, throttled: bool)
    requires Quiet(t, cap) && AdjustedApart(t)
    ensures AdjustedApart(Record(t, cap, now, throttled))
  {
    var u := Record(t, cap, now, throttled);
    RecordNeverBlocks(t, cap, now, throttled);
    if u.sem.effective != t.sem.effective {
      SpacedAppend(t.adjusted, now, COOLDOWN_SEC);
    }
  }

  lemma {:induction false} AdjustmentsSpaced(t: Tenant, cap: int, h: seq<Event>, slots: nat -> bool)
    requires Quiet(t, cap) && t.adjusted == []
    ensures AdjustedApart(Replay(t, cap, h, slots))
    decreases |h|
  {
    if h != [] {
      var n := |h| - 1;
      AdjustmentsSpaced(t, cap, h[..n], slots);
      var u := Slotted(Replay(t, cap, h[..n], slots), slots(n));
      SpacedRecord(u, cap, h[n].time, h[n].throttled);
    }
  }

  /** Each adjustment is by one, and any span of length T holds at most floor(T / 15) + 1 of them. */
  lemma AdjustmentRate(cap: int, h: seq<Event>, slots: nat -> bool, from: real, length: real)
    requires cap >= 1 && 0.0 <= length
    ensures
      CountIn(Replay(NewTenant(cap), cap, h, slots).adjusted, from, from + length) <= (length / COOLDOWN_SEC).Floor + 1
  {
    var u := Replay(NewTenant(cap), cap, h, slots);
    AdjustmentsSpaced(NewTenant(cap), cap, h, slots);
    SpanBound(u.adjusted, COOLDOWN_SEC, from, length);
  }

  // ----- when the capacity moves -----

  /** The positions of the throttled calls. */
  function ThrottledAt(es: seq<Event>): set<int> {
    set i | 0 <= i < |es| && es[i].throttled
  }

  lemma {:induction false} ThrottlesAreCounted(es: seq<Event>)
    ensures Throttles(es) == |ThrottledAt(es)|
  {
    if es != [] {
      var n := |es| - 1;
      ThrottlesAreCounted(es[..n]);
      assert ThrottledAt(es) == ThrottledAt(es[..n]) + if es[n].throttled then {n} else {};
    }
  }

  /** A call is free to move the capacity: 15 s after the last move, with ten calls in the window. */
  predicate MayMove(t: Tenant, w: seq<Event>, now: real) {
    now - t.lastAdjust >= 15.0 && |w| >= 10
  }

  /** It may, at least a tenth of the window was throttled, and there is capacity to take. */
  predicate Falls(t: Tenant, w: seq<Event>, now: real) {
    MayMove(t, w, now) && 10 * |ThrottledAt(w)| >= |w| && t.sem.effective > 1
  }

  /** It may, at most a fiftieth was, and the cap is not reached. */
  predicate Rises(t: Tenant, cap: int, w: seq<Event>, now: real) {
    MayMove(t, w, now) && 50 * |ThrottledAt(w)| <= |w| && t.sem.effective < cap
  }

  /** Each call moves the capacity by one, down or up, exactly in these cases, and otherwise leaves it. */
  lemma CapacityMoves(t: Tenant, cap: int, now: real, throttled: bool)
    requires Quiet(t, cap)
    ensures
      var u := Record(t, cap, now, throttled);
      var w := Trim(t.events + [Event(now, throttled)], now);
      && u.events == w
      && (u.sem.effective == t.sem.effective - 1 <==> Falls(t, w, now))
      && (u.sem.effective == t.sem.effective + 1 <==> Rises(t, cap, w, now) && !Falls(t, w, now))
      && (u.sem.effective == t.sem.effective <==> !Falls(t, w, now) && !Rises(t, cap, w, now))
      && u.due == t.due + if MayMove(t, w, now) then 1 else 0
  {
    ThrottlesAreCounted(Trim(t.events + [Event(now, throttled)], now));
  }

  /** A new tenant starts at the cap, and its first move may come 15 s after the clock's zero. */
  lemma FirstMove(cap: int, w: seq<Event>, now: real)
    requires cap >= 1
    ensures NewTenant(cap).sem.effective == cap && NewTenant(cap).events == []
    ensures MayMove(NewTenant(cap), w, now) <==> now >= 15.0 && |w| >= 10
  {
  }

  predicate Hot(w: seq<Event>) {
    10 * |ThrottledAt(w)| >= |w|
  }

  /** At least a tenth of the window was throttled after each of the calls. */
  predicate HotThroughout(t: Tenant, cap: int, h: seq<Event>, slots: nat -> bool)
    requires Quiet(t, cap)
  {
    h == [] || (HotThroughout(t, cap, h[..|h| - 1], slots) && Hot(Replay(t, cap, h, slots).events))
  }

  /** From t to u on hot windows: every due call took one off the capacity, down to one. */
  predicate Shrunk(t: Tenant, u: Tenant) {
    t.due <= u.due && u.sem.effective == Max(1, t.sem.effective - (u.due - t.due))
  }

  lemma HotStep(t: Tenant, u: Tenant, cap: int, e: Event)
    requires Quiet(u, cap) && Shrunk(t, u)
    requires Hot(Trim(u.events + [e], e.time))
    ensures Shrunk(t, Record(u, cap, e.time, e.throttled))
  {
    assert e == Event(e.time, e.throttled);
    CapacityMoves(u, cap, e.time, e.throttled);
  }

  /** k due calls on hot windows bring the capacity from e to max(1, e - k). */
  lemma {:induction false} Decay(t: Tenant, cap: int, h: seq<Event>, slots: nat -> bool)
    requires Quiet(t, cap) && HotThroughout(t, cap, h, slots)
    ensures Shrunk(t, Replay(t, cap, h, slots))
    decreases |h|
  {
    if h != [] {
      var n := |h| - 1;
      Decay(t, cap, h[..n], slots);
      LastEvents(t, cap, h, slots);
      HotStep(t, Slotted(Replay(t, cap, h[..n], slots), slots(n)), cap, h[n]);
    }
  }

  predicate AllThrottled(es: seq<Event>) {
    forall i | 0 <= i < |es| :: es[i].throttled
  }

  lemma {:induction false} TrimKeepsThrottled(es: seq<Event>, now: real)
    requires AllThrottled(es)
    ensures AllThrottled(DropOld(es, now)) && AllThrottled(DropExcess(es))
    decreases |es|
  {
    if es != [] {
      TrimKeepsThrottled(es[1..], now);
    }
  }

  lemma {:induction false} ThrottledIsHot(es: seq<Event>)
    requires AllThrottled(es)
    ensures Throttles(es) == |es|
  {
    if es != [] {
      ThrottledIsHot(es[..|es| - 1]);
    }
  }

  /** While every call is throttled, the window is hot throughout. */
  lemma {:induction false} StormIsHot(t: Tenant, cap: int, h: seq<Event>, slots: nat -> bool)
    requires Quiet(t, cap) && AllThrottled(t.events) && AllThrottled(h)
    ensures AllThrottled(Replay(t, cap, h, slots).events) && HotThroughout(t, cap, h, slots)
    decreases |h|
  {
    if h != [] {
      var n := |h| - 1;
      StormIsHot(t, cap, h[..n], slots);
      LastEvents(t, cap, h, slots);
      var es := Replay(t, cap, h[..n], slots).events + [h[n]];
      TrimKeepsThrottled(es, h[n].time - WINDOW_SEC);
      TrimKeepsThrottled(DropOld(es, h[n].time - WINDOW_SEC), 0.0);
      ThrottledIsHot(Replay(t, cap, h, slots).events);
      ThrottlesAreCounted(Replay(t, cap, h, slots).events);
    }
  }

  /** A storm of throttled calls takes the capacity of a new tenant from the cap to one, one per due call. */
  lemma Storm(cap: int, h: seq<Event>, slots: nat -> bool)
    requires cap >= 1 && AllThrottled(h)
    ensures
      var u := Replay(NewTenant(cap), cap, h, slots);
      u.sem.effective == Max(1, cap - u.due)
  {
    StormIsHot(NewTenant(cap), cap, h, slots);
    Decay(NewTenant(cap), cap, h, slots);
  }

  // ----- recovery -----

  predicate Clean(es: seq<Event>) {
    forall i | 0 <= i < |es| :: !es[i].throttled
  }

  lemma {:induction false} TrimKeepsClean(es: seq<Event>, now: real)
    requires Clean(es)
    ensures Clean(DropOld(es, now)) && Clean(DropExcess(es))
    decreases |es|
  {
    if es != [] {
      TrimKeepsClean(es[1..], now);
    }
  }

  lemma {:induction false} CleanHasNoThrottles(es: seq<Event>)
    requires Clean(es)
    ensures Throttles(es) == 0
  {
    if es != [] {
      CleanHasNoThrottles(es[..|es| - 1]);
    }
  }

  /** One clean call on a clean window: it is due after 15 s with ten events in the window, and then grows. */
  lemma CleanRecord(t: Tenant, cap: int, e: Event)
    requires Quiet(t, cap) && Clean(t.events) && !e.throttled
    ensures
      var u := Record(t, cap, e.time, false);
      && Clean(u.events)
      && u.due == t.due + (if COOLDOWN_SEC <= e.time - t.lastAdjust && 10 <= |u.events| then 1 else 0)
      && u.sem.effective == Min(cap, t.sem.effective + u.due - t.due)
  {
    assert Clean(t.events + [e]);
    TrimKeepsClean(t.events + [e], e.time - WINDOW_SEC);
    TrimKeepsClean(DropOld(t.events + [e], e.time - WINDOW_SEC), 0.0);
    CleanHasNoThrottles(Trim(t.events + [e], e.time));
    assert e == Event(e.time, false);
  }

  /** From t to u after n clean calls: every due call raised the capacity, up to the cap. */
  predicate Recovered(t: Tenant, u: Tenant, cap: int, n: nat) {
    && Clean(u.events)
    && t.due <= u.due <= t.due + n
    && u.sem.effective == Min(cap, t.sem.effective + u.due - t.due)
  }

  lemma CleanStep(t: Tenant, u: Tenant, cap: int, e: Event, n: nat)
    requires Recovered(t, u, cap, n) && Quiet(u, cap) && !e.throttled
    ensures Recovered(t, Record(u, cap, e.time, e.throttled), cap, n + 1)
  {
    CleanRecord(u, cap, e);
  }

  /**
   * Once the window is clean and the calls stay clean, every due call raises the capacity by one until
   * it is back at the cap, and nothing ever lowers it; cap - 1 due calls restore it fully.
   */
  lemma {:induction false} Recovery(t: Tenant, cap: int, h: seq<Event>, slots: nat -> bool)
    requires Quiet(t, cap) && Clean(t.events) && Clean(h)
    ensures
      var u := Replay(t, cap, h, slots);
      Recovered(t, u, cap, |h|) && (u.due - t.due >= cap - 1 ==> u.sem.effective == cap)
    decreases |h|
  {
    if h != [] {
      var n := |h| - 1;
      Recovery(t, cap, h[..n], slots);
      CleanStep(t, Slotted(Replay(t, cap, h[..n], slots), slots(n)), cap, h[n], n);
    }
  }

  /** 200 clean calls in a row leave a clean window, whatever came before. */
  lemma CleanAfter200(cap: int, h: seq<Event>, slots: nat -> bool)
    requires cap >= 1 && InOrder(h) && |h| >= MAX_EVENTS && Clean(h[|h| - MAX_EVENTS..])
    ensures Clean(Replay(NewTenant(cap), cap, h, slots).events)
  {
    WindowRefinesHistory(cap, h, slots);
    CleanSuffix(Replay(NewTenant(cap), cap, h, slots).events, h, h[|h| - 1].time);
  }

  lemma CleanSuffix(w: seq<Event>, h: seq<Event>, now: real)
    requires IsWindow(w, h, now) && |h| >= MAX_EVENTS && Clean(h[|h| - MAX_EVENTS..])
    ensures Clean(w)
  {
    var k :| 0 <= k <= |h| && w == h[k..] && Fits(h, k, now);
    var j := |h| - MAX_EVENTS;
    assert h[k..] == h[j..][k - j..];
  }
}
