/**
 * The free-tier budget governor: atomic counter increments, and a degrade flag written later.
 *
 * A call of `recordUsage` is two steps: the increment, which returns the new row, and, if the flag in
 * that row is not what the counters call for, the flag write.  Calls interleave, and a flag write
 * may fail.  `setDegraded` writes to the row of the day it runs on.
 */
module Budget {

  datatype Limits = Limits(workers: real, d1Writes: real, queueOps: real, softFraction: real)

  datatype Row = Row(workers: nat, d1Writes: nat, queueOps: nat, degraded: bool)

  datatype Deltas = Deltas(workers: nat, d1Writes: nat, queueOps: nat)

  type Day = nat

  const ZERO := Row(0, 0, 0, false)

  predicate Soft(r: Row, l: Limits) {
    r.workers as real >= l.workers * l.softFraction ||
    r.d1Writes as real >= l.d1Writes * l.softFraction ||
    r.queueOps as real >= l.queueOps * l.softFraction
  }

  predicate Hard(r: Row, l: Limits) {
    r.workers as real >= l.workers || r.d1Writes as real >= l.d1Writes || r.queueOps as real >= l.queueOps
  }

  function Plus(r: Row, d: Deltas): Row {
    r.(workers := r.workers + d.workers, d1Writes := r.d1Writes + d.d1Writes, queueOps := r.queueOps + d.queueOps)
  }

  // ----- the table and its operations -----

  class BudgetTable {
    var rows: map<Day, Row>

    constructor ()
      ensures rows == map[]
    {
      rows := map[];
    }

    function GetDay(day: Day): Row
      reads this
    {
      if day in rows then rows[day] else ZERO
    }

    method Increment(day: Day, d: Deltas) returns (row: Row)
      modifies this
      ensures rows == old(rows)[day := row] && row == Plus(old(GetDay(day)), d)
    {
      row := Plus(GetDay(day), d);
      rows := rows[day := row];
    }

    method SetDegraded(day: Day, flag: bool)
      modifies this
      ensures rows == if day in old(rows) then old(rows)[day := old(rows)[day].(degraded := flag)] else old(rows)
    {
      if day in rows { rows := rows[day := rows[day].(degraded := flag)]; }
    }

    /** A call that nothing interleaves with. */
    method RecordUsage(day: Day, d: Deltas, l: Limits) returns (degradedNow: bool)
      modifies this
      ensures degradedNow == Soft(Plus(old(GetDay(day)), d), l)
      ensures rows == old(rows)[day := Plus(old(GetDay(day)), d).(degraded := degradedNow)]
    {
      var row := Increment(day, d);
      degradedNow := Soft(row, l);
      if degradedNow != row.degraded { SetDegraded(day, degradedNow); }
    }

    method IsPaused(day: Day, l: Limits) returns (paused: bool)
      ensures paused == Paused(GetDay(day), l)
    {
      var row := GetDay(day);
      if row.degraded { return true; }
      paused := Soft(row, l);
    }
  }

  predicate Paused(r: Row, l: Limits) {
    r.degraded || Soft(r, l)
  }

  // ----- interleaved calls -----

  /** A call between its increment and its flag write. */
  datatype Call = Call(row: Row)

  datatype State = State(
    day: Day,
    rows: map<Day, Row>,
    calls: map<nat, Call>,
    next: nat,
    lost: bool,            // history: some flag write failed
    writes: seq<bool>)     // history: the flag values written

  datatype Event =
    | Start(d: Deltas)
    | Finish(call: nat, delivered: bool)
    | Midnight

  function Init(): State {
    State(0, map[], map[], 0, false, [])
  }

  function Today(s: State): Row {
    if s.day in s.rows then s.rows[s.day] else ZERO
  }

  predicate Enabled(s: State, e: Event) {
    match e
    case Start(_) => true
    case Finish(c, _) => c in s.calls
    case Midnight => true
  }

  function Apply(s: State, l: Limits, e: Event): State
    requires Enabled(s, e)
  {
    match e
    case Start(d) =>
      var row := Plus(Today(s), d);
      s.(rows := s.rows[s.day := row], calls := s.calls[s.next := Call(row)], next := s.next + 1)
    case Finish(c, delivered) =>
      var row := s.calls[c].row;
      var t := s.(calls := s.calls - {c});
      if Soft(row, l) == row.degraded then t
      else if !delivered then t.(lost := true)
      else
        var flag := Soft(row, l);
        t.(writes := t.writes + [flag],
           rows := if s.day in s.rows then s.rows[s.day := s.rows[s.day].(degraded := flag)] else s.rows)
    case Midnight => s.(day := s.day + 1)
  }

  /** No call straddles midnight. */
  predicate QuietMidnight(s: State, e: Event) {
    e.Midnight? ==> s.calls == map[]
  }

  datatype Run = Begin | Then(prev: Run, last: Event)

  predicate Valid(r: Run, l: Limits)
    decreases r, 0
  {
    r.Begin? || (Valid(r.prev, l) && Enabled(End(r.prev, l), r.last))
  }

  function End(r: Run, l: Limits): State
    requires Valid(r, l)
    decreases r, 1
  {
    if r.Begin? then Init() else Apply(End(r.prev, l), l, r.last)
  }

  predicate QuietRun(r: Run, l: Limits)
    requires Valid(r, l)
  {
    r.Begin? || (QuietRun(r.prev, l) && QuietMidnight(End(r.prev, l), r.last))
  }

  // ----- the invariant -----

  /** Counters only grow. */
  predicate AtMost(a: Row, b: Row) {
    a.workers <= b.workers && a.d1Writes <= b.d1Writes && a.queueOps <= b.queueOps
  }

  lemma SoftMonotone(a: Row, b: Row, l: Limits)
    requires AtMost(a, b) && Soft(a, l)
    ensures Soft(b, l)
  {
  }

  /** A call that will still write the flag. */
  predicate WillWrite(c: Call, l: Limits) {
    Soft(c.row, l) && !c.row.degraded
  }

  predicate Inv(s: State, l: Limits) {
    && (forall day | day in s.rows :: s.rows[day].degraded ==> Soft(s.rows[day], l))
    && (forall c | c in s.calls :: c < s.next && AtMost(s.calls[c].row, Today(s)))
    && (forall c | c in s.calls :: s.calls[c].row.degraded ==> Soft(s.calls[c].row, l))
    && (s.calls != map[] ==> s.day in s.rows)
    && (forall i | 0 <= i < |s.writes| :: s.writes[i])
    && (s.day in s.rows && Soft(s.rows[s.day], l) && !s.rows[s.day].degraded ==>
          s.lost || exists c :: c in s.calls && WillWrite(s.calls[c], l))
    && (forall day | day in s.rows :: day <= s.day)
  }

  lemma StartKeeps(s: State, l: Limits, d: Deltas)
    requires Inv(s, l)
    ensures Inv(Apply(s, l, Start(d)), l)
  {
    var t := Apply(s, l, Start(d));
    var row := Plus(Today(s), d);
    assert t.calls[s.next] == Call(row);
    if row.degraded {
      SoftMonotone(Today(s), row, l);
    }
  }

  lemma FinishKeeps(s: State, l: Limits, c: nat, delivered: bool)
    requires Inv(s, l) && c in s.calls
    ensures Inv(Apply(s, l, Finish(c, delivered)), l)
  {
    var t := Apply(s, l, Finish(c, delivered));
    var row := s.calls[c].row;
    if Soft(row, l) {
      SoftMonotone(row, Today(s), l);
    }
    if t.rows == s.rows && !t.lost && Soft(Today(s), l) && !Today(s).degraded {
      var k :| k in s.calls && WillWrite(s.calls[k], l);
      assert k != c ==> k in t.calls && t.calls[k] == s.calls[k];
    }
  }

  lemma {:induction false} RunKeepsInv(r: Run, l: Limits)
    requires Valid(r, l) && QuietRun(r, l)
    ensures Inv(End(r, l), l)
  {
    if r.Then? {
      RunKeepsInv(r.prev, l);
      match r.last
      case Start(d) => StartKeeps(End(r.prev, l), l, d);
      case Finish(c, delivered) => FinishKeeps(End(r.prev, l), l, c, delivered);
      case Midnight =>
    }
  }

  /**
   * With no call in flight across midnight: the flag implies a soft threshold on every day, it is never
   * written back to false, and `isPaused` holds exactly when a threshold of the day is reached.
   */
  lemma FlagSound(r: Run, l: Limits)
    requires Valid(r, l) && QuietRun(r, l)
    ensures
      var s := End(r, l);
      && (forall day | day in s.rows :: s.rows[day].degraded ==> Soft(s.rows[day], l))
      && (forall i | 0 <= i < |s.writes| :: s.writes[i])
      && (Paused(Today(s), l) <==> Soft(Today(s), l))
  {
    RunKeepsInv(r, l);
  }

  /** Once no call is in flight and every flag write got through, the flag is exactly the threshold. */
  lemma FlagComplete(r: Run, l: Limits)
    requires Valid(r, l) && QuietRun(r, l)
    requires End(r, l).calls == map[] && !End(r, l).lost && End(r, l).day in End(r, l).rows
    ensures Today(End(r, l)).degraded <==> Soft(Today(End(r, l)), l)
  {
    RunKeepsInv(r, l);
  }

  /** A call that straddles midnight flags the new day although its counters are far from any threshold. */
  lemma MidnightFlagsWrongDay() returns (r: Run, l: Limits)
    ensures Valid(r, l)
    ensures Today(End(r, l)).degraded && !Soft(Today(End(r, l)), l)
  {
    l := Limits(100.0, 100.0, 100.0, 0.5);
    r := Then(Then(Begin, Start(Deltas(60, 0, 0))), Midnight);
    var s := End(r, l);
    assert s.calls == map[0 := Call(Row(60, 0, 0, false))];
    r := Then(Then(r, Start(Deltas(1, 0, 0))), Finish(0, true));
  }

  // ----- the counters are conserved -----

  /** What the calls of a run were charged on a day. */
  function Charged(r: Run, l: Limits, day: Day): Deltas
    requires Valid(r, l)
  {
    if r.Begin? then Deltas(0, 0, 0)
    else
      var before := Charged(r.prev, l, day);
      if r.last.Start? && End(r.prev, l).day == day
      then Deltas(before.workers + r.last.d.workers, before.d1Writes + r.last.d.d1Writes,
                  before.queueOps + r.last.d.queueOps)
      else before
  }

  /** However calls interleave, fail to write their flag or straddle midnight, no charge is lost or counted twice. */
  lemma {:induction false} CountersConserved(r: Run, l: Limits, day: Day)
    requires Valid(r, l)
    ensures
      var row := if day in End(r, l).rows then End(r, l).rows[day] else ZERO;
      Charged(r, l, day) == Deltas(row.workers, row.d1Writes, row.queueOps)
  {
    if r.Then? {
      CountersConserved(r.prev, l, day);
    }
  }

  /** Paused, without a flag: one of the counters is at its soft fraction; refused: one is at its limit. */
  lemma ThresholdsAre(w: nat, d: nat, q: nat, l: Limits)
    ensures
      Paused(Row(w, d, q, false), l) <==>
      || w as real >= l.workers * l.softFraction
      || d as real >= l.d1Writes * l.softFraction
      || q as real >= l.queueOps * l.softFraction
    ensures Paused(Row(w, d, q, true), l)
    ensures
      Hard(Row(w, d, q, false), l) <==> w as real >= l.workers || d as real >= l.d1Writes || q as real >= l.queueOps
  {
  }

  // ----- wrong flags, exactly -----

  /** No day's flag is set below its thresholds, nor was it in a row that a pending call has read. */
  predicate FlagsSound(s: State, l: Limits) {
    && (forall day | day in s.rows :: s.rows[day].degraded ==> Soft(s.rows[day], l))
    && (forall c | c in s.calls :: s.calls[c].row.degraded ==> Soft(s.calls[c].row, l))
  }

  /** A call that crossed a threshold writes its flag to a day whose counters reach none. */
  predicate FlagsWrongly(s: State, l: Limits, e: Event)
    requires Enabled(s, e)
  {
    e.Finish? && e.delivered && WillWrite(s.calls[e.call], l) && s.day in s.rows && !Soft(Today(s), l)
  }

  /** From sound flags, a step leads to unsound ones exactly if it is such a write. */
  lemma StraddleExact(s: State, l: Limits, e: Event)
    requires Enabled(s, e) && FlagsSound(s, l)
    ensures FlagsSound(Apply(s, l, e), l) <==> !FlagsWrongly(s, l, e)
  {
    match e
    case Start(d) => StartSound(s, l, d);
    case Finish(c, delivered) => FinishSound(s, l, c, delivered);
    case Midnight =>
  }

  lemma StartSound(s: State, l: Limits, d: Deltas)
    requires FlagsSound(s, l)
    ensures FlagsSound(Apply(s, l, Start(d)), l)
  {
    var row := Plus(Today(s), d);
    if row.degraded {
      SoftMonotone(Today(s), row, l);
    }
  }

  lemma FinishSound(s: State, l: Limits, c: nat, delivered: bool)
    requires c in s.calls && FlagsSound(s, l)
    ensures FlagsSound(Apply(s, l, Finish(c, delivered)), l) <==> !FlagsWrongly(s, l, Finish(c, delivered))
  {
    var t := Apply(s, l, Finish(c, delivered));
    if FlagsWrongly(s, l, Finish(c, delivered)) {
      assert t.rows[s.day].degraded && !Soft(t.rows[s.day], l);
    }
  }

  predicate SoundThroughout(r: Run, l: Limits)
    requires Valid(r, l)
  {
    FlagsSound(End(r, l), l) && (r.Begin? || SoundThroughout(r.prev, l))
  }

  predicate NeverFlagsWrongly(r: Run, l: Limits)
    requires Valid(r, l)
  {
    r.Begin? || (NeverFlagsWrongly(r.prev, l) && !FlagsWrongly(End(r.prev, l), l, r.last))
  }

  /** Over any run, calls across midnight or not: the flags are sound all the time exactly if no such write happens. */
  lemma {:induction false} SoundIff(r: Run, l: Limits)
    requires Valid(r, l)
    ensures SoundThroughout(r, l) <==> NeverFlagsWrongly(r, l)
  {
    if r.Then? {
      SoundIff(r.prev, l);
      if NeverFlagsWrongly(r.prev, l) {
        StraddleExact(End(r.prev, l), l, r.last);
      }
    }
  }

  /** Over a threshold the flag of the day is set, or a flag write was lost, or some call will still write it. */
  predicate Covered(s: State, l: Limits) {
    s.day in s.rows && Soft(Today(s), l) && !Today(s).degraded ==>
        s.lost || exists c :: c in s.calls && WillWrite(s.calls[c], l)
  }

  /** A call that read a wrong flag clears the flag over a threshold, and no other will set it again. */
  predicate ClearsWrongly(s: State, l: Limits, e: Event)
    requires Enabled(s, e)
  {
    && e.Finish? && e.delivered && s.day in s.rows && Soft(Today(s), l) && !s.lost
    && s.calls[e.call].row.degraded && !Soft(s.calls[e.call].row, l)
    && forall c | c in s.calls && c != e.call :: !WillWrite(s.calls[c], l)
  }

  predicate DaysSoFar(s: State) {
    (forall day | day in s.rows :: day <= s.day) && forall c | c in s.calls :: c < s.next
  }

  /** From a covered state, a step leads to an uncovered one exactly if it is such a write. */
  lemma CoveredExact(s: State, l: Limits, e: Event)
    requires Enabled(s, e) && Covered(s, l) && DaysSoFar(s)
    ensures Covered(Apply(s, l, e), l) <==> !ClearsWrongly(s, l, e)
  {
    match e
    case Start(d) => StartCovered(s, l, d);
    case Finish(c, delivered) => FinishCovered(s, l, c, delivered);
    case Midnight =>
  }

  lemma StartCovered(s: State, l: Limits, d: Deltas)
    requires Covered(s, l) && DaysSoFar(s)
    ensures Covered(Apply(s, l, Start(d)), l)
  {
    var t := Apply(s, l, Start(d));
    assert t.calls[s.next] == Call(Plus(Today(s), d));
  }

  lemma FinishCovered(s: State, l: Limits, c: nat, delivered: bool)
    requires c in s.calls && Covered(s, l)
    ensures Covered(Apply(s, l, Finish(c, delivered)), l) <==> !ClearsWrongly(s, l, Finish(c, delivered))
  {
    var t := Apply(s, l, Finish(c, delivered));
    if k :| k in s.calls && k != c && WillWrite(s.calls[k], l) {
      assert k in t.calls && t.calls[k] == s.calls[k];
    } else {
      assert forall k | k in t.calls :: k in s.calls && k != c && t.calls[k] == s.calls[k];
    }
  }

  lemma {:induction false} RunDays(r: Run, l: Limits)
    requires Valid(r, l)
    ensures DaysSoFar(End(r, l))
  {
    if r.Then? {
      RunDays(r.prev, l);
    }
  }

  predicate CoveredThroughout(r: Run, l: Limits)
    requires Valid(r, l)
  {
    Covered(End(r, l), l) && (r.Begin? || CoveredThroughout(r.prev, l))
  }

  predicate NeverClearsWrongly(r: Run, l: Limits)
    requires Valid(r, l)
  {
    r.Begin? || (NeverClearsWrongly(r.prev, l) && !ClearsWrongly(End(r.prev, l), l, r.last))
  }

  lemma {:induction false} CoveredIff(r: Run, l: Limits)
    requires Valid(r, l)
    ensures CoveredThroughout(r, l) <==> NeverClearsWrongly(r, l)
  {
    if r.Then? {
      CoveredIff(r.prev, l);
      RunDays(r.prev, l);
      if NeverClearsWrongly(r.prev, l) {
        CoveredExact(End(r.prev, l), l, r.last);
      }
    }
  }

  /** Flags that are never wrongly set are never wrongly cleared: a call cannot have read a wrong one. */
  lemma {:induction false} SoundNeverClears(r: Run, l: Limits)
    requires Valid(r, l) && NeverFlagsWrongly(r, l)
    ensures NeverClearsWrongly(r, l)
  {
    if r.Then? {
      SoundNeverClears(r.prev, l);
      SoundIff(r.prev, l);
    }
  }

  /**
   * Over any run in which no day is wrongly flagged: once no call is in flight and no flag write was lost,
   * the flag of the day is exactly the threshold.
   */
  lemma FlagExact(r: Run, l: Limits)
    requires Valid(r, l) && NeverFlagsWrongly(r, l)
    requires End(r, l).calls == map[] && !End(r, l).lost && End(r, l).day in End(r, l).rows
    ensures Today(End(r, l)).degraded <==> Soft(Today(End(r, l)), l)
  {
    SoundIff(r, l);
    SoundNeverClears(r, l);
    CoveredIff(r, l);
  }

  // ----- a flag left unset over the threshold -----

  const EXAMPLE := Limits(100.0, 100.0, 100.0, 0.5)

  /** Today's row and the calls in flight; no write was lost. */
  predicate Stands(s: State, row: Row, calls: map<nat, Call>, next: nat) {
    s.day in s.rows && s.rows[s.day] == row && s.calls == calls && s.next == next && !s.lost
  }

  lemma Started(r: Run, row: Row, calls: map<nat, Call>, next: nat, d: Deltas) returns (t: Run)
    requires Valid(r, EXAMPLE) && Stands(End(r, EXAMPLE), row, calls, next)
    ensures Valid(t, EXAMPLE) && Stands(End(t, EXAMPLE), Plus(row, d), calls[next := Call(Plus(row, d))], next + 1)
  {
    t := Then(r, Start(d));
  }

  lemma Finished(r: Run, row: Row, calls: map<nat, Call>, next: nat, c: nat) returns (t: Run)
    requires Valid(r, EXAMPLE) && Stands(End(r, EXAMPLE), row, calls, next) && c in calls
    ensures Valid(t, EXAMPLE)
    ensures
      var flag := Soft(calls[c].row, EXAMPLE);
      Stands(End(t, EXAMPLE), if flag == calls[c].row.degraded then row else row.(degraded := flag), calls - {c}, next)
  {
    t := Then(r, Finish(c, true));
  }

  /** A call across midnight, and the first of the new day. */
  lemma AcrossMidnight() returns (r: Run)
    ensures Valid(r, EXAMPLE)
    ensures
      var first, second := Call(Row(60, 0, 0, false)), Call(Row(1, 0, 0, false));
      Stands(End(r, EXAMPLE), second.row, map[0 := first, 1 := second], 2)
  {
    r := Then(Then(Begin, Start(Deltas(60, 0, 0))), Midnight);
    assert End(r, EXAMPLE).calls == map[0 := Call(Row(60, 0, 0, false))];
    r := Then(r, Start(Deltas(1, 0, 0)));
  }

  /** It flags the new day although its counters are low. */
  lemma FlaggedRun() returns (r: Run)
    ensures Valid(r, EXAMPLE) && Stands(End(r, EXAMPLE), Row(1, 0, 0, true), map[], 2)
  {
    var first, second := Call(Row(60, 0, 0, false)), Call(Row(1, 0, 0, false));
    var calls := map[0 := first, 1 := second];
    r := AcrossMidnight();
    r := Finished(r, second.row, calls, 2, 0);
    r := Finished(r, Row(1, 0, 0, true), calls - {0}, 2, 1);
    assert calls - {0} - {1} == map[];
  }

  const LOW := Row(2, 0, 0, true)
  const HIGH := Row(62, 0, 0, true)

  /** Two more calls read that flag, the second crossing the threshold. */
  lemma TwoReaders(r: Run) returns (t: Run)
    requires Valid(r, EXAMPLE) && Stands(End(r, EXAMPLE), Row(1, 0, 0, true), map[], 2)
    ensures Valid(t, EXAMPLE) && Stands(End(t, EXAMPLE), HIGH, map[2 := Call(LOW), 3 := Call(HIGH)], 4)
  {
    t := OneReader(r);
    t := Started(t, LOW, map[2 := Call(LOW)], 3, Deltas(60, 0, 0));
  }

  lemma OneReader(r: Run) returns (t: Run)
    requires Valid(r, EXAMPLE) && Stands(End(r, EXAMPLE), Row(1, 0, 0, true), map[], 2)
    ensures Valid(t, EXAMPLE) && Stands(End(t, EXAMPLE), LOW, map[2 := Call(LOW)], 3)
  {
    t := Started(r, Row(1, 0, 0, true), map[], 2, Deltas(1, 0, 0));
  }

  /**
   * The second leaves the flag to be what it is, and then the first clears it: with no call in flight and
   * no write lost, the flag of the day is clear although a threshold is reached.
   */
  lemma LeftUnflagged() returns (r: Run)
    ensures Valid(r, EXAMPLE) && Stands(End(r, EXAMPLE), HIGH.(degraded := false), map[], 4)
    ensures Soft(HIGH, EXAMPLE)
  {
    var calls := map[2 := Call(LOW), 3 := Call(HIGH)];
    r := FlaggedRun();
    r := TwoReaders(r);
    r := Finished(r, HIGH, calls, 4, 3);
    r := Finished(r, HIGH, calls - {3}, 4, 2);
    assert calls - {3} - {2} == map[];
  }

  /** One hard limit is reached no earlier than its soft fraction. */
  lemma HardIsSoft(used: nat, limit: real, fraction: real)
    requires limit >= 0.0 && fraction <= 1.0 && used as real >= limit
    ensures used as real >= limit * fraction
  {
    assert limit * (1.0 - fraction) >= 0.0;
    assert limit * (1.0 - fraction) == limit - limit * fraction;
  }

  /** The engine is paused no later than writes are refused, if limits are not negative and softFraction <= 1. */
  lemma HardImpliesPaused(row: Row, l: Limits)
    requires l.workers >= 0.0 && l.d1Writes >= 0.0 && l.queueOps >= 0.0 && l.softFraction <= 1.0
    requires Hard(row, l)
    ensures Paused(row, l)
  {
    if row.workers as real >= l.workers {
      HardIsSoft(row.workers, l.workers, l.softFraction);
    } else if row.d1Writes as real >= l.d1Writes {
      HardIsSoft(row.d1Writes, l.d1Writes, l.softFraction);
    } else {
      HardIsSoft(row.queueOps, l.queueOps, l.softFraction);
    }
  }
}
