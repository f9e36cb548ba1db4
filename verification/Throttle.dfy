/**
 * The concurrency governor for Graph calls: a semaphore whose capacity shrinks by parking permits,
 * a doubly bounded sliding window of outcomes, and the controller that ties them together.
 *
 * Times are the reals of a monotonic clock, and rates are compared by cross-multiplication.
 */
module Throttle {
  import opened Wrappers

  function Max(a: int, b: int): int { if a < b then b else a }
  function Min(a: int, b: int): int { if a < b then a else b }

  // ----- the adaptive semaphore -----

  /** `target` is set while a shrink holds the resize lock and still waits for permits. */
  datatype Sem = Sem(max: int, free: int, parked: int, held: int, effective: int, target: Option<int>)

  datatype SemStep =
    | Acquire                // a caller enters its slot
    | Release                // a caller leaves its slot
    | Begin(target: int)     // set_effective takes the lock: grows at once, or starts to shrink
    | Park                   // the shrink obtains one more permit
    | Finish                 // the shrink has them all

  function Fresh(capacity: int): Sem {
    var max := Max(1, capacity);
    Sem(max, max, 0, 0, max, None)
  }

  function Clamp(s: Sem, target: int): int {
    Max(1, Min(s.max, target))
  }

  predicate CanStep(s: Sem, e: SemStep) {
    match e
    case Acquire => s.free > 0
    case Release => s.held > 0
    case Begin(_) => s.target.None?
    case Park => s.target.Some? && s.parked < s.max - s.target.value && s.free > 0
    case Finish => s.target.Some? && s.parked == s.max - s.target.value
  }

  function Resized(s: Sem, target: int): Sem {
    var t := Clamp(s, target);
    if t < s.effective then s.(target := Some(t))
    else
      var n := Min(s.parked, t - s.effective);
      s.(free := s.free + n, parked := s.parked - n, effective := s.effective + n)
  }

  function Step(s: Sem, e: SemStep): Sem
    requires CanStep(s, e)
  {
    match e
    case Acquire => s.(free := s.free - 1, held := s.held + 1)
    case Release => s.(free := s.free + 1, held := s.held - 1)
    case Begin(target) => Resized(s, target)
    case Park => s.(free := s.free - 1, parked := s.parked + 1)
    case Finish => s.(effective := s.target.value, target := None)
  }

  predicate SemInv(s: Sem) {
    && s.free >= 0 && s.parked >= 0 && s.held >= 0
    && s.free + s.parked + s.held == s.max
    && 1 <= s.effective <= s.max
    && s.held <= s.effective
    && (s.target.None? ==> s.parked + s.effective == s.max)
    && (s.target.Some? ==>
          1 <= s.target.value < s.effective && s.max - s.effective <= s.parked <= s.max - s.target.value)
  }

  predicate Steps(s: Sem, es: seq<SemStep>)
    decreases |es|
  {
    es == [] || (CanStep(s, es[0]) && Steps(Step(s, es[0]), es[1..]))
  }

  function AfterSteps(s: Sem, es: seq<SemStep>): Sem
    requires Steps(s, es)
    decreases |es|
  {
    if es == [] then s else AfterSteps(Step(s, es[0]), es[1..])
  }

  lemma {:induction false} StepsKeepInv(s: Sem, es: seq<SemStep>)
    requires SemInv(s) && Steps(s, es)
    ensures SemInv(AfterSteps(s, es))
    decreases |es|
  {
    if es != [] {
      StepsKeepInv(Step(s, es[0]), es[1..]);
    }
  }

  /** In every interleaving permits are conserved and no more are held than the effective capacity. */
  lemma PermitsConserved(capacity: int, es: seq<SemStep>)
    requires Steps(Fresh(capacity), es)
    ensures
      var s := AfterSteps(Fresh(capacity), es);
      && s.max == Max(1, capacity) && 0 <= s.free && 0 <= s.parked && 0 <= s.held
      && s.free + s.parked + s.held == s.max
      && s.held <= s.effective
      && 1 <= s.effective <= s.max
      && (s.target.None? ==> s.parked + s.effective == s.max)
  {
    StepsKeepInv(Fresh(capacity), es);
    StepsKeepMax(Fresh(capacity), es);
  }

  lemma {:induction false} StepsKeepMax(s: Sem, es: seq<SemStep>)
    requires Steps(s, es)
    ensures AfterSteps(s, es).max == s.max
    decreases |es|
  {
    if es != [] {
      StepsKeepMax(Step(s, es[0]), es[1..]);
    }
  }

  /** A shrink runs on by itself as long as permits are free. */
  function ParkAll(s: Sem): (t: Sem)
    requires SemInv(s) && s.target.Some?
    ensures SemInv(t)
    decreases s.free
  {
    if CanStep(s, Finish) then Step(s, Finish)
    else if CanStep(s, Park) then ParkAll(Step(s, Park))
    else s
  }

  /**
   * `set_effective` up to its return or to the point where it blocks: it gets through exactly if no
   * more permits are held than the capacity it goes to, and otherwise has taken every free permit.
   */
  function SetEffective(s: Sem, target: int): (t: Sem)
    requires SemInv(s) && s.target.None?
    ensures SemInv(t)
  {
    var goal := Clamp(s, target);
    if s.held <= goal then s.(free := goal - s.held, parked := s.max - goal, effective := goal)
    else s.(free := 0, parked := s.max - s.held, target := Some(goal))
  }

  lemma {:induction false} ParkAllExact(s: Sem)
    requires SemInv(s) && s.target.Some?
    ensures
      var goal := s.target.value;
      ParkAll(s) ==
        if s.held <= goal then s.(free := goal - s.held, parked := s.max - goal, effective := goal, target := None)
        else s.(free := 0, parked := s.max - s.held)
    decreases s.free
  {
    if !CanStep(s, Finish) && CanStep(s, Park) {
      ParkAllExact(Step(s, Park));
    }
  }

  /** That is where the single steps lead, and once blocked only a release lets it go on. */
  lemma SetEffectiveExact(s: Sem, target: int)
    requires SemInv(s) && s.target.None?
    ensures
      var t := SetEffective(s, target);
      var r := Step(s, Begin(target));
      && t == (if r.target.Some? then ParkAll(r) else r)
      && (t.target.Some? ==> forall e | CanStep(t, e) :: e == Release)
  {
    var r := Resized(s, target);
    if r.target.Some? {
      ParkAllExact(r);
    }
  }

  class AdaptiveSemaphore {
    const max: int
    var free: int            // value of the underlying semaphore
    var parked: int
    var effective: int
    var target: Option<int>  // the lock is held by a blocked shrink
    ghost var held: int

    ghost function St(): Sem
      reads this
    {
      Sem(max, free, parked, held, effective, target)
    }

    constructor (capacity: int)
      ensures St() == Fresh(capacity) && SemInv(St())
    {
      var m := if capacity < 1 then 1 else capacity;
      max, free, effective := m, m, m;
      parked, held, target := 0, 0, None;
    }

    /** Entering a slot; false if the caller has to wait. */
    method Enter() returns (ok: bool)
      requires SemInv(St())
      modifies this
      ensures SemInv(St()) && ok == CanStep(old(St()), Acquire)
      ensures St() == if ok then Step(old(St()), Acquire) else old(St())
    {
      ok := free > 0;
      if ok {
        free := free - 1;
        held := held + 1;
      }
    }

    method Leave()
      requires SemInv(St()) && held > 0
      modifies this
      ensures SemInv(St()) && St() == Step(old(St()), Release)
    {
      free := free + 1;
      held := held - 1;
    }

    /** Returns whether it got through; if not, `Resume` goes on after a release. */
    method Set(requested: int) returns (done: bool)
      requires SemInv(St()) && target.None?
      modifies this
      ensures SemInv(St()) && St() == SetEffective(old(St()), requested) && done == target.None?
    {
      var goal := Max(1, Min(max, requested));
      SetEffectiveExact(St(), requested);
      if goal < effective {
        target := Some(goal);
        done := Resume();
      } else if goal > effective {
        var n := Min(parked, goal - effective);
        free := free + n;
        parked := parked - n;
        effective := effective + n;
        done := true;
      } else {
        done := true;
      }
    }

    method Resume() returns (done: bool)
      requires SemInv(St()) && target.Some?
      modifies this
      ensures SemInv(St()) && St() == ParkAll(old(St())) && done == target.None?
    {
      while parked < max - target.value && free > 0
        invariant target.Some? && target == old(target) && SemInv(St())
        invariant ParkAll(St()) == ParkAll(old(St()))
        decreases free
      {
        free := free - 1;
        parked := parked + 1;
      }
      done := parked == max - target.value;
      if done {
        effective := target.value;
        target := None;
      }
    }
  }
}
