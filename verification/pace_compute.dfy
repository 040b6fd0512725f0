/**
 * `compute`: from two known quantities derive the others, using
 * speed = 60 / pace, time = distance · pace and their rearrangements.
 *
 * `Solve` is the closed form: settle the pace first (given, from the speed, or
 * time over distance), then fill every missing slot from it. `Compute` is the
 * calculator's loop of eight guarded rules and is proved to reach exactly `Solve`,
 * including its division-by-zero failures.
 */
module PaceCompute {
  import opened Wrappers
  import opened Quantities

  /** Python raises `ZeroDivisionError` on a float division by zero. */
  datatype CalcError = DivisionByZero

  /** The pace `Solve` settles on, or the division by zero met on the way. */
  function SettledPace(s: Slots): (r: Result<Option<real>, CalcError>)
    ensures r.Success? && r.value.Some? && s.pace.None? && s.speed.Some? ==> r.value.value * s.speed.value == 60.0
    ensures r.Success? && r.value.Some? && s.pace.None? && s.speed.None? ==>
      s.distance.Some? && s.time.Some? && r.value.value * s.distance.value == s.time.value
    ensures r.Success? && r.value.None? <==> s.pace.None? && s.speed.None? && (s.distance.None? || s.time.None?)
    ensures s.pace.Some? ==> r == Success(s.pace)
    ensures r.Failure? <==> s.pace.None? && (if s.speed.Some? then s.speed.value == 0.0
                                             else s.distance.Some? && s.time.Some? && s.distance.value == 0.0)
  {
    if s.pace.Some? then Success(s.pace)
    else if s.speed.Some? then
      if s.speed.value == 0.0 then Failure(DivisionByZero) else Success(Some(60.0 / s.speed.value))
    else if s.distance.Some? && s.time.Some? then
      if s.distance.value == 0.0 then Failure(DivisionByZero) else Success(Some(s.time.value / s.distance.value))
    else Success(None)
  }

  /** A division by `p` is needed: the speed is missing, or the distance must come from the time. */
  predicate DividesByPace(s: Slots) {
    s.speed.None? || (s.time.Some? && s.distance.None?)
  }

  /** Every missing slot derived from the pace `p`. */
  function Fill(s: Slots, p: real): (r: Slots)
    requires s.pace.None? || s.pace == Some(p)
    requires p != 0.0 || !DividesByPace(s)
    ensures Extends(s, r) && Complete(r) == (s.distance.Some? || s.time.Some?)
  {
    Slots(
      Some(p),
      if s.distance.Some? then s.distance else if s.time.Some? then Some(s.time.value / p) else None,
      if s.time.Some? then s.time else if s.distance.Some? then Some(s.distance.value * p) else None,
      if s.speed.Some? then s.speed else Some(60.0 / p))
  }

  /** The closed form of `compute`: every slot that can be derived from the settled pace is filled. */
  function Solve(s: Slots): Result<Slots, CalcError> {
    var settled := SettledPace(s);
    if settled.Failure? then Failure(settled.error)
    else if settled.value.None? then Success(s)
    else if settled.value.value == 0.0 && DividesByPace(s) then Failure(DivisionByZero)
    else Success(Fill(s, settled.value.value))
  }

  lemma QuotientNonZero(a: real, b: real)
    requires a != 0.0 && b != 0.0
    ensures a / b != 0.0
  {
    assert a / b * b == a;
  }

  /** Filling from the same pace gives the same slots at every stage between `a` and its fill. */
  lemma FillBetween(a: Slots, b: Slots, p: real)
    requires a.pace.None? || a.pace == Some(p)
    requires b.pace == Some(p)
    requires p != 0.0 || (!DividesByPace(a) && !DividesByPace(b))
    requires Extends(a, b) && Extends(b, Fill(a, p))
    ensures Fill(b, p) == Fill(a, p)
  {
    var fa, fb := Fill(a, p), Fill(b, p);
    if fa.distance.Some? {
      assert fb.distance.value == fa.distance.value;
    }
    if fa.time.Some? {
      assert fb.time.value == fa.time.value;
    }
    assert fb.speed.value == fa.speed.value;
  }

  /** A rule that fills one slot with the value `Solve` gives it leaves `Solve` unchanged. */
  lemma StepKeepsSolve(a: Slots, b: Slots)
    requires SettledPace(a).Success? && SettledPace(a).value.Some?
    requires SettledPace(b) == SettledPace(a)
    requires SettledPace(a).value.value != 0.0 || DividesByPace(a) == DividesByPace(b)
    requires b.pace == SettledPace(a).value
    requires Extends(a, b)
    requires SettledPace(a).value.value != 0.0 || !DividesByPace(a) ==> Extends(b, Fill(a, SettledPace(a).value.value))
    ensures Solve(b) == Solve(a)
  {
    var p := SettledPace(a).value.value;
    if p != 0.0 || !DividesByPace(a) {
      FillBetween(a, b, p);
    }
  }

  // ---- one rule of the loop at a time ------------------------------------------

  /** `speed = 60 / pace`: divides by zero exactly where `Solve` does, and otherwise keeps `Solve`. */
  lemma SpeedFromPace(a: Slots)
    requires a.pace.Some? && a.speed.None?
    ensures a.pace.value == 0.0 ==> Solve(a) == Failure(DivisionByZero)
    ensures a.pace.value != 0.0 ==> Solve(a.(speed := Some(60.0 / a.pace.value))) == Solve(a)
  {
    if a.pace.value != 0.0 {
      StepKeepsSolve(a, a.(speed := Some(60.0 / a.pace.value)));
    }
  }

  /** `pace = 60 / speed`, likewise. */
  lemma PaceFromSpeed(a: Slots)
    requires a.speed.Some? && a.pace.None?
    ensures a.speed.value == 0.0 ==> Solve(a) == Failure(DivisionByZero)
    ensures a.speed.value != 0.0 ==> Solve(a.(pace := Some(60.0 / a.speed.value))) == Solve(a)
  {
    if a.speed.value != 0.0 {
      QuotientNonZero(60.0, a.speed.value);
      StepKeepsSolve(a, a.(pace := Some(60.0 / a.speed.value)));
    }
  }

  /** `time = distance · pace` keeps `Solve`. */
  lemma TimeFromDistance(a: Slots)
    requires a.distance.Some? && a.pace.Some? && a.time.None? && a.speed.Some?
    ensures Solve(a.(time := Some(a.distance.value * a.pace.value))) == Solve(a)
  {
    assert Fill(a, a.pace.value).time.value == a.distance.value * a.pace.value;
    StepKeepsSolve(a, a.(time := Some(a.distance.value * a.pace.value)));
  }

  /** `distance = time / pace`: divides by zero exactly where `Solve` does, and otherwise keeps `Solve`. */
  lemma DistanceFromTime(a: Slots)
    requires a.time.Some? && a.pace.Some? && a.distance.None? && a.speed.Some?
    ensures a.pace.value == 0.0 ==> Solve(a) == Failure(DivisionByZero)
    ensures a.pace.value != 0.0 ==> Solve(a.(distance := Some(a.time.value / a.pace.value))) == Solve(a)
  {
    if a.pace.value != 0.0 {
      StepKeepsSolve(a, a.(distance := Some(a.time.value / a.pace.value)));
    }
  }

  /** `pace = time / distance`, likewise. */
  lemma PaceFromDistanceTime(a: Slots)
    requires a.distance.Some? && a.time.Some? && a.pace.None? && a.speed.None?
    ensures a.distance.value == 0.0 ==> Solve(a) == Failure(DivisionByZero)
    ensures a.distance.value != 0.0 ==> Solve(a.(pace := Some(a.time.value / a.distance.value))) == Solve(a)
  {
    if a.distance.value != 0.0 {
      StepKeepsSolve(a, a.(pace := Some(a.time.value / a.distance.value)));
    }
  }

  /** When no rule applies, `Solve` has nothing left to fill. */
  lemma NothingToFill(a: Slots)
    requires !(a.pace.Some? && a.speed.None?) && !(a.speed.Some? && a.pace.None?)
    requires !(a.distance.Some? && a.pace.Some? && a.time.None?)
    requires !(a.time.Some? && a.pace.Some? && a.distance.None?)
    requires !(a.distance.Some? && a.time.Some? && a.pace.None?)
    ensures Solve(a) == Success(a)
  {
  }

  /** `compute(pace, distance, time_min, speed)`. */
  method Compute(s: Slots) returns (r: Result<Slots, CalcError>)
    ensures Count(s) < 2 ==> r == Success(s)
    ensures Count(s) >= 2 ==> r == Solve(s)
  {
    if Count(s) < 2 {
      return Success(s);
    }
    var pace, distance, time, speed := s.pace, s.distance, s.time, s.speed;
    while true
      invariant Solve(Slots(pace, distance, time, speed)) == Solve(s)
      decreases Unfilled(Slots(pace, distance, time, speed))
    {
      ghost var before := Slots(pace, distance, time, speed);
      if pace.Some? && speed.None? {
        SpeedFromPace(before);
        if pace.value == 0.0 {
          return Failure(DivisionByZero);
        }
        speed := Some(60.0 / pace.value);
        continue;
      }
      if speed.Some? && pace.None? {
        PaceFromSpeed(before);
        if speed.value == 0.0 {
          return Failure(DivisionByZero);
        }
        pace := Some(60.0 / speed.value);
        continue;
      }
      if distance.Some? && pace.Some? && time.None? {
        TimeFromDistance(before);
        assert distance.value * pace.value == before.distance.value * before.pace.value;
        time := Some(distance.value * pace.value);
        continue;
      }
      if time.Some? && pace.Some? && distance.None? {
        DistanceFromTime(before);
        if pace.value == 0.0 {
          return Failure(DivisionByZero);
        }
        distance := Some(time.value / pace.value);
        continue;
      }
      if distance.Some? && time.Some? && pace.None? {
        PaceFromDistanceTime(before);
        if distance.value == 0.0 {
          return Failure(DivisionByZero);
        }
        pace := Some(time.value / distance.value);
        continue;
      }
      // speed = distance / (time / 60): never reached, the pace rules fire first
      if distance.Some? && time.Some? && speed.None? {
        assert false;
      }
      // distance = speed · time / 60: never reached, the pace rules fire first
      if speed.Some? && time.Some? && distance.None? {
        assert false;
      }
      // time = distance / speed · 60: never reached, the pace rules fire first
      if speed.Some? && distance.Some? && time.None? {
        assert false;
      }
      NothingToFill(before);
      break;
    }
    r := Success(Slots(pace, distance, time, speed));
  }

  // ---- properties of the closed form ------------------------------------------------

  /** All four slots filled and related by speed · pace = 60 and time = distance · pace. */
  predicate Consistent(r: Slots) {
    Complete(r) && r.speed.value * r.pace.value == 60.0 && r.time.value == r.distance.value * r.pace.value
  }

  /** The given values are kept; the result is complete exactly when the input is not pace and speed alone. */
  lemma SolveCompletes(s: Slots)
    requires Count(s) >= 2 && Solve(s).Success?
    ensures Extends(s, Solve(s).value)
    ensures Complete(Solve(s).value) <==> !PaceSpeedOnly(s)
    ensures PaceSpeedOnly(s) ==> Solve(s).value == s
  {
  }

  lemma ProductNonZero(a: real, b: real)
    requires a != 0.0 && b != 0.0
    ensures a * b != 0.0
  {
  }

  /** From exactly two independent quantities the four results obey both relations. */
  lemma SolveConsistent(s: Slots)
    requires Count(s) == 2 && !PaceSpeedOnly(s) && Solve(s).Success?
    ensures Consistent(Solve(s).value)
  {
    var p := SettledPace(s).value.value;
    assert p != 0.0;
    FillConsistent(s, p);
  }

  /** Filling from a non-zero pace that agrees with the given values gives a consistent result. */
  lemma FillConsistent(s: Slots, p: real)
    requires s.pace.None? || s.pace == Some(p)
    requires p != 0.0 && (s.distance.Some? || s.time.Some?)
    requires s.speed.Some? ==> s.speed.value * p == 60.0
    requires s.distance.Some? && s.time.Some? ==> s.time.value == s.distance.value * p
    ensures Consistent(Fill(s, p))
  {
    var r := Fill(s, p);
    if s.speed.None? {
      assert r.speed.value * p == 60.0 / p * p;
    }
    if s.distance.None? {
      assert r.distance.value * p == s.time.value / p * p;
    }
  }

  /** With no zero among the given values there is no division by zero, and no derived value is zero. */
  lemma SolveNonZero(s: Slots)
    requires NonZero(s)
    ensures Solve(s).Success? && NonZero(Solve(s).value)
  {
    if s.pace.None? && s.speed.Some? {
      QuotientNonZero(60.0, s.speed.value);
    } else if s.pace.None? && s.distance.Some? && s.time.Some? {
      QuotientNonZero(s.time.value, s.distance.value);
    }
    var settled := SettledPace(s);
    if settled.value.Some? {
      var p := settled.value.value;
      var r := Fill(s, p);
      QuotientNonZero(60.0, p);
      if s.time.Some? {
        QuotientNonZero(s.time.value, p);
      }
      if s.distance.Some? {
        ProductNonZero(s.distance.value, p);
      }
      assert NonZeroOpt(r.distance);
    }
  }

  /** A division by zero in the source's arithmetic: a zero pace or speed to invert, a zero distance to divide by. */
  lemma SolveZeroDivisors(s: Slots)
    ensures s.pace == Some(0.0) && s.speed.None? ==> Solve(s).Failure?
    ensures s.pace.None? && s.speed == Some(0.0) ==> Solve(s).Failure?
    ensures s.pace.None? && s.speed.None? && s.distance == Some(0.0) && s.time.Some? ==> Solve(s).Failure?
  {
  }

  /** Solving what was solved changes nothing: `compute` applied to its own result is the identity. */
  lemma SolveIdempotent(s: Slots)
    requires Solve(s).Success?
    ensures Solve(Solve(s).value) == Solve(s)
  {
    var settled := SettledPace(s);
    if settled.value.Some? {
      var p := settled.value.value;
      var r := Fill(s, p);
      assert SettledPace(r) == Success(Some(p));
      FillBetween(s, r, p);
    }
  }

  /** The slots of `r` selected by the four flags, the others emptied. */
  function Keep(r: Slots, pace: bool, distance: bool, time: bool, speed: bool): Slots {
    Slots(if pace then r.pace else None, if distance then r.distance else None,
          if time then r.time else None, if speed then r.speed else None)
  }

  /** Slot-wise equality, stated on the values so the solver need not look through `Some`. */
  lemma SameSlots(a: Slots, b: Slots)
    requires Complete(a) && Complete(b)
    requires a.pace.value == b.pace.value && a.distance.value == b.distance.value
    requires a.time.value == b.time.value && a.speed.value == b.speed.value
    ensures a == b
  {
  }

  lemma RecoverFromPaceDistance(r: Slots)
    requires Consistent(r) && NonZero(r)
    ensures Solve(Slots(r.pace, r.distance, None, None)) == Success(r)
  {
    var s := Slots(r.pace, r.distance, None, None);
    var p := r.pace.value;
    assert 60.0 / p == r.speed.value;
    SameSlots(Fill(s, p), r);
  }

  lemma RecoverFromPaceTime(r: Slots)
    requires Consistent(r) && NonZero(r)
    ensures Solve(Slots(r.pace, None, r.time, None)) == Success(r)
  {
    var s := Slots(r.pace, None, r.time, None);
    var p := r.pace.value;
    assert 60.0 / p == r.speed.value;
    assert r.time.value / p == r.distance.value;
    SameSlots(Fill(s, p), r);
  }

  lemma RecoverFromDistanceTime(r: Slots)
    requires Consistent(r) && NonZero(r)
    ensures Solve(Slots(None, r.distance, r.time, None)) == Success(r)
  {
    var s := Slots(None, r.distance, r.time, None);
    var p := r.pace.value;
    assert r.time.value / r.distance.value == p;
    assert SettledPace(s) == Success(Some(p));
    assert 60.0 / p == r.speed.value;
    SameSlots(Fill(s, p), r);
  }

  lemma RecoverFromDistanceSpeed(r: Slots)
    requires Consistent(r) && NonZero(r)
    ensures Solve(Slots(None, r.distance, None, r.speed)) == Success(r)
  {
    var s := Slots(None, r.distance, None, r.speed);
    var p := r.pace.value;
    assert 60.0 / r.speed.value == p;
    assert SettledPace(s) == Success(Some(p));
    SameSlots(Fill(s, p), r);
  }

  lemma RecoverFromTimeSpeed(r: Slots)
    requires Consistent(r) && NonZero(r)
    ensures Solve(Slots(None, None, r.time, r.speed)) == Success(r)
  {
    var s := Slots(None, None, r.time, r.speed);
    var p := r.pace.value;
    assert 60.0 / r.speed.value == p;
    assert SettledPace(s) == Success(Some(p));
    assert r.time.value / p == r.distance.value;
    SameSlots(Fill(s, p), r);
  }

  /**
   * Round-trip closure: from any two independent quantities of a consistent result with
   * no zero, solving again reproduces the whole result.
   */
  lemma SolveRecovers(r: Slots, pace: bool, distance: bool, time: bool, speed: bool)
    requires Consistent(r) && NonZero(r)
    requires var s := Keep(r, pace, distance, time, speed); Count(s) == 2 && !PaceSpeedOnly(s)
    ensures Solve(Keep(r, pace, distance, time, speed)) == Success(r)
  {
    if pace && distance {
      RecoverFromPaceDistance(r);
    } else if pace && time {
      RecoverFromPaceTime(r);
    } else if distance && time {
      RecoverFromDistanceTime(r);
    } else if distance && speed {
      RecoverFromDistanceSpeed(r);
    } else {
      RecoverFromTimeSpeed(r);
    }
  }
}
