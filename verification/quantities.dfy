/**
 * The four slots of the pace calculator: pace (min/km), distance (km),
 * time (min) and speed (km/h), each filled or empty.
 */
module Quantities {
  import opened Wrappers

  datatype Slots = Slots(pace: Option<real>, distance: Option<real>, time: Option<real>, speed: Option<real>)

  const Empty := Slots(None, None, None, None)

  function Filled(o: Option<real>): nat {
    if o.Some? then 1 else 0
  }

  /** The number of filled slots: `sum(x is not None for x in (...))`. */
  function Count(s: Slots): nat {
    Filled(s.pace) + Filled(s.distance) + Filled(s.time) + Filled(s.speed)
  }

  function Unfilled(s: Slots): nat {
    4 - Count(s)
  }

  predicate Complete(s: Slots) {
    s.pace.Some? && s.distance.Some? && s.time.Some? && s.speed.Some?
  }

  /** Pace and speed are known, distance and time are not. */
  predicate PaceSpeedOnly(s: Slots) {
    s.pace.Some? && s.speed.Some? && s.distance.None? && s.time.None?
  }

  /** `b` keeps every value of `a` and may fill more slots. */
  predicate ExtendsOpt(a: Option<real>, b: Option<real>) {
    a.Some? ==> b == a
  }

  predicate Extends(a: Slots, b: Slots) {
    && ExtendsOpt(a.pace, b.pace)
    && ExtendsOpt(a.distance, b.distance)
    && ExtendsOpt(a.time, b.time)
    && ExtendsOpt(a.speed, b.speed)
  }

  predicate NonZeroOpt(o: Option<real>) {
    o.Some? ==> o.value != 0.0
  }

  /** No known value is zero. */
  predicate NonZero(s: Slots) {
    NonZeroOpt(s.pace) && NonZeroOpt(s.distance) && NonZeroOpt(s.time) && NonZeroOpt(s.speed)
  }

  lemma ExtendsTransitive(a: Slots, b: Slots, c: Slots)
    requires Extends(a, b) && Extends(b, c)
    ensures Extends(a, c)
  {
  }
}
