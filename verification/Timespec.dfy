/** Exact time arithmetic of the scheduler: a `struct timespec` and the two macros that
    compare and advance it. Seconds are unbounded integers here. */
module Timespec {

  const NANOS := 1_000_000_000

  datatype Timespec = Timespec(sec: int, nsec: int) {
    /** The form every clock reading has: the nanoseconds are a fraction of a second. */
    predicate Normal() {
      0 <= nsec < NANOS
    }

    /** The form of a duration that keeps every normal time normal (see IntervalIff). */
    predicate Interval() {
      nsec >= 0
    }

    /** The instant (or duration) as a number of nanoseconds. */
    function Total(): int {
      sec * NANOS + nsec
    }
  }

  /** Division as C does it: the quotient is truncated toward zero. */
  function TruncDiv(a: int, b: int): int
    requires b > 0
  {
    if a >= 0 then a / b else -((-a) / b)
  }

  /** The remainder that goes with TruncDiv; it has the sign of the dividend. */
  function TruncMod(a: int, b: int): int
    requires b > 0
  {
    if a >= 0 then a % b else -((-a) % b)
  }

  /** `tm_ge`: a is at or after b. */
  predicate TmGe(a: Timespec, b: Timespec) {
    if a.sec > b.sec then true
    else if a.sec < b.sec then false
    else a.nsec >= b.nsec
  }

  /** `tm_incr`: the new value of its first argument. */
  function TmIncr(v: Timespec, i: Timespec): Timespec {
    var nsecs := v.nsec + i.nsec;
    Timespec(v.sec + i.sec + TruncDiv(nsecs, NANOS), TruncMod(nsecs, NANOS))
  }

  /** The conversion of `schedule`: milliseconds to a timespec. */
  function FromMs(ms: int): Timespec {
    Timespec(TruncDiv(ms, 1000), TruncMod(ms, 1000) * 1_000_000)
  }

  /** The re-timing of a popped node: advance by one interval, and if that time
      has passed too, start again from the clock reading. */
  function Retime(next: Timespec, interval: Timespec, now: Timespec): Timespec {
    var advanced := TmIncr(next, interval);
    if TmGe(now, advanced) then TmIncr(now, interval) else advanced
  }

  lemma TruncDivMod(a: int, b: int)
    requires b > 0
    ensures TruncDiv(a, b) * b + TruncMod(a, b) == a
    ensures -b < TruncMod(a, b) < b
    ensures a >= 0 ==> TruncMod(a, b) >= 0
  {
    if a < 0 {
      assert -a == (-a) / b * b + (-a) % b;
      assert -((-a) / b) * b == -((-a) / b * b);
    }
  }

  /** `tm_incr` adds durations exactly, whatever its arguments; on normal values the
      intermediate sum of nanoseconds fits a 32-bit long. */
  lemma TmIncrExact(v: Timespec, i: Timespec)
    ensures TmIncr(v, i).Total() == v.Total() + i.Total()
    ensures v.Normal() && i.Interval() ==> TmIncr(v, i).Normal()
    ensures v.Normal() && i.Normal() ==> 0 <= v.nsec + i.nsec < 0x8000_0000
  {
    TruncDivMod(v.nsec + i.nsec, NANOS);
  }

  /** Advancing keeps all normal times normal if and only if the nanoseconds of the duration are not negative. */
  lemma IntervalIff(i: Timespec)
    ensures (forall v: Timespec :: v.Normal() ==> TmIncr(v, i).Normal()) <==> i.Interval()
  {
    if i.Interval() {
      forall v: Timespec | v.Normal()
        ensures TmIncr(v, i).Normal()
      {
        TmIncrExact(v, i);
      }
    } else {
      var v := Timespec(0, if i.nsec % NANOS == 0 then 1 else 0);
      assert v.Normal() && !TmIncr(v, i).Normal();
    }
  }

  /** On normal values `tm_ge` is the order of the instants. */
  lemma TmGeIsOrder(a: Timespec, b: Timespec)
    requires a.Normal() && b.Normal()
    ensures TmGe(a, b) <==> a.Total() >= b.Total()
  {
  }

  /** `tm_ge` compares v with every normal time as the instants are ordered. */
  ghost predicate Ordered(v: Timespec) {
    forall u: Timespec :: u.Normal() ==>
                            && (TmGe(u, v) <==> u.Total() >= v.Total())
                            && (TmGe(v, u) <==> v.Total() >= u.Total())
  }

  lemma OrderedIff(v: Timespec)
    ensures Ordered(v) <==> v.Normal()
  {
    if v.nsec < 0 {
      var before := Timespec(v.sec - 1, NANOS - 1);
      assert before.Normal() && before.Total() >= v.Total() && !TmGe(before, v);
    } else if v.nsec >= NANOS {
      var after := Timespec(v.sec + 1, 0);
      assert after.Normal() && v.Total() >= after.Total() && !TmGe(v, after);
    } else {
      forall u: Timespec | u.Normal()
        ensures TmGe(u, v) <==> u.Total() >= v.Total()
        ensures TmGe(v, u) <==> v.Total() >= u.Total()
      {
        TmGeIsOrder(u, v);
        TmGeIsOrder(v, u);
      }
    }
  }

  /** `schedule` asks for exactly the given number of milliseconds, and hands on a timespec that keeps times
      normal if and only if that number is not negative or is a whole number of seconds. */
  lemma FromMsExact(ms: int)
    ensures FromMs(ms).Total() == ms * 1_000_000
    ensures FromMs(ms).Normal() <==> ms >= 0 || ms % 1000 == 0
    ensures FromMs(ms).Interval() <==> ms >= 0 || ms % 1000 == 0
  {
    TruncDivMod(ms, 1000);
  }

  /** The times that `schedule` computes are compared in the order of the instants, at every clock reading, if and
      only if the number of milliseconds is not negative or is a whole number of seconds. */
  lemma ScheduleOrderedIff(ms: int)
    ensures (forall clock: Timespec :: clock.Normal() ==> Ordered(TmIncr(clock, FromMs(ms)))) <==>
            ms >= 0 || ms % 1000 == 0
  {
    FromMsExact(ms);
    IntervalIff(FromMs(ms));
    forall clock: Timespec
      ensures Ordered(TmIncr(clock, FromMs(ms))) <==> TmIncr(clock, FromMs(ms)).Normal()
    {
      OrderedIff(TmIncr(clock, FromMs(ms)));
    }
  }

  /** Re-timing a due node keeps the form, never schedules it further than one interval
      past the clock, and puts it in the future exactly when its interval is positive. */
  lemma RetimeExact(next: Timespec, interval: Timespec, now: Timespec)
    requires next.Normal() && interval.Interval() && now.Normal()
    requires TmGe(now, next)
    ensures Retime(next, interval, now).Normal()
    ensures Retime(next, interval, now).Total() ==
            if now.Total() >= next.Total() + interval.Total() then now.Total() + interval.Total()
            else next.Total() + interval.Total()
    ensures Retime(next, interval, now).Total() <= now.Total() + interval.Total()
    ensures interval.Total() > 0 <==> now.Total() < Retime(next, interval, now).Total()
  {
    TmIncrExact(next, interval);
    TmIncrExact(now, interval);
    TmGeIsOrder(now, TmIncr(next, interval));
    TmGeIsOrder(now, next);
  }
}
