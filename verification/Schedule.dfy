/**
 Interval and daily schedules (backend/schedule/next.go).  Instants are nanoseconds;
 durations are Go's int64 nanoseconds, so that time differences saturate and
 products wrap around.
 */
module Schedule {
  import opened Common

  const MINUTE := 60_000_000_000
  const HOUR := 60 * MINUTE
  const DAY := 24 * HOUR

  // ------------------------------------------------------------------------- interval

  // What one turn of the loop adds.
  function Stride(now: int, prior: int, interval: int): int
    requires interval > 0
  {
    Wrap64((Sub(now, prior) / interval + 1) * interval)
  }

  // The product fits a duration: roughly, the prior run is less than 292 years ago.
  predicate InReach(now: int, prior: int, interval: int)
    requires interval > 0
  {
    (Sub(now, prior) / interval + 1) * interval <= MAX_DURATION
  }

  // The loop, for as many turns as `turns` allows.
  function Turns(now: int, prior: int, interval: int, turns: nat): int
    requires interval > 0
    decreases turns
  {
    if turns == 0 || prior > now then prior else Turns(now, prior + Stride(now, prior, interval), interval, turns - 1)
  }

  lemma QuotientBounds(d: int, interval: int)
    requires d >= 0 && interval > 0
    ensures d < (d / interval + 1) * interval <= d + interval
  {
    assert d == d / interval * interval + d % interval;
  }

  lemma Scaled(a: int, b: int, interval: int)
    requires a <= b && interval > 0
    ensures interval * a <= interval * b
  {
    assert interval * (b - a) >= 0;
  }

  lemma MultipleOf(n: int, interval: int)
    requires interval > 0
    ensures (n * interval) % interval == 0
  {
    var q := n * interval / interval;
    assert n * interval == interval * q + n * interval % interval;
    if q < n { Scaled(q + 1, n, interval); }
    if q > n { Scaled(n + 1, q, interval); }
  }

  /** Within reach one turn is enough: it lands after now, by at most one interval, and
      a whole number of intervals after the prior run. */
  lemma StrideLands(now: int, prior: int, interval: int)
    requires 0 < interval <= MAX_DURATION && prior <= now && InReach(now, prior, interval)
    ensures var next := prior + Stride(now, prior, interval);
            next > now && next - interval <= now && (next - prior) % interval == 0
  {
    var d := Sub(now, prior);
    QuotientBounds(d, interval);
    assert d == now - prior;
    assert Stride(now, prior, interval) == (d / interval + 1) * interval;
    MultipleOf(d / interval + 1, interval);
  }

  lemma QuotientGrows(d: int, e: int, interval: int)
    requires 0 <= d <= e && interval > 0
    ensures (d / interval + 1) * interval <= (e / interval + 1) * interval
  {
    var p, q := d / interval, e / interval;
    assert d == interval * p + d % interval;
    assert e == interval * q + e % interval;
    if p > q { Scaled(q + 1, p, interval); }
    Scaled(p + 1, q + 1, interval);
  }

  // The longer ago, the more out of reach.
  lemma StillOutOfReach(now: int, prior: int, earlier: int, interval: int)
    requires interval > 0 && earlier <= prior <= now && !InReach(now, prior, interval)
    ensures !InReach(now, earlier, interval)
  {
    var d, e := Sub(now, prior), Sub(now, earlier);
    assert d <= e;
    QuotientGrows(d, e, interval);
  }

  // Out of reach the product wraps around and the stride goes backwards.
  lemma StrideGoesBack(now: int, prior: int, interval: int)
    requires 0 < interval <= MAX_DURATION && prior <= now && !InReach(now, prior, interval)
    ensures Stride(now, prior, interval) < 0
    ensures var earlier := prior + Stride(now, prior, interval); earlier <= now && !InReach(now, earlier, interval)
  {
    var d := Sub(now, prior);
    QuotientBounds(d, interval);
    var product := (d / interval + 1) * interval;
    assert MAX_DURATION < product <= MAX_DURATION + interval;
    assert Wrap64(product) == product - TWO64;
    var earlier := prior + Stride(now, prior, interval);
    assert earlier < prior;
    StillOutOfReach(now, prior, earlier, interval);
  }

  lemma {:induction false} NeverLands(now: int, prior: int, interval: int, turns: nat)
    requires 0 < interval <= MAX_DURATION && prior <= now && !InReach(now, prior, interval)
    ensures Turns(now, prior, interval, turns) <= now
    decreases turns
  {
    if turns > 0 {
      StrideGoesBack(now, prior, interval);
      NeverLands(now, prior + Stride(now, prior, interval), interval, turns - 1);
    }
  }

  /** The loop ends exactly if the prior run is in the future or within reach;
      otherwise every turn goes further back and it never ends. */
  lemma EndsIff(now: int, prior: int, interval: int)
    requires 0 < interval <= MAX_DURATION
    ensures (exists turns: nat :: Turns(now, prior, interval, turns) > now)
            <==> prior > now || InReach(now, prior, interval)
  {
    if prior > now {
      assert Turns(now, prior, interval, 0) > now;
    } else if InReach(now, prior, interval) {
      StrideLands(now, prior, interval);
      assert Turns(now, prior + Stride(now, prior, interval), interval, 0) > now;
      assert Turns(now, prior, interval, 1) > now;
    } else {
      forall turns: nat
        ensures Turns(now, prior, interval, turns) <= now
      {
        NeverLands(now, prior, interval, turns);
      }
    }
  }

  /** A prior run 300 years ago and an hourly interval: the schedule never answers. */
  lemma CenturiesAgoNeverEnds(now: int, turns: nat)
    ensures Turns(now, now - 300 * 365 * DAY, HOUR, turns) <= now
  {
    var prior := now - 300 * 365 * DAY;
    assert Sub(now, prior) == MAX_DURATION;
    QuotientBounds(MAX_DURATION, HOUR);
    NeverLands(now, prior, HOUR, turns);
  }

  // The run that an interval schedule should give: the first one after now in steps
  // of the interval from the prior run.
  predicate IsNextRun(now: int, prior: int, interval: int, next: int)
    requires interval > 0
  {
    && next > now && (next - prior) % interval == 0
    && (prior > now ==> next == prior) && (prior <= now ==> next - interval <= now)
  }

  /** That is the prior run if it is still ahead, else the least time after now that is
      in step with it. */
  lemma NextRunIsLeast(now: int, prior: int, interval: int, next: int, other: int)
    requires interval > 0 && IsNextRun(now, prior, interval, next)
    ensures next > now && (prior > now ==> next == prior) && (next - prior) % interval == 0
    ensures prior <= now && other > now && (other - prior) % interval == 0 ==> next <= other
  {
    if prior <= now && other > now && (other - prior) % interval == 0 {
      var a, b := (next - prior) / interval, (other - prior) / interval;
      if b < a { Scaled(b + 1, a, interval); } else { Scaled(a, b, interval); }
      assert next - prior == interval * a && other - prior == interval * b;
    }
  }

  /** Next for an interval schedule; `requires` is what it needs to end at all. */
  method NextInterval(now: int, interval: int, prior: Option<int>, minimum: int) returns (next: int)
    requires 0 < minimum <= MAX_DURATION && interval <= MAX_DURATION
    requires prior.Some? ==> prior.value > now || InReach(now, prior.value, Max(interval, minimum))
    ensures prior.None? ==> next == now + Max(interval, minimum)
    ensures prior.Some? ==> IsNextRun(now, prior.value, Max(interval, minimum), next)
  {
    var step := interval;
    if step < minimum { step := minimum; }
    if prior.None? { return now + step; }
    next := prior.value;
    while next <= now
      invariant next == prior.value || IsNextRun(now, prior.value, step, next)
      decreases now - next
    {
      StrideLands(now, next, step);
      next := next + Stride(now, next, step);
    }
    assert (prior.value - prior.value) % step == 0;
  }

  // ---------------------------------------------------------------------------- daily

  // A time zone: which local day an instant falls on, the minute of that day, and the
  // instant that the zone gives for the start of a day.
  datatype Zone = Zone(day: int -> int, minute: int -> int, midnight: int -> int)

  predicate OnTheMinute(start: int, t: int) {
    (t - start) % MINUTE == 0
  }

  // The minutes that the loop looks at for one day.
  predicate Candidate(zone: Zone, day: int, t: int) {
    var start := zone.midnight(day) - 3 * HOUR;
    start <= t < start + 32 * HOUR && OnTheMinute(start, t) && zone.day(t) == day
  }

  ghost predicate FirstAt(zone: Zone, day: int, target: int, t: int) {
    Candidate(zone, day, t) && zone.minute(t) == target
    && forall s :: Candidate(zone, day, s) && zone.minute(s) == target ==> t <= s
  }

  ghost predicate FirstLater(zone: Zone, day: int, target: int, t: int) {
    Candidate(zone, day, t) && zone.minute(t) >= target
    && forall s :: Candidate(zone, day, s) && zone.minute(s) >= target ==> t <= s
  }

  /** The run of a day: its first target minute, or the first later minute if the
      target does not exist that day, or nothing. */
  ghost predicate RunOf(zone: Zone, day: int, target: int, run: Option<int>) {
    if exists t :: Candidate(zone, day, t) && zone.minute(t) == target
    then run.Some? && FirstAt(zone, day, target, run.value)
    else if exists t :: Candidate(zone, day, t) && zone.minute(t) >= target
    then run.Some? && FirstLater(zone, day, target, run.value)
    else run.None?
  }

  lemma RunIsUnique(zone: Zone, day: int, target: int, a: Option<int>, b: Option<int>)
    requires RunOf(zone, day, target, a) && RunOf(zone, day, target, b)
    ensures a == b
  {
  }

  // No minute lies strictly between two consecutive ones.
  lemma Between(start: int, candidate: int)
    requires OnTheMinute(start, candidate)
    ensures OnTheMinute(start, candidate + MINUTE)
    ensures forall s :: candidate < s < candidate + MINUTE ==> !OnTheMinute(start, s)
  {
  }

  method DayRun(zone: Zone, day: int, target: int) returns (run: Option<int>)
    ensures RunOf(zone, day, target, run)
  {
    var exact: Option<int>, fallback: Option<int> := None, None;
    var start := zone.midnight(day) - 3 * HOUR;
    var candidate := start;
    while candidate < start + 32 * HOUR
      invariant start <= candidate && OnTheMinute(start, candidate)
      invariant exact.Some? ==> FirstAt(zone, day, target, exact.value) && exact.value < candidate
      invariant exact.None? ==> forall s :: s < candidate && Candidate(zone, day, s) ==> zone.minute(s) != target
      invariant fallback.Some? ==> FirstLater(zone, day, target, fallback.value) && fallback.value < candidate
      invariant fallback.None? ==> forall s :: s < candidate && Candidate(zone, day, s) ==> zone.minute(s) < target
      decreases start + 32 * HOUR - candidate
    {
      if zone.day(candidate) == day {
        assert Candidate(zone, day, candidate);
        if zone.minute(candidate) >= target && fallback.None? { fallback := Some(candidate); }
        if zone.minute(candidate) == target && exact.None? { exact := Some(candidate); }
      }
      Between(start, candidate);
      candidate := candidate + MINUTE;
    }
    run := if exact.Some? then exact else fallback;
  }

  // The run of the day `offset` days from now.
  ghost predicate RunAt(zone: Zone, now: int, target: int, offset: int, run: int) {
    RunOf(zone, zone.day(now) + offset, target, Some(run))
  }

  lemma OnlyRunAt(zone: Zone, now: int, target: int, offset: int, run: Option<int>)
    requires RunOf(zone, zone.day(now) + offset, target, run)
    ensures run.Some? ==> RunAt(zone, now, target, offset, run.value)
    ensures forall other {:trigger RunAt(zone, now, target, offset, other)} ::
            RunAt(zone, now, target, offset, other) ==> run == Some(other)
  {
    var day := zone.day(now) + offset;
    forall other {:trigger RunAt(zone, now, target, offset, other)} | RunAt(zone, now, target, offset, other)
      ensures run == Some(other)
    {
      assert RunOf(zone, day, target, Some(other));
      RunIsUnique(zone, day, target, run, Some(other));
    }
  }

  method DayRunAt(zone: Zone, now: int, target: int, offset: int) returns (run: Option<int>)
    ensures run.Some? ==> RunAt(zone, now, target, offset, run.value)
    ensures forall other {:trigger RunAt(zone, now, target, offset, other)} ::
            RunAt(zone, now, target, offset, other) ==> run == Some(other)
  {
    run := DayRun(zone, zone.day(now) + offset, target);
    OnlyRunAt(zone, now, target, offset, run);
  }

  // Which of the next three days gives the run, if any does.
  ghost predicate Chosen(zone: Zone, now: int, target: int, offset: int, next: int) {
    0 <= offset < 3 && next > now && RunAt(zone, now, target, offset, next)
    && forall earlier, run {:trigger RunAt(zone, now, target, earlier, run)} ::
       0 <= earlier < offset && RunAt(zone, now, target, earlier, run) ==> run <= now
  }

  /** The run of the first of three days whose run is still ahead, and a day from now
      only if there is none. */
  ghost predicate IsNextDaily(zone: Zone, now: int, target: int, next: int) {
    || (exists offset :: Chosen(zone, now, target, offset, next))
    || (next == now + DAY
        && forall offset, run {:trigger RunAt(zone, now, target, offset, run)} ::
             0 <= offset < 3 && RunAt(zone, now, target, offset, run) ==> run <= now)
  }

  /** Next for a daily schedule: always after now. */
  method NextDaily(zone: Zone, now: int, target: int) returns (next: int)
    ensures next > now && IsNextDaily(zone, now, target, next)
  {
    var offset := 0;
    while offset < 3
      invariant 0 <= offset <= 3
      invariant forall earlier, run {:trigger RunAt(zone, now, target, earlier, run)} ::
                0 <= earlier < offset && RunAt(zone, now, target, earlier, run) ==> run <= now
    {
      var run := DayRunAt(zone, now, target, offset);
      if run.Some? && run.value > now {
        assert Chosen(zone, now, target, offset, run.value);
        return run.value;
      }
      offset := offset + 1;
    }
    next := now + DAY;
  }

  // ------------------------------------------------------------- without summer time

  // A zone that is always `ahead` of UTC by the same time.
  function Fixed(ahead: int): Zone {
    Zone((t: int) => (t + ahead) / DAY, (t: int) => (t + ahead) % DAY / MINUTE, (day: int) => day * DAY - ahead)
  }

  // The instant at which the target minute of a day begins.
  function TargetAt(ahead: int, day: int, target: int): int {
    day * DAY + target * MINUTE - ahead
  }

  lemma DayAndRest(day: int, rest: int)
    requires 0 <= rest < DAY
    ensures (day * DAY + rest) / DAY == day && (day * DAY + rest) % DAY == rest
  {
    var t := day * DAY + rest;
    assert t == t / DAY * DAY + t % DAY;
  }

  lemma MinuteOf(target: int)
    ensures target * MINUTE / MINUTE == target && (3 * HOUR + target * MINUTE) % MINUTE == 0
  {
    assert 3 * HOUR + target * MINUTE == (180 + target) * MINUTE;
  }

  // The target minute of a day is among the minutes that the loop looks at.
  lemma TargetIsCandidate(ahead: int, day: int, target: int)
    requires 0 <= target < 1440
    ensures var t := TargetAt(ahead, day, target); Candidate(Fixed(ahead), day, t) && Fixed(ahead).minute(t) == target
  {
    DayAndRest(day, target * MINUTE);
    MinuteOf(target);
    assert TargetAt(ahead, day, target) + ahead == day * DAY + target * MINUTE;
    assert TargetAt(ahead, day, target) - (Fixed(ahead).midnight(day) - 3 * HOUR) == 3 * HOUR + target * MINUTE;
  }

  lemma TargetIsFirst(ahead: int, day: int, target: int, s: int)
    requires Candidate(Fixed(ahead), day, s) && Fixed(ahead).minute(s) == target
    ensures TargetAt(ahead, day, target) <= s
  {
    assert s + ahead == (s + ahead) / DAY * DAY + (s + ahead) % DAY;
    var rest := (s + ahead) % DAY;
    assert rest == rest / MINUTE * MINUTE + rest % MINUTE;
  }

  /** The run of a day is its target minute. */
  lemma FixedRun(ahead: int, now: int, target: int, offset: int, run: int)
    requires 0 <= target < 1440
    ensures RunAt(Fixed(ahead), now, target, offset, run)
            <==> run == TargetAt(ahead, (now + ahead) / DAY + offset, target)
  {
    var (zone, day) := (Fixed(ahead), (now + ahead) / DAY + offset);
    var t := TargetAt(ahead, day, target);
    TargetIsCandidate(ahead, day, target);
    forall s | Candidate(zone, day, s) && zone.minute(s) == target
      ensures t <= s
    {
      TargetIsFirst(ahead, day, target, s);
    }
    assert FirstAt(zone, day, target, t);
    assert RunOf(zone, day, target, Some(t));
    if RunAt(zone, now, target, offset, run) { RunIsUnique(zone, day, target, Some(run), Some(t)); }
  }

  lemma Tomorrow(ahead: int, now: int, target: int)
    requires 0 <= target < 1440
    ensures var day := (now + ahead) / DAY;
            && TargetAt(ahead, day + 1, target) == TargetAt(ahead, day, target) + DAY
            && TargetAt(ahead, day, target) - DAY < now < TargetAt(ahead, day + 1, target)
  {
    assert now + ahead == (now + ahead) / DAY * DAY + (now + ahead) % DAY;
  }

  // The only run of the day that many days ahead.
  ghost predicate OnlyRun(zone: Zone, now: int, target: int, offset: int, only: int) {
    forall run {:trigger RunAt(zone, now, target, offset, run)} ::
      RunAt(zone, now, target, offset, run) <==> run == only
  }

  lemma FirstOfTwo(zone: Zone, now: int, target: int, today: int, tomorrow: int, next: int)
    requires IsNextDaily(zone, now, target, next) && tomorrow > now
    requires OnlyRun(zone, now, target, 0, today) && OnlyRun(zone, now, target, 1, tomorrow)
    ensures next == if today > now then today else tomorrow
  {
    assert RunAt(zone, now, target, 0, today) && RunAt(zone, now, target, 1, tomorrow);
    var offset :| Chosen(zone, now, target, offset, next);
  }

  lemma FixedRunIsOnly(ahead: int, now: int, target: int, offset: int)
    requires 0 <= target < 1440
    ensures OnlyRun(Fixed(ahead), now, target, offset, TargetAt(ahead, (now + ahead) / DAY + offset, target))
  {
    forall run {:trigger RunAt(Fixed(ahead), now, target, offset, run)}
      ensures RunAt(Fixed(ahead), now, target, offset, run)
              <==> run == TargetAt(ahead, (now + ahead) / DAY + offset, target)
    {
      FixedRun(ahead, now, target, offset, run);
    }
  }

  lemma FixedNext(ahead: int, now: int, target: int, day: int, next: int)
    requires 0 <= target < 1440 && IsNextDaily(Fixed(ahead), now, target, next)
    requires OnlyRun(Fixed(ahead), now, target, 0, TargetAt(ahead, day, target))
    requires OnlyRun(Fixed(ahead), now, target, 1, TargetAt(ahead, day + 1, target))
    requires TargetAt(ahead, day + 1, target) > now
    ensures var today := TargetAt(ahead, day, target);
            next == if today > now then today else TargetAt(ahead, day + 1, target)
  {
    FirstOfTwo(Fixed(ahead), now, target, TargetAt(ahead, day, target), TargetAt(ahead, day + 1, target), next);
  }

  // It is the run of today or of tomorrow.
  lemma TodayOrTomorrow(ahead: int, now: int, target: int, next: int)
    requires 0 <= target < 1440 && IsNextDaily(Fixed(ahead), now, target, next)
    ensures var today := TargetAt(ahead, (now + ahead) / DAY, target);
            next == if today > now then today else today + DAY
  {
    Tomorrow(ahead, now, target);
    FixedRunIsOnly(ahead, now, target, 0);
    FixedRunIsOnly(ahead, now, target, 1);
    FixedNext(ahead, now, target, (now + ahead) / DAY, next);
  }

  // The target minute begins.
  predicate Strikes(ahead: int, t: int, target: int) {
    (t + ahead) % DAY == target * MINUTE
  }

  lemma StrikesIff(ahead: int, t: int, target: int)
    requires 0 <= target < 1440
    ensures Strikes(ahead, t, target) <==> t == TargetAt(ahead, (t + ahead) / DAY, target)
  {
    assert t + ahead == (t + ahead) / DAY * DAY + (t + ahead) % DAY;
  }

  lemma LaterDay(ahead: int, a: int, b: int, target: int)
    requires a < b
    ensures TargetAt(ahead, a, target) + DAY <= TargetAt(ahead, b, target)
  {
    assert b * DAY - (a + 1) * DAY == (b - a - 1) * DAY;
  }

  lemma TargetStrikes(ahead: int, day: int, target: int)
    requires 0 <= target < 1440
    ensures Strikes(ahead, TargetAt(ahead, day, target), target)
  {
    DayAndRest(day, target * MINUTE);
  }

  lemma NoneBetween(ahead: int, now: int, target: int, other: int)
    requires 0 <= target < 1440 && Strikes(ahead, other, target) && other > now
    ensures var today := TargetAt(ahead, (now + ahead) / DAY, target);
            other >= if today > now then today else today + DAY
  {
    var (day, of) := ((now + ahead) / DAY, (other + ahead) / DAY);
    Tomorrow(ahead, now, target);
    StrikesIff(ahead, other, target);
    if of < day { LaterDay(ahead, of, day, target); }
    if of > day { LaterDay(ahead, day, of, target); }
  }

  /** In a zone without summer time a daily schedule gives the first instant after now
      at which the target minute of a day begins. */
  lemma FixedZoneRunsOnTime(ahead: int, now: int, target: int, next: int)
    requires 0 <= target < 1440 && IsNextDaily(Fixed(ahead), now, target, next)
    ensures next > now && Strikes(ahead, next, target)
    ensures forall other :: other > now && Strikes(ahead, other, target) ==> next <= other
  {
    var day := (now + ahead) / DAY;
    TodayOrTomorrow(ahead, now, target, next);
    Tomorrow(ahead, now, target);
    TargetStrikes(ahead, day, target);
    TargetStrikes(ahead, day + 1, target);
    forall other | other > now && Strikes(ahead, other, target)
      ensures next <= other
    {
      NoneBetween(ahead, now, target, other);
    }
  }
}
