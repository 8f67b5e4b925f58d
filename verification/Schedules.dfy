// When an automation is due: `Schedule::next` and `Schedule::latest_due`.
//
// Instants are 64-bit second counts, so every addition the source checks is
// checked here too. The timezone database is a parameter: a zone names the
// local day of an instant and resolves a local (day, hour, minute) to no
// instant (a gap), one instant, or two (a fold).
module Schedules {
  import opened Outcomes

  const I64_MAX: int := 0x7FFF_FFFF_FFFF_FFFF
  const I64_MIN: int := -0x8000_0000_0000_0000
  const DAY: int := 86_400
  const WINDOW: nat := 15

  type Instant = t: int | I64_MIN <= t <= I64_MAX

  datatype Error = UnknownZone | InvalidSchedule | InvalidTimestamp | Overflow | NoOccurrence

  datatype Local = Gap | Single(at: Instant) | Ambiguous(a: Instant, b: Instant)

  // `localDay` is None for an instant outside the calendar's range; `firstDay`
  // and `lastDay` are the first and last day the calendar can name. Day 0 is
  // 1970-01-01, a Thursday.
  datatype Zone = Zone(
    localDay: Instant -> Option<int>,
    resolve: (int, nat, nat) -> Local,
    firstDay: int,
    lastDay: int)

  type ZoneDb = string -> Option<Zone>

  datatype Rule = Rule(hour: nat, minute: nat, days: seq<nat>)

  datatype Schedule =
    | Manual
    | Interval(minutes: nat)
    | Calendar(rule: Rule, timezone: string)

  function Max(a: int, b: int): int { if a < b then b else a }

  function Weekday(day: int): nat { (day + 3) % 7 }

  predicate ValidRule(rule: Rule) {
    && rule.hour < 24
    && rule.minute < 60
    && rule.days != []
    && forall day | day in rule.days :: day < 7
  }

  function Validate(db: ZoneDb, schedule: Schedule): Result<(), Error> {
    match schedule
    case Manual => Ok(())
    case Interval(minutes) =>
      if 1 <= minutes <= 525_600 then Ok(()) else Err(InvalidSchedule)
    case Calendar(rule, timezone) =>
      if !ValidRule(rule) then Err(InvalidSchedule)
      else if db(timezone).None? then Err(UnknownZone)
      else Ok(())
  }

  // ---------------------------------------------------------------- Intervals

  function SaturatingSub(a: Instant, b: int): Instant {
    if a - b > I64_MAX then I64_MAX else if a - b < I64_MIN then I64_MIN else a - b
  }

  function NextInterval(step: int, after: Instant, anchor: Instant): Result<Instant, Error>
    requires 0 < step
  {
    var count := Max(SaturatingSub(after, anchor) / step, 0) + 1;
    var product := count * step;
    if product > I64_MAX then Err(Overflow)
    else if anchor + product > I64_MAX then Err(Overflow)
    else assert product >= 0 by { Multiples(step, 0, count); } Ok(anchor + product)
  }

  // t is the first point of the grid anchor + k * step (k >= 1) after `after`.
  ghost predicate FirstOnGrid(t: int, step: int, after: int, anchor: int)
    requires 0 < step
  {
    && OnGrid(t, step, anchor)
    && after < t
    && anchor < t
    && forall u {:trigger OnGrid(u, step, anchor)} ::
         OnGrid(u, step, anchor) && after < u && anchor < u ==> t <= u
  }

  ghost predicate OnGrid(t: int, step: int, anchor: int)
    requires 0 < step
  {
    (t - anchor) % step == 0
  }

  lemma {:induction false} Multiples(step: int, a: int, b: int)
    requires 0 < step && a <= b
    ensures a * step <= b * step
    ensures a < b ==> a * step + step <= b * step
    decreases b - a
  {
    if a < b {
      assert (a + 1) * step == a * step + step;
      Multiples(step, a + 1, b);
    }
  }

  lemma GridPoint(step: int, anchor: int, k: int)
    requires 0 < step
    ensures OnGrid(anchor + k * step, step, anchor)
  {
    assert (k * step) % step == 0 by { DivisionOf(step, k, 0); }
  }

  lemma DivisionOf(step: int, k: int, rest: int)
    requires 0 <= rest < step
    ensures (k * step + rest) / step == k && (k * step + rest) % step == rest
  {
    var n := k * step + rest;
    var q, r := n / step, n % step;
    assert n == q * step + r;
    if q < k { Multiples(step, q, k); }
    if k < q { Multiples(step, k, q); }
  }

  // The exact grid point that the unbounded computation names.
  ghost function GridNext(step: int, after: int, anchor: int): (t: int)
    requires 0 < step
    ensures FirstOnGrid(t, step, after, anchor)
  {
    var k := Max((after - anchor) / step, 0) + 1;
    GridPoint(step, anchor, k);
    GridNextIsFirst(step, after, anchor, k);
    anchor + k * step
  }

  lemma GridNextIsFirst(step: int, after: int, anchor: int, k: int)
    requires 0 < step && k == Max((after - anchor) / step, 0) + 1
    ensures after < anchor + k * step && anchor < anchor + k * step
    ensures forall u {:trigger OnGrid(u, step, anchor)} ::
              OnGrid(u, step, anchor) && after < u && anchor < u ==> anchor + k * step <= u
  {
    Beyond(step, after - anchor, k);
    forall u | OnGrid(u, step, anchor) && after < u && anchor < u
      ensures anchor + k * step <= u
    {
      var m := (u - anchor) / step;
      AtLeast(step, after - anchor, m, k);
      Multiples(step, k, m);
    }
  }

  lemma Beyond(step: int, distance: int, k: int)
    requires 0 < step && k == Max(distance / step, 0) + 1
    ensures distance < k * step && 0 < k * step
  {
    var q := distance / step;
    assert distance == q * step + distance % step;
    Multiples(step, q, k - 1);
    Multiples(step, 0, k - 1);
    Multiples(step, k - 1, k);
  }

  lemma AtLeast(step: int, distance: int, m: int, k: int)
    requires 0 < step && k == Max(distance / step, 0) + 1
    requires distance < m * step && 0 < m * step
    ensures k <= m
  {
    assert distance == (distance / step) * step + distance % step;
    if m < k {
      Multiples(step, m, k - 1);
    }
  }

  // For every 64-bit `after` and `anchor`, despite the saturating subtraction:
  // the answer is the first grid point, and it is refused exactly when that
  // point, or its distance from the anchor, does not fit 64 bits.
  lemma {:induction false} IntervalNextIsExact(step: int, after: Instant, anchor: Instant)
    requires 60 <= step <= 525_600 * 60
    ensures var r := NextInterval(step, after, anchor);
            var t := GridNext(step, after, anchor);
            && (r.Ok? ==> FirstOnGrid(r.value, step, after, anchor) && r.value == t)
            && (r.Err? <==> t > I64_MAX || t - anchor > I64_MAX)
            && (r.Err? ==> r.error == Overflow)
            && (0 <= anchor ==> (r.Err? <==> t > I64_MAX))
  {
    var t := GridNext(step, after, anchor);
    var sat := SaturatingSub(after, anchor);
    if after - anchor > I64_MAX {
      var count := Max(sat / step, 0) + 1;
      assert I64_MAX == (I64_MAX / step) * step + I64_MAX % step;
      Multiples(step, I64_MAX / step, count - 1);
      assert count * step > I64_MAX;
    } else if after - anchor < I64_MIN {
      DivisionSign(step, after - anchor);
      DivisionSign(step, sat);
    }
  }

  // A refusal of a point that fits: it takes an anchor before the epoch, which
  // the store never holds.
  lemma NegativeAnchorIsRefused()
    ensures GridNext(60, I64_MAX - 60, -60) == I64_MAX - 7
    ensures NextInterval(60, I64_MAX - 60, -60) == Err(Overflow)
  {
    assert OnGrid(I64_MAX - 7, 60, -60);
  }

  lemma DivisionSign(step: int, n: int)
    requires 0 < step && n < 0
    ensures n / step < 0
  {
    if n / step >= 0 { Multiples(step, 0, n / step); }
  }

  // ---------------------------------------------------------------- Calendars

  // t is the instant a local time names, the earlier one if there are two.
  ghost predicate Earliest(local: Local, t: Instant) {
    match local
    case Gap => false
    case Single(u) => t == u
    case Ambiguous(a, b) => (t == a || t == b) && t <= a && t <= b
  }

  function FirstInstant(local: Local): (r: Option<Instant>)
    ensures r.Some? ==> Earliest(local, r.value)
    ensures forall t: Instant | Earliest(local, t) :: r == Some(t)
  {
    match local
    case Gap => None
    case Single(t) => Some(t)
    case Ambiguous(a, b) => Some(if a < b then a else b)
  }

  predicate Candidate(rule: Rule, day: int) {
    Weekday(day) in rule.days
  }

  // The rule fires at t on that local day.
  ghost predicate FiresOn(zone: Zone, rule: Rule, day: int, t: Instant) {
    Weekday(day) in rule.days && Earliest(zone.resolve(day, rule.hour, rule.minute), t)
  }

  // The one instant a rule can fire at on a local day.
  function Occurrence(zone: Zone, rule: Rule, day: int): (r: Option<Instant>)
    ensures r.Some? ==> FiresOn(zone, rule, day, r.value)
    ensures forall t: Instant | FiresOn(zone, rule, day, t) :: r == Some(t)
  {
    if Candidate(rule, day)
    then FirstInstant(zone.resolve(day, rule.hour, rule.minute))
    else None
  }

  ghost predicate Occurs(zone: Zone, rule: Rule, t: Instant) {
    exists day :: FiresOn(zone, rule, day, t)
  }

  function Scan(zone: Zone, rule: Rule, day: int, after: Instant, offset: nat): Result<Instant, Error>
    requires offset <= WINDOW
    decreases WINDOW - offset
  {
    if offset == WINDOW then Err(NoOccurrence)
    else if day + offset > zone.lastDay then Err(Overflow)
    else
      var found := Occurrence(zone, rule, day + offset);
      if found.Some? && found.value > after then Ok(found.value)
      else Scan(zone, rule, day, after, offset + 1)
  }

  function NextCalendar(zone: Zone, rule: Rule, after: Instant): Result<Instant, Error> {
    match zone.localDay(after)
    case None => Err(InvalidTimestamp)
    case Some(day) => Scan(zone, rule, day, after, 0)
  }

  // The bounded search over the fifteen local days from `after`'s own.
  method FindNextCalendar(zone: Zone, rule: Rule, after: Instant) returns (r: Result<Instant, Error>)
    ensures r == NextCalendar(zone, rule, after)
  {
    var start := zone.localDay(after);
    if start.None? {
      return Err(InvalidTimestamp);
    }
    for offset := 0 to WINDOW
      invariant Scan(zone, rule, start.value, after, 0) == Scan(zone, rule, start.value, after, offset)
    {
      var date := start.value + offset;
      if date > zone.lastDay {
        return Err(Overflow);
      }
      if Weekday(date) !in rule.days {
        continue;
      }
      var instant: Instant;
      match zone.resolve(date, rule.hour, rule.minute) {
        case Single(t) => instant := t;
        case Ambiguous(a, b) => instant := if a < b then a else b;
        case Gap => continue;
      }
      if instant > after {
        return Ok(instant);
      }
    }
    r := Err(NoOccurrence);
  }

  // What every real zone obeys: later days fire later, and whatever fires on a
  // day before an instant's own local day has already fired.
  ghost predicate Ordered(zone: Zone) {
    && (forall d: int, e: int, h: nat, m: nat, t: Instant, u: Instant
          {:trigger Earliest(zone.resolve(d, h, m), t), Earliest(zone.resolve(e, h, m), u)} ::
          d < e && Earliest(zone.resolve(d, h, m), t) && Earliest(zone.resolve(e, h, m), u) ==> t < u)
    && (forall now: Instant, d: int, h: nat, m: nat, t: Instant
          {:trigger zone.localDay(now), Earliest(zone.resolve(d, h, m), t)} ::
          zone.localDay(now).Some? && d < zone.localDay(now).value && Earliest(zone.resolve(d, h, m), t) ==> t <= now)
  }

  // Local days are days of the calendar, and days after an instant's own lie
  // ahead of it.
  ghost predicate DaysAhead(zone: Zone) {
    && (forall t: Instant :: zone.localDay(t).Some? ==>
          zone.firstDay <= zone.localDay(t).value <= zone.lastDay)
    && (forall now: Instant, d: int, h: nat, m: nat, t: Instant
          {:trigger zone.localDay(now), Earliest(zone.resolve(d, h, m), t)} ::
          zone.localDay(now).Some? && zone.localDay(now).value < d && Earliest(zone.resolve(d, h, m), t) ==> now < t)
  }

  // Clock changes within two weeks add up to at most a day.
  ghost predicate SmallChanges(zone: Zone) {
    && (forall t: Instant, u: Instant {:trigger zone.localDay(t), zone.localDay(u)} ::
          zone.localDay(t).Some? && zone.localDay(u).Some? && u == t + 15 * DAY ==>
            zone.localDay(t).value + 14 <= zone.localDay(u).value)
    && (forall d: int, e: int, h: nat, m: nat, t: Instant, u: Instant
          {:trigger Earliest(zone.resolve(d, h, m), t), Earliest(zone.resolve(e, h, m), u)} ::
          e == d + 14 && Earliest(zone.resolve(d, h, m), t) && Earliest(zone.resolve(e, h, m), u) ==> u <= t + 15 * DAY)
  }

  ghost predicate Steady(zone: Zone) {
    DaysAhead(zone) && SmallChanges(zone)
  }

  // No two days of one scan window are gaps at the rule's time of day.
  ghost predicate SparseGaps(zone: Zone, rule: Rule) {
    forall d: int, e: int {:trigger zone.resolve(d, rule.hour, rule.minute), zone.resolve(e, rule.hour, rule.minute)} ::
      zone.firstDay <= d < e <= zone.lastDay && e < d + WINDOW && zone.resolve(d, rule.hour, rule.minute).Gap? ==>
        !zone.resolve(e, rule.hour, rule.minute).Gap?
  }

  lemma {:induction false} ScanStops(zone: Zone, rule: Rule, day: int, after: Instant, offset: nat) returns (k: nat)
    requires offset <= WINDOW && Scan(zone, rule, day, after, offset).Ok?
    ensures offset <= k < WINDOW && day + k <= zone.lastDay
    ensures Occurrence(zone, rule, day + k) == Some(Scan(zone, rule, day, after, offset).value)
    ensures after < Scan(zone, rule, day, after, offset).value
    ensures forall e {:trigger Occurrence(zone, rule, e)} ::
              day + offset <= e < day + k && Occurrence(zone, rule, e).Some? ==>
                Occurrence(zone, rule, e).value <= after
    decreases WINDOW - offset
  {
    var found := Occurrence(zone, rule, day + offset);
    if found.Some? && found.value > after {
      k := offset;
    } else {
      k := ScanStops(zone, rule, day, after, offset + 1);
    }
  }

  lemma LaterDayLaterInstant(zone: Zone, rule: Rule, today: int, e: int, k: int, after: Instant)
    requires Ordered(zone) && zone.localDay(after) == Some(today)
    requires Occurrence(zone, rule, e).Some? && after < Occurrence(zone, rule, e).value
    ensures today <= e
    ensures k < e && Occurrence(zone, rule, k).Some? ==>
              Occurrence(zone, rule, k).value < Occurrence(zone, rule, e).value
  {
  }

  // Calendar `next`: the least occurrence strictly after `after`, over every
  // day there is and not only the fifteen searched.
  lemma {:induction false} CalendarNextIsLeast(zone: Zone, rule: Rule, after: Instant)
    requires Ordered(zone) && NextCalendar(zone, rule, after).Ok?
    ensures var t := NextCalendar(zone, rule, after).value;
            after < t && Occurs(zone, rule, t)
    ensures forall u: Instant :: Occurs(zone, rule, u) && after < u ==>
              NextCalendar(zone, rule, after).value <= u
  {
    var _ := ScanStops(zone, rule, zone.localDay(after).value, after, 0);
    forall u: Instant | Occurs(zone, rule, u) && after < u ensures NextCalendar(zone, rule, after).value <= u {
      NextIsNotLaterThan(zone, rule, after, u);
    }
  }

  lemma NextIsNotLaterThan(zone: Zone, rule: Rule, after: Instant, u: Instant)
    requires Ordered(zone) && NextCalendar(zone, rule, after).Ok? && Occurs(zone, rule, u) && after < u
    ensures NextCalendar(zone, rule, after).value <= u
  {
    var day := zone.localDay(after).value;
    var k := ScanStops(zone, rule, day, after, 0);
    NoneIsEarlier(zone, rule, after, day + k, u);
  }

  lemma NoneIsEarlier(zone: Zone, rule: Rule, after: Instant, found: int, u: Instant)
    requires Ordered(zone) && zone.localDay(after).Some? && zone.localDay(after).value <= found
    requires Occurrence(zone, rule, found).Some? && Occurs(zone, rule, u) && after < u
    requires forall e {:trigger Occurrence(zone, rule, e)} ::
               zone.localDay(after).value <= e < found && Occurrence(zone, rule, e).Some? ==>
                 Occurrence(zone, rule, e).value <= after
    ensures Occurrence(zone, rule, found).value <= u
  {
    var e :| FiresOn(zone, rule, e, u);
    assert Occurrence(zone, rule, e) == Some(u);
    LaterDayLaterInstant(zone, rule, zone.localDay(after).value, e, found, after);
  }

  lemma {:induction false} ScanFinds(zone: Zone, rule: Rule, day: int, after: Instant, offset: nat, k: nat)
    requires offset <= k < WINDOW && day + k <= zone.lastDay
    requires Occurrence(zone, rule, day + k).Some? && after < Occurrence(zone, rule, day + k).value
    ensures Scan(zone, rule, day, after, offset).Ok?
    decreases k - offset
  {
    var found := Occurrence(zone, rule, day + offset);
    if offset < k && !(found.Some? && found.value > after) {
      ScanFinds(zone, rule, day, after, offset + 1, k);
    }
  }

  // The rule fires later than `after` on a day of the calendar in the window.
  ghost predicate FiresWithin(zone: Zone, rule: Rule, day: int, after: Instant, t: Instant) {
    exists d :: day <= d < day + 15 && d <= zone.lastDay && FiresOn(zone, rule, d, t) && after < t
  }

  // The search is refused exactly when the instant has no local day, or nothing
  // fires later than it on those of the fifteen days that the calendar has.
  lemma CalendarRefusesExactly(zone: Zone, rule: Rule, after: Instant)
    ensures NextCalendar(zone, rule, after).Ok? <==>
              zone.localDay(after).Some? && exists t: Instant :: FiresWithin(zone, rule, zone.localDay(after).value, after, t)
    ensures NextCalendar(zone, rule, after) == Err(InvalidTimestamp) <==> zone.localDay(after).None?
  {
    if zone.localDay(after).Some? {
      var day := zone.localDay(after).value;
      ScanNeverInvalid(zone, rule, day, after, 0);
      if NextCalendar(zone, rule, after).Ok? {
        var k := ScanStops(zone, rule, day, after, 0);
        assert FiresWithin(zone, rule, day, after, NextCalendar(zone, rule, after).value);
      } else if t: Instant :| FiresWithin(zone, rule, day, after, t) {
        WithinIsFound(zone, rule, day, after, t);
      }
    }
  }

  lemma WithinIsFound(zone: Zone, rule: Rule, day: int, after: Instant, t: Instant)
    requires FiresWithin(zone, rule, day, after, t)
    ensures Scan(zone, rule, day, after, 0).Ok?
  {
    var d :| day <= d < day + 15 && d <= zone.lastDay && FiresOn(zone, rule, d, t);
    assert Occurrence(zone, rule, d) == Some(t);
    ScanFinds(zone, rule, day, after, 0, d - day);
  }

  lemma {:induction false} ScanNeverInvalid(zone: Zone, rule: Rule, day: int, after: Instant, offset: nat)
    requires offset <= WINDOW
    ensures Scan(zone, rule, day, after, offset) != Err(InvalidTimestamp)
    decreases WINDOW - offset
  {
    if offset < WINDOW {
      ScanNeverInvalid(zone, rule, day, after, offset + 1);
    }
  }

  // Weekdays count from Monday and follow one another; 1 January 1970 was a
  // Thursday and 1 January 2024 a Monday.
  lemma WeekdaysFollow(day: int)
    ensures Weekday(0) == 3 && Weekday(19_723) == 0
    ensures Weekday(day + 1) == if Weekday(day) == 6 then 0 else Weekday(day) + 1
  {
  }

  // Some day of each week carries the rule's first weekday.
  lemma CandidateInWeek(rule: Rule, day: int) returns (j: nat)
    requires ValidRule(rule)
    ensures 1 <= j <= 7
    ensures Candidate(rule, day + j) && Candidate(rule, day + j - 7) && Candidate(rule, day + j + 7)
  {
    var w := rule.days[0];
    assert w in rule.days;
    var r, q := Weekday(day + 1), (day + 4) / 7;
    assert day + 4 == 7 * q + r;
    j := if r <= w then w - r + 1 else w - r + 8;
    assert day + j + 3 == 7 * (if r <= w then q else q + 1) + w;
  }

  ghost predicate GapAt(zone: Zone, rule: Rule, day: int) {
    zone.resolve(day, rule.hour, rule.minute).Gap?
  }

  // Of the rule's days in the window that starts on `day`, at most one is a gap.
  ghost predicate OneGapAhead(zone: Zone, rule: Rule, day: int) {
    forall d, e | day < d < e < day + WINDOW && Candidate(rule, d) && Candidate(rule, e) ::
      !GapAt(zone, rule, d) || !GapAt(zone, rule, e)
  }

  // The fifteen-day search cannot miss: with at most one gap among the window's
  // candidate days it always finds an occurrence.
  lemma {:induction false} CalendarNextExists(zone: Zone, rule: Rule, after: Instant)
    requires DaysAhead(zone) && ValidRule(rule)
    requires zone.localDay(after).Some? && zone.localDay(after).value + 14 <= zone.lastDay
    requires OneGapAhead(zone, rule, zone.localDay(after).value)
    ensures NextCalendar(zone, rule, after).Ok?
  {
    var day := zone.localDay(after).value;
    var j := CandidateInWeek(rule, day);
    var k := if zone.resolve(day + j, rule.hour, rule.minute).Gap? then j + 7 else j;
    assert !GapAt(zone, rule, day + j) || !GapAt(zone, rule, day + (j + 7));
    ScanFinds(zone, rule, day, after, 0, k);
  }

  // The laws are satisfiable together: universal time with one skipped day-time
  // obeys them all.
  function GapZone(gap: int): Zone {
    Zone(
      (t: Instant) => if -1_000_000 * DAY <= t < 1_000_000 * DAY then Some(t / DAY) else None,
      (day: int, hour: nat, minute: nat) =>
        if day == gap || day < -1_000_000 || day >= 1_000_000 || hour >= 24 || minute >= 60 then Gap
        else Single(day * DAY + hour * 3600 + minute * 60),
      -1_000_000, 999_999)
  }

  lemma GapZoneIsOrderly(gap: int, rule: Rule)
    requires ValidRule(rule)
    ensures Ordered(GapZone(gap)) && Steady(GapZone(gap)) && SparseGaps(GapZone(gap), rule)
  {
    GapZoneIsOrdered(gap);
    GapZoneLooksAhead(gap);
    GapZoneChangesLittle(gap);
  }

  lemma GapZoneIsOrdered(gap: int)
    ensures Ordered(GapZone(gap))
  {
  }

  lemma GapZoneLooksAhead(gap: int)
    ensures DaysAhead(GapZone(gap))
  {
  }

  lemma GapZoneChangesLittle(gap: int)
    ensures SmallChanges(GapZone(gap))
  {
  }

  // ------------------------------------------------------------- Next and due

  function Next(db: ZoneDb, schedule: Schedule, after: Instant, anchor: Instant): Result<Option<Instant>, Error> {
    var _ :- Validate(db, schedule);
    match schedule
    case Manual => Ok(None)
    case Interval(minutes) =>
      var t :- NextInterval(minutes * 60, after, anchor);
      Ok(Some(t))
    case Calendar(rule, timezone) =>
      var t :- NextCalendar(db(timezone).value, rule, after);
      Ok(Some(t))
  }

  // The instants a schedule fires at.
  ghost predicate Fires(db: ZoneDb, schedule: Schedule, anchor: Instant, t: Instant) {
    match schedule
    case Manual => false
    case Interval(minutes) => 0 < minutes && anchor < t && OnGrid(t, minutes * 60, anchor)
    case Calendar(rule, timezone) => db(timezone).Some? && Occurs(db(timezone).value, rule, t)
  }

  lemma NextIsLater(db: ZoneDb, schedule: Schedule, after: Instant, anchor: Instant)
    requires Next(db, schedule, after, anchor).Ok?
    ensures Next(db, schedule, after, anchor).value.None? <==> schedule.Manual?
    ensures !schedule.Manual? ==>
              var t := Next(db, schedule, after, anchor).value.value;
              after < t && Fires(db, schedule, anchor, t)
  {
    match schedule
    case Manual =>
    case Interval(minutes) => IntervalNextIsExact(minutes * 60, after, anchor);
    case Calendar(rule, timezone) =>
      var zone := db(timezone).value;
      var _ := ScanStops(zone, rule, zone.localDay(after).value, after, 0);
  }

  method FindNext(db: ZoneDb, schedule: Schedule, after: Instant, anchor: Instant)
    returns (r: Result<Option<Instant>, Error>)
    ensures r == Next(db, schedule, after, anchor)
  {
    var checked := Validate(db, schedule);
    if checked.Err? {
      return Err(checked.error);
    }
    match schedule {
      case Manual =>
        return Ok(None);
      case Interval(minutes) =>
        var t := NextInterval(minutes * 60, after, anchor);
        return if t.Ok? then Ok(Some(t.value)) else Err(t.error);
      case Calendar(rule, timezone) =>
        var t := FindNextCalendar(db(timezone).value, rule, after);
        return if t.Ok? then Ok(Some(t.value)) else Err(t.error);
    }
  }

  // Follow occurrences from `cursor` up to `at`, remembering the last.
  function Follow(db: ZoneDb, schedule: Schedule, anchor: Instant, latest: Instant, cursor: Instant, at: Instant)
    : Result<Instant, Error>
    decreases Max(at - cursor, 0)
  {
    match Next(db, schedule, cursor, anchor)
    case Err(e) => Err(e)
    case Ok(None) => Ok(latest)
    case Ok(Some(next)) =>
      if next > at then Ok(latest)
      else NextIsLater(db, schedule, cursor, anchor); Follow(db, schedule, anchor, next, next, at)
  }

  function FirstCursor(due: Instant, at: Instant): Instant {
    Max(SaturatingSub(at, 15 * DAY), SaturatingSub(due, 1))
  }

  function LatestDue(db: ZoneDb, schedule: Schedule, due: Instant, at: Instant, anchor: Instant)
    : Result<Instant, Error>
    requires schedule.Interval? ==> 0 < schedule.minutes && due <= at && at - due <= I64_MAX
  {
    match schedule
    case Interval(minutes) =>
      var step := minutes * 60;
      assert 0 <= (at - due) / step * step <= at - due by { LastOnGridBounds(step, due, at); }
      Ok(due + (at - due) / step * step)
    case _ => Follow(db, schedule, anchor, due, FirstCursor(due, at), at)
  }

  lemma LastOnGridBounds(step: int, due: int, at: int)
    requires 0 < step && due <= at
    ensures 0 <= (at - due) / step * step <= at - due
    ensures at - due < (at - due) / step * step + step
    ensures OnGrid(due + (at - due) / step * step, step, due)
  {
    var q := (at - due) / step;
    assert at - due == q * step + (at - due) % step;
    if q < 0 { Multiples(step, q, -1); } else { Multiples(step, 0, q); }
    GridPoint(step, due, q);
  }

  method FindLatestDue(db: ZoneDb, schedule: Schedule, due: Instant, at: Instant, anchor: Instant)
    returns (r: Result<Instant, Error>)
    requires schedule.Interval? ==> 0 < schedule.minutes && due <= at && at - due <= I64_MAX
    ensures r == LatestDue(db, schedule, due, at, anchor)
  {
    if schedule.Interval? {
      var step := schedule.minutes * 60;
      LastOnGridBounds(step, due, at);
      return Ok(due + (at - due) / step * step);
    }
    var latest: Instant := due;
    var cursor: Instant := FirstCursor(due, at);
    while true
      invariant LatestDue(db, schedule, due, at, anchor) == Follow(db, schedule, anchor, latest, cursor, at)
      decreases Max(at - cursor, 0)
    {
      var next := FindNext(db, schedule, cursor, anchor);
      if next.Err? {
        return Err(next.error);
      }
      NextIsLater(db, schedule, cursor, anchor);
      if next.value.None? || next.value.value > at {
        break;
      }
      latest := next.value.value;
      cursor := next.value.value;
    }
    r := Ok(latest);
  }

  lemma {:induction false} FollowBounds(db: ZoneDb, schedule: Schedule, anchor: Instant, latest: Instant, cursor: Instant, at: Instant)
    requires Follow(db, schedule, anchor, latest, cursor, at).Ok?
    ensures var r := Follow(db, schedule, anchor, latest, cursor, at).value;
            r == latest || cursor < r <= at
    decreases Max(at - cursor, 0)
  {
    var next := Next(db, schedule, cursor, anchor).value;
    if next.Some? && next.value <= at {
      NextIsLater(db, schedule, cursor, anchor);
      FollowBounds(db, schedule, anchor, next.value, next.value, at);
    }
  }

  lemma {:induction false} LatestDueBounds(db: ZoneDb, schedule: Schedule, due: Instant, at: Instant, anchor: Instant)
    requires due <= at && (schedule.Interval? ==> 0 < schedule.minutes && at - due <= I64_MAX)
    requires LatestDue(db, schedule, due, at, anchor).Ok?
    ensures due <= LatestDue(db, schedule, due, at, anchor).value <= at
  {
    if schedule.Interval? {
      LastOnGridBounds(schedule.minutes * 60, due, at);
    } else {
      FollowBounds(db, schedule, anchor, due, FirstCursor(due, at), at);
    }
  }

  // Interval coalescing lands on the last grid point not after `at`.
  lemma {:induction false} IntervalDueIsGreatest(db: ZoneDb, minutes: nat, due: Instant, at: Instant, anchor: Instant)
    requires 0 < minutes && due <= at && at - due <= I64_MAX
    ensures LatestDue(db, Interval(minutes), due, at, anchor).Ok?
    ensures var r := LatestDue(db, Interval(minutes), due, at, anchor).value;
            && OnGrid(r, minutes * 60, due) && r <= at
            && forall u {:trigger OnGrid(u, minutes * 60, due)} :: OnGrid(u, minutes * 60, due) && u <= at ==> u <= r
  {
    var step := minutes * 60;
    LastOnGridBounds(step, due, at);
    var q := (at - due) / step;
    forall u | OnGrid(u, step, due) && u <= at ensures u <= due + q * step {
      var m := (u - due) / step;
      assert u - due == m * step;
      if q < m { Multiples(step, q, m); }
    }
  }

  lemma {:induction false} FollowIsGreatest(db: ZoneDb, schedule: Schedule, anchor: Instant, latest: Instant, cursor: Instant, at: Instant)
    requires schedule.Calendar? && db(schedule.timezone).Some? && Ordered(db(schedule.timezone).value)
    requires Follow(db, schedule, anchor, latest, cursor, at).Ok?
    ensures var zone := db(schedule.timezone).value;
            var r := Follow(db, schedule, anchor, latest, cursor, at).value;
            && (r == latest || (Occurs(zone, schedule.rule, r) && cursor < r <= at))
            && forall u: Instant :: Occurs(zone, schedule.rule, u) && cursor < u <= at ==> u <= r && cursor < r
    decreases Max(at - cursor, 0)
  {
    var zone := db(schedule.timezone).value;
    CalendarNextIsLeast(zone, schedule.rule, cursor);
    var next := Next(db, schedule, cursor, anchor).value;
    if next.Some? && next.value <= at {
      FollowIsGreatest(db, schedule, anchor, next.value, next.value, at);
      var r := Follow(db, schedule, anchor, latest, cursor, at).value;
      forall u: Instant | Occurs(zone, schedule.rule, u) && cursor < u <= at ensures u <= r && cursor < r {
        assert next.value <= u;
      }
    }
  }

  // Something always falls within the fifteen days before `at`.
  lemma RecentOccurrence(zone: Zone, rule: Rule, cursor: Instant, at: Instant) returns (t: Instant)
    requires Ordered(zone) && Steady(zone) && SparseGaps(zone, rule) && ValidRule(rule)
    requires zone.localDay(cursor).Some? && zone.localDay(at).Some? && at == cursor + 15 * DAY
    ensures Occurs(zone, rule, t) && cursor < t <= at
  {
    var day := zone.localDay(cursor).value;
    var until := zone.localDay(at).value;
    assert day + 14 <= until;
    var j := CandidateInWeek(rule, day);
    var k: int := if !zone.resolve(day + j, rule.hour, rule.minute).Gap? then j
                  else if j < 7 then j + 7
                  else if FirstInstant(zone.resolve(day, rule.hour, rule.minute)) == None then 14
                  else if FirstInstant(zone.resolve(day, rule.hour, rule.minute)).value > cursor then 0
                  else 14;
    assert j < 7 && zone.resolve(day + j, rule.hour, rule.minute).Gap? ==>
        !zone.resolve(day + j + 7, rule.hour, rule.minute).Gap?;
    assert j == 7 && zone.resolve(day + 7, rule.hour, rule.minute).Gap? ==>
        !zone.resolve(day, rule.hour, rule.minute).Gap? && !zone.resolve(day + 14, rule.hour, rule.minute).Gap?;
    var found := Occurrence(zone, rule, day + k);
    t := found.value;
    assert Occurrence(zone, rule, day + k) == Some(t);
  }

  // Calendar coalescing: the claimed occurrence is the greatest one not after
  // `at`, however long the scheduler slept.
  lemma {:induction false} CalendarDueIsGreatest(db: ZoneDb, schedule: Schedule, due: Instant, at: Instant, anchor: Instant)
    requires schedule.Calendar? && ValidRule(schedule.rule) && db(schedule.timezone).Some?
    requires var zone := db(schedule.timezone).value;
             && Ordered(zone) && Steady(zone) && SparseGaps(zone, schedule.rule)
             && Occurs(zone, schedule.rule, due) && zone.localDay(at).Some?
    requires due <= at && LatestDue(db, schedule, due, at, anchor).Ok?
    ensures var zone := db(schedule.timezone).value;
            var r := LatestDue(db, schedule, due, at, anchor).value;
            && Occurs(zone, schedule.rule, r) && due <= r <= at
            && forall u: Instant :: Occurs(zone, schedule.rule, u) && u <= at ==> u <= r
  {
    var zone, rule := db(schedule.timezone).value, schedule.rule;
    var cursor := FirstCursor(due, at);
    FollowIsGreatest(db, schedule, anchor, due, cursor, at);
    var r := LatestDue(db, schedule, due, at, anchor).value;
    if cursor < due {
      assert r >= due;
    } else {
      if cursor == at - 15 * DAY {
        var t := RecentOccurrence(zone, rule, cursor, at);
        assert cursor < r;
      } else {
        assert due == I64_MIN;
      }
    }
    forall u: Instant | Occurs(zone, rule, u) && u <= at ensures u <= r {
      if u > cursor { assert u <= r; }
    }
  }

  // The calendar goes on for a fortnight, in which at most one of the rule's days
  // is a gap.
  ghost predicate GoesOn(zone: Zone, rule: Rule, t: Instant) {
    && zone.localDay(t).Some? && zone.localDay(t).value + 14 <= zone.lastDay
    && OneGapAhead(zone, rule, zone.localDay(t).value)
  }

  // It does so from every instant since an occurrence was due, but never from one
  // more than fifteen days back.
  ghost predicate Covered(zone: Zone, rule: Rule, due: Instant, at: Instant) {
    forall t: Instant | due - 1 <= t <= at && at - 15 * 86_400 <= t :: GoesOn(zone, rule, t)
  }

  lemma {:induction false} FollowSucceeds(db: ZoneDb, schedule: Schedule, anchor: Instant, latest: Instant, cursor: Instant, at: Instant)
    requires schedule.Calendar? && Validate(db, schedule).Ok? && cursor <= at
    requires var zone := db(schedule.timezone).value; DaysAhead(zone) && forall t: Instant | cursor <= t <= at :: GoesOn(zone, schedule.rule, t)
    ensures Follow(db, schedule, anchor, latest, cursor, at).Ok?
    decreases at - cursor
  {
    assert GoesOn(db(schedule.timezone).value, schedule.rule, cursor);
    CalendarNextExists(db(schedule.timezone).value, schedule.rule, cursor);
    NextIsLater(db, schedule, cursor, anchor);
    var next := Next(db, schedule, cursor, anchor).value.value;
    if next <= at {
      FollowSucceeds(db, schedule, anchor, next, next, at);
    }
  }

  // Coalescing never fails while the calendar covers the stretch it looks at.
  lemma LatestDueSucceeds(db: ZoneDb, schedule: Schedule, due: Instant, at: Instant, anchor: Instant)
    requires Validate(db, schedule).Ok? && !schedule.Manual? && due <= at
    requires schedule.Interval? ==> at - due <= I64_MAX
    requires schedule.Calendar? ==>
               var zone := db(schedule.timezone).value;
               DaysAhead(zone) && Covered(zone, schedule.rule, due, at)
    ensures LatestDue(db, schedule, due, at, anchor).Ok?
  {
    if schedule.Calendar? {
      FollowSucceeds(db, schedule, anchor, due, FirstCursor(due, at), at);
    }
  }

  // ------------------------------------------------------- What a claim means

  ghost predicate ZoneLaws(db: ZoneDb, schedule: Schedule) {
    schedule.Calendar? && db(schedule.timezone).Some? ==>
      var zone := db(schedule.timezone).value;
      Ordered(zone) && Steady(zone) && SparseGaps(zone, schedule.rule)
  }

  lemma SameGrid(step: int, anchor: int, due: int, t: int)
    requires 0 < step && OnGrid(due, step, anchor)
    ensures OnGrid(t, step, due) <==> OnGrid(t, step, anchor)
  {
    var k := (due - anchor) / step;
    assert due - anchor == k * step;
    if OnGrid(t, step, due) {
      var m := (t - due) / step;
      assert t - due == m * step;
      assert t == anchor + (m + k) * step;
      GridPoint(step, anchor, m + k);
    }
    if OnGrid(t, step, anchor) {
      var m := (t - anchor) / step;
      assert t - anchor == m * step;
      assert t == due + (m - k) * step;
      GridPoint(step, due, m - k);
    }
  }

  // `next` answers the least firing after `after`, for every kind of schedule.
  lemma {:induction false} NextIsLeastFiring(db: ZoneDb, schedule: Schedule, after: Instant, anchor: Instant)
    requires Next(db, schedule, after, anchor).Ok? && !schedule.Manual? && ZoneLaws(db, schedule)
    ensures var t := Next(db, schedule, after, anchor).value.value;
            && Fires(db, schedule, anchor, t) && after < t
            && forall u: Instant :: Fires(db, schedule, anchor, u) && after < u ==> t <= u
  {
    match schedule {
      case Interval(minutes) =>
        IntervalNextIsExact(minutes * 60, after, anchor);
      case Calendar(rule, timezone) =>
        CalendarNextIsLeast(db(timezone).value, rule, after);
    }
  }

  // `latest_due` answers the greatest firing not after `at`.
  lemma {:induction false} LatestDueIsGreatestFiring(db: ZoneDb, schedule: Schedule, due: Instant, at: Instant, anchor: Instant)
    requires Validate(db, schedule).Ok? && ZoneLaws(db, schedule) && Fires(db, schedule, anchor, due)
    requires due <= at && (schedule.Interval? ==> at - due <= I64_MAX)
    requires schedule.Calendar? ==> db(schedule.timezone).value.localDay(at).Some?
    requires LatestDue(db, schedule, due, at, anchor).Ok?
    ensures var t := LatestDue(db, schedule, due, at, anchor).value;
            && Fires(db, schedule, anchor, t) && due <= t <= at
            && forall u: Instant :: Fires(db, schedule, anchor, u) && u <= at ==> u <= t
  {
    LatestDueBounds(db, schedule, due, at, anchor);
    match schedule {
      case Interval(minutes) =>
        IntervalDueIsGreatest(db, minutes, due, at, anchor);
        forall u: int ensures OnGrid(u, minutes * 60, due) <==> OnGrid(u, minutes * 60, anchor) {
          SameGrid(minutes * 60, anchor, due, u);
        }
      case Calendar(rule, timezone) =>
        CalendarDueIsGreatest(db, schedule, due, at, anchor);
    }
  }
}
