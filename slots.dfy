/** `Profissional.get_horarios_disponiveis` (app_shivazen/models.py:40-99): the free
    30-minute start times one professional offers on one date, as "HH:MM" labels. */
module Slots {
  import opened Tables
  import opened Records

  /** The step of the slot walk (`timedelta(minutes=30)`). */
  const SlotMinutes: int := 30

  // ---------------------------------------------------------------- weekday

  /** Python's `date.isoweekday()` of an ordinal: Monday 1 ... Sunday 7. */
  function IsoWeekday(d: Date): (w: int)
    ensures 1 <= w <= 7 && (d - w) % 7 == 0
  {
    (d + 6) % 7 + 1
  }

  /** The weekday code the availability table uses: Sunday 1, Monday 2 ... Saturday 7. */
  function WeekdayCode(d: Date): (code: int)
    ensures 1 <= code <= 7
    ensures code == 1 <==> IsoWeekday(d) == 7
    ensures IsoWeekday(d) < 7 ==> code == IsoWeekday(d) + 1
  {
    IsoWeekday(d) % 7 + 1
  }

  /** The codes advance by one each day and wrap from Saturday (7) to Sunday (1). */
  lemma WeekdayCodeNextDay(d: Date)
    ensures WeekdayCode(d + 1) == WeekdayCode(d) % 7 + 1
    ensures WeekdayCode(d + 7) == WeekdayCode(d)
  {
  }

  // ------------------------------------------------------ availability lookup

  /** Whether an availability row belongs to professional `p` and weekday `code`. */
  predicate Serves(a: Availability, p: ProfId, code: int)
  {
    a.prof == p && a.weekday == code
  }

  /** `DisponibilidadeProfissional.objects.get(profissional=p, dia_semana=code)`. */
  function FindAvailability(avails: seq<Availability>, p: ProfId, code: int): (r: Lookup<Availability>)
    ensures r.Missing? <==> forall i :: 0 <= i < |avails| ==> !Serves(avails[i], p, code)
    ensures r.Unique? ==> r.value in avails && Serves(r.value, p, code)
    ensures r.Ambiguous? <==>
              exists i, j :: 0 <= i < j < |avails| && Serves(avails[i], p, code) && Serves(avails[j], p, code)
  {
    Get(avails, a => Serves(a, p, code))
  }

  // ------------------------------------------------------------- the queries

  /** The bookings the walk checks: professional `p`, starting on date `d`, and with
      status 'AGENDADO' or 'CONFIRMADO'. */
  function BookingsOn(table: seq<Booking>, p: ProfId, d: Date): (r: seq<Booking>)
    ensures forall b :: b in r <==> b in table && b.prof == p && DateOf(b.start) == d && b.status.Occupying()
  {
    Filter(table, (b: Booking) => b.prof == p && DateOf(b.start) == d && b.status.Occupying())
  }

  /** The blocks the walk checks: professional `p`, and a date range covering `d`.
      A block whose professional is null matches no professional. */
  function BlocksOn(table: seq<Block>, p: ProfId, d: Date): (r: seq<Block>)
    ensures forall b :: b in r <==> b in table && b.prof == Some(p) && DateOf(b.start) <= d <= DateOf(b.end)
  {
    Filter(table, (b: Block) => b.prof == Some(p) && DateOf(b.start) <= d <= DateOf(b.end))
  }

  // ---------------------------------------------------------- point containment

  /** The walk's occupancy test: the half-open interval [start, end) holds the point t. */
  predicate Holds(start: Instant, end: Instant, t: Instant)
  {
    start <= t < end
  }

  predicate Booked(ags: seq<Booking>, t: Instant)
  {
    exists b :: b in ags && Holds(b.start, b.end, t)
  }

  predicate Blocked(bls: seq<Block>, t: Instant)
  {
    exists b :: b in bls && Holds(b.start, b.end, t)
  }

  /** A candidate start is taken when some considered booking or block holds it. */
  predicate Taken(ags: seq<Booking>, bls: seq<Block>, t: Instant)
  {
    Booked(ags, t) || Blocked(bls, t)
  }

  // ------------------------------------------------------------ the slot walk

  /** The free starts of the walk from `t` while `t < end`, in steps of 30 minutes. */
  function FreeFrom(t: Instant, end: Instant, ags: seq<Booking>, bls: seq<Block>): (r: seq<Instant>)
    ensures |r| <= GridCount(t, end)
    decreases end - t
  {
    if t >= end then []
    else (if Taken(ags, bls, t) then [] else [t]) + FreeFrom(t + SlotMinutes, end, ags, bls)
  }

  /** An instant is offered exactly when it is on the 30-minute grid from `t0`, before
      `end`, and not held by any considered booking or block. */
  lemma {:induction false} FreeFromMembership(t0: Instant, end: Instant, ags: seq<Booking>, bls: seq<Block>, x: Instant)
    ensures x in FreeFrom(t0, end, ags, bls) <==>
              t0 <= x < end && (x - t0) % SlotMinutes == 0 && !Taken(ags, bls, x)
    decreases end - t0
  {
    if t0 < end {
      FreeFromMembership(t0 + SlotMinutes, end, ags, bls, x);
      if x != t0 && t0 <= x && (x - t0) % SlotMinutes == 0 {
        assert t0 + SlotMinutes <= x;
        assert (x - (t0 + SlotMinutes)) % SlotMinutes == 0;
      }
    }
  }

  /** The offered starts are strictly ascending, hence free of duplicates. */
  lemma {:induction false} FreeFromAscending(t0: Instant, end: Instant, ags: seq<Booking>, bls: seq<Block>)
    ensures forall i, j :: 0 <= i < j < |FreeFrom(t0, end, ags, bls)| ==>
              FreeFrom(t0, end, ags, bls)[i] < FreeFrom(t0, end, ags, bls)[j]
    decreases end - t0
  {
    if t0 < end {
      var rest := FreeFrom(t0 + SlotMinutes, end, ags, bls);
      FreeFromAscending(t0 + SlotMinutes, end, ags, bls);
      forall k | 0 <= k < |rest| ensures t0 < rest[k] {
        FreeFromMembership(t0 + SlotMinutes, end, ags, bls, rest[k]);
      }
    }
  }

  /** The number of grid points from `t0` that lie before `end`: the ceiling of
      (end - t0) / 30, or 0 when the window is empty. */
  function GridCount(t0: Instant, end: Instant): (n: nat)
    ensures t0 < end ==> (n - 1) * SlotMinutes < end - t0 <= n * SlotMinutes
    ensures t0 >= end ==> n == 0
  {
    if t0 < end then (end - t0 + SlotMinutes - 1) / SlotMinutes else 0
  }

  /** With nothing booked or blocked, the walk offers every grid point of the window,
      including a last one that ends after `end`. */
  lemma {:induction false} FreeFromUnobstructed(t0: Instant, end: Instant)
    ensures FreeFrom(t0, end, [], []) == seq(GridCount(t0, end), k => t0 + SlotMinutes * k)
    decreases end - t0
  {
    if t0 < end {
      FreeFromUnobstructed(t0 + SlotMinutes, end);
      assert !Taken([], [], t0);
      var n := GridCount(t0, end);
      assert GridCount(t0 + SlotMinutes, end) == n - 1;
      var rest := seq(n - 1, k => t0 + SlotMinutes + SlotMinutes * k);
      assert [t0] + rest == seq(n, k => t0 + SlotMinutes * k);
    }
  }

  // ----------------------------------------------------------------- labels

  function DigitChar(n: int): char
    requires 0 <= n < 10
  {
    '0' + n as char
  }

  predicate IsDigit(c: char)
  {
    '0' <= c <= '9'
  }

  function DigitValue(c: char): (n: int)
    requires IsDigit(c)
    ensures 0 <= n < 10 && DigitChar(n) == c
  {
    (c - '0') as int
  }

  /** A two-digit zero-padded number. */
  function TwoDigits(n: int): string
    requires 0 <= n < 100
  {
    [DigitChar(n / 10), DigitChar(n % 10)]
  }

  /** The two digits read back as the number they were made from. */
  lemma TwoDigitsRoundTrip(n: int)
    requires 0 <= n < 100
    ensures |TwoDigits(n)| == 2 && IsDigit(TwoDigits(n)[0]) && IsDigit(TwoDigits(n)[1])
    ensures 10 * DigitValue(TwoDigits(n)[0]) + DigitValue(TwoDigits(n)[1]) == n
  {
  }

  /** `strftime('%H:%M')` of a clock reading: zero-padded hour, a colon, zero-padded minute. */
  function Label(m: MinuteOfDay): (s: string)
    ensures |s| == 5 && s[2] == ':'
    ensures IsDigit(s[0]) && IsDigit(s[1]) && IsDigit(s[3]) && IsDigit(s[4])
  {
    var h, mm := m / 60, m % 60;
    [DigitChar(h / 10), DigitChar(h % 10), ':', DigitChar(mm / 10), DigitChar(mm % 10)]
  }

  /** Reads back a label of the form "HH:MM" with HH below 24 and MM below 60. */
  function ParseLabel(s: string): (r: Option<MinuteOfDay>)
    ensures r.Some? ==> |s| == 5 && s[2] == ':'
  {
    if |s| == 5 && s[2] == ':' && IsDigit(s[0]) && IsDigit(s[1]) && IsDigit(s[3]) && IsDigit(s[4]) then
      var h := 10 * DigitValue(s[0]) + DigitValue(s[1]);
      var mm := 10 * DigitValue(s[3]) + DigitValue(s[4]);
      if h < 24 && mm < 60 then Some(60 * h + mm) else None
    else None
  }

  /** Parsing a label gives back the clock reading it was made from. */
  lemma LabelRoundTrip(m: MinuteOfDay)
    ensures ParseLabel(Label(m)) == Some(m)
  {
    var s := Label(m);
    TwoDigitsRoundTrip(m / 60);
    TwoDigitsRoundTrip(m % 60);
    assert s[..2] == TwoDigits(m / 60) && s[3..] == TwoDigits(m % 60);
  }

  /** Every label that parses is the label of what it parses to: the format is exact. */
  lemma ParsedLabelIsCanonical(s: string, m: MinuteOfDay)
    requires ParseLabel(s) == Some(m)
    ensures Label(m) == s
  {
    var h := 10 * DigitValue(s[0]) + DigitValue(s[1]);
    var mm := 10 * DigitValue(s[3]) + DigitValue(s[4]);
    var m := 60 * h + mm;
    assert m / 60 == h && m % 60 == mm;
    assert TwoDigits(h) == s[..2];
    assert TwoDigits(mm) == s[3..];
    assert s == s[..2] + ":" + s[3..];
  }

  /** The labels of a list of instants, each read as its clock time. */
  function LabelsOf(ts: seq<Instant>): (r: seq<string>)
    ensures |r| == |ts|
    decreases |ts|
  {
    if ts == [] then [] else [Label(ClockOf(ts[0]))] + LabelsOf(ts[1..])
  }

  /** The label at each position is the label of the instant at that position. */
  lemma {:induction false} LabelsOfAt(ts: seq<Instant>, i: int)
    requires 0 <= i < |ts|
    ensures LabelsOf(ts)[i] == Label(ClockOf(ts[i]))
    decreases |ts|
  {
    if i > 0 {
      LabelsOfAt(ts[1..], i - 1);
    }
  }

  // ------------------------------------------------------------- the result

  datatype SlotError = MultipleAvailability

  /** What `get_horarios_disponiveis` returns for professional `p` on date `d`; a
      professional with two rows for that weekday makes `.get()` raise. */
  function AvailableSlots(avails: seq<Availability>, bookings: seq<Booking>, blocks: seq<Block>,
                          p: ProfId, d: Date): (r: Result<seq<string>, SlotError>)
    ensures r.Err? <==> FindAvailability(avails, p, WeekdayCode(d)).Ambiguous?
    ensures r.Ok? && FindAvailability(avails, p, WeekdayCode(d)).Unique? ==>
              var a := FindAvailability(avails, p, WeekdayCode(d)).value;
              |r.value| <= GridCount(a.startTime, a.endTime)
  {
    match FindAvailability(avails, p, WeekdayCode(d))
    case Missing => Ok([])
    case Ambiguous => Err(MultipleAvailability)
    case Unique(a) =>
      Ok(LabelsOf(FreeFrom(Combine(d, a.startTime), Combine(d, a.endTime),
                           BookingsOn(bookings, p, d), BlocksOn(blocks, p, d))))
  }

  /** One step of the walk. */
  lemma FreeFromStep(t: Instant, end: Instant, ags: seq<Booking>, bls: seq<Block>)
    requires t < end
    ensures FreeFrom(t, end, ags, bls) ==
              (if Taken(ags, bls, t) then [] else [t]) + FreeFrom(t + SlotMinutes, end, ags, bls)
  {
  }

  /** Labelling one more start appends its label. */
  lemma {:induction false} LabelsOfAppend(ts: seq<Instant>, t: Instant)
    ensures LabelsOf(ts + [t]) == LabelsOf(ts) + [Label(ClockOf(t))]
    decreases |ts|
  {
    if ts != [] {
      assert (ts + [t])[1..] == ts[1..] + [t];
      LabelsOfAppend(ts[1..], t);
    }
  }

  /** One pass of the walk's loop body keeps its invariant: a start that is not taken
      joins the emitted starts, and its label joins the labels. */
  lemma WalkStep(t0: Instant, t: Instant, end: Instant, ags: seq<Booking>, bls: seq<Block>,
                 emitted: seq<Instant>, occupied: bool)
    requires t < end && emitted + FreeFrom(t, end, ags, bls) == FreeFrom(t0, end, ags, bls)
    requires occupied <==> Taken(ags, bls, t)
    ensures occupied ==> emitted + FreeFrom(t + SlotMinutes, end, ags, bls) == FreeFrom(t0, end, ags, bls)
    ensures !occupied ==> (emitted + [t]) + FreeFrom(t + SlotMinutes, end, ags, bls) == FreeFrom(t0, end, ags, bls)
    ensures LabelsOf(emitted + [t]) == LabelsOf(emitted) + [Label(ClockOf(t))]
  {
    FreeFromStep(t, end, ags, bls);
    LabelsOfAppend(emitted, t);
    var rest := FreeFrom(t + SlotMinutes, end, ags, bls);
    if occupied {
      assert [] + rest == rest;
    } else {
      assert emitted + ([t] + rest) == (emitted + [t]) + rest;
    }
  }

  /** The `for ag in agendamentos` scan with its early `break`. */
  method ScanBookings(ags: seq<Booking>, t: Instant) returns (occupied: bool)
    ensures occupied <==> Booked(ags, t)
  {
    occupied := false;
    var i := 0;
    while i < |ags|
      invariant 0 <= i <= |ags|
      invariant forall k :: 0 <= k < i ==> !Holds(ags[k].start, ags[k].end, t)
    {
      if t >= ags[i].start && t < ags[i].end {
        occupied := true;
        break;
      }
      i := i + 1;
    }
  }

  /** The `for bl in bloqueios` scan with its early `break`. */
  method ScanBlocks(bls: seq<Block>, t: Instant) returns (occupied: bool)
    ensures occupied <==> Blocked(bls, t)
  {
    occupied := false;
    var i := 0;
    while i < |bls|
      invariant 0 <= i <= |bls|
      invariant forall k :: 0 <= k < i ==> !Holds(bls[k].start, bls[k].end, t)
    {
      if bls[i].start <= t < bls[i].end {
        occupied := true;
        break;
      }
      i := i + 1;
    }
  }

  /** The walk over the working window: from `t0`, while before `end`, scan the considered
      bookings for one holding the start, scan the blocks only if none does, append the
      start's label if it is still free, and advance 30 minutes. */
  method WalkWindow(t0: Instant, end: Instant, ags: seq<Booking>, bls: seq<Block>) returns (slots: seq<string>)
    ensures slots == LabelsOf(FreeFrom(t0, end, ags, bls))
  {
    slots := [];
    var t := t0;
    ghost var emitted: seq<Instant> := [];
    while t < end
      invariant emitted + FreeFrom(t, end, ags, bls) == FreeFrom(t0, end, ags, bls)
      invariant slots == LabelsOf(emitted)
      decreases end - t
    {
      var occupied := ScanBookings(ags, t);
      if !occupied {
        occupied := ScanBlocks(bls, t);
      }
      WalkStep(t0, t, end, ags, bls, emitted, occupied);
      if !occupied {
        slots := slots + [Label(ClockOf(t))];
        emitted := emitted + [t];
      }
      t := t + SlotMinutes;
    }
    assert emitted + [] == emitted;
  }

  /** The whole of `get_horarios_disponiveis`: look up the window for the date's weekday
      code, gather the bookings and blocks to check, and walk the window. */
  method GetAvailableSlots(avails: seq<Availability>, bookings: seq<Booking>, blocks: seq<Block>,
                           p: ProfId, d: Date) returns (r: Result<seq<string>, SlotError>)
    ensures r == AvailableSlots(avails, bookings, blocks, p, d)
  {
    var code := WeekdayCode(d);
    var found := FindAvailability(avails, p, code);
    if found.Missing? {
      return Ok([]);
    }
    if found.Ambiguous? {
      return Err(MultipleAvailability);
    }
    var a := found.value;
    var ags := BookingsOn(bookings, p, d);
    var bls := BlocksOn(blocks, p, d);
    var slots := WalkWindow(Combine(d, a.startTime), Combine(d, a.endTime), ags, bls);
    return Ok(slots);
  }

  // ---------------------------------------------------- what the result promises

  /** A professional without a row for the date's weekday code offers nothing. */
  lemma NoWindowNoSlots(avails: seq<Availability>, bookings: seq<Booking>, blocks: seq<Block>, p: ProfId, d: Date)
    requires forall a :: a in avails ==> !Serves(a, p, WeekdayCode(d))
    ensures AvailableSlots(avails, bookings, blocks, p, d) == Ok([])
  {
    assert forall i :: 0 <= i < |avails| ==> avails[i] in avails;
    assert FindAvailability(avails, p, WeekdayCode(d)).Missing?;
  }

  /** A window whose start is not before its end offers nothing. */
  lemma EmptyWindowNoSlots(avails: seq<Availability>, bookings: seq<Booking>, blocks: seq<Block>, p: ProfId, d: Date)
    requires FindAvailability(avails, p, WeekdayCode(d)).Unique?
    requires FindAvailability(avails, p, WeekdayCode(d)).value.startTime >= FindAvailability(avails, p, WeekdayCode(d)).value.endTime
    ensures AvailableSlots(avails, bookings, blocks, p, d) == Ok([])
  {
  }

  /** An instant within date `d` reads as its offset from that date's midnight. */
  lemma ClockWithinDay(d: Date, t: Instant)
    requires Combine(d, 0) <= t < Combine(d, 0) + MinutesPerDay
    ensures DateOf(t) == d && ClockOf(t) == t - Combine(d, 0)
  {
  }

  /** Each label of a list of instants reads back as that instant's clock time. */
  lemma LabelsOfReadBack(ts: seq<Instant>, i: int)
    requires 0 <= i < |ts|
    ensures ParseLabel(LabelsOf(ts)[i]) == Some(ClockOf(ts[i]))
  {
    LabelsOfAt(ts, i);
    LabelRoundTrip(ClockOf(ts[i]));
  }

  /** Each free start of the walk lies in the window on date `d`, on its grid, unheld. */
  lemma FreeStartInWindow(d: Date, a: Availability, ags: seq<Booking>, bls: seq<Block>, i: int)
    requires 0 <= i < |FreeFrom(Combine(d, a.startTime), Combine(d, a.endTime), ags, bls)|
    ensures var t := FreeFrom(Combine(d, a.startTime), Combine(d, a.endTime), ags, bls)[i];
      && a.startTime <= ClockOf(t) < a.endTime
      && (ClockOf(t) - a.startTime) % SlotMinutes == 0
      && t == Combine(d, ClockOf(t))
      && !Taken(ags, bls, t)
  {
    var t0, end := Combine(d, a.startTime), Combine(d, a.endTime);
    var t := FreeFrom(t0, end, ags, bls)[i];
    FreeFromMembership(t0, end, ags, bls, t);
    ClockWithinDay(d, t);
  }

  /** The walk's free starts, read back through their labels. */
  lemma FreeLabelsReadBack(d: Date, a: Availability, ags: seq<Booking>, bls: seq<Block>, i: int)
    requires 0 <= i < |FreeFrom(Combine(d, a.startTime), Combine(d, a.endTime), ags, bls)|
    ensures var free := FreeFrom(Combine(d, a.startTime), Combine(d, a.endTime), ags, bls);
      && ParseLabel(LabelsOf(free)[i]) == Some(ClockOf(free[i]))
      && a.startTime <= ClockOf(free[i]) < a.endTime
      && (ClockOf(free[i]) - a.startTime) % SlotMinutes == 0
      && free[i] == Combine(d, ClockOf(free[i]))
      && !Taken(ags, bls, free[i])
  {
    LabelsOfReadBack(FreeFrom(Combine(d, a.startTime), Combine(d, a.endTime), ags, bls), i);
    FreeStartInWindow(d, a, ags, bls, i);
  }

  /** Every label offered reads back as a clock time on the 30-minute grid of the window,
      at or after its start and before its end, that no considered booking or block
      holds. */
  lemma SlotsOnGrid(avails: seq<Availability>, bookings: seq<Booking>, blocks: seq<Block>,
                    p: ProfId, d: Date, a: Availability, labels: seq<string>)
    requires FindAvailability(avails, p, WeekdayCode(d)) == Unique(a)
    requires AvailableSlots(avails, bookings, blocks, p, d) == Ok(labels)
    ensures forall i :: 0 <= i < |labels| ==>
              && ParseLabel(labels[i]).Some?
              && a.startTime <= ParseLabel(labels[i]).value < a.endTime
              && (ParseLabel(labels[i]).value - a.startTime) % SlotMinutes == 0
              && !Taken(BookingsOn(bookings, p, d), BlocksOn(blocks, p, d), Combine(d, ParseLabel(labels[i]).value))
  {
    var ags, bls := BookingsOn(bookings, p, d), BlocksOn(blocks, p, d);
    var free := FreeFrom(Combine(d, a.startTime), Combine(d, a.endTime), ags, bls);
    assert labels == LabelsOf(free);
    forall i | 0 <= i < |labels|
      ensures && ParseLabel(labels[i]).Some?
              && a.startTime <= ParseLabel(labels[i]).value < a.endTime
              && (ParseLabel(labels[i]).value - a.startTime) % SlotMinutes == 0
              && !Taken(ags, bls, Combine(d, ParseLabel(labels[i]).value))
    {
      FreeLabelsReadBack(d, a, ags, bls, i);
    }
  }

  /** The labels offered are in strictly ascending clock order, so none repeats. */
  lemma SlotsAscending(avails: seq<Availability>, bookings: seq<Booking>, blocks: seq<Block>,
                       p: ProfId, d: Date, a: Availability, labels: seq<string>)
    requires FindAvailability(avails, p, WeekdayCode(d)) == Unique(a)
    requires AvailableSlots(avails, bookings, blocks, p, d) == Ok(labels)
    ensures forall i :: 0 <= i < |labels| ==> ParseLabel(labels[i]).Some?
    ensures forall i, j :: 0 <= i < j < |labels| ==> ParseLabel(labels[i]).value < ParseLabel(labels[j]).value
  {
    var ags, bls := BookingsOn(bookings, p, d), BlocksOn(blocks, p, d);
    var free := FreeFrom(Combine(d, a.startTime), Combine(d, a.endTime), ags, bls);
    assert labels == LabelsOf(free);
    var clocks := seq(|free|, k requires 0 <= k < |free| => ClockOf(free[k]));
    forall i | 0 <= i < |labels|
      ensures ParseLabel(labels[i]) == Some(clocks[i])
      ensures free[i] == Combine(d, clocks[i])
    {
      LabelsOfReadBack(free, i);
      FreeStartInWindow(d, a, ags, bls, i);
    }
    FreeFromAscending(Combine(d, a.startTime), Combine(d, a.endTime), ags, bls);
    assert forall i, j :: 0 <= i < j < |labels| ==> clocks[i] < clocks[j];
  }

  /** A label of the walk reads back as a clock time that no considered booking or
      block holds, on the window's grid. */
  lemma WalkOffersOnlyFree(d: Date, a: Availability, ags: seq<Booking>, bls: seq<Block>, m: MinuteOfDay)
    requires Label(m) in LabelsOf(FreeFrom(Combine(d, a.startTime), Combine(d, a.endTime), ags, bls))
    ensures a.startTime <= m < a.endTime && (m - a.startTime) % SlotMinutes == 0
    ensures !Taken(ags, bls, Combine(d, m))
  {
    var free := FreeFrom(Combine(d, a.startTime), Combine(d, a.endTime), ags, bls);
    var labels := LabelsOf(free);
    var i :| 0 <= i < |labels| && labels[i] == Label(m);
    LabelsOfReadBack(free, i);
    LabelRoundTrip(m);
    FreeStartInWindow(d, a, ags, bls, i);
  }

  /** Every grid clock time of the window that nothing considered holds gets a label. */
  lemma WalkOffersEveryFree(d: Date, a: Availability, ags: seq<Booking>, bls: seq<Block>, m: MinuteOfDay)
    requires a.startTime <= m < a.endTime && (m - a.startTime) % SlotMinutes == 0
    requires !Taken(ags, bls, Combine(d, m))
    ensures Label(m) in LabelsOf(FreeFrom(Combine(d, a.startTime), Combine(d, a.endTime), ags, bls))
  {
    var t0, end := Combine(d, a.startTime), Combine(d, a.endTime);
    var free := FreeFrom(t0, end, ags, bls);
    FreeFromMembership(t0, end, ags, bls, Combine(d, m));
    var i :| 0 <= i < |free| && free[i] == Combine(d, m);
    LabelsOfReadBack(free, i);
    ParsedLabelIsCanonical(LabelsOf(free)[i], m);
  }

  /** Only a clock time that no considered booking or block holds is offered. */
  lemma OfferedSlotIsFree(avails: seq<Availability>, bookings: seq<Booking>, blocks: seq<Block>,
                          p: ProfId, d: Date, a: Availability, labels: seq<string>, m: MinuteOfDay)
    requires FindAvailability(avails, p, WeekdayCode(d)) == Unique(a)
    requires AvailableSlots(avails, bookings, blocks, p, d) == Ok(labels)
    requires Label(m) in labels
    ensures a.startTime <= m < a.endTime && (m - a.startTime) % SlotMinutes == 0
    ensures !Taken(BookingsOn(bookings, p, d), BlocksOn(blocks, p, d), Combine(d, m))
  {
    WalkOffersOnlyFree(d, a, BookingsOn(bookings, p, d), BlocksOn(blocks, p, d), m);
  }

  /** Every grid clock time inside the window that nothing holds is offered. */
  lemma FreeSlotIsOffered(avails: seq<Availability>, bookings: seq<Booking>, blocks: seq<Block>,
                          p: ProfId, d: Date, a: Availability, labels: seq<string>, m: MinuteOfDay)
    requires FindAvailability(avails, p, WeekdayCode(d)) == Unique(a)
    requires AvailableSlots(avails, bookings, blocks, p, d) == Ok(labels)
    requires a.startTime <= m < a.endTime && (m - a.startTime) % SlotMinutes == 0
    requires !Taken(BookingsOn(bookings, p, d), BlocksOn(blocks, p, d), Combine(d, m))
    ensures Label(m) in labels
  {
    WalkOffersEveryFree(d, a, BookingsOn(bookings, p, d), BlocksOn(blocks, p, d), m);
  }

  /** With no booking or block to consider, the walk offers every grid start of the
      window: the ceiling of (end - start) / 30 labels, the last of which may end after
      the window closes. */
  lemma UnobstructedSlots(avails: seq<Availability>, bookings: seq<Booking>, blocks: seq<Block>,
                          p: ProfId, d: Date, a: Availability)
    requires FindAvailability(avails, p, WeekdayCode(d)) == Unique(a)
    requires BookingsOn(bookings, p, d) == [] && BlocksOn(blocks, p, d) == []
    ensures AvailableSlots(avails, bookings, blocks, p, d) ==
              Ok(LabelsOf(seq(GridCount(a.startTime, a.endTime), k => Combine(d, a.startTime) + SlotMinutes * k)))
    ensures |AvailableSlots(avails, bookings, blocks, p, d).value| == GridCount(a.startTime, a.endTime)
  {
    FreeFromUnobstructed(Combine(d, a.startTime), Combine(d, a.endTime));
    assert GridCount(Combine(d, a.startTime), Combine(d, a.endTime)) == GridCount(a.startTime, a.endTime);
  }

  /** 2024-10-30 is a Wednesday: ordinal 739189, weekday code 4. A 09:00-09:45 window
      with nothing booked offers 09:30 too, although that slot runs to 10:00. */
  lemma LastSlotOverrunsWindow()
    ensures AvailableSlots([Availability(1, 4, 540, 585)], [], [], 1, 739189) == Ok(["09:00", "09:30"])
  {
    var a := Availability(1, 4, 540, 585);
    assert WeekdayCode(739189) == 4;
    assert Serves(a, 1, 4);
    assert FindAvailability([a], 1, 4) == Unique(a);
    assert BookingsOn([], 1, 739189) == [] && BlocksOn([], 1, 739189) == [];
    UnobstructedSlots([a], [], [], 1, 739189, a);
    var base := Combine(739189, 540);
    var starts := seq(GridCount(540, 585), k => base + SlotMinutes * k);
    assert starts == [base, base + 30];
    ClockWithinDay(739189, base);
    ClockWithinDay(739189, base + 30);
    assert LabelsOf(starts) == [Label(540), Label(570)] by {
      assert starts[1..] == [base + 30];
    }
    NineOClockLabels();
  }

  lemma NineOClockLabels()
    ensures Label(540) == "09:00" && Label(570) == "09:30"
  {
  }

  lemma MidnightLabel()
    ensures Label(0) == "00:00"
  {
  }
}
