/** The availability schedule of the inbound worker (internal/commworker/server.go), on windows already read.
    Times are nanoseconds since the Unix epoch in local time, and zones are fixed offsets. */
module Schedule {
  import opened Base

  const MIN: int := 60 * 1_000_000_000
  const DAY: int := 1440 * MIN

  function DayOf(t: int): int { t / DAY }
  function MinuteOf(t: int): int { t % DAY / MIN }
  function At(day: int, minute: int): int { day * DAY + minute * MIN }

  /** Day and minute locate an instant: it lies within its minute, and its day within the calendar. */
  lemma Clock(t: int)
    ensures 0 <= MinuteOf(t) < 1440
    ensures At(DayOf(t), MinuteOf(t)) <= t < At(DayOf(t), MinuteOf(t)) + MIN
    ensures At(DayOf(t), 0) <= t < At(DayOf(t) + 1, 0)
  {
    var r := t % DAY;
    assert t == DayOf(t) * DAY + r && 0 <= r < DAY;
    assert r == r / MIN * MIN + r % MIN;
  }

  lemma ClockAt(day: int, minute: int)
    requires 0 <= minute < 1440
    ensures DayOf(At(day, minute)) == day && MinuteOf(At(day, minute)) == minute
  {
    var t, m := At(day, minute), minute * MIN;
    assert 0 <= m < DAY;
    assert t / DAY == day && t % DAY == m;
    assert m / MIN == minute;
  }

  /** Within one day, later instants have later minutes. */
  lemma SameDayOrder(t: int, u: int)
    requires t <= u && DayOf(t) == DayOf(u)
    ensures MinuteOf(t) <= MinuteOf(u)
  {
    Clock(t);
    Clock(u);
  }

  /** The epoch fell on a Thursday; Sunday is day zero of the week. */
  function Weekday(day: int): (w: int)
    ensures 0 <= w < 7
  {
    (day + 4) % 7
  }

  type Minute = m: int | 0 <= m < 1440

  /** A window as the scheduler understands it: the recognised weekdays, and the clock times that could be read. */
  datatype Slot = Slot(days: set<int>, start: Option<Minute>, end: Option<Minute>)

  /** The window is listed for the day and its start can be read. */
  predicate Opens(w: Slot, day: int) { Weekday(day) in w.days && w.start.Some? }

  function OpensAt(w: Slot, day: int): int
    requires Opens(w, day)
  {
    At(day, w.start.value)
  }

  /** A window covers a minute of a listed day. One that ends no later than it starts covers the early and
      the late part of that same day. */
  predicate Covers(w: Slot, day: int, minute: int) {
    && Opens(w, day) && w.end.Some?
    && if w.end.value > w.start.value then w.start.value <= minute < w.end.value
       else minute >= w.start.value || minute < w.end.value
  }

  predicate Inside(t: int, ws: seq<Slot>) {
    exists i :: 0 <= i < |ws| && Covers(ws[i], DayOf(t), MinuteOf(t))
  }

  /** A same-day window is the stretch from its start, included, to its end, excluded, of each listed day. */
  lemma SameDayWindow(w: Slot, t: int)
    requires w.start.Some? && w.end.Some? && w.start.value < w.end.value
    ensures var day := DayOf(t);
            Inside(t, [w]) <==> Weekday(day) in w.days && At(day, w.start.value) <= t < At(day, w.end.value)
  {
    Clock(t);
    assert Inside(t, [w]) <==> Covers([w][0], DayOf(t), MinuteOf(t));
  }

  /** Any other window is all of each listed day but the stretch from its end to its start. */
  lemma OvernightWindow(w: Slot, t: int)
    requires w.start.Some? && w.end.Some? && w.end.value <= w.start.value
    ensures var day := DayOf(t);
            Inside(t, [w]) <==> Weekday(day) in w.days && !(At(day, w.end.value) <= t < At(day, w.start.value))
  {
    Clock(t);
    assert Inside(t, [w]) <==> Covers([w][0], DayOf(t), MinuteOf(t));
  }

  /** Availability is that of the single windows. */
  lemma InsideSome(t: int, ws: seq<Slot>)
    ensures Inside(t, ws) <==> exists i :: 0 <= i < |ws| && Inside(t, [ws[i]])
  {
    if i :| 0 <= i < |ws| && Covers(ws[i], DayOf(t), MinuteOf(t)) {
      assert [ws[i]][0] == ws[i];
      assert Inside(t, [ws[i]]);
    }
  }

  /** The calendar: 1 January 1970 was a Thursday, weekdays follow each other, and days and minutes have their length.
      */
  lemma Calendar(day: int, minute: int)
    ensures Weekday(0) == 4 && Weekday(day + 1) == (Weekday(day) + 1) % 7
    ensures At(day + 1, minute) - At(day, minute) == 24 * 3_600_000_000_000
    ensures At(day, minute + 60) - At(day, minute) == 3_600_000_000_000
  {
  }

  // ---------------------------------------------------------------- the search

  /** The window starts after now on that day. */
  predicate Eligible(now: int, w: Slot, day: int) { Opens(w, day) && OpensAt(w, day) > now }

  function ScanDay(now: int, day: int, ws: seq<Slot>, k: nat): Option<int>
    decreases |ws| - k
  {
    if k >= |ws| then None
    else if Eligible(now, ws[k], day) then Some(OpensAt(ws[k], day))
    else ScanDay(now, day, ws, k + 1)
  }

  function Search(now: int, ws: seq<Slot>, i: nat): Option<int>
    decreases 8 - i
  {
    if i >= 8 then None
    else
      var hit := ScanDay(now, DayOf(now) + i, ws, 0);
      if hit.Some? then hit else Search(now, ws, i + 1)
  }

  function NextStart(now: int, ws: seq<Slot>): Option<int> { Search(now, ws, 0) }

  lemma {:induction false} ScanDayChoice(now: int, day: int, ws: seq<Slot>, k: nat) returns (c: nat)
    requires k <= |ws|
    ensures k <= c <= |ws| && (forall j :: k <= j < c ==> !Eligible(now, ws[j], day))
    ensures ScanDay(now, day, ws, k).Some? <==> c < |ws|
    ensures c < |ws| ==> Eligible(now, ws[c], day) && ScanDay(now, day, ws, k) == Some(OpensAt(ws[c], day))
    decreases |ws| - k
  {
    if k >= |ws| || Eligible(now, ws[k], day) {
      c := k;
    } else {
      c := ScanDayChoice(now, day, ws, k + 1);
    }
  }

  /** No window is eligible on any of these days. */
  predicate NoneBefore(now: int, ws: seq<Slot>, from: int, to: int) {
    forall d, j :: from <= d < to && 0 <= j < |ws| ==> !Eligible(now, ws[j], d)
  }

  lemma {:induction false} SearchChoice(now: int, ws: seq<Slot>, i: nat) returns (d: int, c: nat)
    requires i <= 8
    ensures DayOf(now) + i <= d <= DayOf(now) + 8 && NoneBefore(now, ws, DayOf(now) + i, d)
    ensures Search(now, ws, i).Some? <==> d < DayOf(now) + 8
    ensures d < DayOf(now) + 8 ==> c < |ws| && Eligible(now, ws[c], d) && Search(now, ws, i) == Some(OpensAt(ws[c], d))
    ensures d < DayOf(now) + 8 ==> forall j :: 0 <= j < c ==> !Eligible(now, ws[j], d)
    decreases 8 - i
  {
    if i == 8 {
      d, c := DayOf(now) + 8, 0;
    } else {
      d := DayOf(now) + i;
      c := ScanDayChoice(now, d, ws, 0);
      if c == |ws| {
        d, c := SearchChoice(now, ws, i + 1);
      }
    }
  }

  // ---------------------------------------------------------------- main results

  /** The returned start is strictly after now and at most seven days ahead; it lies inside a window
      whenever the chosen window's end can be read. */
  lemma NextStartIsAhead(now: int, ws: seq<Slot>) returns (d: int, c: nat)
    requires NextStart(now, ws).Some?
    ensures var t := NextStart(now, ws).value;
            && now < t <= now + 7 * DAY
            && c < |ws| && Opens(ws[c], d) && t == OpensAt(ws[c], d) && DayOf(t) == d
            && (ws[c].end.Some? ==> Inside(t, ws))
  {
    d, c := SearchChoice(now, ws, 0);
    var s := ws[c].start.value;
    Clock(now);
    ClockAt(d, s);
    if d == DayOf(now) + 7 {
      assert Weekday(d) == Weekday(DayOf(now));
      assert Opens(ws[c], DayOf(now)) && !Eligible(now, ws[c], DayOf(now));
    }
    if ws[c].end.Some? {
      assert Covers(ws[c], d, s);
    }
  }

  /** A window that can be used on some day. */
  predicate Usable(w: Slot) { exists wd :: 0 <= wd < 7 && wd in w.days && w.start.Some? }

  /** The eight-day search finds nothing exactly when no window has both a recognised weekday and a readable start. */
  lemma NothingFoundIff(now: int, ws: seq<Slot>)
    ensures NextStart(now, ws).None? <==> forall i :: 0 <= i < |ws| ==> !Usable(ws[i])
  {
    var d, c := SearchChoice(now, ws, 0);
    if NextStart(now, ws).None? {
      forall i | 0 <= i < |ws| ensures !Usable(ws[i]) {
        if Usable(ws[i]) {
          var wd :| 0 <= wd < 7 && wd in ws[i].days && ws[i].start.Some?;
          var day := NextWithWeekday(DayOf(now), wd);
          Clock(now);
          assert Eligible(now, ws[i], day);
        }
      }
    } else {
      assert Usable(ws[c]);
    }
  }

  lemma NextWithWeekday(day: int, wd: int) returns (d: int)
    requires 0 <= wd < 7
    ensures day < d <= day + 7 && Weekday(d) == wd
  {
    d := day + 1 + (wd - Weekday(day + 1)) % 7;
  }

  // ---------------------------------------------------------------- is it the earliest?

  /** An overnight window makes the midnight of a listed day available, although the search looks only at starts. */
  predicate MidnightOpening(now: int, t: int, w: Slot, d: int) {
    && DayOf(now) < d && At(d, 0) < t
    && Opens(w, d) && w.end.Some? && 0 < w.end.value <= w.start.value
  }

  /** Another window of the chosen day starts between now and the chosen start. */
  predicate EarlierStart(now: int, t: int, w: Slot) {
    && Eligible(now, w, DayOf(t)) && OpensAt(w, DayOf(t)) < t && w.end.Some?
  }

  predicate Blocked(now: int, t: int, ws: seq<Slot>) {
    || (exists i, d | DayOf(now) < d <= DayOf(t) && 0 <= i < |ws| :: MidnightOpening(now, t, ws[i], d))
    || (exists i :: 0 <= i < |ws| && EarlierStart(now, t, ws[i]))
  }

  /** The first day from now on with an eligible window, and the first eligible window listed for it. */
  predicate FirstEligible(now: int, ws: seq<Slot>, d: int, c: nat) {
    && DayOf(now) <= d <= DayOf(now) + 7 && NoneBefore(now, ws, DayOf(now), d)
    && c < |ws| && Eligible(now, ws[c], d) && forall j :: 0 <= j < c ==> !Eligible(now, ws[j], d)
  }

  /** When the stretch of availability that holds this minute began. */
  function OpenedAt(w: Slot, minute: int): int
    requires w.start.Some? && w.end.Some?
  {
    if w.end.value <= w.start.value && minute < w.end.value then 0 else w.start.value
  }

  /** Availability that now lacks begins after now. */
  lemma OpenedAfterNow(now: int, u: int, w: Slot)
    requires now <= u && Covers(w, DayOf(u), MinuteOf(u)) && !Covers(w, DayOf(now), MinuteOf(now))
    ensures now < At(DayOf(u), OpenedAt(w, MinuteOf(u))) <= u
  {
    var day, open := DayOf(u), OpenedAt(w, MinuteOf(u));
    Clock(u);
    Clock(now);
    if At(day, open) <= now {
      assert DayOf(now) == day;
      SameDayOrder(now, u);
      ClockAt(day, open);
      SameDayOrder(At(day, open), now);
    }
  }

  /** Availability that began at a start before the chosen one: the search read the day's windows in the wrong order. */
  lemma StartMeansEarlier(now: int, ws: seq<Slot>, u: int, i: nat, d: int, c: nat)
    requires FirstEligible(now, ws, d, c) && i < |ws|
    requires Opens(ws[i], DayOf(u)) && ws[i].end.Some? && now < OpensAt(ws[i], DayOf(u)) <= u < OpensAt(ws[c], d)
    ensures EarlierStart(now, OpensAt(ws[c], d), ws[i])
  {
    var day, t := DayOf(u), OpensAt(ws[c], d);
    Clock(u);
    Clock(now);
    ClockAt(d, ws[c].start.value);
    assert Eligible(now, ws[i], day);
    assert day >= d;
    assert At(day, 0) <= u < t < At(d + 1, 0);
    assert day == d;
  }

  /** An available instant before the chosen start exposes an opening the search passed over. */
  lemma AvailableMeansBlocked(now: int, ws: seq<Slot>, u: int, i: nat)
    requires NextStart(now, ws).Some? && !Inside(now, ws)
    requires now <= u < NextStart(now, ws).value && i < |ws| && Covers(ws[i], DayOf(u), MinuteOf(u))
    ensures Blocked(now, NextStart(now, ws).value, ws)
  {
    var d, c := SearchChoice(now, ws, 0);
    var t := NextStart(now, ws).value;
    var w, day := ws[i], DayOf(u);
    OpenedAfterNow(now, u, w);
    if OpenedAt(w, MinuteOf(u)) == w.start.value {
      StartMeansEarlier(now, ws, u, i, d, c);
    } else {
      MidnightMeansBlocked(now, t, w, day);
      SameOrEarlierDay(u, t);
    }
  }

  lemma MidnightMeansBlocked(now: int, t: int, w: Slot, day: int)
    requires now < At(day, 0) < t && Opens(w, day) && w.end.Some? && 0 < w.end.value <= w.start.value
    ensures MidnightOpening(now, t, w, day)
  {
    Clock(now);
  }

  lemma SameOrEarlierDay(u: int, t: int)
    requires u <= t
    ensures DayOf(u) <= DayOf(t)
  {
    Clock(u);
    Clock(t);
  }

  lemma EarliestUnlessBlocked(now: int, ws: seq<Slot>)
    requires NextStart(now, ws).Some? && !Inside(now, ws)
    ensures (forall u :: now <= u < NextStart(now, ws).value ==> !Inside(u, ws))
       <==> !Blocked(now, NextStart(now, ws).value, ws)
  {
    var t := NextStart(now, ws).value;
    Clock(now);
    if Blocked(now, t, ws) {
      if i, d :| DayOf(now) < d <= DayOf(t) && 0 <= i < |ws| && MidnightOpening(now, t, ws[i], d) {
        ClockAt(d, 0);
        assert Covers(ws[i], d, 0);
        assert now <= At(d, 0) < t && Inside(At(d, 0), ws);
      } else {
        var i :| 0 <= i < |ws| && EarlierStart(now, t, ws[i]);
        var s := ws[i].start.value;
        ClockAt(DayOf(t), s);
        assert Covers(ws[i], DayOf(t), s);
        assert now <= At(DayOf(t), s) < t && Inside(At(DayOf(t), s), ws);
      }
    } else {
      forall u | now <= u < t ensures !Inside(u, ws) {
        if Inside(u, ws) {
          var i :| 0 <= i < |ws| && Covers(ws[i], DayOf(u), MinuteOf(u));
          AvailableMeansBlocked(now, ws, u, i);
        }
      }
    }
  }

  /** A window listed later starts earlier that day, or an overnight window is listed for a midnight up to that start.
      */
  predicate Overlooks(now: int, ws: seq<Slot>, d: int, c: nat)
    requires c < |ws| && ws[c].start.Some?
  {
    || (exists i :: c < i < |ws| && Eligible(now, ws[i], d) && ws[i].end.Some? && ws[i].start.value < ws[c].start.value)
    || (exists i, m | DayOf(now) < m <= d && 0 <= i < |ws| ::
          OpensAtMidnight(ws[i], m) && (m < d || ws[c].start.value > 0))
  }

  predicate OpensAtMidnight(w: Slot, m: int) { Opens(w, m) && w.end.Some? && 0 < w.end.value <= w.start.value }

  /** The schedule makes the search pass over an opening. */
  ghost predicate PassesOver(now: int, ws: seq<Slot>) {
    exists d, c: nat :: FirstEligible(now, ws, d, c) && Overlooks(now, ws, d, c)
  }

  lemma FirstEligibleIsUnique(now: int, ws: seq<Slot>, d: int, c: nat, d': int, c': nat)
    requires FirstEligible(now, ws, d, c) && FirstEligible(now, ws, d', c')
    ensures d == d' && c == c'
  {
  }

  lemma OverlooksMeansBlocked(now: int, ws: seq<Slot>, d: int, c: nat)
    requires FirstEligible(now, ws, d, c)
    ensures Overlooks(now, ws, d, c) <==> Blocked(now, OpensAt(ws[c], d), ws)
  {
    var t := OpensAt(ws[c], d);
    ClockAt(d, ws[c].start.value);
    if Overlooks(now, ws, d, c) {
      if i, m :| DayOf(now) < m <= d && 0 <= i < |ws| && OpensAtMidnight(ws[i], m) && (m < d || ws[c].start.value > 0) {
        assert MidnightOpening(now, t, ws[i], m);
      } else {
        var i :| c < i < |ws| && Eligible(now, ws[i], d) && ws[i].end.Some? && ws[i].start.value < ws[c].start.value;
        assert EarlierStart(now, t, ws[i]);
      }
    }
    if Blocked(now, t, ws) {
      if i, m :| DayOf(now) < m <= DayOf(t) && 0 <= i < |ws| && MidnightOpening(now, t, ws[i], m) {
        assert OpensAtMidnight(ws[i], m);
      } else {
        var i :| 0 <= i < |ws| && EarlierStart(now, t, ws[i]);
        assert c < i;
      }
    }
  }

  /** Exactly when the chosen start is the first available instant, from the schedule and the time alone: an earlier one
      exists if and only if, on the first day with an eligible window, a window listed after the first eligible one
      starts before it, or an overnight window is listed for a midnight before that start. */
  lemma NextStartIsEarliestIff(now: int, ws: seq<Slot>)
    requires (exists i :: 0 <= i < |ws| && Usable(ws[i])) && !Inside(now, ws)
    ensures NextStart(now, ws).Some?
    ensures (forall u :: now <= u < NextStart(now, ws).value ==> !Inside(u, ws)) <==> !PassesOver(now, ws)
  {
    NothingFoundIff(now, ws);
    var d, c := SearchChoice(now, ws, 0);
    assert FirstEligible(now, ws, d, c);
    EarliestUnlessBlocked(now, ws);
    OverlooksMeansBlocked(now, ws, d, c);
    if PassesOver(now, ws) {
      var d', c': nat :| FirstEligible(now, ws, d', c') && Overlooks(now, ws, d', c');
      FirstEligibleIsUnique(now, ws, d, c, d', c');
    }
  }

  /** Same-day windows listed by ascending start, unreadable ones aside. */
  predicate Orderly(ws: seq<Slot>) {
    && (forall i :: 0 <= i < |ws| && ws[i].start.Some? && ws[i].end.Some?
                    ==> ws[i].start.value < ws[i].end.value)
    && (forall i, j :: 0 <= i < j < |ws| && ws[i].start.Some? && ws[j].start.Some?
                       ==> ws[i].start.value <= ws[j].start.value)
  }

  /** For such schedules no instant from now up to the chosen start is available. */
  lemma OrderlyNextIsEarliest(now: int, ws: seq<Slot>)
    requires Orderly(ws) && NextStart(now, ws).Some? && !Inside(now, ws)
    ensures forall u :: now <= u < NextStart(now, ws).value ==> !Inside(u, ws)
  {
    var d, c := SearchChoice(now, ws, 0);
    var t := NextStart(now, ws).value;
    ClockAt(d, ws[c].start.value);
    assert !Blocked(now, t, ws);
    EarliestUnlessBlocked(now, ws);
  }

  // ---------------------------------------------------------------- what the search passes over

  /** Windows listed out of order: at midnight the search answers ten o'clock although eight is available. */
  lemma LaterListedWindowIsPassedOver()
    ensures var all := {0, 1, 2, 3, 4, 5, 6};
            var ws := [Slot(all, Some(600), Some(660)), Slot(all, Some(480), Some(540))];
            && NextStart(At(0, 0), ws) == Some(At(0, 600))
            && Inside(At(0, 480), ws)
  {
    var all := {0, 1, 2, 3, 4, 5, 6};
    var ws := [Slot(all, Some(600), Some(660)), Slot(all, Some(480), Some(540))];
    ClockAt(0, 0);
    ClockAt(0, 480);
    assert Eligible(At(0, 0), ws[0], 0);
    assert ScanDay(At(0, 0), 0, ws, 0) == Some(At(0, 600));
    assert Covers(ws[1], 0, 480);
  }

  /** An overnight window is available in the evenings of its listed days and in the small hours before those evenings;
      the small hours that follow an evening are available if and only if the next day is listed too. */
  lemma OvernightHoursComeFirst(w: Slot, day: int, late: Minute, small: Minute)
    requires w.start.Some? && w.end.Some? && small < w.end.value <= w.start.value <= late
    ensures Inside(At(day, late), [w]) <==> Weekday(day) in w.days
    ensures Inside(At(day, small), [w]) <==> Weekday(day) in w.days
    ensures Inside(At(day + 1, small), [w]) <==> Weekday(day + 1) in w.days
  {
    ClockAt(day, late);
    ClockAt(day, small);
    ClockAt(day + 1, small);
    assert Covers([w][0], day, late) <==> Weekday(day) in w.days;
    assert Covers([w][0], day, small) <==> Weekday(day) in w.days;
    assert Covers([w][0], day + 1, small) <==> Weekday(day + 1) in w.days;
  }

  /** The returned start is available exactly when the end of the chosen window can be read, or another window covers
      it. */
  lemma StartIsInsideIff(now: int, ws: seq<Slot>, d: int, c: nat)
    requires FirstEligible(now, ws, d, c)
    ensures NextStart(now, ws) == Some(OpensAt(ws[c], d))
    ensures Inside(OpensAt(ws[c], d), ws) <==>
            ws[c].end.Some? || exists i :: 0 <= i < |ws| && i != c && Covers(ws[i], d, ws[c].start.value)
  {
    var d', c' := SearchChoice(now, ws, 0);
    if d' < DayOf(now) + 8 {
      FirstEligibleIsUnique(now, ws, d, c, d', c');
    }
    ClockAt(d, ws[c].start.value);
    if ws[c].end.Some? {
      assert Covers(ws[c], d, ws[c].start.value);
    }
  }

  /** For instance: a daily window from nine with an unreadable end is found at midnight and not available at nine. */
  lemma StartCanBeUnavailable()
    ensures var ws := [Slot({0, 1, 2, 3, 4, 5, 6}, Some(540), None)];
            NextStart(At(0, 0), ws) == Some(At(0, 540)) && !Inside(At(0, 540), ws)
  {
    var ws := [Slot({0, 1, 2, 3, 4, 5, 6}, Some(540), None)];
    ClockAt(0, 0);
    assert Eligible(At(0, 0), ws[0], 0);
    assert ScanDay(At(0, 0), 0, ws, 0) == Some(At(0, 540));
  }

  /** A schedule is never available exactly when no usable window has a readable end; the search still finds its starts.
      */
  lemma NeverOpensIff(ws: seq<Slot>)
    ensures (forall t: int :: !Inside(t, ws)) <==> forall i :: 0 <= i < |ws| && Usable(ws[i]) ==> ws[i].end.None?
  {
    if i :| 0 <= i < |ws| && Usable(ws[i]) && ws[i].end.Some? {
      var wd :| 0 <= wd < 7 && wd in ws[i].days && ws[i].start.Some?;
      var day := NextWithWeekday(0, wd);
      ClockAt(day, ws[i].start.value);
      assert Covers(ws[i], day, ws[i].start.value);
      assert Inside(At(day, ws[i].start.value), ws);
    } else {
      forall t: int ensures !Inside(t, ws) {
        if i :| 0 <= i < |ws| && Covers(ws[i], DayOf(t), MinuteOf(t)) {
          assert Weekday(DayOf(t)) in ws[i].days;
          assert Usable(ws[i]);
        }
      }
    }
  }

  /** With only such windows there is always a next start and never an available instant. */
  lemma UnreadableEndsNeverOpen(now: int, ws: seq<Slot>)
    requires forall i :: 0 <= i < |ws| && Usable(ws[i]) ==> ws[i].end.None?
    requires exists i :: 0 <= i < |ws| && Usable(ws[i])
    ensures NextStart(now, ws).Some? && forall t: int :: !Inside(t, ws)
  {
    NothingFoundIff(now, ws);
    NeverOpensIff(ws);
  }
}
