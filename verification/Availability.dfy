/** The decision of the inbound worker (internal/commworker/server.go): deliver now, or when to try again.
    The loops are written for any way of reading a window; the worker reads it from its texts. */
module AvailabilityLoops {
  import opened Base
  import opened Schedule

  function Slots<W>(ws: seq<W>, read: W -> Slot): (r: seq<Slot>)
    ensures |r| == |ws| && forall i :: 0 <= i < |ws| ==> r[i] == read(ws[i])
  {
    seq(|ws|, i requires 0 <= i < |ws| => read(ws[i]))
  }

  method InAvailabilityWindow<W>(now: int, ws: seq<W>, read: W -> Slot) returns (r: bool)
    ensures r <==> Inside(now, Slots(ws, read))
  {
    var day := DayOf(now);
    var cur := MinuteOf(now);
    ghost var slots := Slots(ws, read);
    for i := 0 to |ws|
      invariant forall j :: 0 <= j < i ==> !Covers(slots[j], day, cur)
    {
      var w := read(ws[i]);
      assert w == slots[i];
      if Weekday(day) !in w.days {
        continue;
      }
      if w.start.None? || w.end.None? {
        continue;
      }
      if w.end.value > w.start.value {
        if cur >= w.start.value && cur < w.end.value {
          return true;
        }
        continue;
      }
      if cur >= w.start.value || cur < w.end.value {
        return true;
      }
    }
    return false;
  }

  method NextAvailabilityStart<W>(now: int, ws: seq<W>, read: W -> Slot) returns (r: Option<int>)
    ensures r == NextStart(now, Slots(ws, read))
  {
    ghost var slots := Slots(ws, read);
    for i := 0 to 8
      invariant NextStart(now, slots) == Search(now, slots, i)
    {
      var day := DayOf(now) + i;
      for k := 0 to |ws|
        invariant ScanDay(now, day, slots, 0) == ScanDay(now, day, slots, k)
      {
        var w := read(ws[k]);
        assert w == slots[k];
        if Weekday(day) !in w.days {
          continue;
        }
        if w.start.None? {
          continue;
        }
        if At(day, w.start.value) > now {
          return Some(At(day, w.start.value));
        }
      }
    }
    return None;
  }

  /** Available exactly inside a window; otherwise the retry is strictly later and at most a week ahead, at
      the start the search finds, and a day later exactly when no window is usable. */
  predicate Decided(now: int, offset: int, ws: seq<Slot>, available: bool, next: int) {
    && (available <==> Inside(now + offset, ws))
    && (available ==> next == now)
    && (!available ==>
          && now < next <= now + 7 * DAY
          && if exists i :: 0 <= i < |ws| && Usable(ws[i]) then NextStart(now + offset, ws) == Some(next + offset)
             else next == now + DAY)
  }

  method Decide<W>(now: int, offset: int, ws: seq<W>, read: W -> Slot) returns (available: bool, next: int)
    ensures Decided(now, offset, Slots(ws, read), available, next)
  {
    available := InAvailabilityWindow(now + offset, ws, read);
    if available {
      return true, now;
    }
    var start := NextAvailabilityStart(now + offset, ws, read);
    ghost var slots := Slots(ws, read);
    NothingFoundIff(now + offset, slots);
    if start.None? {
      return false, now + DAY;
    }
    ghost var d, c := NextStartIsAhead(now + offset, slots);
    return false, start.value - offset;
  }
}

module Availability {
  import opened Base
  import opened Text
  import opened Schedule
  import opened ClockText
  import opened AvailabilityLoops

  /** Preferences with the zone resolved to its offset (UTC when unknown). */
  datatype Prefs = Prefs(schedule: string, offset: int, windows: seq<Window>)

  const BUSINESS_HOURS: seq<Window> := [Window(["mon", "tue", "wed", "thu", "fri"], "09:00", "17:00")]

  function Windows(p: Prefs): seq<Window> {
    if Norm(p.schedule) == "business-hours" then BUSINESS_HOURS else p.windows
  }

  predicate AlwaysOpen(prefs: Option<Prefs>) {
    prefs.None? || Norm(prefs.value.schedule) == "" || Norm(prefs.value.schedule) == "always"
      || |Windows(prefs.value)| == 0
  }

  method AvailabilityDecision(now: int, prefs: Option<Prefs>) returns (available: bool, next: int)
    ensures AlwaysOpen(prefs) ==> available && next == now
    ensures prefs.None? || Norm(prefs.value.schedule) in {"", "always"} ==> available && next == now
    ensures prefs.Some? && prefs.value.windows == [] && Norm(prefs.value.schedule) != "business-hours" ==>
              available && next == now
    ensures !AlwaysOpen(prefs) ==>
      Decided(now, prefs.value.offset, Slots(Windows(prefs.value), Read), available, next)
  {
    if AlwaysOpen(prefs) {
      return true, now;
    }
    available, next := Decide(now, prefs.value.offset, Windows(prefs.value), Read);
  }

  lemma OneWindow(ws: seq<Window>, w: Window, slot: Slot)
    requires ws == [w] && Read(w) == slot
    ensures Slots(ws, Read) == [slot]
  {
  }

  lemma SameDayAt(slots: seq<Slot>, slot: Slot, t: int)
    requires slots == [slot] && slot.start.Some? && slot.end.Some? && slot.start.value < slot.end.value
    ensures var day := DayOf(t);
            Inside(t, slots) <==> Weekday(day) in slot.days && At(day, slot.start.value) <= t < At(day, slot.end.value)
  {
    SameDayWindow(slot, t);
  }

  const WEEK: Slot := Slot({1, 2, 3, 4, 5}, Some(540), Some(1020))

  lemma BusinessSlots()
    ensures Slots(BUSINESS_HOURS, Read) == [WEEK]
  {
    WeekIsRead();
    OneWindow(BUSINESS_HOURS, BUSINESS_HOURS[0], WEEK);
  }

  lemma WeekAt(slots: seq<Slot>, t: int)
    requires slots == [WEEK]
    ensures var day := DayOf(t);
            Inside(t, slots) <==> 1 <= Weekday(day) <= 5 && At(day, 9 * 60) <= t < At(day, 17 * 60)
  {
    SameDayAt(slots, WEEK, t);
  }

  /** Monday to Friday, from nine until seventeen o'clock. */
  predicate AtWork(t: int) {
    1 <= Weekday(DayOf(t)) <= 5 && At(DayOf(t), 9 * 60) <= t < At(DayOf(t), 17 * 60)
  }

  /** Business hours are the working hours in local time. */
  lemma BusinessHours(t: int)
    ensures Inside(t, Slots(BUSINESS_HOURS, Read)) <==> AtWork(t)
  {
    BusinessSlots();
    WeekAt(Slots(BUSINESS_HOURS, Read), t);
  }

  lemma BusinessPrefs(p: Prefs)
    requires Norm(p.schedule) == "business-hours"
    ensures Windows(p) == BUSINESS_HOURS && !AlwaysOpen(Some(p))
  {
  }

  /** Business hours are the working hours in local time, whatever windows are listed beside them. */
  lemma BusinessSchedule(p: Prefs, t: int)
    requires Norm(p.schedule) == "business-hours"
    ensures !AlwaysOpen(Some(p)) && (Inside(t, Slots(Windows(p), Read)) <==> AtWork(t))
  {
    BusinessPrefs(p);
    BusinessHours(t);
  }

  /** Any other schedule is made of its own windows, and is always open without them. */
  lemma OwnWindows(p: Prefs)
    requires Norm(p.schedule) != "business-hours"
    ensures Windows(p) == p.windows
    ensures AlwaysOpen(Some(p)) <==> Norm(p.schedule) == "" || Norm(p.schedule) == "always" || p.windows == []
  {
  }
}
