/** How the inbound worker reads the texts of an availability window (internal/commworker/server.go). */
module ClockText {
  import opened Base
  import opened Text
  import opened Schedule

  predicate IsDigit(c: char) { '0' <= c <= '9' }

  predicate AllDigits(s: string) { forall i :: 0 <= i < |s| ==> IsDigit(s[i]) }

  function Value(s: string): (n: nat)
    requires AllDigits(s)
  {
    if s == "" then 0 else Value(s[..|s| - 1]) * 10 + (s[|s| - 1] as int - '0' as int)
  }

  function SmallInt(raw: string): Option<nat> {
    var s := Trim(raw);
    if s == "" || !AllDigits(s) then None else Some(Value(s))
  }

  method ParseSmallInt(raw: string) returns (r: Option<nat>)
    ensures r == SmallInt(raw)
  {
    var s := Trim(raw);
    if s == "" {
      return None;
    }
    var n: nat := 0;
    for i := 0 to |s|
      invariant AllDigits(s[..i]) && n == Value(s[..i])
    {
      if !IsDigit(s[i]) {
        return None;
      }
      assert s[..i + 1][..i] == s[..i];
      n := n * 10 + (s[i] as int - '0' as int);
    }
    assert s[..|s|] == s;
    return Some(n);
  }

  /** The position of the first colon, or the length. */
  function Colon(s: string): (i: nat)
    ensures i <= |s| && (i < |s| ==> s[i] == ':') && forall j :: 0 <= j < i ==> s[j] != ':'
  {
    if s == "" || s[0] == ':' then 0 else 1 + Colon(s[1..])
  }

  /** A clock time in minutes after midnight. */
  function Minutes(raw: string): Option<Minute>
  {
    var s := Trim(raw);
    var i := Colon(s);
    if i == |s| then None
    else
      var h, m := SmallInt(s[..i]), SmallInt(s[i + 1..]);
      if h.None? || m.None? || h.value > 23 || m.value > 59 then None else Some(h.value * 60 + m.value)
  }

  method ParseHHMMMinutes(raw: string) returns (r: Option<Minute>)
    ensures r == Minutes(raw)
  {
    var s := Trim(raw);
    var i := Colon(s);
    if i == |s| {
      return None;
    }
    var h := ParseSmallInt(s[..i]);
    var m := ParseSmallInt(s[i + 1..]);
    if h.None? || m.None? || h.value > 23 || m.value > 59 {
      return None;
    }
    return Some(h.value * 60 + m.value);
  }

  function TwoDigits(n: nat): string
    requires n < 100
  {
    [(n / 10) as char + '0', (n % 10) as char + '0']
  }

  lemma TwoDigitsValue(n: nat)
    requires n < 100
    ensures AllDigits(TwoDigits(n)) && Value(TwoDigits(n)) == n && SmallInt(TwoDigits(n)) == Some(n)
  {
    var s := TwoDigits(n);
    assert s[..1] == [s[0]] && s[..1][..0] == "";
    assert Value(s[..1]) == n / 10;
    TrimmedIsFixed(s);
  }

  /** A number read from a text without white space: exactly the non-empty strings of digits, digit by digit. */
  lemma SmallIntDigits(s: string, c: char)
    requires s != "" && Trimmed(s + [c]) && Trimmed(s)
    ensures SmallInt(s + [c])
         == if SmallInt(s).Some?
           && '0' <= c <= '9' then Some(SmallInt(s).value * 10 + (c as int - '0' as int)) else None
  {
    var t := s + [c];
    TrimmedIsFixed(t);
    TrimmedIsFixed(s);
    assert t[..|t| - 1] == s && t[|t| - 1] == c;
    assert AllDigits(t) <==> AllDigits(s) && IsDigit(c);
  }

  /** White space around a number is ignored. */
  lemma SmallIntTrims(s: string)
    ensures SmallInt(s) == SmallInt(Trim(s))
  {
    TrimTrims(s);
    TrimmedIsFixed(Trim(s));
  }

  lemma SmallIntDigit(c: char)
    requires !IsSpace(c)
    ensures SmallInt([c]) == if '0' <= c <= '9' then Some(c as int - '0' as int) else None
    ensures SmallInt("") == None
  {
    TrimmedIsFixed([c]);
    assert [c][..0] == "";
    if IsDigit(c) {
      assert Value([c]) == Value("") * 10 + (c as int - '0' as int);
    }
  }

  /** A clock text is an hour and a minute around its first colon, each within its range. */
  lemma ClockTextIff(hour: string, minute: string)
    requires Trimmed(hour + ":" + minute) && forall i :: 0 <= i < |hour| ==> hour[i] != ':'
    ensures var h, m := SmallInt(hour), SmallInt(minute);
            Minutes(hour + ":" + minute)
            == if h.Some? && m.Some? && h.value < 24 && m.value < 60 then Some(h.value * 60 + m.value) else None
  {
    var s := hour + ":" + minute;
    TrimmedIsFixed(s);
    ColonAt(hour, minute);
    assert s[..|hour|] == hour && s[|hour| + 1..] == minute;
  }

  lemma {:induction false} ColonAt(hour: string, minute: string)
    requires forall i :: 0 <= i < |hour| ==> hour[i] != ':'
    ensures Colon(hour + ":" + minute) == |hour|
  {
    var s := hour + ":" + minute;
    if hour != "" {
      assert s[1..] == hour[1..] + ":" + minute;
      ColonAt(hour[1..], minute);
    }
  }

  /** A text without a colon is no clock time. */
  lemma NoColonNoTime(s: string)
    requires forall i :: 0 <= i < |Trim(s)| ==> Trim(s)[i] != ':'
    ensures Minutes(s) == None
  {
  }

  /** Every clock time written as HH:MM is read back. */
  lemma MinutesReadBack(h: nat, m: nat)
    requires h < 24 && m < 60
    ensures Minutes(TwoDigits(h) + ":" + TwoDigits(m)) == Some(h * 60 + m)
  {
    var s := TwoDigits(h) + ":" + TwoDigits(m);
    TwoDigitsValue(h);
    TwoDigitsValue(m);
    TrimmedIsFixed(s);
    assert s[2] == ':' && s[0] != ':' && s[1] != ':';
    assert Colon(s) == 2;
    assert s[..2] == TwoDigits(h) && s[3..] == TwoDigits(m);
  }

  // ---------------------------------------------------------------- weekdays

  function Abbrev(w: int): string {
    if w == 1 then "mon" else if w == 2 then "tue" else if w == 3 then "wed" else if w == 4 then "thu"
    else if w == 5 then "fri" else if w == 6 then "sat" else "sun"
  }

  predicate Lists(days: seq<string>, weekday: int) { exists i :: 0 <= i < |days| && Norm(days[i]) == Abbrev(weekday) }

  lemma AbbrevIsNormal(w: int)
    ensures Norm(Abbrev(w)) == Abbrev(w)
  {
    TrimmedIsFixed(Abbrev(w));
    LowerIsFixed(Abbrev(w));
  }

  method DayInWindow(day: string, days: seq<string>) returns (r: bool)
    ensures r <==> exists i :: 0 <= i < |days| && Norm(days[i]) == Norm(day)
  {
    for i := 0 to |days|
      invariant forall j :: 0 <= j < i ==> Norm(days[j]) != Norm(day)
    {
      if Norm(days[i]) == Norm(day) {
        return true;
      }
    }
    return false;
  }

  /** The seven names are told apart. */
  lemma NamesDiffer(v: int, w: int)
    requires 0 <= v < 7 && 0 <= w < 7
    ensures Abbrev(v) == Abbrev(w) <==> v == w
    ensures [Abbrev(0), Abbrev(1), Abbrev(2), Abbrev(3)] == ["sun", "mon", "tue", "wed"]
    ensures [Abbrev(4), Abbrev(5), Abbrev(6)] == ["thu", "fri", "sat"]
  {
  }

  datatype Window = Window(days: seq<string>, start: string, end: string)

  /** The weekdays that are listed. */
  function DaysOf(days: seq<string>): set<int> { set wd | 0 <= wd < 7 && Lists(days, wd) }

  function Read(w: Window): Slot {
    Slot(DaysOf(w.days), Minutes(w.start), Minutes(w.end))
  }

  /** The worker's weekday test decides membership in the weekdays that were read. */
  method ListedOn(w: Window, day: int) returns (r: bool)
    ensures r <==> Weekday(day) in Read(w).days
  {
    r := DayInWindow(Abbrev(Weekday(day)), w.days);
    AbbrevIsNormal(Weekday(day));
    assert r <==> Lists(w.days, Weekday(day));
  }

  /** A list of names lists their days. */
  lemma {:induction false} NamedDays(ws: seq<int>, days: seq<string>, wd: int)
    requires |ws| == |days| && 0 <= wd < 7
    requires forall i :: 0 <= i < |ws| ==> 0 <= ws[i] < 7 && days[i] == Abbrev(ws[i])
    ensures Lists(days, wd) <==> wd in ws
  {
    forall i | 0 <= i < |ws| ensures Norm(days[i]) == Abbrev(ws[i]) && (days[i] == Abbrev(wd) <==> ws[i] == wd) {
      AbbrevIsNormal(ws[i]);
      NamesDiffer(ws[i], wd);
    }
  }

  lemma NamedDaysOf(ws: seq<int>, days: seq<string>)
    requires |ws| == |days| && forall i :: 0 <= i < |ws| ==> 0 <= ws[i] < 7 && days[i] == Abbrev(ws[i])
    ensures DaysOf(days) == set w | w in ws
  {
    forall wd | 0 <= wd < 7 ensures wd in DaysOf(days) <==> wd in ws {
      NamedDays(ws, days, wd);
    }
  }

  /** Names count whatever their case and the white space around them. */
  lemma DaysByName(days: seq<string>, wd: int)
    requires 0 <= wd < 7
    ensures wd in DaysOf(days) <==> exists name :: name in days && Norm(name) == Abbrev(wd)
  {
    if name :| name in days && Norm(name) == Abbrev(wd) {
      var i :| 0 <= i < |days| && days[i] == name;
      assert Lists(days, wd);
    }
  }

  lemma TimeText(h: nat, m: nat, s: string)
    requires h < 24 && m < 60 && s == TwoDigits(h) + ":" + TwoDigits(m)
    ensures Minutes(s) == Some(h * 60 + m)
  {
    MinutesReadBack(h, m);
  }

  lemma NineIsRead()
    ensures Minutes("09:00") == Some(540)
  {
    TimeText(9, 0, "09:00");
  }

  lemma SeventeenIsRead()
    ensures Minutes("17:00") == Some(1020)
  {
    TimeText(17, 0, "17:00");
  }

  lemma WorkDays()
    ensures DaysOf(["mon", "tue", "wed", "thu", "fri"]) == {1, 2, 3, 4, 5}
  {
    NamedDaysOf([1, 2, 3, 4, 5], ["mon", "tue", "wed", "thu", "fri"]);
  }

  /** Monday to Friday from nine to seventeen, as it is read. */
  lemma WeekIsRead()
    ensures Read(Window(["mon", "tue", "wed", "thu", "fri"], "09:00", "17:00"))
         == Slot({1, 2, 3, 4, 5}, Some(540), Some(1020))
  {
    NineIsRead();
    SeventeenIsRead();
    WorkDays();
  }
}
