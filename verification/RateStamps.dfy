/** Which receipt stamps keep the sliding windows. The worker stamps a receipt with the time the message claims, while
    the limiter counts back from the time it handles the message (internal/commworker/server.go). */
module RateStamps {
  import opened Base
  import opened RateLimit

  /** A log that keeps both limits, seen in full by both scans, that lets a message through now. */
  ghost predicate Open(log: seq<Activity>, now: int, channel: string, lim: Limits) {
    && Ordered(log) && Limited(log, channel, lim) && Admits(log, now, channel, lim)
    && Covers(log, HOUR_SCAN, Since(channel, now - HOUR)) && Covers(log, DAY_SCAN, Since(channel, now - DAY))
  }

  ghost predicate Fits(log: seq<Activity>, id: int, now: int, stamp: int, channel: string, lim: Limits) {
    Open(log, now, channel, lim) ==> Limited(Put(log, Activity(stamp, id, Some(channel))), channel, lim)
  }

  /** Recording an admitted receive with this stamp never breaks a limit. */
  ghost predicate StampSafe(now: int, stamp: int, channel: string, lim: Limits) {
    forall log, id :: Fits(log, id, now, stamp, channel, lim)
  }

  /** A stamp no earlier than now is safe, whatever the limits. */
  lemma PromptIsSafe(now: int, stamp: int, channel: string, lim: Limits)
    requires now <= stamp
    ensures StampSafe(now, stamp, channel, lim)
  {
    forall log, id ensures Fits(log, id, now, stamp, channel, lim) {
      if Open(log, now, channel, lim) {
        ReceiveKeepsLimited(log, Message(now, channel, id, stamp, Received), channel, (_: string) => lim);
      }
    }
  }

  /** Where only an hourly limit beyond the daily scan is on, a day of receives that the scan has seen leaves room. */
  lemma WideHourIsSafe(now: int, stamp: int, channel: string, lim: Limits)
    requires lim.day <= 0 && lim.hour > DAY_SCAN && now - DAY + HOUR <= stamp
    ensures StampSafe(now, stamp, channel, lim)
  {
    forall log, id ensures Fits(log, id, now, stamp, channel, lim) {
      if Open(log, now, channel, lim) {
        ScanIsExactIff(log, DAY_SCAN, Since(channel, now - DAY));
        TallyBounds(Newest(log, DAY_SCAN), Since(channel, now - DAY));
        PutReceiveKeepsSpaced(log, Activity(stamp, id, Some(channel)), now - DAY + HOUR, channel, HOUR, lim.hour);
      }
    }
  }

  /** A full burst that the limiter does not count any more, in one stretch with the stamp. */
  predicate BurstFits(at: int, now: int, stamp: int, lim: Limits, length: int, max: int) {
    && max > 0 && length >= 0 && at <= stamp <= at + length
    && at < now - HOUR && (at < now - DAY || (max <= DAY_SCAN && (lim.day <= 0 || max < lim.day)))
    && (lim.hour <= 0 || max <= lim.hour) && (lim.day <= 0 || max <= lim.day)
    && ((length == HOUR && max == lim.hour) || (length == DAY && max == lim.day))
  }

  lemma BurstIsOpen(at: int, now: int, stamp: int, channel: string, lim: Limits, length: int, max: int)
    requires BurstFits(at, now, stamp, lim, length, max)
    ensures Open(Burst(at, channel, max), now, channel, lim)
  {
    var log := Burst(at, channel, max);
    BurstTally(at, channel, max);
    ScanIsExactIff(log, HOUR_SCAN, Since(channel, now - HOUR));
    ScanIsExactIff(log, DAY_SCAN, Since(channel, now - DAY));
  }

  lemma BurstBreaks(at: int, now: int, stamp: int, channel: string, lim: Limits, length: int, max: int)
    requires BurstFits(at, now, stamp, lim, length, max)
    ensures !StampSafe(now, stamp, channel, lim)
  {
    var log, row := Burst(at, channel, max), Activity(stamp, max, Some(channel));
    BurstIsOpen(at, now, stamp, channel, lim, length, max);
    BurstTally(at, channel, max);
    TallyPut(log, row, Within(channel, at, at + length));
    assert Stretch(Put(log, row), channel, at, length) > max;
    assert !Fits(log, max, now, stamp, channel, lim);
  }

  // Beyond the daily scan an hourly limit only packs: between two full hours lies more than an hour.

  const SPACING: int := HOUR + 1

  lemma {:induction false} TallyUnion(log: seq<Activity>, p: Activity -> bool, q: Activity -> bool, r: Activity -> bool)
    requires forall a: Activity :: p(a) ==> q(a) || r(a)
    ensures Tally(log, p) <= Tally(log, q) + Tally(log, r)
  {
    if log != [] {
      TallyUnion(log[1..], p, q, r);
    }
  }

  /** A stretch shorter than m spacings holds at most m full hours. */
  lemma {:induction false} Packed(log: seq<Activity>, channel: string, a: int, b: int, h: nat, m: nat)
    requires h > 0 && Spaced(log, channel, HOUR, h) && b - a < m * SPACING
    ensures Tally(log, Within(channel, a, b)) <= h * m
    decreases m
  {
    if m == 0 {
      TallyBounds(log, Within(channel, a, b));
    } else {
      Packed(log, channel, a + SPACING, b, h, m - 1);
      TallyUnion(log, Within(channel, a, b), Within(channel, a, a + HOUR), Within(channel, a + SPACING, b));
      assert Stretch(log, channel, a, HOUR) <= h;
      assert h * m == h + h * (m - 1);
    }
  }

  /** How many full hours fit between the day before the stamp and the day before now. */
  function FullHours(now: int, stamp: int): nat
    requires stamp < now
  {
    (now - 1 - stamp) / SPACING + 1
  }

  /** With both limits on, the daily one holds when all full hours out of reach and a full scan leave room. */
  lemma WideDayIsSafe(now: int, stamp: int, channel: string, lim: Limits)
    requires DAY_SCAN < lim.hour && now - DAY + HOUR <= stamp < now
        && lim.hour * FullHours(now, stamp) + DAY_SCAN < lim.day
    ensures StampSafe(now, stamp, channel, lim)
  {
    forall log, id ensures Fits(log, id, now, stamp, channel, lim) {
      if Open(log, now, channel, lim) {
        var row := Activity(stamp, id, Some(channel));
        ScanIsExactIff(log, DAY_SCAN, Since(channel, now - DAY));
        TallyBounds(Newest(log, DAY_SCAN), Since(channel, now - DAY));
        PutReceiveKeepsSpaced(log, row, now - DAY + HOUR, channel, HOUR, lim.hour);
        forall x: int ensures Stretch(Put(log, row), channel, x, DAY) <= lim.day {
          WideDayStretch(log, row, now, channel, lim, x);
        }
      }
    }
  }

  lemma FullHoursReach(now: int, stamp: int)
    requires stamp < now
    ensures (FullHours(now, stamp) - 1) * SPACING <= now - 1 - stamp < FullHours(now, stamp) * SPACING
  {
  }

  lemma OutOfReach(log: seq<Activity>, now: int, stamp: int, channel: string, h: nat)
    requires h > 0 && Spaced(log, channel, HOUR, h) && stamp < now
    ensures Tally(log, Within(channel, stamp - DAY, now - DAY - 1)) <= h * FullHours(now, stamp)
  {
    FullHoursReach(now, stamp);
    Packed(log, channel, stamp - DAY, now - DAY - 1, h, FullHours(now, stamp));
  }

  lemma StretchAround(log: seq<Activity>, now: int, stamp: int, channel: string, x: int)
    requires x <= stamp <= x + DAY
    ensures Stretch(log, channel, x, DAY)
         <= Tally(log, Within(channel, stamp - DAY, now - DAY - 1)) + Tally(log, Since(channel, now - DAY))
  {
    TallyUnion(log, Within(channel, x, x + DAY), Within(channel, stamp - DAY, now - DAY - 1),
      Since(channel, now - DAY));
  }

  lemma WideDayStretch(log: seq<Activity>, row: Activity, now: int, channel: string, lim: Limits, x: int)
    requires 0 < lim.hour && Limited(log, channel, lim) && Tally(log, Since(channel, now - DAY)) <= DAY_SCAN
    requires row.ts < now && lim.hour * FullHours(now, row.ts) + DAY_SCAN < lim.day
    ensures Stretch(Put(log, row), channel, x, DAY) <= lim.day
  {
    OutOfReach(log, now, row.ts, channel, lim.hour);
    TallyPut(log, row, Within(channel, x, x + DAY));
    if x <= row.ts <= x + DAY {
      StretchAround(log, now, row.ts, channel, x);
    } else {
      assert Stretch(log, channel, x, DAY) <= lim.day;
    }
  }

  /** m bursts, one spacing apart. */
  function Train(at: int, channel: string, h: nat, m: nat): seq<Activity>
    decreases m
  {
    if m == 0 then [] else Burst(at, channel, h) + Train(at - SPACING, channel, h, m - 1)
  }

  predicate Between(log: seq<Activity>, channel: string, from: int, to: int) {
    forall i :: 0 <= i < |log| ==> from <= log[i].ts <= to && log[i].received == Some(channel)
  }

  lemma OrderedConcat(a: seq<Activity>, b: seq<Activity>, from: int, at: int, channel: string)
    requires Ordered(a) && Ordered(b) && Between(a, channel, at, at) && Between(b, channel, from, at - 1)
    ensures Ordered(a + b) && Between(a + b, channel, if from < at then from else at, at)
  {
  }

  lemma {:induction false} TrainLength(at: int, channel: string, h: nat, m: nat)
    ensures |Train(at, channel, h, m)| == h * m
    decreases m
  {
    if m > 0 {
      TrainLength(at - SPACING, channel, h, m - 1);
      assert h * m == h + h * (m - 1);
    }
  }

  /** The instant of the last burst. */
  function LastBurst(at: int, m: nat): (r: int)
    ensures m > 0 ==> r == at - (m - 1) * SPACING && r <= at
    decreases m
  {
    if m <= 1 then at else LastBurst(at - SPACING, m - 1)
  }

  lemma {:induction false} TrainOrder(at: int, channel: string, h: nat, m: nat)
    ensures Ordered(Train(at, channel, h, m)) && Between(Train(at, channel, h, m), channel, LastBurst(at, m), at)
    decreases m
  {
    if m > 0 {
      var rest := Train(at - SPACING, channel, h, m - 1);
      TrainOrder(at - SPACING, channel, h, m - 1);
      BurstTally(at, channel, h);
      assert Between(rest, channel, LastBurst(at, m), at - 1);
      OrderedConcat(Burst(at, channel, h), rest, LastBurst(at, m), at, channel);
    }
  }

  lemma TrainShape(at: int, channel: string, h: nat, m: nat)
    ensures |Train(at, channel, h, m)| == h * m && Ordered(Train(at, channel, h, m))
    ensures Between(Train(at, channel, h, m), channel, LastBurst(at, m), at)
  {
    TrainLength(at, channel, h, m);
    TrainOrder(at, channel, h, m);
  }

  lemma OutsideIsNone(log: seq<Activity>, channel: string, from: int, to: int, x: int, y: int)
    requires Between(log, channel, from, to) && (to < x || y < from)
    ensures Tally(log, Within(channel, x, y)) == 0
  {
    TallyBounds(log, Within(channel, x, y));
  }

  lemma {:induction false} TrainIsSpaced(at: int, channel: string, h: nat, m: nat, x: int)
    ensures Stretch(Train(at, channel, h, m), channel, x, HOUR) <= h
    decreases m
  {
    if m > 0 {
      var rest := Train(at - SPACING, channel, h, m - 1);
      TrainIsSpaced(at - SPACING, channel, h, m - 1, x);
      BurstTally(at, channel, h);
      TallySplit(Burst(at, channel, h), rest, Within(channel, x, x + HOUR));
      if x <= at <= x + HOUR {
        TrainShape(at - SPACING, channel, h, m - 1);
        OutsideIsNone(rest, channel, LastBurst(at - SPACING, m - 1), at - SPACING, x, x + HOUR);
      }
    }
  }

  /** A full scan at the stamp, or out of the hour's reach, and full hours before the day's reach. */
  function Caravan(now: int, stamp: int, channel: string, h: nat): seq<Activity>
    requires stamp < now
  {
    Burst(Rest(now, stamp), channel, DAY_SCAN) + Train(now - DAY - 1, channel, h, FullHours(now, stamp))
  }

  function Rest(now: int, stamp: int): int { if stamp < now - HOUR - 1 then stamp else now - HOUR - 1 }

  lemma CaravanShape(now: int, stamp: int, channel: string, h: nat)
    requires now - DAY + HOUR <= stamp < now
    ensures var log := Caravan(now, stamp, channel, h);
            |log| == DAY_SCAN + h * FullHours(now, stamp) && Ordered(log)
              && Between(log, channel, stamp - DAY, Rest(now, stamp))
    ensures forall i :: DAY_SCAN <= i < |Caravan(now, stamp, channel, h)| ==>
        Caravan(now, stamp, channel, h)[i].ts < now - DAY
  {
    var m, q := FullHours(now, stamp), Rest(now, stamp);
    var rest := Train(now - DAY - 1, channel, h, m);
    TrainShape(now - DAY - 1, channel, h, m);
    BurstTally(q, channel, DAY_SCAN);
    FullHoursReach(now, stamp);
    assert Between(rest, channel, stamp - DAY, q - 1);
    OrderedConcat(Burst(q, channel, DAY_SCAN), rest, stamp - DAY, q, channel);
  }

  lemma CaravanIsSpaced(now: int, stamp: int, channel: string, h: nat, x: int)
    requires DAY_SCAN <= h && now - DAY + HOUR <= stamp < now
    ensures Stretch(Caravan(now, stamp, channel, h), channel, x, HOUR) <= h
  {
    var m, q := FullHours(now, stamp), Rest(now, stamp);
    var rest := Train(now - DAY - 1, channel, h, m);
    BurstTally(q, channel, DAY_SCAN);
    TallySplit(Burst(q, channel, DAY_SCAN), rest, Within(channel, x, x + HOUR));
    TrainIsSpaced(now - DAY - 1, channel, h, m, x);
    if x <= q <= x + HOUR {
      TrainShape(now - DAY - 1, channel, h, m);
      OutsideIsNone(rest, channel, LastBurst(now - DAY - 1, m), now - DAY - 1, x, x + HOUR);
    }
  }

  lemma PrefixTally(log: seq<Activity>, n: nat, p: Activity -> bool)
    requires n <= |log|
    ensures Tally(log[..n], p) <= Tally(log, p)
  {
    assert log == log[..n] + log[n..];
    TallySplit(log[..n], log[n..], p);
  }

  lemma CaravanIsOpen(now: int, stamp: int, channel: string, lim: Limits)
    requires now - DAY + HOUR <= stamp < now
        && DAY_SCAN < lim.hour < lim.day <= |Caravan(now, stamp, channel, lim.hour)|
    ensures Open(Caravan(now, stamp, channel, lim.hour)[..lim.day], now, channel, lim)
  {
    var all := Caravan(now, stamp, channel, lim.hour);
    var log := all[..lim.day];
    CaravanShape(now, stamp, channel, lim.hour);
    forall x: int ensures Stretch(log, channel, x, HOUR) <= lim.hour && Stretch(log, channel, x, DAY) <= lim.day {
      CaravanIsSpaced(now, stamp, channel, lim.hour, x);
      PrefixTally(all, lim.day, Within(channel, x, x + HOUR));
      TallyBounds(log, Within(channel, x, x + DAY));
    }
    TallyBounds(Newest(log, HOUR_SCAN), Since(channel, now - HOUR));
    TallyBounds(Newest(log, DAY_SCAN), Since(channel, now - DAY));
  }

  /** The day before the stamp holds every row of the caravan, so one more is too many. */
  lemma CaravanIsFull(now: int, stamp: int, channel: string, h: nat, n: nat)
    requires now - DAY + HOUR <= stamp < now && n <= |Caravan(now, stamp, channel, h)|
    ensures var row := Activity(stamp, DAY_SCAN, Some(channel));
            Stretch(Put(Caravan(now, stamp, channel, h)[..n], row), channel, stamp - DAY, DAY) == n + 1
  {
    CaravanShape(now, stamp, channel, h);
    CaravanKeys(now, stamp, channel, h);
    var all := Caravan(now, stamp, channel, h);
    var log, row := all[..n], Activity(stamp, DAY_SCAN, Some(channel));
    var p := Within(channel, stamp - DAY, stamp - DAY + DAY);
    assert forall i :: 0 <= i < n ==> log[i] == all[i];
    TallyFull(log, p);
    TallyPut(log, row, p);
  }

  lemma CaravanBreaks(now: int, stamp: int, channel: string, lim: Limits)
    requires now - DAY + HOUR <= stamp < now
        && DAY_SCAN < lim.hour < lim.day <= lim.hour * FullHours(now, stamp) + DAY_SCAN
    ensures !StampSafe(now, stamp, channel, lim)
  {
    CaravanShape(now, stamp, channel, lim.hour);
    CaravanIsOpen(now, stamp, channel, lim);
    CaravanIsFull(now, stamp, channel, lim.hour, lim.day);
    var log := Caravan(now, stamp, channel, lim.hour)[..lim.day];
    assert !Fits(log, DAY_SCAN, now, stamp, channel, lim);
  }

  lemma CaravanKeys(now: int, stamp: int, channel: string, h: nat)
    requires now - DAY + HOUR <= stamp < now
    ensures forall a :: a in Caravan(now, stamp, channel, h) ==> a.ts != stamp || a.id < DAY_SCAN
  {
    CaravanShape(now, stamp, channel, h);
    var all := Caravan(now, stamp, channel, h);
    forall i | 0 <= i < |all| ensures all[i].ts != stamp || all[i].id < DAY_SCAN {
      if i < DAY_SCAN {
        assert all[i] == Burst(Rest(now, stamp), channel, DAY_SCAN)[i];
      }
    }
  }

  /** Both limits are off. */
  predicate Unlimited(lim: Limits) { lim.hour <= 0 && lim.day <= 0 }

  /** An early stamp that the bounds of the scans alone keep within the limits: only where the hourly limit is longer
      than the daily scan, for stamps of the last day but its first hour, and with room for a full scan and every full
      hour out of reach under the daily limit, if that is on. */
  predicate RoomFor(now: int, stamp: int, lim: Limits)
    requires stamp < now
  {
    && DAY_SCAN < lim.hour && now - DAY + HOUR <= stamp
    && (lim.day <= 0 || lim.hour * FullHours(now, stamp) + DAY_SCAN < lim.day)
  }

  /** Exactly the stamps that keep the sliding windows, for all limits: with a limit on, a receipt must be stamped no
      earlier than it is handled, unless the limits are so wide that the scans alone leave room. */
  lemma StampSafeIff(now: int, stamp: int, channel: string, lim: Limits)
    ensures StampSafe(now, stamp, channel, lim) <==> Unlimited(lim) || now <= stamp || RoomFor(now, stamp, lim)
  {
    if Unlimited(lim) {
      assert forall log, id :: Fits(log, id, now, stamp, channel, lim);
    } else if now <= stamp {
      PromptIsSafe(now, stamp, channel, lim);
    } else if RoomFor(now, stamp, lim) {
      if lim.day <= 0 {
        WideHourIsSafe(now, stamp, channel, lim);
      } else {
        WideDayIsSafe(now, stamp, channel, lim);
      }
    } else if lim.day > 0 && (lim.hour <= 0 || lim.day <= lim.hour) {
      BurstBreaks(if stamp < now - DAY - 1 then stamp else now - DAY - 1, now, stamp, channel, lim, DAY, lim.day);
    } else if lim.hour <= DAY_SCAN {
      BurstBreaks(if stamp < now - HOUR - 1 then stamp else now - HOUR - 1, now, stamp, channel, lim, HOUR, lim.hour);
    } else if stamp < now - DAY + HOUR {
      BurstBreaks(if stamp < now - DAY - 1 then stamp else now - DAY - 1, now, stamp, channel, lim, HOUR, lim.hour);
    } else {
      CaravanBreaks(now, stamp, channel, lim);
    }
  }

  /** In particular, for a limit that is on and an hourly limit within the daily scan, exactly the prompt stamps are
      safe. */
  lemma OnlyPromptStampsAreSafe(now: int, stamp: int, channel: string, lim: Limits)
    requires !Unlimited(lim) && lim.hour <= DAY_SCAN
    ensures StampSafe(now, stamp, channel, lim) <==> now <= stamp
  {
    StampSafeIff(now, stamp, channel, lim);
  }
}
