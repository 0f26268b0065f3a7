/** The inbound rate limiter (internal/commworker/server.go): it counts receives in a bounded scan of the
    newest rows of the agent's activity log. */
module RateLimit {
  import opened Base

  const HOUR: int := 3600 * 1_000_000_000
  const DAY: int := 24 * HOUR

  /** A row of the activity log, as far as the limiter cares: the channel on which it is an inbound receive, if it
      is one. Rows are ordered by time stamp and then by activity id, of which only the rank matters. */
  datatype Activity = Activity(ts: int, id: int, received: Option<string>)

  predicate SameKey(a: Activity, b: Activity) { a.ts == b.ts && a.id == b.id }

  predicate Newer(a: Activity, b: Activity) { a.ts > b.ts || (a.ts == b.ts && a.id > b.id) }

  /** The log lists its rows newest first, one per key. */
  predicate Ordered(log: seq<Activity>) { forall i, j :: 0 <= i < j < |log| ==> Newer(log[i], log[j]) }

  /** Create or replace. */
  function Put(log: seq<Activity>, a: Activity): (r: seq<Activity>)
    ensures forall b :: b in r ==> b == a || b in log
    ensures a in r
  {
    if log == [] || Newer(a, log[0]) then [a] + log
    else if SameKey(a, log[0]) then [a] + log[1..]
    else [log[0]] + Put(log[1..], a)
  }

  lemma {:induction false} PutKeepsOrder(log: seq<Activity>, a: Activity)
    requires Ordered(log)
    ensures Ordered(Put(log, a))
  {
    if log != [] && !Newer(a, log[0]) && !SameKey(a, log[0]) {
      var rest := Put(log[1..], a);
      PutKeepsOrder(log[1..], a);
      assert forall b :: b in log[1..] ==> Newer(log[0], b);
    }
  }

  // ---------------------------------------------------------------- counting

  predicate IsReceive(a: Activity, channel: string) { a.received == Some(channel) }

  function Since(channel: string, t: int): Activity -> bool { (a: Activity) => a.ts >= t && IsReceive(a, channel) }

  function Within(channel: string, from: int, to: int): Activity -> bool {
    (a: Activity) => from <= a.ts <= to && IsReceive(a, channel)
  }

  /** How many rows satisfy the predicate. */
  function Tally(log: seq<Activity>, p: Activity -> bool): nat {
    if log == [] then 0 else (if p(log[0]) then 1 else 0) + Tally(log[1..], p)
  }

  function Newest(log: seq<Activity>, n: nat): seq<Activity> { if n < |log| then log[..n] else log }

  /** The count the limiter sees. */
  function Scan(log: seq<Activity>, n: nat, p: Activity -> bool): nat { Tally(Newest(log, n), p) }

  lemma {:induction false} TallySplit(a: seq<Activity>, b: seq<Activity>, p: Activity -> bool)
    ensures Tally(a + b, p) == Tally(a, p) + Tally(b, p)
  {
    if a == [] {
      assert a + b == b;
    } else {
      assert (a + b)[1..] == a[1..] + b;
      TallySplit(a[1..], b, p);
    }
  }

  lemma {:induction false} TallyBounds(log: seq<Activity>, p: Activity -> bool)
    ensures Tally(log, p) <= |log|
    ensures Tally(log, p) == 0 <==> forall i :: 0 <= i < |log| ==> !p(log[i])
  {
    if log != [] {
      TallyBounds(log[1..], p);
      assert forall i :: 0 < i < |log| ==> log[i] == log[1..][i - 1];
    }
  }

  lemma {:induction false} TallyFull(log: seq<Activity>, p: Activity -> bool)
    ensures Tally(log, p) == |log| <==> forall i :: 0 <= i < |log| ==> p(log[i])
  {
    if log != [] {
      TallyFull(log[1..], p);
      TallyBounds(log[1..], p);
      assert forall i :: 0 < i < |log| ==> log[i] == log[1..][i - 1];
    }
  }

  lemma {:induction false} TallyWeaker(log: seq<Activity>, p: Activity -> bool, q: Activity -> bool)
    requires forall a :: a in log && p(a) ==> q(a)
    ensures Tally(log, p) <= Tally(log, q)
  {
    if log != [] {
      TallyWeaker(log[1..], p, q);
    }
  }

  lemma {:induction false} TallyPut(log: seq<Activity>, a: Activity, p: Activity -> bool)
    ensures Tally(Put(log, a), p) <= Tally(log, p) + if p(a) then 1 else 0
    ensures (forall b :: b in log ==> !SameKey(a, b)) ==> Tally(Put(log, a), p) == Tally(log, p) + if p(a) then 1 else 0
  {
    if log == [] || Newer(a, log[0]) {
      TallySplit([a], log, p);
    } else if SameKey(a, log[0]) {
      TallySplit([a], log[1..], p);
    } else {
      TallyPut(log[1..], a, p);
      TallySplit([log[0]], Put(log[1..], a), p);
    }
  }

  /** The scan never counts more than the log holds, and counts it all exactly when nothing that matters
      lies beyond the newest n rows. */
  lemma ScanIsExactIff(log: seq<Activity>, n: nat, p: Activity -> bool)
    ensures Scan(log, n, p) <= Tally(log, p)
    ensures Scan(log, n, p) == Tally(log, p) <==> forall i :: n <= i < |log| ==> !p(log[i])
  {
    if n < |log| {
      assert log == log[..n] + log[n..];
      TallySplit(log[..n], log[n..], p);
      TallyBounds(log[n..], p);
      assert forall i :: n <= i < |log| ==> log[i] == log[n..][i - n];
      assert forall j :: 0 <= j < |log| - n ==> log[n..][j] == log[n + j];
    }
  }

  /** A scan that reaches a row older than the window has seen the whole window. */
  lemma ScanReachingBackIsExact(log: seq<Activity>, n: nat, channel: string, since: int)
    requires Ordered(log) && (|log| <= n || log[n].ts < since)
    ensures Scan(log, n, Since(channel, since)) == Tally(log, Since(channel, since))
  {
    var p := Since(channel, since);
    ScanIsExactIff(log, n, p);
    assert forall i :: n < i < |log| ==> Newer(log[n], log[i]);
  }

  // ---------------------------------------------------------------- the limiter

  datatype Limits = Limits(hour: int, day: int)

  const HOUR_SCAN: nat := 250
  const DAY_SCAN: nat := 500

  /** Whether the limiter lets a message through. */
  predicate Admits(log: seq<Activity>, now: int, channel: string, lim: Limits) {
    && (lim.hour <= 0 || Scan(log, HOUR_SCAN, Since(channel, now - HOUR)) < lim.hour)
    && (lim.day <= 0 || Scan(log, DAY_SCAN, Since(channel, now - DAY)) < lim.day)
  }

  /** What became of a message that was let through: its receive was recorded, it was dropped, or
      the attempt ended in an error and nothing was recorded. */
  datatype Outcome = Received | Dropped | Unrecorded

  /** A message on a (normalised) channel handled at time now whose activity is stamped with its own time of receipt,
      or any other row put into the log. */
  datatype Event = Message(now: int, channel: string, id: int, stamp: int, outcome: Outcome) | Other(row: Activity)

  function Row(e: Event, receive: bool): Activity
    requires e.Message?
  {
    Activity(e.stamp, e.id, if receive then Some(e.channel) else None)
  }

  function Step(log: seq<Activity>, e: Event, lim: string -> Limits): seq<Activity> {
    match e
    case Other(row) => Put(log, row)
    case Message(now, channel, _, _, outcome) =>
      if !Admits(log, now, channel, lim(channel)) then Put(log, Row(e, false))
      else match outcome
        case Received => Put(log, Row(e, true))
        case Dropped => Put(log, Row(e, false))
        case Unrecorded => log
  }

  function Run(log: seq<Activity>, es: seq<Event>, lim: string -> Limits): seq<Activity>
    decreases |es|
  {
    if es == [] then log else Run(Step(log, es[0], lim), es[1..], lim)
  }

  lemma StepKeepsOrder(log: seq<Activity>, e: Event, lim: string -> Limits)
    requires Ordered(log)
    ensures Ordered(Step(log, e, lim))
  {
    forall a: Activity ensures Ordered(Put(log, a)) {
      PutKeepsOrder(log, a);
    }
  }

  // ---------------------------------------------------------------- sliding windows

  /** Stamped no earlier than it was handled; other rows are no receives. */
  predicate Prompt(e: Event, channel: string) {
    match e
    case Message(now, _, _, stamp, _) => now <= stamp
    case Other(row) => !IsReceive(row, channel)
  }

  predicate Covers(log: seq<Activity>, n: nat, p: Activity -> bool) { forall i :: n <= i < |log| ==> !p(log[i]) }

  /** Both scans reach as far back as their windows. */
  predicate Covered(log: seq<Activity>, e: Event) {
    e.Message? ==> && Covers(log, HOUR_SCAN, Since(e.channel, e.now - HOUR))
                   && Covers(log, DAY_SCAN, Since(e.channel, e.now - DAY))
  }

  predicate RunCovered(log: seq<Activity>, es: seq<Event>, lim: string -> Limits)
    decreases |es|
  {
    es == [] || (Covered(log, es[0]) && RunCovered(Step(log, es[0], lim), es[1..], lim))
  }

  /** The receives in the closed stretch of that length. */
  function Stretch(log: seq<Activity>, channel: string, x: int, length: int): nat {
    Tally(log, Within(channel, x, x + length))
  }

  /** No stretch of that length, wherever it begins, holds more receives than allowed. */
  ghost predicate Spaced(log: seq<Activity>, channel: string, length: int, max: int) {
    max <= 0 || forall x: int :: Stretch(log, channel, x, length) <= max
  }

  lemma PutOtherKeepsSpaced(log: seq<Activity>, row: Activity, channel: string, length: int, max: int)
    requires Spaced(log, channel, length, max) && !IsReceive(row, channel)
    ensures Spaced(Put(log, row), channel, length, max)
  {
    forall x: int ensures Stretch(Put(log, row), channel, x, length) <= Stretch(log, channel, x, length) {
      TallyPut(log, row, Within(channel, x, x + length));
    }
  }

  /** A receive stamped now or later fits when fewer than the maximum lie in the window that ends now. */
  lemma PutReceiveKeepsSpaced(log: seq<Activity>, row: Activity, now: int, channel: string, length: int, max: int)
    requires Spaced(log, channel, length, max) && now <= row.ts
    requires max <= 0 || Tally(log, Since(channel, now - length)) < max
    ensures Spaced(Put(log, row), channel, length, max)
  {
    if max > 0 {
      forall x: int ensures Stretch(Put(log, row), channel, x, length) <= max {
        var p := Within(channel, x, x + length);
        TallyPut(log, row, p);
        assert Stretch(log, channel, x, length) <= max;
        if p(row) {
          TallyWeaker(log, p, Since(channel, now - length));
        }
      }
    }
  }

  /** The limits both hold. */
  ghost predicate Limited(log: seq<Activity>, channel: string, lim: Limits) {
    Spaced(log, channel, HOUR, lim.hour) && Spaced(log, channel, DAY, lim.day)
  }

  lemma AdmittedFits(log: seq<Activity>, e: Event, lim: Limits)
    requires e.Message? && Covered(log, e) && Admits(log, e.now, e.channel, lim)
    ensures lim.hour <= 0 || Tally(log, Since(e.channel, e.now - HOUR)) < lim.hour
    ensures lim.day <= 0 || Tally(log, Since(e.channel, e.now - DAY)) < lim.day
  {
    ScanIsExactIff(log, HOUR_SCAN, Since(e.channel, e.now - HOUR));
    ScanIsExactIff(log, DAY_SCAN, Since(e.channel, e.now - DAY));
  }

  lemma PutOtherKeepsLimited(log: seq<Activity>, row: Activity, channel: string, lim: Limits)
    requires Limited(log, channel, lim) && !IsReceive(row, channel)
    ensures Limited(Put(log, row), channel, lim)
  {
    PutOtherKeepsSpaced(log, row, channel, HOUR, lim.hour);
    PutOtherKeepsSpaced(log, row, channel, DAY, lim.day);
  }

  lemma ReceiveKeepsLimited(log: seq<Activity>, e: Event, channel: string, lim: string -> Limits)
    requires e.Message? && Prompt(e, channel) && Covered(log, e) && Limited(log, channel, lim(channel))
    requires Admits(log, e.now, e.channel, lim(e.channel))
    ensures Limited(Put(log, Row(e, true)), channel, lim(channel))
  {
    if e.channel == channel {
      AdmittedFits(log, e, lim(channel));
      PutReceiveKeepsSpaced(log, Row(e, true), e.now, channel, HOUR, lim(channel).hour);
      PutReceiveKeepsSpaced(log, Row(e, true), e.now, channel, DAY, lim(channel).day);
    } else {
      PutOtherKeepsLimited(log, Row(e, true), channel, lim(channel));
    }
  }

  lemma StepKeepsLimited(log: seq<Activity>, e: Event, channel: string, lim: string -> Limits)
    requires Prompt(e, channel) && Covered(log, e) && Limited(log, channel, lim(channel))
    ensures Limited(Step(log, e, lim), channel, lim(channel))
  {
    if e.Message? {
      PutOtherKeepsLimited(log, Row(e, false), channel, lim(channel));
      if Admits(log, e.now, e.channel, lim(e.channel)) {
        ReceiveKeepsLimited(log, e, channel, lim);
      }
    } else {
      PutOtherKeepsLimited(log, e.row, channel, lim(channel));
    }
  }

  /** A full window overflows when one more receive is stamped now. */
  lemma FullWindowOverflows(log: seq<Activity>, row: Activity, channel: string, length: int, max: int)
    requires length >= 0 && 0 < max <= Tally(log, Since(channel, row.ts - length))
    requires row.received == Some(channel)
    requires forall a :: a in log ==> a.ts <= row.ts && !SameKey(row, a)
    ensures !Spaced(Put(log, row), channel, length, max)
  {
    var p := Within(channel, row.ts - length, row.ts - length + length);
    TallyWeaker(log, Since(channel, row.ts - length), p);
    TallyPut(log, row, p);
    assert Stretch(Put(log, row), channel, row.ts - length, length) > max;
  }

  /** With scans that cover their windows the limiter refuses only what would break a limit: a fresh receive
      stamped now, in a log without later rows, keeps both limits if and only if it is admitted. */
  lemma AdmissionIsExact(log: seq<Activity>, e: Event, lim: string -> Limits)
    requires e.Message? && e.stamp == e.now && Covered(log, e) && Limited(log, e.channel, lim(e.channel))
    requires forall a :: a in log ==> a.ts <= e.now && !SameKey(Row(e, true), a)
    ensures Admits(log, e.now, e.channel, lim(e.channel))
        <==> Limited(Put(log, Row(e, true)), e.channel, lim(e.channel))
  {
    var l := lim(e.channel);
    if Admits(log, e.now, e.channel, l) {
      ReceiveKeepsLimited(log, e, e.channel, lim);
    } else {
      ScanIsExactIff(log, HOUR_SCAN, Since(e.channel, e.now - HOUR));
      ScanIsExactIff(log, DAY_SCAN, Since(e.channel, e.now - DAY));
      if l.hour > 0 && Tally(log, Since(e.channel, e.now - HOUR)) >= l.hour {
        FullWindowOverflows(log, Row(e, true), e.channel, HOUR, l.hour);
      } else {
        FullWindowOverflows(log, Row(e, true), e.channel, DAY, l.day);
      }
    }
  }

  /** What one message does to the counts: one that is let through and received counts once from its stamp on, and a
      refused, dropped or unrecorded one never does. Nothing else in the log is touched, for a key that is new. */
  lemma MessageCounts(log: seq<Activity>, e: Event, lim: string -> Limits, channel: string, since: int)
    requires e.Message? && forall a :: a in log ==> !SameKey(Row(e, true), a)
    ensures var counts := e.outcome == Received && Admits(log, e.now, e.channel, lim(e.channel));
            Tally(Step(log, e, lim), Since(channel, since))
            == Tally(log, Since(channel, since)) + if counts && e.channel == channel && e.stamp >= since then 1 else 0
    ensures forall a :: a in log ==> a in Step(log, e, lim)
    ensures if e.outcome == Unrecorded && Admits(log, e.now, e.channel, lim(e.channel)) then Step(log, e, lim) == log
            else Row(e, e.outcome == Received && Admits(log, e.now, e.channel, lim(e.channel))) in Step(log, e, lim)
  {
    TallyPut(log, Row(e, true), Since(channel, since));
    TallyPut(log, Row(e, false), Since(channel, since));
    PutKeepsRows(log, Row(e, true));
    PutKeepsRows(log, Row(e, false));
  }

  lemma {:induction false} PutKeepsRows(log: seq<Activity>, a: Activity)
    requires forall b :: b in log ==> !SameKey(a, b)
    ensures forall b :: b in log ==> b in Put(log, a)
  {
    if log != [] && !Newer(a, log[0]) {
      PutKeepsRows(log[1..], a);
      assert log == [log[0]] + log[1..];
    }
  }

  /** Over any run of messages stamped at handling time whose scans cover their windows, every sliding hour and every
      sliding day holds at most the configured number of receives on the channel. */
  lemma {:induction false} WindowsHold(log: seq<Activity>, es: seq<Event>, channel: string, lim: string -> Limits)
    requires Limited(log, channel, lim(channel)) && RunCovered(log, es, lim)
    requires forall i :: 0 <= i < |es| ==> Prompt(es[i], channel)
    ensures Limited(Run(log, es, lim), channel, lim(channel))
    decreases |es|
  {
    if es != [] {
      StepKeepsLimited(log, es[0], channel, lim);
      WindowsHold(Step(log, es[0], lim), es[1..], channel, lim);
    }
  }

  // ---------------------------------------------------------------- coverage as the worker can see it

  /** What the query returned shows that it missed nothing of the window: fewer rows than asked for, or one older than
      it. */
  predicate Complete(log: seq<Activity>, n: nat, since: int) {
    var rows := Newest(log, n);
    |rows| < n || (rows != [] && rows[|rows| - 1].ts < since)
  }

  predicate RunComplete(log: seq<Activity>, es: seq<Event>, lim: string -> Limits)
    decreases |es|
  {
    es == []
    || (&& (es[0].Message? ==> Complete(log, HOUR_SCAN, es[0].now - HOUR) && Complete(log, DAY_SCAN, es[0].now - DAY))
        && RunComplete(Step(log, es[0], lim), es[1..], lim))
  }

  lemma CompleteCovers(log: seq<Activity>, n: nat, channel: string, since: int)
    requires Ordered(log) && Complete(log, n, since)
    ensures Covers(log, n, Since(channel, since))
  {
    if n < |log| {
      assert Newest(log, n)[n - 1] == log[n - 1] && Newer(log[n - 1], log[n]);
    }
    ScanReachingBackIsExact(log, n, channel, since);
    ScanIsExactIff(log, n, Since(channel, since));
  }

  lemma {:induction false} CompleteRunIsCovered(log: seq<Activity>, es: seq<Event>, lim: string -> Limits)
    requires Ordered(log) && RunComplete(log, es, lim)
    ensures RunCovered(log, es, lim)
    decreases |es|
  {
    if es != [] {
      if es[0].Message? {
        CompleteCovers(log, HOUR_SCAN, es[0].channel, es[0].now - HOUR);
        CompleteCovers(log, DAY_SCAN, es[0].channel, es[0].now - DAY);
      }
      StepKeepsOrder(log, es[0], lim);
      CompleteRunIsCovered(Step(log, es[0], lim), es[1..], lim);
    }
  }

  /** The sliding windows hold over any run of promptly stamped messages in which each scan came back short or reached a
      row older than its window, which the worker can read off the rows it got. */
  lemma WindowsHoldAsSeen(log: seq<Activity>, es: seq<Event>, channel: string, lim: string -> Limits)
    requires Ordered(log) && Limited(log, channel, lim(channel)) && RunComplete(log, es, lim)
    requires forall i :: 0 <= i < |es| ==> Prompt(es[i], channel)
    ensures Limited(Run(log, es, lim), channel, lim(channel))
  {
    CompleteRunIsCovered(log, es, lim);
    WindowsHold(log, es, channel, lim);
  }

  // ---------------------------------------------------------------- bursts

  /** n receives in one instant. */
  function Burst(at: int, channel: string, n: nat): (log: seq<Activity>)
    ensures |log| == n && forall i :: 0 <= i < n ==> log[i] == Activity(at, n - 1 - i, Some(channel))
  {
    if n == 0 then [] else [Activity(at, n - 1, Some(channel))] + Burst(at, channel, n - 1)
  }

  /** A burst is counted in full by a stretch that holds its instant, and not at all by any other. */
  lemma BurstTally(at: int, channel: string, n: nat)
    ensures Ordered(Burst(at, channel, n))
    ensures forall t: int :: Tally(Burst(at, channel, n), Since(channel, t)) == if at >= t then n else 0
    ensures forall x: int, y: int ::
      Tally(Burst(at, channel, n), Within(channel, x, y)) == if x <= at <= y then n else 0
  {
    var log := Burst(at, channel, n);
    forall t: int ensures Tally(log, Since(channel, t)) == if at >= t then n else 0 {
      TallyFull(log, Since(channel, t));
      TallyBounds(log, Since(channel, t));
    }
    forall x: int, y: int ensures Tally(log, Within(channel, x, y)) == if x <= at <= y then n else 0 {
      TallyFull(log, Within(channel, x, y));
      TallyBounds(log, Within(channel, x, y));
    }
  }

  // ---------------------------------------------------------------- when a limit can refuse

  predicate Refuses(log: seq<Activity>, now: int, channel: string, lim: Limits) {
    Ordered(log) && !Admits(log, now, channel, lim)
  }

  /** A limit is void beyond the scan length: some log is refused if and only if the hourly or the daily limit is on and
      within the length of its scan, 250 and 500 rows. */
  lemma LimitsCanRefuseIff(now: int, channel: string, lim: Limits)
    ensures (exists log :: Refuses(log, now, channel, lim)) <==> 0 < lim.hour <= 250 || 0 < lim.day <= 500
  {
    if 0 < lim.hour <= HOUR_SCAN {
      BurstTally(now, channel, lim.hour);
      assert Refuses(Burst(now, channel, lim.hour), now, channel, lim);
    } else if 0 < lim.day <= DAY_SCAN {
      BurstTally(now, channel, lim.day);
      assert Refuses(Burst(now, channel, lim.day), now, channel, lim);
    } else {
      forall log ensures !Refuses(log, now, channel, lim) {
        TallyBounds(Newest(log, HOUR_SCAN), Since(channel, now - HOUR));
        TallyBounds(Newest(log, DAY_SCAN), Since(channel, now - DAY));
      }
    }
  }

  /** For instance, one receive uses up limits of one for an hour and for a day. */
  lemma OneReceiveRefuses(at: int, now: int, channel: string)
    ensures var log := [Activity(at, 0, Some(channel))];
            && (Admits(log, now, channel, Limits(1, 0)) <==> now - at > 3_600_000_000_000)
            && (Admits(log, now, channel, Limits(0, 1)) <==> now - at > 24 * 3_600_000_000_000)
  {
    var log := [Activity(at, 0, Some(channel))];
    TallyFull(log, Since(channel, now - HOUR));
    TallyBounds(log, Since(channel, now - HOUR));
    TallyFull(log, Since(channel, now - DAY));
    TallyBounds(log, Since(channel, now - DAY));
  }

  // ---------------------------------------------------------------- what the premises are for

  /** Newest rows that are no receives on the channel hide everything older: the message is let through. */
  lemma FloodHidesReceives(log: seq<Activity>, now: int, channel: string, lim: Limits)
    requires forall i :: 0 <= i < DAY_SCAN && i < |log| ==> !IsReceive(log[i], channel)
    ensures Admits(log, now, channel, lim)
  {
    TallyBounds(Newest(log, HOUR_SCAN), Since(channel, now - HOUR));
    TallyBounds(Newest(log, DAY_SCAN), Since(channel, now - DAY));
  }

  /** n bounces in one instant. */
  function Bounces(at: int, n: nat): (log: seq<Activity>)
    ensures |log| == n && forall i :: 0 <= i < n ==> log[i] == Activity(at, n - 1 - i, None)
  {
    if n == 0 then [] else [Activity(at, n - 1, None)] + Bounces(at, n - 1)
  }

  /** For instance: 500 bounces after a receive, under limits of one. The limit is used up, and the message passes. */
  lemma BouncesHideReceive(now: int, channel: string)
    ensures var log := Bounces(now, DAY_SCAN) + [Activity(now - 1, 0, Some(channel))];
            && Ordered(log) && Admits(log, now, channel, Limits(1, 1))
            && Tally(log, Since(channel, now - HOUR)) == 1 == Tally(log, Since(channel, now - DAY))
  {
    var bounces, receive := Bounces(now, DAY_SCAN), [Activity(now - 1, 0, Some(channel))];
    var log := bounces + receive;
    FloodHidesReceives(log, now, channel, Limits(1, 1));
    forall since | since <= now - HOUR ensures Tally(log, Since(channel, since)) == 1 {
      TallySplit(bounces, receive, Since(channel, since));
      TallyBounds(bounces, Since(channel, since));
      TallyFull(receive, Since(channel, since));
    }
  }

  /** A daily limit equal to the scan length, as email has by default, refuses exactly when every one of the newest rows
      is a receive of the last day on that channel: a single other row among them lets everything through. */
  lemma LimitAtScanLength(log: seq<Activity>, now: int, channel: string)
    ensures Admits(log, now, channel, Limits(0, DAY_SCAN))
       <==> !(|log| >= DAY_SCAN && forall i :: 0 <= i < DAY_SCAN ==> Since(channel, now - DAY)(log[i]))
  {
    var p, newest := Since(channel, now - DAY), Newest(log, DAY_SCAN);
    TallyFull(newest, p);
    TallyBounds(newest, p);
  }

  /** The messages from..n, all handled at the same time and stamped two days earlier. */
  function Backdated(now: int, channel: string, from: nat, n: nat): seq<Event>
    requires from <= n
    decreases n - from
  {
    if from == n then []
    else [Message(now, channel, from, now - 2 * DAY, Received)] + Backdated(now, channel, from + 1, n)
  }

  /** Rows of one past instant with ids below the bound. */
  predicate AllOld(log: seq<Activity>, now: int, bound: int) {
    forall a :: a in log ==> a.ts == now - 2 * DAY && a.id < bound
  }

  lemma BackdatedIsAdmitted(log: seq<Activity>, now: int, channel: string, bound: int, lim: Limits)
    requires AllOld(log, now, bound)
    ensures Admits(log, now, channel, lim)
  {
    TallyBounds(Newest(log, HOUR_SCAN), Since(channel, now - HOUR));
    TallyBounds(Newest(log, DAY_SCAN), Since(channel, now - DAY));
  }

  /** Receipt times are taken from the message: any number of messages stamped two days back are let through at
      once, whatever the limits, and all of them then lie in the same instant. */
  lemma {:induction false} BackdatedEscape(log: seq<Activity>, now: int, channel: string, from: nat, n: nat,
                                           lim: string -> Limits)
    requires from <= n && AllOld(log, now, from)
    ensures Stretch(Run(log, Backdated(now, channel, from, n), lim), channel, now - 2 * DAY, 0)
         == Stretch(log, channel, now - 2 * DAY, 0) + n - from
    decreases n - from
  {
    if from < n {
      var es := Backdated(now, channel, from, n);
      BackdatedIsAdmitted(log, now, channel, from, lim(channel));
      var row := Row(es[0], true);
      TallyPut(log, row, Within(channel, now - 2 * DAY, now - 2 * DAY + 0));
      assert es[1..] == Backdated(now, channel, from + 1, n);
      BackdatedEscape(Put(log, row), now, channel, from + 1, n, lim);
    }
  }
}

/** The same log with its texts: what the worker writes and how its loop reads it back. */
module ActivityTexts {
  import opened Base
  import opened Text
  import opened RateLimit

  datatype Item = Item(ts: int, id: int, channel: string, direction: string, action: string)

  function Read(r: Item): Activity {
    var isReceive := Norm(r.direction) == "inbound" && Norm(r.action) == "receive";
    Activity(r.ts, r.id, if isReceive then Some(Norm(r.channel)) else None)
  }

  function ReadAll(rs: seq<Item>): (r: seq<Activity>)
    ensures |r| == |rs|
  {
    if rs == [] then [] else ReadAll(rs[..|rs| - 1]) + [Read(rs[|rs| - 1])]
  }

  /** The worker's counting loop over the rows its query returned; a blank channel or a failed query is an error. */
  method CountInboundReceivesSince(rows: Option<seq<Item>>, channel: string, since: int) returns (r: Option<nat>)
    ensures r.None? <==> Norm(channel) == "" || rows.None?
    ensures r.Some? ==> r.value == Tally(ReadAll(rows.value), Since(Norm(channel), since))
  {
    var ch := Norm(channel);
    if ch == "" || rows.None? {
      return None;
    }
    var items, count: nat := rows.value, 0;
    for i := 0 to |items|
      invariant count == Tally(ReadAll(items[..i]), Since(ch, since))
    {
      var counts := Counts(items[i], ch, since);
      CountOne(items, i, Since(ch, since));
      if !counts {
        continue;
      }
      count := count + 1;
    }
    assert items[..|items|] == items;
    return Some(count);
  }

  method Counts(item: Item, ch: string, since: int) returns (r: bool)
    ensures r <==> Since(ch, since)(Read(item))
  {
    if item.ts < since {
      return false;
    }
    if Norm(item.direction) != "inbound" {
      return false;
    }
    if Norm(item.channel) != ch {
      return false;
    }
    return Norm(item.action) == "receive";
  }

  lemma CountOne(items: seq<Item>, i: nat, p: Activity -> bool)
    requires i < |items|
    ensures Tally(ReadAll(items[..i + 1]), p) == Tally(ReadAll(items[..i]), p) + if p(Read(items[i])) then 1 else 0
  {
    assert items[..i + 1][..i] == items[..i];
    TallySplit(ReadAll(items[..i]), [Read(items[i])], p);
  }

  lemma {:induction false} ReadPrefix(items: seq<Item>, n: nat)
    requires n <= |items|
    ensures ReadAll(items[..n]) == ReadAll(items)[..n]
  {
    if n == |items| {
      assert items[..n] == items;
    } else {
      var init := items[..|items| - 1];
      ReadPrefix(init, n);
      assert init[..n] == items[..n];
    }
  }

  function NewestItems(log: seq<Item>, n: nat): seq<Item> { if n < |log| then log[..n] else log }

  lemma NewestIsRead(log: seq<Item>, n: nat)
    ensures ReadAll(NewestItems(log, n)) == Newest(ReadAll(log), n)
  {
    if n < |log| {
      ReadPrefix(log, n);
    }
  }

  /** The configured or default limits of a channel; an override counts only when it is positive. */
  function InboundRateLimits(channel: string, hour: Option<int>, day: Option<int>): Limits {
    var d := match Norm(channel)
      case "email" => Limits(50, 500)
      case "sms" => Limits(20, 200)
      case _ => Limits(0, 0);
    Limits(if hour.Some? && hour.value > 0 then hour.value else d.hour,
           if day.Some? && day.value > 0 then day.value else d.day)
  }

  /** One query for the newest rows and the count over them. */
  method CountNewest(log: seq<Item>, readable: bool, n: nat, channel: string, since: int) returns (r: Option<nat>)
    ensures r.None? <==> Norm(channel) == "" || !readable
    ensures r.Some? ==> r.value == Scan(ReadAll(log), n, Since(Norm(channel), since))
  {
    NewestIsRead(log, n);
    r := CountInboundReceivesSince(if readable then Some(NewestItems(log, n)) else None, channel, since);
  }

  /** Refuses exactly what the limiter does not admit under the configured or default limits of the channel; a blank
      channel or a failed query is an error. */
  method HandleRateLimited(log: seq<Item>, readable: bool, readableAgain: bool, now: int, channel: string,
                           maxHour: Option<int>, maxDay: Option<int>) returns (refused: Option<bool>)
    ensures refused.None? <==> Norm(channel) == "" || !readable || !readableAgain
    ensures refused.Some? ==>
      (refused.value <==> !Admits(ReadAll(log), now, Norm(channel), InboundRateLimits(channel, maxHour, maxDay)))
  {
    var lim := InboundRateLimits(channel, maxHour, maxDay);
    var hour := CountNewest(log, readable, HOUR_SCAN, channel, now - HOUR);
    if hour.None? {
      return None;
    }
    var day := CountNewest(log, readableAgain, DAY_SCAN, channel, now - DAY);
    if day.None? {
      return None;
    }
    refused := Some(!((lim.hour <= 0 || hour.value < lim.hour) && (lim.day <= 0 || day.value < lim.day)));
  }

  /** The limits of a channel without configuration, and with it: a positive number replaces the default. */
  lemma ChannelLimits(channel: string, hour: Option<int>, day: Option<int>)
    ensures Norm(channel) == "email" ==> InboundRateLimits(channel, None, None) == Limits(50, 500)
    ensures Norm(channel) == "sms" ==> InboundRateLimits(channel, None, None) == Limits(20, 200)
    ensures Norm(channel) != "email" && Norm(channel) != "sms" ==> Unlimited(InboundRateLimits(channel, None, None))
    ensures var l, d := InboundRateLimits(channel, hour, day), InboundRateLimits(channel, None, None);
            && l.hour == (if hour.Some? && hour.value > 0 then hour.value else d.hour)
            && l.day == (if day.Some? && day.value > 0 then day.value else d.day)
  {
  }

  predicate Unlimited(l: Limits) { l.hour <= 0 && l.day <= 0 }

  /** The activity the worker records. */
  function Recorded(stamp: int, id: int, channel: string, action: string): Item {
    Item(stamp, id, Norm(channel), "inbound", Norm(action))
  }

  /** Only inbound activities are receives, and others are none on any channel. */
  lemma OnlyInboundReceives(r: Item, channel: string)
    ensures IsReceive(Read(r), channel) <==>
            Norm(r.direction) == "inbound" && Norm(r.action) == "receive" && Norm(r.channel) == channel
  {
  }

  /** A recorded receive is read back as one on its channel, and a recorded bounce or drop is not. */
  lemma RecordedIsReadBack(stamp: int, id: int, channel: string, action: string)
    ensures Read(Recorded(stamp, id, channel, action)) ==
            Activity(stamp, id, if Norm(action) == "receive" then Some(Norm(channel)) else None)
  {
    NormTwice(channel);
    NormTwice(action);
    TrimmedIsFixed("inbound");
    LowerIsFixed("inbound");
  }
}
