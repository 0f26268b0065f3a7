/** What an answered or failed read leads a caller to, in every interleaving (internal/ai/service.go). */
module CallerRuns {
  import opened Base
  import opened AiTable
  import opened GetOrQueue
  import opened AiSystem

  /** A condition on a store call: the table and the caller before it, its reply, and the jobs it found in flight. */
  type Occasion = (Table, Caller, Reply, int) -> bool

  /** Event k was such a call of caller n. */
  ghost predicate HappenedAt(t: Table, es: seq<Event>, n: nat, k: nat, what: Occasion) {
    && k < |es| && es[k].CallerEvent? && es[k].n == n
    && var s := Run(Start(t), es[..k]);
       n in s.callers && what(s.table, s.callers[n], es[k].reply, es[k].inflight)
  }

  lemma PrefixRun(t: Table, es: seq<Event>, m: nat)
    requires m < |es|
    ensures Run(Start(t), es[..m + 1]) == Step(Run(Start(t), es[..m]), es[m])
  {
    assert es[..m + 1][..m] == es[..m];
  }

  // ---------------------------------------------------------------- a result is served

  /** The caller's first read is answered and finds a result that has not expired. */
  function FindsResult(): Occasion {
    (t: Table, c: Caller, reply: Reply, inflight: int) =>
      && c.phase == ReadResult && reply == Fine && c.req.job in t.results
      && (t.results[c.req.job].expiresAt.None? || t.results[c.req.job].expiresAt.value >= c.req.now)
  }

  predicate IsHit(a: Response) { a.status == OkStatus && a.cached && a.reason == CacheHit && a.debited == 0 }

  /** The caller serves the result: it is about to record the hit, or has answered with it. */
  predicate Serves(c: Caller) { c.phase.RecordHit? || (c.phase.Done? && IsHit(c.phase.answer)) }

  lemma FindingServes(t: Table, c: Caller, reply: Reply, inflight: int)
    requires FindsResult()(t, c, reply, inflight)
    ensures CallerStep(t, c, reply, inflight).1.phase.RecordHit?
  {
  }

  lemma ServingAnswers(t: Table, c: Caller, reply: Reply, inflight: int)
    requires Serves(c)
    ensures var c' := CallerStep(t, c, reply, inflight).1; c'.phase.Done? && IsHit(c'.phase.answer)
  {
  }

  lemma ServesNext(s: System, e: Event, n: nat)
    requires n in s.callers && Serves(s.callers[n])
    ensures n in Step(s, e).callers && Serves(Step(s, e).callers[n])
    ensures e.CallerEvent? && e.n == n ==> Step(s, e).callers[n].phase.Done?
    ensures s.callers[n].phase.Done? ==> Step(s, e).callers[n].phase.Done?
  {
    if e.CallerEvent? && e.n == n {
      ServingAnswers(s.table, s.callers[n], e.reply, e.inflight);
    }
  }

  lemma {:induction false} ServedFrom(t: Table, es: seq<Event>, n: nat, k: nat, m: nat)
    requires k < m <= |es|
    ensures HappenedAt(t, es, n, k, FindsResult()) ==>
              var s := Run(Start(t), es[..m]);
              && n in s.callers && Serves(s.callers[n])
              && ((exists j :: k < j < m && es[j].CallerEvent? && es[j].n == n) ==> s.callers[n].phase.Done?)
    decreases m
  {
    if HappenedAt(t, es, n, k, FindsResult()) {
      PrefixRun(t, es, m - 1);
      var s := Run(Start(t), es[..m - 1]);
      if m == k + 1 {
        FindingServes(s.table, s.callers[n], es[k].reply, es[k].inflight);
      } else {
        ServedFrom(t, es, n, k, m - 1);
        ServesNext(s, es[m - 1], n);
      }
    }
  }

  /** In every run a caller whose first read is answered with an unexpired result serves it, and has answered with the
      cache hit after its next store call, whatever that call's reply. */
  lemma FreshResultIsServed(t: Table, es: seq<Event>, n: nat, k: nat)
    ensures HappenedAt(t, es, n, k, FindsResult()) ==>
              var s := Run(Start(t), es);
              && n in s.callers && Serves(s.callers[n])
              && ((exists j :: k < j < |es| && es[j].CallerEvent? && es[j].n == n) ==>
                    s.callers[n].phase.Done? && IsHit(s.callers[n].phase.answer))
  {
    if HappenedAt(t, es, n, k, FindsResult()) {
      ServedFrom(t, es, n, k, |es|);
      assert es[..|es|] == es;
    }
  }

  // ---------------------------------------------------------------- errors

  /** A call whose failure ends the request: the budget read, or one of the writes that queue the job. */
  function LosesCall(): Occasion {
    (t: Table, c: Caller, reply: Reply, inflight: int) =>
      reply != Fine && (c.phase.ReadBudget? || c.phase.CreateFree? || c.phase.CommitDebit?)
  }

  predicate Failed(c: Caller) { c.phase.Done? && c.phase.answer.status == ErrorStatus }

  /** A caller fails exactly when such a call gets no good reply; other calls may fail without ending the request. */
  lemma FailsIff(t: Table, c: Caller, reply: Reply, inflight: int)
    requires !c.phase.Done?
    ensures Failed(CallerStep(t, c, reply, inflight).1) <==> LosesCall()(t, c, reply, inflight)
  {
  }

  lemma FailedNext(s: System, e: Event, n: nat)
    requires n in Step(s, e).callers
    ensures Failed(Step(s, e).callers[n]) <==>
            n in s.callers
            && (|| Failed(s.callers[n])
                || (e.CallerEvent? && e.n == n && !s.callers[n].phase.Done?
                    && LosesCall()(s.table, s.callers[n], e.reply, e.inflight)))
  {
    if e.CallerEvent? && e.n == n && n in s.callers && !s.callers[n].phase.Done? {
      FailsIff(s.table, s.callers[n], e.reply, e.inflight);
    }
  }

  ghost predicate LostBefore(t: Table, es: seq<Event>, n: nat, m: nat) {
    exists k: nat :: k < m && HappenedAt(t, es, n, k, LosesCall())
  }

  lemma LostBeforeNext(t: Table, es: seq<Event>, n: nat, m: nat)
    ensures LostBefore(t, es, n, m + 1) <==> LostBefore(t, es, n, m) || HappenedAt(t, es, n, m, LosesCall())
  {
  }

  lemma FailedAtNext(t: Table, es: seq<Event>, n: nat, m: nat)
    requires m < |es|
    ensures var s := Run(Start(t), es[..m]);
            n in s.callers ==>
              n in Step(s, es[m]).callers
              && (Failed(Step(s, es[m]).callers[n]) <==> Failed(s.callers[n]) || HappenedAt(t, es, n, m, LosesCall()))
  {
    var s := Run(Start(t), es[..m]);
    if n in s.callers {
      FailedNext(s, es[m], n);
    }
  }

  lemma {:induction false} NotYetThere(t: Table, es: seq<Event>, n: nat, m: nat)
    requires m <= |es|
    ensures n !in Run(Start(t), es[..m]).callers ==> !LostBefore(t, es, n, m)
    decreases m
  {
    if m > 0 {
      PrefixRun(t, es, m - 1);
      NotYetThere(t, es, n, m - 1);
      LostBeforeNext(t, es, n, m - 1);
    }
  }

  lemma {:induction false} FailedUpTo(t: Table, es: seq<Event>, n: nat, m: nat)
    requires m <= |es|
    ensures var s := Run(Start(t), es[..m]);
            n in s.callers ==> (Failed(s.callers[n]) <==> LostBefore(t, es, n, m))
    decreases m
  {
    if m > 0 {
      var s := Run(Start(t), es[..m - 1]);
      PrefixRun(t, es, m - 1);
      LostBeforeNext(t, es, n, m - 1);
      if n in s.callers {
        FailedUpTo(t, es, n, m - 1);
        FailedAtNext(t, es, n, m - 1);
      } else {
        NotYetThere(t, es, n, m - 1);
      }
    }
  }

  /** In every run a caller is answered with an error if and only if its budget read or its queueing write got no good
      reply. */
  lemma ErrorsAreLostCalls(t: Table, es: seq<Event>, n: nat)
    ensures n in Run(Start(t), es).callers ==>
              (Failed(Run(Start(t), es).callers[n]) <==> LostBefore(t, es, n, |es|))
  {
    FailedUpTo(t, es, n, |es|);
    assert es[..|es|] == es;
  }

  // ---------------------------------------------------------------- every caller is answered

  /** How many more store calls a caller makes at most. */
  function CallsLeft(p: Phase): nat {
    match p
    case ReadResult => 9
    case RecordHit => 1
    case ReadJob => 8
    case CountInflight => 7
    case CreateFree => 1
    case ReadBudget => 6
    case CommitDebit(_) => 5
    case ConflictResult => 3
    case ConflictJob => 2
    case ConflictBudget => 1
    case Refresh(_) => 1
    case Done(_) => 0
  }

  lemma EveryCallCounts(t: Table, c: Caller, reply: Reply, inflight: int)
    requires !c.phase.Done?
    ensures CallsLeft(CallerStep(t, c, reply, inflight).1.phase) < CallsLeft(c.phase)
  {
  }

  /** The number of store calls of caller n among these events. */
  function OwnCalls(es: seq<Event>, n: nat): nat {
    if es == [] then 0
    else OwnCalls(es[..|es| - 1], n) + if es[|es| - 1].CallerEvent? && es[|es| - 1].n == n then 1 else 0
  }

  lemma CallsLeftNext(s: System, e: Event, n: nat)
    requires n in s.callers
    ensures n in Step(s, e).callers
    ensures var own := if e.CallerEvent? && e.n == n then 1 else 0;
            var p, p' := s.callers[n].phase, Step(s, e).callers[n].phase;
            (p.Done? ==> p'.Done?) && (p'.Done? || CallsLeft(p') + own <= CallsLeft(p))
  {
    if e.CallerEvent? && e.n == n && !s.callers[n].phase.Done? {
      EveryCallCounts(s.table, s.callers[n], e.reply, e.inflight);
    }
  }

  lemma {:induction false} CallsRunOut(s: System, es: seq<Event>, n: nat)
    requires n in s.callers
    ensures n in Run(s, es).callers
    ensures var p := Run(s, es).callers[n].phase;
            p.Done? || CallsLeft(p) + OwnCalls(es, n) <= CallsLeft(s.callers[n].phase)
    decreases |es|
  {
    if |es| > 0 {
      CallsRunOut(s, es[..|es| - 1], n);
      CallsLeftNext(Run(s, es[..|es| - 1]), es[|es| - 1], n);
    }
  }

  /** Every caller is answered after at most nine store calls of its own, whatever they return and whoever else runs. */
  lemma EveryCallerIsAnswered(s: System, es: seq<Event>, n: nat)
    requires n in s.callers && OwnCalls(es, n) >= 9
    ensures n in Run(s, es).callers && Run(s, es).callers[n].phase.Done?
  {
    CallsRunOut(s, es, n);
  }
}
