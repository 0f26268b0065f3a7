/** What the answers of GetOrQueue rest on, in every interleaving: the stored budget, or a read that failed. */
module Refusals {
  import opened Base
  import opened AiTable
  import opened GetOrQueue
  import opened Answers
  import opened AiSystem

  lemma {:induction false} RunMeans(s: System, es: seq<Event>)
    requires forall m <- s.callers :: CallerMeans(s.callers[m])
    ensures forall m <- Run(s, es).callers :: CallerMeans(Run(s, es).callers[m])
    decreases |es|
  {
    if |es| > 0 {
      var m, e := Run(s, es[..|es| - 1]), es[|es| - 1];
      RunMeans(s, es[..|es| - 1]);
      if e.CallerEvent? && e.n in m.callers {
        CallerStepMeans(m.table, m.callers[e.n], e.reply, e.inflight);
      }
    }
  }

  /** The answer shows the stored allowance, and a usage the stored one has reached. */
  predicate ShowsStored(t: Table, r: Request, a: Response) {
    && r.Budget() in t.budgets
    && a.included == t.budgets[r.Budget()].included && a.used <= t.budgets[r.Budget()].Used()
  }

  predicate ShowsNothing(a: Response) { a.included == 0 && a.used == 0 }

  /** The answer is about the budget row. */
  predicate AboutBudget(a: Response) {
    a.reason == BudgetExceeded || a.reason == BudgetConflict || a.reason == Debited || a.reason == OverageDebited
  }

  /** Caller n, at its last look at the budget row, got no reply to event k. */
  ghost predicate UnreadAt(t: Table, es: seq<Event>, n: nat, k: nat) {
    && k < |es| && es[k].CallerEvent? && es[k].n == n && es[k].reply != Fine
    && var before := Run(Start(t), es[..k]);
       n in before.callers && (before.callers[n].phase.ConflictBudget? || before.callers[n].phase.Refresh?)
  }

  /** Caller n was told at event k of as many jobs in flight as it allows. */
  ghost predicate CrowdedAt(t: Table, es: seq<Event>, n: nat, k: nat, limit: int) {
    && k < |es| && es[k].CallerEvent? && es[k].n == n && es[k].reply == Fine && 0 < limit <= es[k].inflight
    && var before := Run(Start(t), es[..k]);
       n in before.callers && before.callers[n].phase.CountInflight?
  }

  ghost predicate Unread(t: Table, es: seq<Event>, n: nat) { exists k: nat :: UnreadAt(t, es, n, k) }

  ghost predicate Crowded(t: Table, es: seq<Event>, n: nat, limit: int) {
    exists k: nat :: CrowdedAt(t, es, n, k, limit)
  }

  /** What an answer rests on. One about the budget shows the stored allowance and a usage that was reached, or nothing
      if the row could not be read; a missing budget is missing; a full house was counted. */
  predicate Grounded(now: Table, r: Request, a: Response, unread: bool, crowded: bool) {
    && (AboutBudget(a) ==> ShowsStored(now, r, a) || (ShowsNothing(a) && (r.Budget() !in now.budgets || unread)))
    && (a.reason == NotConfigured ==> r.Budget() !in now.budgets)
    && (a.reason == ConcurrencyExceeded ==> crowded)
  }

  /** A caller that is answered has grounds in the event that answers it. */
  predicate StepGrounded(t: Table, c: Caller, reply: Reply, inflight: int) {
    var (t', c') := CallerStep(t, c, reply, inflight);
    c'.phase.Done? ==>
      Grounded(t', c.req, c'.phase.answer,
               reply != Fine && (c.phase.ConflictBudget? || c.phase.Refresh?),
               c.phase.CountInflight? && reply == Fine && 0 < c.req.maxInflight <= inflight)
  }

  lemma EarlyGrounded(t: Table, c: Caller, reply: Reply, inflight: int)
    requires Early(c.phase)
    ensures StepGrounded(t, c, reply, inflight)
  {
  }

  lemma LateGrounded(t: Table, c: Caller, reply: Reply, inflight: int)
    requires Late(c.phase) && !c.phase.Done?
    ensures StepGrounded(t, c, reply, inflight)
  {
  }

  lemma MiddleGrounded(t: Table, c: Caller, reply: Reply, inflight: int)
    requires !Early(c.phase) && !Late(c.phase)
    ensures StepGrounded(t, c, reply, inflight)
  {
  }

  /** The step that answers. */
  lemma AnsweringStep(t: Table, c: Caller, reply: Reply, inflight: int)
    requires !c.phase.Done?
    ensures StepGrounded(t, c, reply, inflight)
  {
    if Early(c.phase) {
      EarlyGrounded(t, c, reply, inflight);
    } else if Late(c.phase) {
      LateGrounded(t, c, reply, inflight);
    } else {
      MiddleGrounded(t, c, reply, inflight);
    }
  }

  lemma MoreEvidence(t: Table, r: Request, a: Response, unread: bool, crowded: bool, unread': bool, crowded': bool)
    requires Grounded(t, r, a, unread, crowded) && (unread ==> unread') && (crowded ==> crowded')
    ensures Grounded(t, r, a, unread', crowded')
  {
  }

  lemma GroundedGrows(t: Table, t': Table, r: Request, a: Response, unread: bool, crowded: bool, unread': bool,
                      crowded': bool)
    requires Grows(t, t') && Grounded(t, r, a, unread, crowded) && (unread ==> unread') && (crowded ==> crowded')
    ensures Grounded(t', r, a, unread', crowded')
  {
    if r.Budget() in t.budgets {
      assert BudgetGrows(t.budgets[r.Budget()], t'.budgets[r.Budget()]);
    }
  }

  lemma UnreadStays(t: Table, es: seq<Event>, e: Event, n: nat)
    requires Unread(t, es, n)
    ensures Unread(t, es + [e], n)
  {
    var k: nat :| UnreadAt(t, es, n, k);
    assert (es + [e])[..k] == es[..k];
    assert UnreadAt(t, es + [e], n, k);
  }

  lemma CrowdedStays(t: Table, es: seq<Event>, e: Event, n: nat, limit: int)
    requires Crowded(t, es, n, limit)
    ensures Crowded(t, es + [e], n, limit)
  {
    var k: nat :| CrowdedAt(t, es, n, k, limit);
    assert (es + [e])[..k] == es[..k];
    assert CrowdedAt(t, es + [e], n, k, limit);
  }

  lemma TableGrows(t: Table, es: seq<Event>, e: Event)
    requires TableOk(t)
    ensures Run(Start(t), es + [e]) == Step(Run(Start(t), es), e)
    ensures Grows(Run(Start(t), es).table, Run(Start(t), es + [e]).table)
  {
    assert (es + [e])[..|es|] == es;
    RunKeeps(Start(t), es);
    StepKeeps(Run(Start(t), es), e);
  }

  /** The event at which caller n is answered is the evidence. */
  lemma EvidenceOf(t: Table, es: seq<Event>, e: Event, c: Caller)
    requires e.CallerEvent?
    ensures IsCaller(t, es, e.n, c) && e.reply != Fine && (c.phase.ConflictBudget? || c.phase.Refresh?) ==>
        Unread(t, es + [e], e.n)
    ensures IsCaller(t, es, e.n, c) && c.phase.CountInflight? && CountsFull(c, e) ==>
      Crowded(t, es + [e], e.n, c.req.maxInflight)
  {
    var all, k := es + [e], |es|;
    assert all[..k] == es;
    if IsCaller(t, es, e.n, c) && e.reply != Fine && (c.phase.ConflictBudget? || c.phase.Refresh?) {
      assert UnreadAt(t, all, e.n, k);
    }
    if IsCaller(t, es, e.n, c) && c.phase.CountInflight? && CountsFull(c, e) {
      assert CrowdedAt(t, all, e.n, k, c.req.maxInflight);
    }
  }

  /** The event tells the caller of as many jobs in flight as it allows. */
  predicate CountsFull(c: Caller, e: Event) {
    e.CallerEvent? && e.reply == Fine && 0 < c.req.maxInflight <= e.inflight
  }

  /** The caller n after these events. */
  ghost predicate IsCaller(t: Table, es: seq<Event>, n: nat, c: Caller) {
    n in Run(Start(t), es).callers && Run(Start(t), es).callers[n] == c
  }

  ghost predicate CallerGrounded(t: Table, es: seq<Event>, n: nat, c: Caller) {
    c.phase.Done? ==>
      Grounded(Run(Start(t), es).table, c.req, c.phase.answer, Unread(t, es, n), Crowded(t, es, n, c.req.maxInflight))
  }

  /** Another event leaves a caller and its grounds as they are. */
  lemma OtherEvent(t: Table, es: seq<Event>, e: Event, n: nat, c: Caller)
    requires TableOk(t) && CallerGrounded(t, es, n, c)
    ensures CallerGrounded(t, es + [e], n, c)
  {
    TableGrows(t, es, e);
    if Unread(t, es, n) {
      UnreadStays(t, es, e, n);
    }
    if Crowded(t, es, n, c.req.maxInflight) {
      CrowdedStays(t, es, e, n, c.req.maxInflight);
    }
    if c.phase.Done? {
      GroundedGrows(Run(Start(t), es).table, Run(Start(t), es + [e]).table, c.req, c.phase.answer, Unread(t, es, n),
                    Crowded(t, es, n, c.req.maxInflight), Unread(t, es + [e], n),
                      Crowded(t, es + [e], n, c.req.maxInflight));
    }
  }

  lemma OwnEvent(t: Table, es: seq<Event>, e: Event, n: nat)
    requires TableOk(t) && e.CallerEvent? && e.n == n && n in Run(Start(t), es).callers
    requires !Run(Start(t), es).callers[n].phase.Done?
    ensures CallerGrounded(t, es + [e], n, Step(Run(Start(t), es), e).callers[n])
  {
    var s := Run(Start(t), es);
    var c := s.callers[n];
    TableGrows(t, es, e);
    EvidenceOf(t, es, e, c);
    AnsweringStep(s.table, c, e.reply, e.inflight);
    var (t', c') := CallerStep(s.table, c, e.reply, e.inflight);
    assert Step(s, e).callers[n] == c' && Step(s, e).table == t' && c'.req == c.req;
    if c'.phase.Done? {
      MoreEvidence(t', c.req, c'.phase.answer, e.reply != Fine && (c.phase.ConflictBudget? || c.phase.Refresh?),
                   c.phase.CountInflight? && e.reply == Fine && 0 < c.req.maxInflight <= e.inflight,
                   Unread(t, es + [e], n), Crowded(t, es + [e], n, c.req.maxInflight));
    }
  }

  /** How an event reaches a caller. */
  lemma CallerAfter(s: System, e: Event, n: nat)
    requires n in Step(s, e).callers
    ensures !(e.CallerEvent? && e.n == n && n in s.callers && !s.callers[n].phase.Done?) ==>
              (n in s.callers && Step(s, e).callers[n] == s.callers[n]) || !Step(s, e).callers[n].phase.Done?
  {
  }

  lemma {:induction false} RunGrounded(t: Table, es: seq<Event>, n: nat)
    requires TableOk(t)
    ensures n in Run(Start(t), es).callers ==> CallerGrounded(t, es, n, Run(Start(t), es).callers[n])
    decreases |es|
  {
    if |es| > 0 && n in Run(Start(t), es).callers {
      var init, e := es[..|es| - 1], es[|es| - 1];
      var s := Run(Start(t), init);
      assert es == init + [e];
      CallerAfter(s, e, n);
      if e.CallerEvent? && e.n == n && n in s.callers && !s.callers[n].phase.Done? {
        OwnEvent(t, init, e, n);
      } else if n in s.callers && Step(s, e).callers[n] == s.callers[n] {
        RunGrounded(t, init, n);
        OtherEvent(t, init, e, n, s.callers[n]);
      }
    }
  }

  /** Every answer explains itself and rests on what is stored. The budget it shows is the stored one, with a usage the
      stored one has reached, or nothing if the row could not be read; so an amount refused as exceeding the budget
      still does not fit now, however the run went on. */
  lemma AnswersExplainThemselves(t: Table, es: seq<Event>, n: nat)
    requires TableOk(t)
    ensures n in Run(Start(t), es).callers && Run(Start(t), es).callers[n].phase.Done? ==>
            var now, c := Run(Start(t), es).table, Run(Start(t), es).callers[n];
            var r, a := c.req, c.phase.answer;
            && AnswerMeans(r, a)
            && Grounded(now, r, a, Unread(t, es, n), Crowded(t, es, n, r.maxInflight))
            && (a.reason == BudgetExceeded && ShowsStored(now, r, a) ==>
                  now.budgets[r.Budget()].Used() + r.Credits() > now.budgets[r.Budget()].included)
  {
    RunMeans(Start(t), es);
    RunGrounded(t, es, n);
  }
}
