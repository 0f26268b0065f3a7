/** Every interleaving of GetOrQueue callers, voice webhooks and AI workers on one table, in any
    number, with stale snapshots, failing store calls and lost replies. */
module AiSystem {
  import opened Base
  import opened Billing
  import opened AiTable
  import opened GetOrQueue
  import opened VoiceMetering
  import opened WorkerSteps

  datatype System = System(table: Table, callers: map<nat, Caller>, hooks: map<nat, Hook>, workers: map<nat, Worker>)

  /** An actor arrives, or makes its next store call. An event that does not apply changes nothing. */
  datatype Event =
    | NewCaller(n: nat, req: Request)
    | CallerEvent(n: nat, reply: Reply, inflight: int)
    | NewHook(n: nat, call: Call)
    | HookEvent(n: nat, reply: Reply)
    | NewWorker(n: nat, job: JobId, batch: bool, requestId: string, now: int)
    | WorkerEvent(n: nat, reply: Reply, ran: Outcome)

  function Step(s: System, e: Event): System {
    match e
    case NewCaller(n, req) =>
      if n in s.callers || !req.Priced() || !req.Named() then s
      else s.(callers := s.callers[n := Caller(req, ReadResult)])
    case CallerEvent(n, reply, inflight) =>
      if n !in s.callers then s
      else
        var (t, c) := CallerStep(s.table, s.callers[n], reply, inflight);
        s.(table := t, callers := s.callers[n := c])
    case NewHook(n, call) =>
      if n in s.hooks then s else s.(hooks := s.hooks[n := Hook(call, Load)])
    case HookEvent(n, reply) =>
      if n !in s.hooks then s
      else
        var (t, h) := HookStep(s.table, s.hooks[n], reply);
        s.(table := t, hooks := s.hooks[n := h])
    case NewWorker(n, job, batch, requestId, now) =>
      if n in s.workers then s else s.(workers := s.workers[n := Worker(job, batch, requestId, now, LoadJob)])
    case WorkerEvent(n, reply, ran) =>
      if n !in s.workers then s
      else
        var (t, w) := WorkerStep(s.table, s.workers[n], reply, ran);
        s.(table := t, workers := s.workers[n := w])
  }

  function Run(s: System, es: seq<Event>): System
    decreases |es|
  {
    if |es| == 0 then s else Step(Run(s, es[..|es| - 1]), es[|es| - 1])
  }

  function Start(t: Table): System { System(t, map[], map[], map[]) }

  ghost predicate ActorsOk(t: Table, s: System) {
    && (forall n <- s.callers :: CallerOk(t, s.callers[n]))
    && (forall n <- s.hooks :: HookOk(t, s.hooks[n]))
    && (forall n <- s.workers :: WorkerOk(t, s.workers[n]))
  }

  ghost predicate Inv(s: System) { TableOk(s.table) && ActorsOk(s.table, s) }

  lemma ActorsStable(t: Table, t': Table, s: System)
    requires Grows(t, t') && ActorsOk(t, s)
    ensures ActorsOk(t', s)
  {
    forall n <- s.callers ensures CallerOk(t', s.callers[n]) { CallerStable(t, t', s.callers[n]); }
    forall n <- s.hooks ensures HookOk(t', s.hooks[n]) { HookStable(t, t', s.hooks[n]); }
    forall n <- s.workers ensures WorkerOk(t', s.workers[n]) { WorkerStable(t, t', s.workers[n]); }
  }

  lemma CallerEventKeeps(s: System, e: Event)
    requires Inv(s) && e.CallerEvent? && e.n in s.callers
    ensures Inv(Step(s, e)) && Keeps(s.table, Step(s, e).table)
  {
    CallerStepKeeps(s.table, s.callers[e.n], e.reply, e.inflight);
    CallerStepOk(s.table, s.callers[e.n], e.reply, e.inflight);
    ActorsStable(s.table, Step(s, e).table, s);
  }

  lemma HookEventKeeps(s: System, e: Event)
    requires Inv(s) && e.HookEvent? && e.n in s.hooks
    ensures Inv(Step(s, e)) && Keeps(s.table, Step(s, e).table)
  {
    HookStepKeeps(s.table, s.hooks[e.n], e.reply);
    HookStepOk(s.table, s.hooks[e.n], e.reply);
    ActorsStable(s.table, Step(s, e).table, s);
  }

  lemma WorkerEventKeeps(s: System, e: Event)
    requires Inv(s) && e.WorkerEvent? && e.n in s.workers
    ensures Inv(Step(s, e)) && Keeps(s.table, Step(s, e).table)
  {
    WorkerStepKeeps(s.table, s.workers[e.n], e.reply, e.ran);
    WorkerStepOk(s.table, s.workers[e.n], e.reply, e.ran);
    ActorsStable(s.table, Step(s, e).table, s);
  }

  /** The event moves an actor that is there. */
  predicate Moves(s: System, e: Event) {
    (e.CallerEvent? && e.n in s.callers) || (e.HookEvent? && e.n in s.hooks) || (e.WorkerEvent? && e.n in s.workers)
  }

  lemma ArrivalActors(s: System, e: Event)
    requires ActorsOk(s.table, s) && !Moves(s, e)
    ensures Step(s, e).table == s.table && ActorsOk(s.table, Step(s, e))
  {
  }

  lemma ArrivalKeeps(s: System, e: Event)
    requires Inv(s) && !Moves(s, e)
    ensures Inv(Step(s, e)) && Keeps(s.table, Step(s, e).table)
  {
    ArrivalActors(s, e);
    KeepsReflexive(s.table);
  }

  /** Every step of every actor keeps the invariant and the accounts. */
  lemma StepKeeps(s: System, e: Event)
    requires Inv(s)
    ensures Inv(Step(s, e)) && Keeps(s.table, Step(s, e).table)
  {
    if e.CallerEvent? && e.n in s.callers {
      CallerEventKeeps(s, e);
    } else if e.HookEvent? && e.n in s.hooks {
      HookEventKeeps(s, e);
    } else if e.WorkerEvent? && e.n in s.workers {
      WorkerEventKeeps(s, e);
    } else {
      ArrivalKeeps(s, e);
    }
  }

  lemma {:induction false} RunKeeps(s: System, es: seq<Event>)
    requires Inv(s)
    ensures Inv(Run(s, es)) && Keeps(s.table, Run(s, es).table)
    decreases |es|
  {
    if |es| == 0 {
      KeepsReflexive(s.table);
    } else {
      var m := Run(s, es[..|es| - 1]);
      RunKeeps(s, es[..|es| - 1]);
      StepKeeps(m, es[|es| - 1]);
      KeepsTransitive(s.table, m.table, Run(s, es).table);
    }
  }

  // ---------------------------------------------------------------- main results

  /** Conservation: in every interleaving the usage of every budget grows by exactly the credits the ledger gained, and
      the overage the ledger gained is not negative and at most the growth of usage past the allowance. */
  lemma Conservation(t: Table, es: seq<Event>, b: BudgetKey)
    requires TableOk(t) && b in t.budgets
    ensures var t' := Run(Start(t), es).table;
            && b in t'.budgets && t'.budgets[b].included == t.budgets[b].included
            && t'.budgets[b].Used() - t.budgets[b].Used() == DebitedTo(t', b) - DebitedTo(t, b)
            && 0 <= OverageOf(t', b) - OverageOf(t, b)
               <= Over(t.budgets[b].included, t'.budgets[b].Used()) - Over(t.budgets[b].included, t.budgets[b].Used())
  {
    RunKeeps(Start(t), es);
    var t' := Run(Start(t), es).table;
    assert BalancedAt(t, t', b) && BudgetGrows(t.budgets[b], t'.budgets[b]);
  }

  /** Single charging: in every interleaving a job, and a call of an instance in a month, is charged at
      most once, and a charge once made stays in the ledger unchanged. */
  lemma SingleCharge(t: Table, es: seq<Event>, k1: LedgerKey, k2: LedgerKey)
    requires TableOk(t)
    ensures var l := Run(Start(t), es).table.ledger;
            k1 in l && k2 in l && l[k1].debited > 0 && l[k2].debited > 0 && ChargeOf(k1) == ChargeOf(k2) ==> k1 == k2
    ensures k1 in t.ledger && t.ledger[k1].debited > 0
            ==> k1 in Run(Start(t), es).table.ledger && Run(Start(t), es).table.ledger[k1] == t.ledger[k1]
  {
    RunKeeps(Start(t), es);
    var l := Run(Start(t), es).table.ledger;
    if k1 in l && k2 in l && l[k1].debited > 0 && l[k2].debited > 0 && ChargeOf(k1) == ChargeOf(k2) {
      assert SameCharge(l, k1, k2);
    }
  }

  /** In every interleaving a job marked ok has a result that carries its instance and all its cache-key fields, which
      are those of the id, every result has its job row, and so no debit can commit for an id that already has a result.
      */
  lemma FinishedJobsHaveResults(t: Table, es: seq<Event>, j: JobId)
    requires TableOk(t)
    ensures var t' := Run(Start(t), es).table;
            && (j in t'.jobs && t'.jobs[j].status == Ok ==> j in t'.results)
            && (j in t'.results ==> j in t'.jobs && t'.results[j].identity == t'.jobs[j].identity
                                    && t'.results[j].identity.columns == j.columns)
            && (j in t'.results ==> forall r: Request, snap: Snapshot :: r.job == j ==> !DebitConditions(t', r, snap))
  {
    RunKeeps(Start(t), es);
  }

  lemma PricedStep(s: System, e: Event, n: nat)
    requires n in Step(s, e).callers && (n in s.callers ==> s.callers[n].req.Priced())
    ensures Step(s, e).callers[n].req.Priced()
  {
    if e.CallerEvent? && n in s.callers {
      RequestStays(s.table, s.callers[n], e.reply, e.inflight);
    }
  }

  lemma RequestStays(t: Table, c: Caller, reply: Reply, inflight: int)
    ensures CallerStep(t, c, reply, inflight).1.req == c.req
  {
  }

  lemma {:induction false} CallersArePriced(t: Table, es: seq<Event>, n: nat)
    ensures n in Run(Start(t), es).callers ==> Run(Start(t), es).callers[n].req.Priced()
    decreases |es|
  {
    if |es| > 0 && n in Run(Start(t), es).callers {
      CallersArePriced(t, es[..|es| - 1], n);
      PricedStep(Run(Start(t), es[..|es| - 1]), es[|es| - 1], n);
    }
  }

  /** A caller is told the truth: queued means the job is stored, ok means a result is stored, and a
      reported debit is its own charge in the ledger, for the priced amount. */
  lemma AnswersAreHonest(t: Table, es: seq<Event>, n: nat)
    requires TableOk(t)
    requires n in Run(Start(t), es).callers && Run(Start(t), es).callers[n].phase.Done?
    ensures var s := Run(Start(t), es);
            var r, a := s.callers[n].req, s.callers[n].phase.answer;
            && (a.status == OkStatus ==> r.job in s.table.results)
            && (a.status == QueuedStatus ==> r.job in s.table.jobs)
            && (a.debited != 0 ==> ChargedHere(s.table, r)
                                   && a.debited == PricedCredits(r.baseCredits, EffectiveBps(r.bps)) as int)
  {
    RunKeeps(Start(t), es);
    CallersArePriced(t, es, n);
  }

  // ---------------------------------------------------------------- the spending limit

  /** The event brings in nothing that may spend past the allowance of b. */
  predicate GuardedEvent(b: BudgetKey, e: Event) {
    match e
    case NewCaller(_, req) => req.Budget() == b ==> !req.allowOverage
    case NewHook(_, call) => call.Budget() != b
    case _ => true
  }

  ghost predicate GuardedActors(s: System, b: BudgetKey) {
    && (forall n <- s.callers | s.callers[n].req.Budget() == b :: !s.callers[n].req.allowOverage)
    && (forall n <- s.hooks :: s.hooks[n].call.Budget() != b)
  }

  predicate WithinAllowance(t: Table, b: BudgetKey) {
    b in t.budgets && t.budgets[b].Used() <= t.budgets[b].included
  }

  lemma CallerStaysWithin(t: Table, c: Caller, reply: Reply, inflight: int, b: BudgetKey)
    requires CallerOk(t, c) && WithinAllowance(t, b) && (c.req.Budget() == b ==> !c.req.allowOverage)
    ensures WithinAllowance(CallerStep(t, c, reply, inflight).0, b)
  {
    CallerWrites(t, c, reply, inflight);
    if c.phase.CommitDebit? && DebitConditions(t, c.req, c.phase.snap) && !c.req.allowOverage {
      GuardedDebitFits(t, c);
    }
  }

  lemma HookStaysWithin(t: Table, h: Hook, reply: Reply, b: BudgetKey)
    requires WithinAllowance(t, b) && h.call.Budget() != b
    ensures WithinAllowance(HookStep(t, h, reply).0, b)
  {
  }

  lemma WorkerStaysWithin(t: Table, w: Worker, reply: Reply, ran: Outcome, b: BudgetKey)
    requires WithinAllowance(t, b)
    ensures WithinAllowance(WorkerStep(t, w, reply, ran).0, b)
  {
  }

  lemma GuardedStep(s: System, e: Event, b: BudgetKey)
    requires Inv(s) && GuardedEvent(b, e) && GuardedActors(s, b) && WithinAllowance(s.table, b)
    ensures WithinAllowance(Step(s, e).table, b)
  {
    match e {
      case CallerEvent(n, reply, inflight) =>
        if n in s.callers { CallerStaysWithin(s.table, s.callers[n], reply, inflight, b); }
      case HookEvent(n, reply) =>
        if n in s.hooks { HookStaysWithin(s.table, s.hooks[n], reply, b); }
      case WorkerEvent(n, reply, ran) =>
        if n in s.workers { WorkerStaysWithin(s.table, s.workers[n], reply, ran, b); }
      case _ =>
    }
  }

  lemma GuardedActorsStep(s: System, e: Event, b: BudgetKey)
    requires GuardedEvent(b, e) && GuardedActors(s, b)
    ensures GuardedActors(Step(s, e), b)
  {
  }

  lemma {:induction false} GuardedRun(s: System, es: seq<Event>, b: BudgetKey)
    requires Inv(s) && GuardedActors(s, b) && WithinAllowance(s.table, b)
    requires forall e <- es :: GuardedEvent(b, e)
    ensures GuardedActors(Run(s, es), b) && WithinAllowance(Run(s, es).table, b)
    decreases |es|
  {
    if |es| > 0 {
      GuardedRun(s, es[..|es| - 1], b);
      RunKeeps(s, es[..|es| - 1]);
      GuardedStep(Run(s, es[..|es| - 1]), es[|es| - 1], b);
      GuardedActorsStep(Run(s, es[..|es| - 1]), es[|es| - 1], b);
    }
  }

  /** The spending limit: however callers interleave and however stale their snapshots, a budget
      debited only by calls without overage stays within its allowance. */
  lemma SpendingLimit(t: Table, es: seq<Event>, b: BudgetKey)
    requires TableOk(t) && WithinAllowance(t, b)
    requires forall e <- es :: GuardedEvent(b, e)
    ensures WithinAllowance(Run(Start(t), es).table, b)
  {
    GuardedRun(Start(t), es, b);
  }

  /** Such runs attribute nothing to overage: every split is exact, whatever snapshot it was computed from. */
  lemma GuardedRunsAddNoOverage(t: Table, es: seq<Event>, b: BudgetKey)
    requires TableOk(t) && WithinAllowance(t, b)
    requires forall e <- es :: GuardedEvent(b, e)
    ensures OverageOf(Run(Start(t), es).table, b) == OverageOf(t, b)
  {
    SpendingLimit(t, es, b);
    Conservation(t, es, b);
  }

  // ---------------------------------------------------------------- one uninterrupted call

  function Answering(inflight: int): ((Table, Caller)) -> (Table, Caller) {
    (p: (Table, Caller)) => CallerStep(p.0, p.1, Fine, inflight)
  }

  /** A caller making k store calls in a row, all answered. */
  function Steps(t: Table, c: Caller, inflight: int, k: nat): (Table, Caller) {
    Iterate(Answering(inflight), (t, c), k)
  }

  /** Such a caller is a run of the system. */
  lemma {:induction false} StepsAreARun(s: System, n: nat, inflight: int, k: nat) returns (es: seq<Event>)
    requires n in s.callers
    ensures var r := Steps(s.table, s.callers[n], inflight, k);
            Run(s, es) == s.(table := r.0, callers := s.callers[n := r.1])
    decreases k
  {
    es := [];
    if k == 0 {
      assert s.callers[n := s.callers[n]] == s.callers;
    } else {
      var before := StepsAreARun(s, n, inflight, k - 1);
      var e := CallerEvent(n, Fine, inflight);
      es := before + [e];
      assert es[..|es| - 1] == before;
      var r1, r := Steps(s.table, s.callers[n], inflight, k - 1), Steps(s.table, s.callers[n], inflight, k);
      assert s.callers[n := r1.1][n := r.1] == s.callers[n := r.1];
    }
  }
}
