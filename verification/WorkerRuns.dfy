/** What one delivery of a job does when nobody interferes, and what a stored result means to any worker
    (internal/aiworker/server.go). */
module WorkerRuns {
  import opened Base
  import opened AiTable
  import GetOrQueue
  import opened WorkerSteps
  import opened AiSystem

  // ---------------------------------------------------------------- one uninterrupted delivery

  /** Only the row of the job itself may differ. */
  predicate OnlyJob(t: Table, t': Table, j: JobId) {
    && j in t.jobs && j in t'.jobs && t'.jobs - {j} == t.jobs - {j}
    && t'.results - {j} == t.results - {j}
    && t'.ledger == t.ledger && t'.dedup == t.dedup && t'.budgets == t.budgets
  }

  /** The job is marked ok for this request and otherwise as it was. */
  predicate OkFor(job: Job, was: Job, w: Worker) { job == was.(status := Ok, requestId := w.requestId) }

  /** A result of the job: its identity, the body of the module, and thirty days to live. */
  predicate ResultFor(res: AiResult, was: Job, w: Worker, json: string) {
    && res.body == json && res.createdAt == w.now
    && res.expiresAt == Some(w.now + 30 * 24 * 3600 * 1_000_000_000)
    && res.identity.instance == was.identity.instance
    && (was.identity.columns.modelSet != "" ==> res.identity == was.identity)
  }

  /** What a delivery does, case by case: nothing for a job that is not pending; with a stored result, the job is marked
      ok and the module is not run; otherwise what the module's outcome calls for. */
  predicate Delivered(t: Table, t': Table, w: Worker, ran: Outcome) {
    if !(w.job in t.jobs && t.jobs[w.job].status == Queued && w.now <= t.jobs[w.job].expiresAt) then t' == t
    else
      var was := t.jobs[w.job];
      if w.job in t.results
      then OnlyJob(t, t', w.job) && t'.results == t.results && OkFor(t'.jobs[w.job], was, w)
      else match ran
        case Dropped => t' == t
        case ToolFailed =>
          && OnlyJob(t, t', w.job) && t'.results == t.results
          && t'.jobs[w.job] == was.(status := Error, attempts := was.attempts + 1, requestId := w.requestId)
        case Body(json) =>
          && OnlyJob(t, t', w.job) && OkFor(t'.jobs[w.job], was, w)
          && w.job in t'.results && ResultFor(t'.results[w.job], was, w, json)
  }

  /** k store calls in a row, all answered. */
  function Calls(t: Table, w: Worker, ran: Outcome, k: nat): (Table, Worker)
    decreases k
  {
    if k == 0 then (t, w) else var (t', w') := WorkerStep(t, w, Fine, ran); Calls(t', w', ran, k - 1)
  }

  lemma ResultPath(t: Table, w: Worker, ran: Outcome)
    requires w.phase.RunModule? && w.job in t.jobs && w.phase.copy == t.jobs[w.job] && w.job !in t.results
    ensures var (t', w') := Calls(t, w, ran, 3);
            && w'.phase.Finished?
            && match ran
               case Dropped => t' == t
               case ToolFailed =>
                 && OnlyJob(t, t', w.job) && t'.results == t.results
                 && t'.jobs[w.job] == MarkedError(w.phase.copy, w.requestId)
               case Body(json) =>
                 && OnlyJob(t, t', w.job) && OkFor(t'.jobs[w.job], w.phase.copy, w)
                 && w.job in t'.results && ResultFor(t'.results[w.job], w.phase.copy, w, json)
  {
    var (t1, w1) := WorkerStep(t, w, Fine, ran);
    assert t1 == t;
    var (t2, w2) := WorkerStep(t1, w1, Fine, ran);
    assert Calls(t2, w2, ran, 1) == WorkerStep(t2, w2, Fine, ran);
    assert Calls(t1, w1, ran, 2) == Calls(t2, w2, ran, 1);
  }

  lemma StoredPath(t: Table, w: Worker, ran: Outcome)
    requires w.phase.PutOk? && w.job in t.jobs && w.phase.copy == t.jobs[w.job]
    ensures var (t', w') := Calls(t, w, ran, 3);
            && w'.phase.Finished?
            && OnlyJob(t, t', w.job) && t'.results == t.results && OkFor(t'.jobs[w.job], w.phase.copy, w)
  {
    var (t1, w1) := WorkerStep(t, w, Fine, ran);
    assert WorkerStep(t1, w1, Fine, ran) == (t1, w1);
    assert Calls(t1, w1, ran, 1) == (t1, w1);
    assert Calls(t1, w1, ran, 2) == (t1, w1);
  }

  lemma Idle(t: Table, w: Worker, ran: Outcome, k: nat)
    requires w.phase.Finished?
    ensures Calls(t, w, ran, k) == (t, w)
  {
  }

  /** One delivery to a worker that nobody interrupts, alone or in a batch. */
  lemma DeliveryOutcome(t: Table, w: Worker, ran: Outcome)
    requires w.phase.LoadJob?
    ensures Delivered(t, Calls(t, w, ran, 5).0, w, ran) && Calls(t, w, ran, 5).1.phase.Finished?
  {
    var (t1, w1) := WorkerStep(t, w, Fine, ran);
    if w1.phase.Finished? {
      Idle(t1, w1, ran, 4);
    } else {
      var (t2, w2) := WorkerStep(t1, w1, Fine, ran);
      assert Calls(t1, w1, ran, 4) == Calls(t2, w2, ran, 3);
      if w.job in t.results {
        StoredPath(t2, w2, ran);
      } else {
        ResultPath(t2, w2, ran);
      }
    }
  }

  // ---------------------------------------------------------------- over runs

  /** Event k answered the result read of worker n with a stored result. */
  ghost predicate MeetsResultAt(t: Table, es: seq<Event>, n: nat, k: nat) {
    && k < |es| && es[k].WorkerEvent? && es[k].n == n && es[k].reply == Fine
    && var s := Run(Start(t), es[..k]);
       n in s.workers && s.workers[n].phase.CheckResult? && s.workers[n].job in s.table.results
  }

  predicate Sparing(w: Worker) { w.phase.PutOk? || w.phase.Finished? }

  lemma SparingNext(s: System, e: Event, n: nat)
    requires n in s.workers && Sparing(s.workers[n])
    ensures n in Step(s, e).workers && Sparing(Step(s, e).workers[n])
    ensures e.WorkerEvent? && e.n == n ==> Step(s, e).workers[n].phase.Finished?
  {
  }

  lemma {:induction false} SparesFrom(t: Table, es: seq<Event>, n: nat, k: nat, m: nat)
    requires k < m <= |es|
    ensures MeetsResultAt(t, es, n, k) ==>
              n in Run(Start(t), es[..m]).workers && Sparing(Run(Start(t), es[..m]).workers[n])
    decreases m
  {
    if MeetsResultAt(t, es, n, k) {
      assert es[..m][..m - 1] == es[..m - 1];
      if m > k + 1 {
        SparesFrom(t, es, n, k, m - 1);
        SparingNext(Run(Start(t), es[..m - 1]), es[m - 1], n);
      }
    }
  }

  /** In every run a worker whose result read meets a stored result never runs the module nor reports a failure: all it
      may still do is to mark the job ok. */
  lemma StoredResultSparesTheModule(t: Table, es: seq<Event>, n: nat, k: nat)
    ensures MeetsResultAt(t, es, n, k) ==> n in Run(Start(t), es).workers && Sparing(Run(Start(t), es).workers[n])
  {
    if MeetsResultAt(t, es, n, k) {
      SparesFrom(t, es, n, k, |es|);
      assert es[..|es|] == es;
    }
  }

  /** A result was there from the start, or has thirty days from its creation. */
  predicate LivesThirtyDays(t: Table, j: JobId, res: AiResult) {
    (j in t.results && t.results[j] == res) || res.expiresAt == Some(res.createdAt + 30 * 24 * 3600 * 1_000_000_000)
  }

  lemma CallerLeavesResults(s: System, e: Event)
    requires !e.WorkerEvent?
    ensures Step(s, e).table.results == s.table.results
  {
    if e.CallerEvent? && e.n in s.callers {
      GetOrQueue.CallerWrites(s.table, s.callers[e.n], e.reply, e.inflight);
    }
  }

  lemma WorkerResults(t: Table, w: Worker, reply: Reply, ran: Outcome, j: JobId)
    ensures var t' := WorkerStep(t, w, reply, ran).0;
            j in t'.results ==>
              (j in t.results && t'.results[j] == t.results[j])
              || t'.results[j].expiresAt == Some(t'.results[j].createdAt + 30 * 24 * 3600 * 1_000_000_000)
  {
  }

  /** In every run every result stored by a worker lives for thirty days from its creation. */
  lemma {:induction false} NewResultsLive(t: Table, es: seq<Event>, j: JobId)
    ensures var s := Run(Start(t), es); j in s.table.results ==> LivesThirtyDays(t, j, s.table.results[j])
    decreases |es|
  {
    if |es| > 0 {
      var s, e := Run(Start(t), es[..|es| - 1]), es[|es| - 1];
      NewResultsLive(t, es[..|es| - 1], j);
      if e.WorkerEvent? && e.n in s.workers {
        WorkerResults(s.table, s.workers[e.n], e.reply, e.ran, j);
      } else if !e.WorkerEvent? {
        CallerLeavesResults(s, e);
      }
    }
  }
}
