/** A worker writes the job row from the copy it loaded, without a condition (internal/aiworker/server.go): a late
    failure replaces the ok of a worker that finished before it. */
module LateErrors {
  import opened Base
  import opened AiTable
  import opened GetOrQueue
  import opened VoiceMetering
  import opened WorkerSteps
  import opened AiSystem

  lemma CallerLeavesJobs(t: Table, c: Caller, reply: Reply, inflight: int, j: JobId)
    requires j in t.jobs
    ensures var t' := CallerStep(t, c, reply, inflight).0; j in t'.jobs && t'.jobs[j] == t.jobs[j]
  {
    CallerWrites(t, c, reply, inflight);
  }

  lemma WorkerStatus(t: Table, w: Worker, reply: Reply, ran: Outcome, j: JobId)
    requires j in t.jobs && t.jobs[j].status == Ok
    ensures var t' := WorkerStep(t, w, reply, ran).0;
            j in t'.jobs && (t'.jobs[j].status != Ok <==> w.job == j && w.phase.PutError? && reply != Fails)
  {
  }

  /** The worker that reports a failed tool for job j at this event. */
  predicate ReportsFailure(s: System, e: Event, j: JobId) {
    e.WorkerEvent? && e.n in s.workers && s.workers[e.n].job == j && s.workers[e.n].phase.PutError? && e.reply != Fails
  }

  lemma StatusAfter(s: System, e: Event, j: JobId)
    requires j in s.table.jobs && s.table.jobs[j].status == Ok
    ensures j in Step(s, e).table.jobs && (Step(s, e).table.jobs[j].status != Ok <==> ReportsFailure(s, e, j))
  {
    if e.CallerEvent? && e.n in s.callers {
      CallerLeavesJobs(s.table, s.callers[e.n], e.reply, e.inflight, j);
    } else if e.WorkerEvent? && e.n in s.workers {
      WorkerStatus(s.table, s.workers[e.n], e.reply, e.ran, j);
    }
  }

  lemma ResultStays(s: System, e: Event, j: JobId)
    requires Inv(s) && j in s.table.jobs && s.table.jobs[j].status == Ok
    ensures j in Step(s, e).table.results
  {
    assert j in s.table.results;
    StepKeeps(s, e);
  }

  /** A job marked ok loses its mark exactly when a worker that loaded it earlier reports that its tool failed; its
      result stays, so requests keep being answered from it. */
  lemma OkIsLostIff(s: System, e: Event, j: JobId)
    requires Inv(s) && j in s.table.jobs && s.table.jobs[j].status == Ok
    ensures var t' := Step(s, e).table;
            j in t'.jobs && j in t'.results && (t'.jobs[j].status != Ok <==> ReportsFailure(s, e, j))
  {
    StatusAfter(s, e, j);
    ResultStays(s, e, j);
  }

  // ---------------------------------------------------------------- it happens

  /** Two workers on one table. */
  function Pair(t: Table, a: Worker, b: Worker): System { System(t, map[], map[], map[0 := a, 1 := b]) }

  lemma FirstSteps(t: Table, a: Worker, b: Worker, ran: Outcome)
    ensures Step(Pair(t, a, b), WorkerEvent(0, Fine, ran))
         == Pair(WorkerStep(t, a, Fine, ran).0, WorkerStep(t, a, Fine, ran).1, b)
  {
    var a' := WorkerStep(t, a, Fine, ran).1;
    assert map[0 := a, 1 := b][0 := a'] == map[0 := a', 1 := b];
  }

  lemma SecondSteps(t: Table, a: Worker, b: Worker, ran: Outcome)
    ensures Step(Pair(t, a, b), WorkerEvent(1, Fine, ran))
         == Pair(WorkerStep(t, b, Fine, ran).0, a, WorkerStep(t, b, Fine, ran).1)
  {
    var b' := WorkerStep(t, b, Fine, ran).1;
    assert map[0 := a, 1 := b][1 := b'] == map[0 := a, 1 := b'];
  }

  lemma RunNext(t: Table, es: seq<Event>, e: Event)
    ensures Run(Start(t), es + [e]) == Step(Run(Start(t), es), e)
  {
    assert (es + [e])[..|es|] == es;
  }

  /** A pending job without a result. */
  predicate Waiting(t: Table, j: JobId, now: int) {
    j in t.jobs && t.jobs[j].status == Queued && now <= t.jobs[j].expiresAt && j !in t.results
  }

  /** Both workers have loaded the job and found no result. */
  lemma BothLoad(t: Table, j: JobId, now: int) returns (es: seq<Event>)
    requires Waiting(t, j, now)
    ensures var w := Worker(j, false, "", now, RunModule(t.jobs[j])); Run(Start(t), es) == Pair(t, w, w)
  {
    var w0 := Worker(j, false, "", now, LoadJob);
    var w1 := w0.(phase := CheckResult(t.jobs[j]));
    var w2 := w0.(phase := RunModule(t.jobs[j]));
    es := [NewWorker(0, j, false, "", now), NewWorker(1, j, false, "", now)];
    assert es[..1] == [es[0]] && es[..1][..0] == [];
    assert Run(Start(t), es[..1]) == System(t, map[], map[], map[0 := w0]);
    assert map[0 := w0][1 := w0] == map[0 := w0, 1 := w0];
    assert Run(Start(t), es) == Pair(t, w0, w0);
    es := Advance0(t, es, w0, w0, Dropped);
    es := Advance1(t, es, w1, w0, Dropped);
    es := Advance0(t, es, w1, w1, Dropped);
    es := Advance1(t, es, w2, w1, Dropped);
  }

  lemma Advance0(t0: Table, es: seq<Event>, a: Worker, b: Worker, ran: Outcome) returns (more: seq<Event>)
    requires exists t :: Run(Start(t0), es) == Pair(t, a, b)
    ensures var t := Run(Start(t0), es).table;
            Run(Start(t0), more) == Pair(WorkerStep(t, a, Fine, ran).0, WorkerStep(t, a, Fine, ran).1, b)
  {
    more := es + [WorkerEvent(0, Fine, ran)];
    RunNext(t0, es, WorkerEvent(0, Fine, ran));
    FirstSteps(Run(Start(t0), es).table, a, b, ran);
  }

  lemma Advance1(t0: Table, es: seq<Event>, a: Worker, b: Worker, ran: Outcome) returns (more: seq<Event>)
    requires exists t :: Run(Start(t0), es) == Pair(t, a, b)
    ensures var t := Run(Start(t0), es).table;
            Run(Start(t0), more) == Pair(WorkerStep(t, b, Fine, ran).0, a, WorkerStep(t, b, Fine, ran).1)
  {
    more := es + [WorkerEvent(1, Fine, ran)];
    RunNext(t0, es, WorkerEvent(1, Fine, ran));
    SecondSteps(Run(Start(t0), es).table, a, b, ran);
  }

  /** Such a run: two deliveries of one job load it, the second finishes it with a result, and the first then fails. One
      event before the end the job is ok, at the end it is marked as failed, and the result is stored all along. */
  lemma LateErrorReplacesOk(t: Table, j: JobId, now: int, json: string) returns (es: seq<Event>, last: Event)
    requires Waiting(t, j, now)
    ensures var before, after := Run(Start(t), es).table, Run(Start(t), es + [last]).table;
            && j in before.jobs && before.jobs[j].status == Ok && j in before.results && before.results[j].body == json
            && j in after.jobs && after.jobs[j].status == Error && j in after.results && after.results[j].body == json
  {
    var copy := t.jobs[j];
    var w := Worker(j, false, "", now, RunModule(copy));
    var w1 := w.(phase := PutResult(copy, json));
    var w2 := w.(phase := PutOk(copy));
    es := BothLoad(t, j, now);
    es := Advance1(t, es, w, w, Body(json));
    es := Advance1(t, es, w, w1, Dropped);
    es := Advance1(t, es, w, w2, Dropped);
    es := Advance0(t, es, w, w.(phase := Finished), ToolFailed);
    last := WorkerEvent(0, Fine, Dropped);
    RunNext(t, es, last);
    FirstSteps(Run(Start(t), es).table, w.(phase := PutError(copy)), w.(phase := Finished), Dropped);
  }
}
