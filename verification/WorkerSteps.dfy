/** One at-least-once AI worker (internal/aiworker/server.go), cut into its store calls. It works on a
    private copy of the job row and writes with unconditional puts. A batch is an interleaving of
    such workers, one for each listed id. */
module WorkerSteps {
  import opened Base
  import opened AiTable

  const RESULT_TTL: int := 30 * 24 * 60 * 60 * 1_000_000_000

  /** What running the job's module does: the job is dropped, the tool fails, or there is a body. */
  datatype Outcome = Dropped | ToolFailed | Body(json: string)

  datatype WorkerPhase =
    | LoadJob
    | CheckResult(copy: Job)
    | RunModule(copy: Job)
    | PutResult(copy: Job, json: string)
    | PutOk(copy: Job)
    | PutError(copy: Job)
    | Finished

  /** A worker on one job, delivered alone or in a batch. */
  datatype Worker = Worker(job: JobId, batch: bool, requestId: string, now: int, phase: WorkerPhase)

  function MarkedOk(j: Job, requestId: string): Job { j.(status := Ok, requestId := requestId) }
  function MarkedError(j: Job, requestId: string): Job {
    j.(status := Error, attempts := j.attempts + 1, requestId := requestId)
  }

  function NewResult(w: Worker, copy: Job, json: string): AiResult {
    AiResult(ResultIdentity(copy.identity, w.batch), json, w.now, Some(w.now + RESULT_TTL))
  }

  /** The identity a result is stored with; a batch names the model set of its group. */
  function ResultIdentity(id: Identity, batch: bool): Identity {
    if batch && id.columns.modelSet == "" then id.(columns := id.columns.(modelSet := "deterministic")) else id
  }

  function WorkerStep(t: Table, w: Worker, reply: Reply, ran: Outcome): (Table, Worker) {
    match w.phase
    case LoadJob =>
      if reply != Fine || w.job !in t.jobs || t.jobs[w.job].expiresAt < w.now || t.jobs[w.job].status != Queued
      then (t, w.(phase := Finished))
      else (t, w.(phase := CheckResult(t.jobs[w.job])))
    case CheckResult(copy) =>
      (t, w.(phase := if reply == Fine && w.job in t.results then PutOk(copy) else RunModule(copy)))
    case RunModule(copy) =>
      (t, w.(phase := match ran
                      case Dropped => Finished
                      case ToolFailed => PutError(copy)
                      case Body(json) => PutResult(copy, json)))
    case PutResult(copy, json) =>
      if reply == Fails then (t, w.(phase := Finished))
      else (t.(results := t.results[w.job := NewResult(w, copy, json)]),
            w.(phase := if reply == Fine then PutOk(copy) else Finished))
    case PutOk(copy) =>
      (if reply == Fails then t else t.(jobs := t.jobs[w.job := MarkedOk(copy, w.requestId)]), w.(phase := Finished))
    case PutError(copy) =>
      (if reply == Fails then t else t.(jobs := t.jobs[w.job := MarkedError(copy, w.requestId)]), w.(phase := Finished))
    case Finished => (t, w)
  }

  /** A worker's copy carries the stored job's identity, and it marks a job done only after a result exists. */
  ghost predicate WorkerOk(t: Table, w: Worker) {
    match w.phase
    case CheckResult(copy) => SameJob(t, w.job, copy)
    case RunModule(copy) => SameJob(t, w.job, copy)
    case PutResult(copy, _) => SameJob(t, w.job, copy)
    case PutOk(copy) => SameJob(t, w.job, copy) && w.job in t.results
    case PutError(copy) => SameJob(t, w.job, copy)
    case _ => true
  }

  predicate SameJob(t: Table, j: JobId, copy: Job) { j in t.jobs && t.jobs[j].identity == copy.identity }

  lemma CopyKeeps(t: Table, j: JobId, copy: Job, job: Job)
    requires TableOk(t) && SameJob(t, j, copy) && job.identity == copy.identity && (job.status == Ok ==> j in t.results)
    ensures Keeps(t, t.(jobs := t.jobs[j := job]))
  {
    assert Identified(j, t.jobs[j].identity);
    PutJobKeeps(t, j, job);
  }

  lemma ResultKeeps(t: Table, w: Worker, copy: Job, json: string)
    requires TableOk(t) && SameJob(t, w.job, copy)
    ensures Keeps(t, t.(results := t.results[w.job := NewResult(w, copy, json)]))
  {
    assert Identified(w.job, t.jobs[w.job].identity);
    PutResultKeeps(t, w.job, NewResult(w, copy, json));
  }

  lemma PutKeeps(t: Table, w: Worker, reply: Reply, ran: Outcome)
    requires TableOk(t) && WorkerOk(t, w) && reply != Fails
        && (w.phase.PutResult? || w.phase.PutOk? || w.phase.PutError?)
    ensures Keeps(t, WorkerStep(t, w, reply, ran).0)
  {
    match w.phase {
      case PutResult(copy, json) => ResultKeeps(t, w, copy, json);
      case PutOk(copy) => CopyKeeps(t, w.job, copy, MarkedOk(copy, w.requestId));
      case PutError(copy) => CopyKeeps(t, w.job, copy, MarkedError(copy, w.requestId));
    }
  }

  lemma ReadChangesNothing(t: Table, w: Worker, reply: Reply, ran: Outcome)
    requires reply == Fails || !(w.phase.PutResult? || w.phase.PutOk? || w.phase.PutError?)
    ensures WorkerStep(t, w, reply, ran).0 == t
  {
  }

  lemma WorkerStepKeeps(t: Table, w: Worker, reply: Reply, ran: Outcome)
    requires TableOk(t) && WorkerOk(t, w)
    ensures Keeps(t, WorkerStep(t, w, reply, ran).0)
  {
    if reply != Fails && (w.phase.PutResult? || w.phase.PutOk? || w.phase.PutError?) {
      PutKeeps(t, w, reply, ran);
    } else {
      ReadChangesNothing(t, w, reply, ran);
      KeepsReflexive(t);
    }
  }

  lemma WorkerStepOk(t: Table, w: Worker, reply: Reply, ran: Outcome)
    requires WorkerOk(t, w)
    ensures WorkerOk(WorkerStep(t, w, reply, ran).0, WorkerStep(t, w, reply, ran).1)
  {
  }

  lemma WorkerStable(t: Table, t': Table, w: Worker)
    requires Grows(t, t') && WorkerOk(t, w)
    ensures WorkerOk(t', w)
  {
  }
}
