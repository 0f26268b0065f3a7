/** Batch processing of AI jobs (internal/aiworker/server.go) against processing the same jobs one by one. */
module Batch {
  import opened Base

  datatype Status = Queued | Done | Failed

  /** The columns of a job that decide its processing; texts are already trimmed and the module lowercased. */
  datatype Job = Job(status: Status, expiresAt: Option<int>, mod: string, policy: string, modelSet: string,
                     inputs: string, attempts: nat)

  datatype Problem = LlmUnavailable | LlmFailed | LlmMissingOutput | ToolProblem(code: string)
  datatype Usage = NoUsage | Deterministic | Called(units: int)
  datatype Result = Result(modelSet: string, body: string, usage: Usage, problems: seq<Problem>)

  /** What the store holds under one id. */
  datatype Row = Row(job: Option<Job>, result: Option<Result>)

  datatype Reply<Summary> = NoKey | CallFailed | Answer(item: Option<Summary>, usage: Usage)
  datatype ModuleRun = Unknown | RunFailed | Ran(body: string, usage: Usage, problems: seq<Problem>)

  /** Everything the worker calls and does not compute itself: input parsing, the choice of a provider from a model
      set, the provider's reply for one item, the deterministic summariser, result encoding and the other modules. */
  datatype Env<!In, !Summary> = Env(
    parse: string -> Option<In>,
    provider: string -> bool,
    call: (string, string, In) -> Reply<Summary>,
    fallback: In -> Summary,
    blank: Summary -> bool,
    encode: Summary -> string,
    other: (string, Job) -> ModuleRun)

  const RENDER: string := "render_summary_llm"

  function ModelSetOf(job: Job): string { if job.modelSet == "" then "deterministic" else job.modelSet }

  // ---------------------------------------------------------------- one by one

  function RunRenderSummary<In, Summary>(env: Env<In, Summary>, id: string, job: Job): ModuleRun {
    match env.parse(job.inputs)
    case None => Ran("", NoUsage, [])
    case Some(input) =>
      var ms := ModelSetOf(job);
      var fallback := env.encode(env.fallback(input));
      if !env.provider(ms) then Ran(fallback, Deterministic, [])
      else match env.call(ms, id, input)
        case NoKey => Ran(fallback, Deterministic, [LlmUnavailable])
        case CallFailed => Ran(fallback, Deterministic, [LlmFailed])
        case Answer(item, usage) =>
          if item.Some? && !env.blank(item.value) then Ran(env.encode(item.value), usage, [])
          else Ran(fallback, Deterministic, [LlmMissingOutput])
  }

  function RunModule<In, Summary>(env: Env<In, Summary>, id: string, job: Job): ModuleRun {
    if job.mod == "" || job.policy != "v1" then Unknown
    else if job.mod == RENDER then RunRenderSummary(env, id, job)
    else env.other(id, job)
  }

  /** A queued job that has not expired. */
  predicate Pending(now: int, r: Row) {
    && r.job.Some? && r.job.value.status == Queued
    && (r.job.value.expiresAt.Some? ==> now <= r.job.value.expiresAt.value)
  }

  function Finished(job: Job): Job { job.(status := Done) }

  /** What one delivery of a single job makes of its row. */
  function Single<In, Summary>(env: Env<In, Summary>, now: int, id: string, r: Row): Row {
    if !Pending(now, r) then r
    else if r.result.Some? then r.(job := Some(Finished(r.job.value)))
    else
      var job := r.job.value;
      match RunModule(env, id, job)
      case Unknown => r
      case RunFailed => r.(job := Some(job.(status := Failed, attempts := job.attempts + 1)))
      case Ran(body, usage, problems) => Row(Some(Finished(job)), Some(Result(job.modelSet, body, usage, problems)))
  }

  /** What one delivery of a summary job makes of it, from its inputs and what the provider says: the provider's summary
      if it gives a usable one, and otherwise the deterministic one, with the reason why. */
  lemma SummaryOutcome<In, Summary>(env: Env<In, Summary>, now: int, id: string, r: Row, input: In)
    requires Pending(now, r) && r.result.None? && r.job.value.mod == RENDER && r.job.value.policy == "v1"
    requires env.parse(r.job.value.inputs) == Some(input)
    ensures var job := r.job.value;
            var ms := if job.modelSet == "" then "deterministic" else job.modelSet;
            var r' := Single(env, now, id, r);
            && r'.job == Some(job.(status := Done))
            && r'.result.Some? && r'.result.value.modelSet == job.modelSet
            && var res := r'.result.value;
               if env.provider(ms) && env.call(ms, id, input).Answer? && Usable(env, env.call(ms, id, input).item)
               then
                 && res.body == env.encode(env.call(ms, id, input).item.value)
                 && res.usage == env.call(ms, id, input).usage && res.problems == []
               else
                 && res.body == env.encode(env.fallback(input)) && res.usage == Deterministic
                 && res.problems == if !env.provider(ms) then []
                                    else match env.call(ms, id, input)
                                      case NoKey => [LlmUnavailable]
                                      case CallFailed => [LlmFailed]
                                      case Answer(_, _) => [LlmMissingOutput]
  {
  }

  predicate Usable<In, Summary>(env: Env<In, Summary>, item: Option<Summary>) { item.Some? && !env.blank(item.value) }

  /** What one delivery makes of any other job. */
  lemma OtherOutcome<In, Summary>(env: Env<In, Summary>, now: int, id: string, r: Row)
    ensures var r' := Single(env, now, id, r);
            if r.job.None? || r.job.value.status != Queued
              || (r.job.value.expiresAt.Some? && r.job.value.expiresAt.value < now)
            then r' == r
            else if r.result.Some? then r' == r.(job := Some(r.job.value.(status := Done)))
            else if r.job.value.mod == "" || r.job.value.policy != "v1" then r' == r
            else r.job.value.mod != RENDER ==>
              match env.other(id, r.job.value)
              case Unknown => r' == r
              case RunFailed =>
                r' == r.(job := Some(r.job.value.(status := Failed, attempts := r.job.value.attempts + 1)))
              case Ran(body, usage, problems) =>
                && r'.job == Some(r.job.value.(status := Done))
                && r'.result == Some(Result(r.job.value.modelSet, body, usage, problems))
  {
  }

  // ---------------------------------------------------------------- in a batch

  /** The provider's results for one item: the summary, if any, the usage and the problems so far. */
  function BatchResults<In, Summary>(env: Env<In, Summary>, ms: string, id: string, input: In)
    : (Option<Summary>, Usage, seq<Problem>)
  {
    var fallback := Some(env.fallback(input));
    if !env.provider(ms) then (fallback, Deterministic, [])
    else match env.call(ms, id, input)
      case NoKey => (fallback, Deterministic, [LlmUnavailable])
      case CallFailed => (fallback, Deterministic, [LlmFailed])
      case Answer(item, usage) => (item, usage, [])
  }

  function BatchResult<In, Summary>(env: Env<In, Summary>, ms: string, id: string, input: In): Result {
    var (item, usage, problems) := BatchResults(env, ms, id, input);
    if item.None? || env.blank(item.value)
    then Result(ms, env.encode(env.fallback(input)), usage, problems + [LlmMissingOutput])
    else Result(ms, env.encode(item.value), usage, problems)
  }

  predicate IsRender(job: Job) { job.mod == RENDER && job.policy == "v1" }

  /** What a batch makes of the row of an id it names. */
  function Batched<In, Summary>(env: Env<In, Summary>, now: int, id: string, r: Row): Row {
    if !Pending(now, r) || !IsRender(r.job.value) then Single(env, now, id, r)
    else if r.result.Some? then r.(job := Some(Finished(r.job.value)))
    else
      var job := r.job.value;
      match env.parse(job.inputs)
      case None => r
      case Some(input) => Row(Some(Finished(job)), Some(BatchResult(env, ModelSetOf(job), id, input)))
  }

  // ---------------------------------------------------------------- comparison of one row

  /** A queued summary job without a result whose inputs cannot be parsed. */
  predicate Unreadable<In, Summary>(env: Env<In, Summary>, now: int, r: Row) {
    Pending(now, r) && r.result.None? && IsRender(r.job.value) && env.parse(r.job.value.inputs).None?
  }

  predicate SameBody(a: Row, b: Row) {
    && a.job == b.job && (a.result.Some? <==> b.result.Some?)
    && (a.result.Some? ==> a.result.value.body == b.result.value.body)
  }

  /** Job row and result body agree exactly when the inputs can be parsed. Otherwise the single delivery finishes
      the job with an empty body, while the batch leaves it queued without a result. Rows that need no new summary are
      treated alike in every column. */
  lemma RowsAgreeIff<In, Summary>(env: Env<In, Summary>, now: int, id: string, r: Row)
    ensures SameBody(Single(env, now, id, r), Batched(env, now, id, r)) <==> !Unreadable(env, now, r)
    ensures !RenderPending(now, r) || r.result.Some? ==> Batched(env, now, id, r) == Single(env, now, id, r)
    ensures Unreadable(env, now, r) ==>
              && Batched(env, now, id, r) == r
              && Single(env, now, id, r) == Row(Some(Finished(r.job.value)),
                Some(Result(r.job.value.modelSet, "", NoUsage, [])))
  {
  }

  /** For instance, whatever the parser refuses: a queued summary job with such inputs. */
  lemma UnreadableJobSplitsThem<In, Summary>(env: Env<In, Summary>, now: int, id: string, inputs: string)
    requires env.parse(inputs).None?
    ensures var r := Row(Some(Job(Queued, None, RENDER, "v1", "deterministic", inputs, 0)), None);
            && Batched(env, now, id, r) == r
            && Single(env, now, id, r).job.value.status == Done && Single(env, now, id, r).result.value.body == ""
  {
    RowsAgreeIff(env, now, id, Row(Some(Job(Queued, None, RENDER, "v1", "deterministic", inputs, 0)), None));
  }

  /** And a readable one that names no model set is stored under two names. */
  lemma UnnamedModelSetDiffers<In, Summary>(env: Env<In, Summary>, now: int, id: string, inputs: string, input: In)
    requires env.parse(inputs) == Some(input)
    ensures var r := Row(Some(Job(Queued, None, RENDER, "v1", "", inputs, 0)), None);
            && Single(env, now, id, r).result.value.modelSet == ""
            && Batched(env, now, id, r).result.value.modelSet == "deterministic"
  {
  }

  /** The provider answered without a usable summary. */
  predicate AnsweredNothing<In, Summary>(env: Env<In, Summary>, ms: string, id: string, input: In) {
    env.provider(ms) && var a := env.call(ms, id, input); a.Answer? && (a.item.None? || env.blank(a.item.value))
  }

  /** The remaining columns of a fresh summary: the model set differs exactly when the job names none; after an answer
      without a usable summary the batch keeps the provider's usage; and a blank deterministic summary that no answer
      came before earns the batch one more problem. */
  lemma ColumnsAgreeIff<In, Summary>(env: Env<In, Summary>, now: int, id: string, r: Row, input: In)
    requires Pending(now, r) && r.result.None? && IsRender(r.job.value) && env.parse(r.job.value.inputs) == Some(input)
    ensures var ms := ModelSetOf(r.job.value);
            var one, many := Single(env, now, id, r).result.value, Batched(env, now, id, r).result.value;
            var empty := AnsweredNothing(env, ms, id, input);
            var called := env.provider(ms) && env.call(ms, id, input).Answer?;
            && (one.modelSet == many.modelSet <==> r.job.value.modelSet != "")
            && (one.usage == many.usage <==> empty ==> env.call(ms, id, input).usage == Deterministic)
            && (one.problems == many.problems <==> called || !env.blank(env.fallback(input)))
            && many.modelSet == ms && (empty ==> many.usage == env.call(ms, id, input).usage)
            && (one.problems != many.problems ==> many.problems == one.problems + [LlmMissingOutput])
  {
  }

  /** A second delivery of the same job changes nothing. */
  lemma SingleTwice<In, Summary>(env: Env<In, Summary>, now: int, id: string, r: Row)
    ensures Single(env, now, id, Single(env, now, id, r)) == Single(env, now, id, r)
  {
  }

  // ---------------------------------------------------------------- the worker

  datatype Parsed<In> = Parsed(id: string, job: Job, input: In)
  datatype Snapshot = Snapshot(id: string, job: Job)

  datatype Db = Db(jobs: map<string, Job>, results: map<string, Result>)

  function At(db: Db, id: string): Row {
    Row(if id in db.jobs then Some(db.jobs[id]) else None, if id in db.results then Some(db.results[id]) else None)
  }

  /** The rows of these ids went through the function, and no other row changed. */
  ghost predicate Through(before: Db, after: Db, ids: set<string>, f: (string, Row) -> Row) {
    forall id :: At(after, id) == if id in ids then f(id, At(before, id)) else At(before, id)
  }

  function Ids(s: seq<string>): set<string> { set x | x in s && x != "" }

  class Worker<In, Summary> {
    const env: Env<In, Summary>
    var db: Db

    constructor (env: Env<In, Summary>, db: Db)
      ensures this.env == env && this.db == db
    {
      this.env := env;
      this.db := db;
    }

    method PutResult(id: string, result: Result, job: Job)
      modifies this
      ensures At(db, id) == Row(Some(Finished(job)), Some(result))
      ensures forall x :: x != id ==> At(db, x) == At(old(db), x)
    {
      db := Db(db.jobs[id := Finished(job)], db.results[id := result]);
    }

    method PutJob(id: string, job: Job)
      modifies this
      ensures At(db, id) == At(old(db), id).(job := Some(job))
      ensures forall x :: x != id ==> At(db, x) == At(old(db), x)
    {
      db := db.(jobs := db.jobs[id := job]);
    }

    method ProcessJob(now: int, id: string)
      modifies this
      ensures At(db, id) == if id == "" then At(old(db), id) else Single(env, now, id, At(old(db), id))
      ensures forall x :: x != id ==> At(db, x) == At(old(db), x)
    {
      var r := At(db, id);
      if id == "" || !Pending(now, r) {
        return;
      }
      if r.result.Some? {
        PutJob(id, Finished(r.job.value));
        return;
      }
      match RunModule(env, id, r.job.value) {
        case Unknown =>
        case RunFailed => PutJob(id, r.job.value.(status := Failed, attempts := r.job.value.attempts + 1));
        case Ran(body, usage, problems) =>
          PutResult(id, Result(r.job.value.modelSet, body, usage, problems), r.job.value);
      }
    }

    /** The jobs delivered one after the other. */
    method ProcessEach(now: int, ids: seq<string>)
      modifies this
      ensures Through(old(db), db, Ids(ids), (id, r) => Single(env, now, id, r))
    {
      for i := 0 to |ids|
        invariant Through(old(db), db, Ids(ids[..i]), (id, r) => Single(env, now, id, r))
      {
        ghost var mid := db;
        ProcessJob(now, ids[i]);
        forall id
          ensures At(db, id) == if id in Ids(ids[..i + 1]) then Single(env, now, id, At(old(db), id))
              else At(old(db), id)
        {
          SingleTwice(env, now, id, At(old(db), id));
          assert id in Ids(ids[..i + 1]) <==> id in Ids(ids[..i]) || (id == ids[i] && id != "");
        }
      }
      assert ids[..|ids|] == ids;
    }

    // ---------------------------------------------------------------- batches

    /** Reads every named job once and sorts out the summary jobs; the ids of the other pending jobs are kept. */
    method Collect(now: int, ids: seq<string>) returns (renders: seq<Snapshot>, others: seq<string>)
      ensures forall j :: 0 <= j < |renders| ==> Collected(db, now, Ids(ids), renders[j])
      ensures forall j :: 0 <= j < |others| ==> others[j] in Ids(ids) && !RenderPending(now, At(db, others[j]))
      ensures forall id :: id in Ids(ids) && RenderPending(now, At(db, id)) ==>
        Snapshot(id, At(db, id).job.value) in renders
      ensures forall id :: id in Ids(ids) && Pending(now, At(db, id)) && !RenderPending(now, At(db, id)) ==>
        id in others
    {
      renders, others := [], [];
      for i := 0 to |ids|
        invariant forall j :: 0 <= j < |renders| ==> Collected(db, now, Ids(ids), renders[j])
        invariant forall j :: 0 <= j < |others| ==> others[j] in Ids(ids) && !RenderPending(now, At(db, others[j]))
        invariant forall k :: 0 <= k < i && ids[k] != "" && RenderPending(now, At(db, ids[k])) ==>
          Snapshot(ids[k], At(db, ids[k]).job.value) in renders
        invariant forall k ::
          0 <= k < i && ids[k] != "" && Pending(now, At(db, ids[k])) && !RenderPending(now, At(db, ids[k])) ==>
            ids[k] in others
      {
        var id := ids[i];
        if id == "" || !Pending(now, At(db, id)) {
          continue;
        }
        assert id in Ids(ids);
        if IsRender(At(db, id).job.value) {
          renders := renders + [Snapshot(id, At(db, id).job.value)];
          continue;
        }
        others := others + [id];
      }
    }

    /** Marks the summary jobs that already have a result and groups the readable others by model set. */
    method Group(renders: seq<Snapshot>) returns (groups: map<string, seq<Parsed<In>>>, ghost todo: set<string>)
      modifies this
      requires forall j :: 0 <= j < |renders| ==> At(db, renders[j].id).job == Some(renders[j].job)
      ensures Grouped(env, old(db), groups, todo)
      ensures forall id :: id in todo <==> Work(env, At(old(db), id)) && Names(renders, id)
      ensures forall id :: At(db, id) == Marked(At(old(db), id), Names(renders, id))
    {
      groups, todo := map[], {};
      for i := 0 to |renders|
        invariant Grouped(env, old(db), groups, todo)
        invariant forall id :: id in todo <==> Work(env, At(old(db), id)) && Names(renders[..i], id)
        invariant forall id :: At(db, id) == Marked(At(old(db), id), Names(renders[..i], id))
      {
        var id, job := renders[i].id, renders[i].job;
        forall x ensures Names(renders[..i + 1], x) <==> Names(renders[..i], x) || id == x {
          NamesNext(renders, i, x);
        }
        assert At(old(db), id).job == Some(job);
        if At(db, id).result.Some? {
          PutJob(id, Finished(job));
          continue;
        }
        var input := env.parse(job.inputs);
        if input.None? {
          continue;
        }
        var ms := ModelSetOf(job);
        GroupedAppend(env, old(db), groups, todo, Parsed(id, job, input.value));
        groups := groups[ms := (if ms in groups then groups[ms] else []) + [Parsed(id, job, input.value)]];
        todo := todo + {id};
      }
      assert renders[..|renders|] == renders;
    }

    /** Stores the result of every grouped job, group by group in any order. */
    method ProcessGroups(groups: map<string, seq<Parsed<In>>>, ghost base: Db, ghost todo: set<string>)
      modifies this
      requires Grouped(env, base, groups, todo)
      ensures forall id :: At(db, id) == if id in todo then Summarised(env, base, id) else At(old(db), id)
    {
      var remaining := groups.Keys;
      ghost var done: set<string> := {};
      while remaining != {}
        invariant remaining <= groups.Keys && done <= todo
        invariant forall id :: id in todo && ModelSetOf(At(base, id).job.value) !in remaining ==> id in done
        invariant forall id :: At(db, id) == if id in done then Summarised(env, base, id) else At(old(db), id)
        decreases |remaining|
      {
        var ms :| ms in remaining;
        ghost var before := done;
        done := ProcessGroup(ms, groups[ms], base, todo, done);
        remaining := remaining - {ms};
        forall id | id in todo && ModelSetOf(At(base, id).job.value) !in remaining ensures id in done {
          assert Listed(groups, base, id);
        }
      }
    }

    method ProcessGroup(ms: string, group: seq<Parsed<In>>, ghost base: Db, ghost todo: set<string>,
                        ghost before: set<string>)
      returns (ghost done: set<string>)
      modifies this
      requires forall k :: 0 <= k < |group| ==> EntryOk(env, base, todo, ms, group[k])
      requires before <= todo
      ensures before <= done <= todo && forall k :: 0 <= k < |group| ==> group[k].id in done
      ensures forall id :: id in done && id !in before ==> At(db, id) == Summarised(env, base, id)
      ensures forall id :: id in before && At(old(db), id) == Summarised(env, base, id) ==>
        At(db, id) == Summarised(env, base, id)
      ensures forall id :: id !in done ==> At(db, id) == At(old(db), id)
    {
      done := before;
      for k := 0 to |group|
        invariant before <= done <= todo && forall j :: 0 <= j < k ==> group[j].id in done
        invariant forall id :: id in done && id !in before ==> At(db, id) == Summarised(env, base, id)
        invariant forall id :: id in before && At(old(db), id) == Summarised(env, base, id) ==>
          At(db, id) == Summarised(env, base, id)
        invariant forall id :: id !in done ==> At(db, id) == At(old(db), id)
      {
        var pj := group[k];
        assert EntryOk(env, base, todo, ms, pj);
        PutResult(pj.id, BatchResult(env, ms, pj.id, pj.input), pj.job);
        done := done + {pj.id};
      }
    }

    /** A batch gives every row it names what its own processing gives it, whatever the order of the groups, the
        repetition of ids and the mixture of modules. */
    method ProcessBatch(now: int, ids: seq<string>)
      modifies this
      ensures Through(old(db), db, Ids(ids), (id, r) => Batched(env, now, id, r))
    {
      var renders, others := Collect(now, ids);
      ProcessEach(now, others);
      ghost var base := db;
      forall j | 0 <= j < |renders| ensures At(db, renders[j].id) == At(old(db), renders[j].id) {
        assert Collected(old(db), now, Ids(ids), renders[j]);
      }
      var groups, todo := Group(renders);
      ProcessGroups(groups, base, todo);
      forall id
        ensures At(db, id) == if id in Ids(ids) then Batched(env, now, id, At(old(db), id)) else At(old(db), id)
      {
      }
    }
  }

  predicate RenderPending(now: int, r: Row) { Pending(now, r) && IsRender(r.job.value) }

  predicate Collected(db: Db, now: int, ids: set<string>, s: Snapshot) {
    s.id in ids && RenderPending(now, At(db, s.id)) && At(db, s.id).job == Some(s.job)
  }

  predicate Names(renders: seq<Snapshot>, id: string) { exists j :: 0 <= j < |renders| && renders[j].id == id }

  lemma NamesNext(renders: seq<Snapshot>, i: nat, id: string)
    requires i < |renders|
    ensures Names(renders[..i + 1], id) <==> Names(renders[..i], id) || renders[i].id == id
  {
    if renders[i].id == id {
      assert renders[..i + 1][i].id == id;
    } else if Names(renders[..i], id) {
      var j :| 0 <= j < i && renders[..i][j].id == id;
      assert renders[..i + 1][j].id == id;
    }
  }

  /** A named job that has a result is marked as finished. */
  function Marked(r: Row, named: bool): Row {
    if named && r.result.Some? && r.job.Some? then r.(job := Some(Finished(r.job.value))) else r
  }

  /** A readable job without a result. */
  predicate Work<In, Summary>(env: Env<In, Summary>, r: Row) {
    r.job.Some? && r.result.None? && env.parse(r.job.value.inputs).Some?
  }

  /** A grouped entry repeats its job and belongs to the group of its model set. */
  ghost predicate EntryOk<In, Summary>(env: Env<In, Summary>, base: Db, todo: set<string>, ms: string, pj: Parsed<In>) {
    && pj.id in todo && At(base, pj.id).job == Some(pj.job) && ModelSetOf(pj.job) == ms
    && env.parse(pj.job.inputs) == Some(pj.input)
  }

  predicate Listed<In>(groups: map<string, seq<Parsed<In>>>, base: Db, id: string) {
    && At(base, id).job.Some?
    && var ms := ModelSetOf(At(base, id).job.value);
       ms in groups && exists k :: 0 <= k < |groups[ms]| && groups[ms][k].id == id
  }

  ghost predicate Grouped<In, Summary>(env: Env<In, Summary>, base: Db, groups: map<string, seq<Parsed<In>>>,
                                       todo: set<string>) {
    && (forall ms, k :: ms in groups && 0 <= k < |groups[ms]| ==> EntryOk(env, base, todo, ms, groups[ms][k]))
    && (forall id :: id in todo ==> Listed(groups, base, id))
  }

  lemma GroupedAppend<In, Summary>(env: Env<In, Summary>, base: Db, groups: map<string, seq<Parsed<In>>>,
                                   todo: set<string>,
                                   pj: Parsed<In>)
    requires Grouped(env, base, groups, todo)
    requires EntryOk(env, base, {pj.id}, ModelSetOf(pj.job), pj)
    ensures var ms := ModelSetOf(pj.job);
            Grouped(env, base, groups[ms := (if ms in groups then groups[ms] else []) + [pj]], todo + {pj.id})
  {
    var ms := ModelSetOf(pj.job);
    var group: seq<Parsed<In>> := (if ms in groups then groups[ms] else []) + [pj];
    var after: map<string, seq<Parsed<In>>> := groups[ms := group];
    forall id | id in todo + {pj.id} ensures Listed(after, base, id) {
      if id == pj.id {
        assert after[ms][|group| - 1].id == id;
      } else {
        var m := ModelSetOf(At(base, id).job.value);
        var k :| 0 <= k < |groups[m]| && groups[m][k].id == id;
        assert after[m][k].id == id;
      }
    }
  }

  function Summarised<In, Summary>(env: Env<In, Summary>, base: Db, id: string): Row {
    match At(base, id).job
    case None => At(base, id)
    case Some(job) =>
      match env.parse(job.inputs)
      case None => At(base, id)
      case Some(input) => Row(Some(Finished(job)), Some(BatchResult(env, ModelSetOf(job), id, input)))
  }

  /** One delivery of a batch against one delivery of each of its jobs, in any order and with any repetition: job rows
      and result bodies agree for every id if and only if no pending summary job in the batch is unreadable; every
      other id agrees in any case. */
  lemma BatchMatchesSinglesIff<In, Summary>(env: Env<In, Summary>, now: int, batch: seq<string>, singles: seq<string>,
                                            before: Db, one: Db, many: Db)
    requires Ids(batch) == Ids(singles)
    requires Through(before, one, Ids(singles), (id, r) => Single(env, now, id, r))
    requires Through(before, many, Ids(batch), (id, r) => Batched(env, now, id, r))
    ensures forall id ::
      SameBody(At(one, id), At(many, id)) <==> !(id in Ids(batch) && Unreadable(env, now, At(before, id)))
    ensures (forall id :: SameBody(At(one, id), At(many, id)))
       <==> (forall id :: id in Ids(batch) ==> !Unreadable(env, now, At(before, id)))
  {
    forall id
      ensures SameBody(At(one, id), At(many, id)) <==> !(id in Ids(batch) && Unreadable(env, now, At(before, id)))
    {
      RowsAgreeIff(env, now, id, At(before, id));
    }
  }
}
