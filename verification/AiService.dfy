/** The AI service over its table (internal/ai/service.go): one call that is not interrupted, as methods that change the
    table, refining the caller of the protocol and doing to the rows what each case promises. */
module AiService {
  import opened Base
  import opened Billing
  import opened AiTable
  import opened GetOrQueue
  import opened AiSystem

  /** An uninterrupted caller in this phase ends in that table with that answer. */
  ghost predicate EndsIn(t: Table, r: Request, phase: Phase, inflight: int, t': Table, a: Response) {
    exists k: nat :: Steps(t, Caller(r, phase), inflight, k) == (t', Caller(r, Done(a)))
  }

  /** A step towards the end. */
  lemma EndsInAfter(t: Table, r: Request, phase: Phase, inflight: int, t1: Table, next: Phase, t': Table, a: Response)
    requires CallerStep(t, Caller(r, phase), Fine, inflight) == (t1, Caller(r, next))
        && EndsIn(t1, r, next, inflight, t', a)
    ensures EndsIn(t, r, phase, inflight, t', a)
  {
    var k: nat :| Steps(t1, Caller(r, next), inflight, k) == (t', Caller(r, Done(a)));
    IterateAfter(Answering(inflight), (t, Caller(r, phase)), k);
    assert Steps(t, Caller(r, phase), inflight, k + 1) == (t', Caller(r, Done(a)));
  }

  /** The last step. */
  lemma EndsInStep(t: Table, r: Request, phase: Phase, inflight: int, t': Table, a: Response)
    requires CallerStep(t, Caller(r, phase), Fine, inflight) == (t', Caller(r, Done(a)))
    ensures EndsIn(t, r, phase, inflight, t', a)
  {
    assert Steps(t', Caller(r, Done(a)), inflight, 0) == (t', Caller(r, Done(a)));
    EndsInAfter(t, r, phase, inflight, t', Done(a), t', a);
  }

  // ---------------------------------------------------------------- what a call may do to the rows

  /** The entry records the list price and the multiplier that applied. */
  predicate PricedAs(e: Entry, r: Request) {
    e.listed == r.baseCredits as int && e.bps == if r.bps > 0 then r.bps as int else 10000
  }

  /** One ledger entry for a cache hit and nothing else; a hit that is on record is not recorded again. */
  predicate OneHit(t: Table, t': Table, r: Request) {
    var tag := if r.requestId == "" then ByJob(r.job) else Given(r.requestId);
    var k := LedgerKey(r.now,
      EntryId(BudgetKey(r.instance, r.month), tag, r.job.columns.aiModule, JobTarget(r.job), 0));
    && t'.jobs == t.jobs && t'.results == t.results && t'.dedup == t.dedup && t'.budgets == t.budgets
    && k in t'.ledger && t'.ledger - {k} == t.ledger - {k}
    && (k in t.ledger ==> t'.ledger == t.ledger)
    && (k !in t.ledger ==>
          t'.ledger[k].cached && t'.ledger[k].debited == 0 && t'.ledger[k].requested == r.credits
          && PricedAs(t'.ledger[k], r) && t'.ledger[k].parts == Parts(0, 0))
  }

  /** The job row of a request: queued, with its identity, inputs and request id, for its time to live or a day. */
  predicate QueuedFor(j: Job, r: Request) {
    && j.status == Queued && j.attempts == 0 && j.identity == Identity(r.instance, r.job.columns)
    && j.inputsJson == r.inputsJson && j.requestId == r.requestId
    && j.expiresAt == r.now + if r.jobTtl > 0 then r.jobTtl else 24 * 3600 * 1_000_000_000
  }

  /** The job is created and nothing else happens. */
  predicate OneJob(t: Table, t': Table, r: Request) {
    && r.job !in t.jobs && r.job in t'.jobs && t'.jobs - {r.job} == t.jobs && QueuedFor(t'.jobs[r.job], r)
    && t'.results == t.results && t'.dedup == t.dedup
  }

  /** One debit and nothing else: the job is created, its ledger entry accounts for the credits, the usage of the one
      budget rises by them, and every other row is as before. */
  predicate OneDebit(t: Table, t': Table, r: Request) {
    var b, k := r.Budget(), r.DebitKey();
    && OneJob(t, t', r)
    && k in t'.ledger && t'.ledger - {k} == t.ledger - {k} && !t'.ledger[k].cached
    && t'.ledger[k].debited == r.credits == t'.ledger[k].requested && PricedAs(t'.ledger[k], r)
    && t'.ledger[k].parts.included + t'.ledger[k].parts.overage == r.credits
    && b in t.budgets && b in t'.budgets && t'.budgets - {b} == t.budgets - {b}
    && t'.budgets[b].included == t.budgets[b].included && t'.budgets[b].Used() == t.budgets[b].Used() + r.credits
  }

  lemma CommittedIsOneDebit(t: Table, r: Request, snap: Snapshot)
    requires DebitConditions(t, r, snap)
    ensures OneDebit(t, CommittedDebit(t, r, snap), r)
  {
    PartsAreExact(snap.included, snap.used, r.Credits());
  }

  /** The entry's split of the debit: its overage is what a usage of used grows beyond the allowance, and its type says
      on which side of the allowance it fell. */
  predicate SplitAt(t: Table, r: Request, included: int, used: int) {
    var k := r.DebitKey();
    && k in t.ledger
    && t.ledger[k].parts.overage == Over(included, used + r.credits) - Over(included, used)
    && (r.credits > 0 ==>
          && (t.ledger[k].billing == IncludedOnly <==> used + r.credits <= included)
          && (t.ledger[k].billing == OverageOnly <==> included <= used))
  }

  lemma CommittedSplit(t: Table, r: Request, snap: Snapshot)
    requires DebitConditions(t, r, snap)
    ensures SplitAt(CommittedDebit(t, r, snap), r, snap.included, snap.used)
  {
    PartsAreExact(snap.included, snap.used, r.Credits());
    if r.credits > 0 {
      TypeMeaning(snap.included, snap.used, r.credits);
    }
  }

  predicate ShowsRow(b: Budget, a: Response) {
    a.included == b.included && a.used == b.Used() && a.remaining == b.included - b.Used()
  }

  /** Why a debit was refused, from what is stored: a live result, an existing job, or a budget that does not fit the
      amount; where it does fit, some other debit was in the way. */
  predicate ExplainsRefusal(t: Table, r: Request, a: Response) {
    && a.debited == 0 && a.requested == r.Credits()
    && if Live(t, r) then a.status == OkStatus && a.cached
       else if r.job in t.jobs then a.status == QueuedStatus && a.reason == AlreadyQueued
       else
         && a.status == NotCheckedBudget && !a.allowed
         && if r.Budget() in t.budgets
            then
              && ShowsRow(t.budgets[r.Budget()], a)
              && a.reason == if a.remaining >= r.Credits() then BudgetConflict else BudgetExceeded
            else a.reason == BudgetExceeded
  }

  /** What one uninterrupted call does and answers, case by case. */
  predicate Outcome(t: Table, t': Table, r: Request, inflight: int, a: Response) {
    if r.job in t.results && (t.results[r.job].expiresAt.None? || t.results[r.job].expiresAt.value >= r.now)
    then OneHit(t, t', r) && a.status == OkStatus && a.cached && a.reason == CacheHit && a.debited == 0
    else NewOutcome(t, t', r, inflight, a)
  }

  /** Without a live result: a stored job is reported, too many in flight are refused, a free job is queued. */
  predicate NewOutcome(t: Table, t': Table, r: Request, inflight: int, a: Response) {
    && !a.cached
    && if r.job in t.jobs
       then t' == t && a.status == QueuedStatus && a.reason == AlreadyQueued && a.debited == 0
       else if 0 < r.maxInflight <= inflight
       then t' == t && a.status == NotCheckedBudget && !a.allowed && a.reason == ConcurrencyExceeded && a.debited == 0
       else if r.credits == 0
       then
         && OneJob(t, t', r) && t'.ledger == t.ledger && t'.budgets == t.budgets
         && a.status == QueuedStatus && a.reason == QueuedNoCharge && a.debited == 0
       else PaidOutcome(t, t', r, a)
  }

  /** A priced new job: refused without a budget or without room in it, and debited otherwise, with the split of its
      usage and the budget it leaves. */
  predicate PaidOutcome(t: Table, t': Table, r: Request, a: Response) {
    var b := BudgetKey(r.instance, r.month);
    if b !in t.budgets
    then t' == t && a.status == NotCheckedBudget && !a.allowed && a.reason == NotConfigured && a.debited == 0
    else
      var included, used := t.budgets[b].included, t.budgets[b].Used();
      if used + r.credits > included && !r.allowOverage
      then
        && t' == t && a.status == NotCheckedBudget && !a.allowed && a.overBudget && a.reason == BudgetExceeded
        && a.debited == 0 && a.included == included && a.used == used && a.remaining == included - used
      else
        && OneDebit(t, t', r) && SplitAt(t', r, included, used)
        && a.status == QueuedStatus && a.allowed && a.debited == a.requested == r.credits
        && a.included == included && a.used == used + r.credits && a.remaining == included - used - r.credits
        && (a.overBudget <==> used + r.credits > included)
        && a.reason == if used + r.credits > included then OverageDebited else Debited
  }

  lemma CommittedOutcome(t: Table, r: Request)
    requires r.credits > 0 && r.job !in t.jobs && r.Budget() in t.budgets
    requires var b := t.budgets[r.Budget()]; b.Used() + r.credits <= b.included || r.allowOverage
    ensures var b := t.budgets[r.Budget()];
            var snap := Snapshot(b.included, b.Used());
            && DebitConditions(t, r, snap)
            && var t' := CommittedDebit(t, r, snap);
               var overage := PartsForDebit(snap.included, snap.used, r.Credits()).overage;
               PaidOutcome(t, t', r, DebitAnswer(r.Credits(), Some(t'.budgets[r.Budget()]), overage))
  {
    var b := t.budgets[r.Budget()];
    var snap := Snapshot(b.included, b.Used());
    CommittedIsOneDebit(t, r, snap);
    CommittedSplit(t, r, snap);
    PartsAreExact(snap.included, snap.used, r.credits);
  }

  /** The AI service over its table. */
  class Service {
    var table: Table

    constructor (t: Table)
      ensures table == t
    {
      table := t;
    }

    /** Returns a cached result, or queues the job and debits the budget. Its effect and answer are spelt out case by
        case, and are those of a caller of the protocol that is not interrupted. */
    method GetOrQueue(r: Request, inflight: int) returns (a: Response)
      modifies this
      ensures EndsIn(old(table), r, ReadResult, inflight, table, a)
      ensures Outcome(old(table), table, r, inflight, a)
    {
      ghost var t := table;
      if Live(table, r) {
        a := RecordCacheHit(r, inflight);
        EndsInStep(t, r, RecordHit, inflight, table, a);
        EndsInAfter(t, r, ReadResult, inflight, t, RecordHit, table, a);
        return;
      }
      a := QueueIfNew(r, inflight);
      EndsInAfter(t, r, ReadResult, inflight, t, ReadJob, table, a);
    }

    /** Without a cached result: a job that exists is reported, too many in flight are refused, and free jobs are
        queued. */
    method QueueIfNew(r: Request, inflight: int) returns (a: Response)
      modifies this
      requires !Live(table, r)
      ensures EndsIn(old(table), r, ReadJob, inflight, table, a)
      ensures NewOutcome(old(table), table, r, inflight, a)
    {
      ghost var t := table;
      if r.job in table.jobs {
        a := Answer(QueuedStatus, AlreadyQueued, r.Credits());
        EndsInStep(t, r, ReadJob, inflight, table, a);
        return;
      }
      if r.maxInflight > 0 && inflight >= r.maxInflight {
        a := Answer(NotCheckedBudget, ConcurrencyExceeded, r.Credits());
        EndsInStep(t, r, CountInflight, inflight, table, a);
      } else if r.Credits() <= 0 {
        a := QueueNoChargeJob(r, inflight);
        EndsInStep(t, r, CreateFree, inflight, table, a);
        EndsInAfter(t, r, CountInflight, inflight, t, CreateFree, table, a);
      } else {
        a := CheckBudget(r, inflight);
        EndsInAfter(t, r, CountInflight, inflight, t, ReadBudget, table, a);
      }
      EndsInAfter(t, r, ReadJob, inflight, t, CountInflight, table, a);
    }

    /** The budget must exist and, without overage, have room. */
    method CheckBudget(r: Request, ghost inflight: int) returns (a: Response)
      requires r.Credits() > 0 && r.job !in table.jobs
      modifies this
      ensures EndsIn(old(table), r, ReadBudget, inflight, table, a)
      ensures PaidOutcome(old(table), table, r, a) && !a.cached
    {
      ghost var t := table;
      if r.Budget() !in table.budgets {
        a := Answer(NotCheckedBudget, NotConfigured, r.Credits());
        EndsInStep(t, r, ReadBudget, inflight, table, a);
        return;
      }
      var b := table.budgets[r.Budget()];
      if b.included - b.Used() < r.Credits() && !r.allowOverage {
        a := WithBudget(Answer(NotCheckedBudget, BudgetExceeded, r.Credits()), b);
        EndsInStep(t, r, ReadBudget, inflight, table, a);
        return;
      }
      var snap := Snapshot(b.included, b.Used());
      CommittedOutcome(table, r);
      a := QueueWithDebit(r, snap, inflight);
      EndsInAfter(t, r, ReadBudget, inflight, t, CommitDebit(snap), table, a);
    }

    /** After a refused transaction: a result or job that appeared meanwhile, else the budget as it is now. */
    method HandleDebitConditionFailed(r: Request, ghost inflight: int) returns (a: Response)
      ensures EndsIn(table, r, ConflictResult, inflight, table, a)
      ensures ExplainsRefusal(table, r, a)
    {
      if Live(table, r) {
        a := Answer(OkStatus, CacheHit, r.Credits());
        EndsInStep(table, r, ConflictResult, inflight, table, a);
        return;
      }
      if r.job in table.jobs {
        a := Answer(QueuedStatus, AlreadyQueued, r.Credits());
        EndsInStep(table, r, ConflictJob, inflight, table, a);
      } else {
        if r.Budget() in table.budgets {
          var b := table.budgets[r.Budget()];
          var reason := if b.included - b.Used() >= r.Credits() then BudgetConflict else BudgetExceeded;
          a := WithBudget(Answer(NotCheckedBudget, reason, r.Credits()), b);
        } else {
          a := Answer(NotCheckedBudget, BudgetExceeded, r.Credits());
        }
        EndsInStep(table, r, ConflictBudget, inflight, table, a);
        EndsInAfter(table, r, ConflictJob, inflight, table, ConflictBudget, table, a);
      }
      EndsInAfter(table, r, ConflictResult, inflight, table, ConflictJob, table, a);
    }

    method RecordCacheHit(r: Request, ghost inflight: int) returns (a: Response)
      modifies this
      ensures OneHit(old(table), table, r) && a.status == OkStatus && a.cached && a.reason == CacheHit && a.debited == 0
      ensures (table, Caller(r, Done(a))) == CallerStep(old(table), Caller(r, RecordHit), Fine, inflight)
    {
      if r.HitKey() !in table.ledger {
        table := table.(ledger := table.ledger[r.HitKey() := r.HitEntry()]);
      }
      a := Answer(OkStatus, CacheHit, r.Credits());
    }

    method QueueNoChargeJob(r: Request, ghost inflight: int) returns (a: Response)
      modifies this
      ensures r.job in old(table).jobs ==> table == old(table) && a.reason == AlreadyQueued
      ensures r.job !in old(table).jobs ==>
        && OneJob(old(table), table, r) && table.ledger == old(table).ledger && table.budgets == old(table).budgets
        && a.reason == QueuedNoCharge
      ensures a.status == QueuedStatus && !a.cached && a.debited == 0
      ensures (table, Caller(r, Done(a))) == CallerStep(old(table), Caller(r, CreateFree), Fine, inflight)
    {
      if r.job in table.jobs {
        a := Answer(QueuedStatus, AlreadyQueued, r.Credits());
      } else {
        table := table.(jobs := table.jobs[r.job := r.NewJob()]);
        a := Answer(QueuedStatus, QueuedNoCharge, 0);
      }
    }

    /** The debit transaction and the re-read of the budget row that follows it. Either exactly this request's debit is
        made and reported with the budget it leaves, or nothing changes and the answer explains why. */
    method QueueWithDebit(r: Request, snap: Snapshot, ghost inflight: int) returns (a: Response)
      modifies this
      ensures EndsIn(old(table), r, CommitDebit(snap), inflight, table, a)
      ensures DebitConditions(old(table), r, snap) ==>
                && table == CommittedDebit(old(table), r, snap)
                && a == DebitAnswer(r.Credits(), Some(table.budgets[r.Budget()]),
                                    PartsForDebit(snap.included, snap.used, r.Credits()).overage)
      ensures DebitConditions(old(table), r, snap) ==>
                && OneDebit(old(table), table, r) && SplitAt(table, r, snap.included, snap.used)
                && a.status == QueuedStatus && a.debited == r.Credits() && ShowsRow(table.budgets[r.Budget()], a)
      ensures !DebitConditions(old(table), r, snap) ==> table == old(table) && ExplainsRefusal(table, r, a)
    {
      ghost var t := table;
      if !DebitConditions(table, r, snap) {
        a := HandleDebitConditionFailed(r, inflight);
        EndsInAfter(t, r, CommitDebit(snap), inflight, t, ConflictResult, table, a);
        return;
      }
      table := CommittedDebit(table, r, snap);
      var parts := PartsForDebit(snap.included, snap.used, r.Credits());
      a := DebitAnswer(r.Credits(), Some(table.budgets[r.Budget()]), parts.overage);
      CommittedIsOneDebit(t, r, snap);
      CommittedSplit(t, r, snap);
      DebitEnds(t, r, snap, inflight, a);
    }
  }

  /** A debit that commits is followed by the re-read of the budget row. */
  lemma DebitEnds(t: Table, r: Request, snap: Snapshot, inflight: int, a: Response)
    requires DebitConditions(t, r, snap)
    requires var t' := CommittedDebit(t, r, snap);
             a == DebitAnswer(r.Credits(), Some(t'.budgets[r.Budget()]),
               PartsForDebit(snap.included, snap.used, r.Credits()).overage)
    ensures EndsIn(t, r, CommitDebit(snap), inflight, CommittedDebit(t, r, snap), a)
  {
    var t' := CommittedDebit(t, r, snap);
    var next := Refresh(PartsForDebit(snap.included, snap.used, r.Credits()).overage);
    EndsInStep(t', r, next, inflight, t', a);
    EndsInAfter(t, r, CommitDebit(snap), inflight, t', next, t', a);
  }
}
