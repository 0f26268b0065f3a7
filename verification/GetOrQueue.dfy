/** One caller of GetOrQueue (internal/ai/service.go), cut into its store calls. Between two steps
    anything else may run, so the budget snapshot it carries can be stale when its debit commits. */
module GetOrQueue {
  import opened Base
  import opened Billing
  import opened AiTable

  // ---------------------------------------------------------------- GetOrQueue callers

  /** A prepared request: identity fields trimmed, job id derived, credits priced, clock read. */
  datatype Request = Request(instance: string, requestId: string, job: JobId, inputsJson: string,
                             baseCredits: int64, bps: int64, credits: nat, allowOverage: bool, maxInflight: int,
                             jobTtl: int, now: int, month: string) {
    function Budget(): BudgetKey { BudgetKey(instance, month) }

    function Credits(): int { credits }

    /** Preparation sets the credits to the price and insists on a model set. */
    predicate Priced() { credits == PricedCredits(baseCredits, EffectiveBps(bps)) as int }
    predicate Named() { job.columns.modelSet != "" }

    function Ttl(): int { if jobTtl <= 0 then DAY else jobTtl }

    function NewJob(): Job { Job(Identity(instance, job.columns), inputsJson, Queued, 0, requestId, now + Ttl()) }

    function DebitKey(): LedgerKey {
      LedgerKey(now, EntryId(Budget(), Given(requestId), job.columns.aiModule, JobTarget(job), Credits()))
    }

    function DebitEntry(included: int, used: int): Entry {
      var parts := PartsForDebit(included, used, Credits());
      Entry(false, Credits(), baseCredits as int, EffectiveBps(bps) as int, Credits(), parts, TypeFromParts(parts))
    }

    function HitKey(): LedgerKey {
      var tag := if requestId == "" then ByJob(job) else Given(requestId);
      LedgerKey(now, EntryId(Budget(), tag, job.columns.aiModule, JobTarget(job), 0))
    }

    function HitEntry(): Entry {
      Entry(true, Credits(), baseCredits as int, EffectiveBps(bps) as int, 0, Parts(0, 0), Unbilled)
    }
  }

  const DAY: int := 24 * 60 * 60 * 1_000_000_000

  datatype Status = OkStatus | QueuedStatus | NotCheckedBudget | ErrorStatus

  datatype Reason = CacheHit | AlreadyQueued | QueuedNoCharge | Debited | OverageDebited | NotConfigured
                  | BudgetExceeded | BudgetConflict | ConcurrencyExceeded | InternalError

  datatype Response = Response(status: Status, cached: bool, allowed: bool, overBudget: bool, reason: Reason,
                               included: int, used: int, remaining: int, requested: int, debited: int)

  function Answer(status: Status, reason: Reason, requested: int): Response {
    Response(status, reason == CacheHit, status != NotCheckedBudget,
             status == NotCheckedBudget && reason != ConcurrencyExceeded, reason, 0, 0, 0, requested, 0)
  }

  function Failure(): Response { Answer(ErrorStatus, InternalError, 0) }

  function WithBudget(r: Response, b: Budget): Response {
    r.(included := b.included, used := b.Used(), remaining := b.included - b.Used())
  }

  /** The answer to a committed debit, from the budget row re-read afterwards (absent: zeros). */
  function DebitAnswer(credits: int, latest: Option<Budget>, overage: int): Response {
    var b := if latest.Some? then latest.value else Budget(0, None);
    var r := WithBudget(Answer(QueuedStatus, if overage > 0 then OverageDebited else Debited, credits), b);
    r.(debited := credits, overBudget := r.remaining < 0 || overage > 0)
  }

  /** The budget row as read by a caller. */
  datatype Snapshot = Snapshot(included: int, used: int)

  datatype Phase =
    | ReadResult | RecordHit | ReadJob | CountInflight | CreateFree | ReadBudget
    | CommitDebit(snap: Snapshot)
    | ConflictResult | ConflictJob | ConflictBudget
    | Refresh(overage: int)
    | Done(answer: Response)

  datatype Caller = Caller(req: Request, phase: Phase)

  predicate Live(t: Table, r: Request) {
    r.job in t.results && (t.results[r.job].expiresAt.None? || t.results[r.job].expiresAt.value >= r.now)
  }

  /** The conditions of the debit transaction: the job row is new, the budget row exists with the
      allowance that was read, and without overage its usage is absent or at most the cap. */
  predicate DebitConditions(t: Table, r: Request, snap: Snapshot) {
    && r.job !in t.jobs
    && r.Budget() in t.budgets
    && t.budgets[r.Budget()].included == snap.included
    && (r.allowOverage || t.budgets[r.Budget()].used.None?
        || t.budgets[r.Budget()].used.value <= snap.included - r.Credits())
  }

  /** The debit transaction: create the job, put the ledger entry, add to the usage. */
  function CommittedDebit(t: Table, r: Request, snap: Snapshot): Table
    requires DebitConditions(t, r, snap)
  {
    Charged(t.(jobs := t.jobs[r.job := r.NewJob()]), r.Budget(), r.DebitKey(), r.DebitEntry(snap.included, snap.used))
  }

  /** The step taken after a store read: inflight is what the status index happens to report. */
  function CallerStep(t: Table, c: Caller, reply: Reply, inflight: int): (Table, Caller) {
    var r := c.req;
    var seen := reply == Fine;
    match c.phase
    case ReadResult => (t, c.(phase := if seen && Live(t, r) then RecordHit else ReadJob))
    case RecordHit =>
      var answer := c.(phase := Done(Answer(OkStatus, CacheHit, r.Credits())));
      if reply == Fails || r.HitKey() in t.ledger then (t, answer)
      else (t.(ledger := t.ledger[r.HitKey() := r.HitEntry()]), answer)
    case ReadJob =>
      (t, c.(phase := if seen && r.job in t.jobs then Done(Answer(QueuedStatus, AlreadyQueued, r.Credits()))
                      else CountInflight))
    case CountInflight =>
      (t, c.(phase := if r.maxInflight > 0 && seen && inflight >= r.maxInflight
                      then Done(Answer(NotCheckedBudget, ConcurrencyExceeded, r.Credits()))
                      else if r.Credits() <= 0 then CreateFree else ReadBudget))
    case CreateFree =>
      if reply == Fails then (t, c.(phase := Done(Failure())))
      else if r.job in t.jobs then
        (t, c.(phase := if seen then Done(Answer(QueuedStatus, AlreadyQueued, r.Credits())) else Done(Failure())))
      else
        (t.(jobs := t.jobs[r.job := r.NewJob()]),
         c.(phase := if seen then Done(Answer(QueuedStatus, QueuedNoCharge, 0)) else Done(Failure())))
    case ReadBudget =>
      if !seen then (t, c.(phase := Done(Failure())))
      else if r.Budget() !in t.budgets then
        (t, c.(phase := Done(Answer(NotCheckedBudget, NotConfigured, r.Credits()))))
      else
        var b := t.budgets[r.Budget()];
        if b.included - b.Used() < r.Credits() && !r.allowOverage then
          (t, c.(phase := Done(WithBudget(Answer(NotCheckedBudget, BudgetExceeded, r.Credits()), b))))
        else (t, c.(phase := CommitDebit(Snapshot(b.included, b.Used()))))
    case CommitDebit(snap) =>
      if reply == Fails then (t, c.(phase := Done(Failure())))
      else if !DebitConditions(t, r, snap) then (t, c.(phase := if seen then ConflictResult else Done(Failure())))
      else
        (CommittedDebit(t, r, snap),
         c.(phase := if seen then Refresh(PartsForDebit(snap.included, snap.used, r.Credits()).overage)
                     else Done(Failure())))
    case ConflictResult =>
      (t, c.(phase := if seen && Live(t, r) then Done(Answer(OkStatus, CacheHit, r.Credits())) else ConflictJob))
    case ConflictJob =>
      (t, c.(phase := if seen && r.job in t.jobs then Done(Answer(QueuedStatus, AlreadyQueued, r.Credits()))
                      else ConflictBudget))
    case ConflictBudget =>
      if seen && r.Budget() in t.budgets then
        var b := t.budgets[r.Budget()];
        var reason := if b.included - b.Used() >= r.Credits() then BudgetConflict else BudgetExceeded;
        (t, c.(phase := Done(WithBudget(Answer(NotCheckedBudget, reason, r.Credits()), b))))
      else (t, c.(phase := Done(Answer(NotCheckedBudget, BudgetExceeded, r.Credits()))))
    case Refresh(overage) =>
      var latest := if seen && r.Budget() in t.budgets then Some(t.budgets[r.Budget()]) else None;
      (t, c.(phase := Done(DebitAnswer(r.Credits(), latest, overage))))
    case Done(_) => (t, c)
  }

  /** What a caller may rely on between its steps. */
  ghost predicate CallerOk(t: Table, c: Caller) { c.req.Named() && PhaseOk(t, c) }

  ghost predicate PhaseOk(t: Table, c: Caller) {
    var r := c.req;
    match c.phase
    case RecordHit => r.job in t.results
    case CommitDebit(snap) => r.Credits() > 0 && SnapshotOk(t, r.Budget(), snap)
                              && (r.allowOverage || snap.included - snap.used >= r.Credits())
    case ReadBudget => r.Credits() > 0
    case Refresh(_) => r.Credits() > 0 && ChargedHere(t, r)
    case Done(answer) =>
      && (answer.status == OkStatus ==> r.job in t.results)
      && (answer.status == QueuedStatus ==> r.job in t.jobs)
      && (answer.debited != 0 ==> answer.debited == r.Credits() && ChargedHere(t, r))
    case _ => true
  }

  /** A snapshot shows the fixed allowance and at most the present usage; while the used attribute
      is still absent it shows zero. */
  predicate SnapshotOk(t: Table, b: BudgetKey, snap: Snapshot) {
    && b in t.budgets && t.budgets[b].included == snap.included && snap.used <= t.budgets[b].Used()
    && (t.budgets[b].used.None? ==> snap.used == 0)
  }

  /** The job is stored and the ledger holds this request's debit. */
  predicate ChargedHere(t: Table, r: Request) {
    r.job in t.jobs && r.DebitKey() in t.ledger && t.ledger[r.DebitKey()].debited == r.Credits() > 0
  }

  lemma DebitKeyIsFree(t: Table, r: Request)
    requires TableOk(t) && r.Credits() > 0 && r.job !in t.jobs
    ensures r.DebitKey() !in t.ledger
    ensures forall k <- t.ledger | t.ledger[k].debited > 0 :: ChargeOf(k) != ChargeOf(r.DebitKey())
  {
    forall k <- t.ledger | t.ledger[k].debited > 0 ensures ChargeOf(k) != ChargeOf(r.DebitKey()) {
      assert Accounted(t, k);
    }
  }

  /** A debit without overage commits only where the whole amount still fits the allowance, however
      stale its snapshot and even when the used attribute is absent. */
  lemma GuardedDebitFits(t: Table, c: Caller)
    requires c.phase.CommitDebit? && CallerOk(t, c) && !c.req.allowOverage
    requires DebitConditions(t, c.req, c.phase.snap)
    ensures t.budgets[c.req.Budget()].Used() + c.req.Credits() <= t.budgets[c.req.Budget()].included
  {
  }

  /** An allowance that is not the one the caller read refuses the debit, whatever room there is. */
  lemma ChangedAllowanceRefuses(t: Table, c: Caller, reply: Reply, inflight: int)
    requires c.phase.CommitDebit? && c.req.Budget() in t.budgets
    requires t.budgets[c.req.Budget()].included != c.phase.snap.included
    ensures CallerStep(t, c, reply, inflight).0 == t
    ensures reply == Fine ==> CallerStep(t, c, reply, inflight).1.phase == ConflictResult
  {
  }

  lemma AddChargeKeepsLedger(t: Table, t': Table, k: LedgerKey, e: Entry)
    requires TableOk(t) && k !in t.ledger && t'.ledger == t.ledger[k := e] && EntryOk(k, e)
    requires t.jobs.Keys <= t'.jobs.Keys && t.dedup <= t'.dedup && (e.debited > 0 ==> Accounted(t', k))
    requires forall k0 <- t.ledger | t.ledger[k0].debited > 0 && e.debited > 0 :: ChargeOf(k0) != ChargeOf(k)
    ensures LedgerOk(t')
  {
    forall k0 <- t'.ledger | t'.ledger[k0].debited > 0 ensures Accounted(t', k0) {
      if k0 != k { assert Accounted(t, k0); }
    }
    forall k1 <- t'.ledger, k2 <- t'.ledger | SameCharge(t'.ledger, k1, k2) ensures k1 == k2 {
      if k1 != k && k2 != k { assert SameCharge(t.ledger, k1, k2); }
    }
  }

  lemma CommitBalances(t: Table, r: Request, snap: Snapshot)
    requires TableOk(t) && r.Credits() > 0 && SnapshotOk(t, r.Budget(), snap) && DebitConditions(t, r, snap)
    ensures Balanced(t, CommittedDebit(t, r, snap))
  {
    var t1 := t.(jobs := t.jobs[r.job := r.NewJob()]);
    var t' := CommittedDebit(t, r, snap);
    DebitKeyIsFree(t, r);
    ChargeBalances(t1, r.Budget(), r.DebitKey(), r.DebitEntry(snap.included, snap.used), snap.used);
    BalancedFrom(t, t1, t');
  }

  lemma CommitKeepsTable(t: Table, r: Request, snap: Snapshot)
    requires TableOk(t) && r.Named() && r.Credits() > 0 && DebitConditions(t, r, snap)
    ensures TableOk(CommittedDebit(t, r, snap)) && ChargedHere(CommittedDebit(t, r, snap), r)
  {
    var t' := CommittedDebit(t, r, snap);
    DebitKeyIsFree(t, r);
    PartsAreExact(snap.included, snap.used, r.Credits());
    AddChargeKeepsLedger(t, t', r.DebitKey(), r.DebitEntry(snap.included, snap.used));
    assert ResultsOk(t');
  }

  lemma CommitGrows(t: Table, r: Request, snap: Snapshot)
    requires TableOk(t) && r.Credits() > 0 && DebitConditions(t, r, snap)
    ensures Grows(t, CommittedDebit(t, r, snap))
  {
    DebitKeyIsFree(t, r);
  }

  lemma CommitKeeps(t: Table, r: Request, snap: Snapshot)
    requires TableOk(t) && r.Named() && r.Credits() > 0 && SnapshotOk(t, r.Budget(), snap)
        && DebitConditions(t, r, snap)
    ensures Keeps(t, CommittedDebit(t, r, snap))
    ensures ChargedHere(CommittedDebit(t, r, snap), r)
  {
    CommitBalances(t, r, snap);
    CommitKeepsTable(t, r, snap);
    CommitGrows(t, r, snap);
  }

  lemma HitKeepsTable(t: Table, r: Request)
    requires TableOk(t) && r.HitKey() !in t.ledger
    ensures TableOk(t.(ledger := t.ledger[r.HitKey() := r.HitEntry()]))
  {
    var t' := t.(ledger := t.ledger[r.HitKey() := r.HitEntry()]);
    AddChargeKeepsLedger(t, t', r.HitKey(), r.HitEntry());
    assert ResultsOk(t');
  }

  lemma NewEntryGrows(t: Table, k: LedgerKey, e: Entry)
    requires k !in t.ledger
    ensures Grows(t, t.(ledger := t.ledger[k := e]))
  {
  }

  lemma HitKeeps(t: Table, r: Request)
    requires TableOk(t) && r.HitKey() !in t.ledger
    ensures Keeps(t, t.(ledger := t.ledger[r.HitKey() := r.HitEntry()]))
  {
    FreeEntryBalances(t, r.HitKey(), r.HitEntry());
    HitKeepsTable(t, r);
    NewEntryGrows(t, r.HitKey(), r.HitEntry());
  }

  /** The table after a caller's step: one of its three writes, or the table unchanged. */
  lemma CallerWrites(t: Table, c: Caller, reply: Reply, inflight: int)
    ensures var t' := CallerStep(t, c, reply, inflight).0;
            || t' == t
            || (c.phase.RecordHit? && c.req.HitKey() !in t.ledger
                && t' == t.(ledger := t.ledger[c.req.HitKey() := c.req.HitEntry()]))
            || (c.phase.CreateFree? && c.req.job !in t.jobs && t' == t.(jobs := t.jobs[c.req.job := c.req.NewJob()]))
            || (c.phase.CommitDebit? && DebitConditions(t, c.req, c.phase.snap)
                && t' == CommittedDebit(t, c.req, c.phase.snap))
  {
  }

  lemma CallerStepKeeps(t: Table, c: Caller, reply: Reply, inflight: int)
    requires TableOk(t) && CallerOk(t, c)
    ensures Keeps(t, CallerStep(t, c, reply, inflight).0)
  {
    CallerWrites(t, c, reply, inflight);
    var t' := CallerStep(t, c, reply, inflight).0;
    if t' == t {
      KeepsReflexive(t);
    } else if c.phase.RecordHit? {
      HitKeeps(t, c.req);
    } else if c.phase.CreateFree? {
      CreateKeeps(t, c.req);
    } else {
      CommitKeeps(t, c.req, c.phase.snap);
    }
  }

  /** The phases before the budget is read. */
  predicate Early(p: Phase) { p.ReadResult? || p.RecordHit? || p.ReadJob? || p.CountInflight? || p.CreateFree? }

  /** The phases after the debit was tried. */
  predicate Late(p: Phase) { p.ConflictResult? || p.ConflictJob? || p.ConflictBudget? || p.Refresh? || p.Done? }

  lemma CommitStepOk(t: Table, c: Caller, reply: Reply, inflight: int)
    requires TableOk(t) && CallerOk(t, c) && c.phase.CommitDebit?
    ensures CallerOk(CallerStep(t, c, reply, inflight).0, CallerStep(t, c, reply, inflight).1)
  {
    if DebitConditions(t, c.req, c.phase.snap) {
      CommitKeepsTable(t, c.req, c.phase.snap);
    }
  }

  lemma EarlyStepOk(t: Table, c: Caller, reply: Reply, inflight: int)
    requires CallerOk(t, c) && Early(c.phase)
    ensures CallerOk(CallerStep(t, c, reply, inflight).0, CallerStep(t, c, reply, inflight).1)
  {
  }

  lemma LateStepOk(t: Table, c: Caller, reply: Reply, inflight: int)
    requires CallerOk(t, c) && Late(c.phase)
    ensures CallerOk(CallerStep(t, c, reply, inflight).0, CallerStep(t, c, reply, inflight).1)
  {
  }

  lemma BudgetStepOk(t: Table, c: Caller, reply: Reply, inflight: int)
    requires CallerOk(t, c) && c.phase.ReadBudget?
    ensures CallerOk(CallerStep(t, c, reply, inflight).0, CallerStep(t, c, reply, inflight).1)
  {
  }

  lemma CallerStepOk(t: Table, c: Caller, reply: Reply, inflight: int)
    requires TableOk(t) && CallerOk(t, c)
    ensures CallerOk(CallerStep(t, c, reply, inflight).0, CallerStep(t, c, reply, inflight).1)
  {
    if Early(c.phase) {
      EarlyStepOk(t, c, reply, inflight);
    } else if Late(c.phase) {
      LateStepOk(t, c, reply, inflight);
    } else if c.phase.CommitDebit? {
      CommitStepOk(t, c, reply, inflight);
    } else {
      BudgetStepOk(t, c, reply, inflight);
    }
  }

  lemma CreateKeeps(t: Table, r: Request)
    requires TableOk(t) && r.Named() && r.job !in t.jobs
    ensures Keeps(t, t.(jobs := t.jobs[r.job := r.NewJob()]))
  {
    PutJobKeeps(t, r.job, r.NewJob());
  }

  lemma CallerStable(t: Table, t': Table, c: Caller)
    requires Grows(t, t') && CallerOk(t, c)
    ensures CallerOk(t', c)
  {
    var b := c.req.Budget();
    if b in t.budgets { assert BudgetGrows(t.budgets[b], t'.budgets[b]); }
  }
}
