/** The shared table behind the AI service, the voice webhooks and the AI workers: its rows, and
    the atomic writes the three of them perform on it. Hash-derived identifiers are injective
    constructors, and rows are never deleted. */
module AiTable {
  import opened Base
  import opened Billing

  // ---------------------------------------------------------------- rows

  datatype CacheScope = InstanceScope | GlobalScope

  /** The cache-key fields. The requesting instance is among them only through an instance-scoped scopeKey. */
  datatype Columns = Columns(scope: CacheScope, scopeKey: string, aiModule: string, policy: string,
                             modelSet: string, inputsHash: string)

  /** A job id, which is also its result id: the digest of the cache-key fields. */
  datatype JobId = JobId(columns: Columns)

  /** The identity a row carries: who asked, and the cache-key fields. */
  datatype Identity = Identity(instance: string, columns: Columns)

  datatype JobStatus = Queued | Ok | Error

  datatype Job = Job(identity: Identity, inputsJson: string, status: JobStatus, attempts: nat,
                     requestId: string, expiresAt: int)

  datatype AiResult = AiResult(identity: Identity, body: string, createdAt: int, expiresAt: Option<int>)

  datatype BudgetKey = BudgetKey(instance: string, month: string)

  /** The used attribute may be absent from a budget row; it then reads as zero. */
  datatype Budget = Budget(included: int, used: Option<int>) {
    function Used(): int { if used.None? then 0 else used.value }
  }

  datatype Target = JobTarget(job: JobId) | CallTarget(callId: string)

  /** A ledger entry names the caller's request, or the job itself when a cache hit came without one. */
  datatype RequestTag = Given(id: string) | ByJob(job: JobId)

  /** The digest that identifies a ledger entry. */
  datatype EntryId = EntryId(budget: BudgetKey, request: RequestTag, usageModule: string, target: Target, debited: int)

  /** Ledger rows sort by creation time, then by entry id. */
  datatype LedgerKey = LedgerKey(createdAt: int, id: EntryId)

  datatype Entry = Entry(cached: bool, requested: int, listed: int, bps: int, debited: int, parts: Parts,
                         billing: BillingType)

  /** The unit that may be charged once: a job, or one call of one instance in one month. */
  datatype Charge = JobCharge(job: JobId) | CallCharge(budget: BudgetKey, callId: string)

  function ChargeOf(k: LedgerKey): Charge {
    match k.id.target
    case JobTarget(j) => JobCharge(j)
    case CallTarget(c) => CallCharge(k.id.budget, c)
  }

  datatype Table = Table(jobs: map<JobId, Job>, results: map<JobId, AiResult>, ledger: map<LedgerKey, Entry>,
                         dedup: set<Charge>, budgets: map<BudgetKey, Budget>)

  // ---------------------------------------------------------------- sums over the ledger

  function Debits(ledger: map<LedgerKey, Entry>, b: BudgetKey): map<LedgerKey, int> {
    map k | k in ledger && k.id.budget == b :: ledger[k].debited
  }

  function Overages(ledger: map<LedgerKey, Entry>, b: BudgetKey): map<LedgerKey, int> {
    map k | k in ledger && k.id.budget == b :: ledger[k].parts.overage
  }

  /** Credits debited to a budget according to the ledger. */
  ghost function DebitedTo(t: Table, b: BudgetKey): int { MapSum(Debits(t.ledger, b)) }

  /** Credits attributed to overage according to the ledger. */
  ghost function OverageOf(t: Table, b: BudgetKey): int { MapSum(Overages(t.ledger, b)) }

  // ---------------------------------------------------------------- well-formed tables

  ghost predicate LedgerOk(t: Table) {
    && (forall k <- t.ledger :: EntryOk(k, t.ledger[k]))
    && (forall k <- t.ledger | t.ledger[k].debited > 0 :: Accounted(t, k))
    && (forall k1 <- t.ledger, k2 <- t.ledger | SameCharge(t.ledger, k1, k2) :: k1 == k2)
  }

  predicate EntryOk(k: LedgerKey, e: Entry) {
    e.debited == k.id.debited >= 0 && e.parts.included + e.parts.overage == e.debited
    && (e.debited == 0 ==> e.parts.overage == 0)
  }

  /** A charged job exists, and a charged call is in the dedup table. */
  predicate Accounted(t: Table, k: LedgerKey) {
    match ChargeOf(k)
    case JobCharge(j) => j in t.jobs
    case CallCharge(_, _) => ChargeOf(k) in t.dedup
  }

  predicate SameCharge(ledger: map<LedgerKey, Entry>, k1: LedgerKey, k2: LedgerKey)
    requires k1 in ledger && k2 in ledger
  {
    ledger[k1].debited > 0 && ledger[k2].debited > 0 && ChargeOf(k1) == ChargeOf(k2)
  }

  /** A job row carries the fields its id was derived from, and a model set. */
  predicate Identified(j: JobId, row: Identity) { row.columns == j.columns && row.columns.modelSet != "" }

  /** A finished job has a result, and every result belongs to a stored job and carries its identity. */
  ghost predicate ResultsOk(t: Table) {
    && (forall j <- t.jobs | t.jobs[j].status == Ok :: j in t.results)
    && (forall j <- t.jobs :: Identified(j, t.jobs[j].identity))
    && (forall j <- t.results :: j in t.jobs && t.results[j].identity == t.jobs[j].identity)
  }

  ghost predicate TableOk(t: Table) { LedgerOk(t) && ResultsOk(t) }

  // ---------------------------------------------------------------- what every write keeps

  /** Later tables: rows stay, identities and allowances are fixed, usage only rises, charges stay. */
  ghost predicate Grows(t: Table, t': Table) {
    && (forall j <- t.jobs :: j in t'.jobs && t'.jobs[j].identity == t.jobs[j].identity)
    && t.results.Keys <= t'.results.Keys
    && (forall k <- t.ledger | t.ledger[k].debited > 0 :: k in t'.ledger && t'.ledger[k] == t.ledger[k])
    && t.dedup <= t'.dedup
    && t.budgets.Keys == t'.budgets.Keys
    && (forall b <- t.budgets :: BudgetGrows(t.budgets[b], t'.budgets[b]))
  }

  predicate BudgetGrows(x: Budget, y: Budget) {
    y.included == x.included && x.Used() <= y.Used() && (x.used.Some? ==> y.used.Some?)
  }

  /** Usage grew by what the ledger gained, and the ledger's overage did not fall and grew by no more than
      usage grew beyond the allowance. */
  ghost predicate Balanced(t: Table, t': Table) {
    && t.budgets.Keys == t'.budgets.Keys
    && forall b <- t.budgets :: BalancedAt(t, t', b)
  }

  ghost predicate BalancedAt(t: Table, t': Table, b: BudgetKey)
    requires b in t.budgets && b in t'.budgets
  {
    var x, y := t.budgets[b], t'.budgets[b];
    && y.Used() - x.Used() == DebitedTo(t', b) - DebitedTo(t, b)
    && 0 <= OverageOf(t', b) - OverageOf(t, b) <= Over(y.included, y.Used()) - Over(x.included, x.Used())
  }

  /** What one atomic write establishes. */
  ghost predicate Keeps(t: Table, t': Table) { TableOk(t') && Grows(t, t') && Balanced(t, t') }

  lemma KeepsReflexive(t: Table)
    requires TableOk(t)
    ensures Keeps(t, t)
  {
  }

  lemma KeepsTransitive(t0: Table, t1: Table, t2: Table)
    requires Keeps(t0, t1) && Keeps(t1, t2)
    ensures Keeps(t0, t2)
  {
    forall k <- t0.ledger | t0.ledger[k].debited > 0
      ensures k in t2.ledger && t2.ledger[k] == t0.ledger[k]
    {
      assert k in t1.ledger && t1.ledger[k] == t0.ledger[k];
    }
    forall b <- t0.budgets ensures BalancedAt(t0, t2, b) && BudgetGrows(t0.budgets[b], t2.budgets[b]) {
      assert BalancedAt(t0, t1, b) && BalancedAt(t1, t2, b);
      assert BudgetGrows(t0.budgets[b], t1.budgets[b]) && BudgetGrows(t1.budgets[b], t2.budgets[b]);
    }
    forall j <- t0.jobs ensures j in t2.jobs && t2.jobs[j].identity == t0.jobs[j].identity {
      assert j in t1.jobs;
    }
  }

  // ---------------------------------------------------------------- the writes

  function AddUsed(b: Budget, credits: int): Budget { b.(used := Some(b.Used() + credits)) }

  /** One budgeted transaction: an entry, a debit, and the row that makes it unrepeatable. */
  function Charged(t: Table, b: BudgetKey, k: LedgerKey, e: Entry): Table
    requires b in t.budgets
  {
    t.(ledger := t.ledger[k := e], budgets := t.budgets[b := AddUsed(t.budgets[b], e.debited)])
  }

  lemma DebitsInsert(ledger: map<LedgerKey, Entry>, b: BudgetKey, k: LedgerKey, e: Entry)
    requires k !in ledger
    ensures MapSum(Debits(ledger[k := e], b)) == MapSum(Debits(ledger, b)) + (if k.id.budget == b then e.debited else 0)
  {
    var m, m' := Debits(ledger, b), Debits(ledger[k := e], b);
    if k.id.budget == b {
      assert m' == m[k := e.debited];
      MapSumInsert(m, k, e.debited);
    } else {
      assert m' == m;
    }
  }

  lemma OveragesInsert(ledger: map<LedgerKey, Entry>, b: BudgetKey, k: LedgerKey, e: Entry)
    requires k !in ledger
    ensures MapSum(Overages(ledger[k := e], b))
         == MapSum(Overages(ledger, b)) + (if k.id.budget == b then e.parts.overage else 0)
  {
    var m, m' := Overages(ledger, b), Overages(ledger[k := e], b);
    if k.id.budget == b {
      assert m' == m[k := e.parts.overage];
      MapSumInsert(m, k, e.parts.overage);
    } else {
      assert m' == m;
    }
  }

  lemma StaleOverage(included: int, seen: int, used: int, delta: nat)
    requires seen <= used
    ensures 0 <= PartsForDebit(included, seen, delta).overage <= Over(included, used + delta) - Over(included, used)
  {
    PartsAreExact(included, seen, delta);
    PartsAreExact(included, used, delta);
    StaleSplit(included, seen, used, delta);
  }

  lemma ChargeBalancesAt(t: Table, b: BudgetKey, k: LedgerKey, e: Entry, x: BudgetKey)
    requires b in t.budgets && x in t.budgets && k !in t.ledger && k.id.budget == b && e.debited >= 0
    requires var u := t.budgets[b];
             0 <= e.parts.overage <= Over(u.included, u.Used() + e.debited) - Over(u.included, u.Used())
    ensures BalancedAt(t, Charged(t, b, k, e), x)
  {
    DebitsInsert(t.ledger, x, k, e);
    OveragesInsert(t.ledger, x, k, e);
  }

  /** Adding a charge under a fresh key, split from a row that was read with a smaller usage. */
  lemma ChargeBalances(t: Table, b: BudgetKey, k: LedgerKey, e: Entry, seen: int)
    requires b in t.budgets && k !in t.ledger && k.id.budget == b
    requires e.debited >= 0 && seen <= t.budgets[b].Used()
    requires e.parts == PartsForDebit(t.budgets[b].included, seen, e.debited)
    ensures Balanced(t, Charged(t, b, k, e))
  {
    StaleOverage(t.budgets[b].included, seen, t.budgets[b].Used(), e.debited);
    forall x <- t.budgets ensures BalancedAt(t, Charged(t, b, k, e), x) {
      ChargeBalancesAt(t, b, k, e, x);
    }
  }

  /** Jobs and dedup rows do not enter the accounts. */
  lemma BalancedFrom(t: Table, t1: Table, t': Table)
    requires t1.ledger == t.ledger && t1.budgets == t.budgets && Balanced(t1, t')
    ensures Balanced(t, t')
  {
    forall b <- t.budgets ensures BalancedAt(t, t', b) {
      assert BalancedAt(t1, t', b);
    }
  }

  /** A ledger row without a charge changes no total. */
  lemma FreeEntryBalances(t: Table, k: LedgerKey, e: Entry)
    requires k !in t.ledger && e.debited == 0 && e.parts.overage == 0
    ensures Balanced(t, t.(ledger := t.ledger[k := e]))
  {
    var t' := t.(ledger := t.ledger[k := e]);
    forall x <- t.budgets ensures BalancedAt(t, t', x) {
      DebitsInsert(t.ledger, x, k, e);
      OveragesInsert(t.ledger, x, k, e);
    }
  }

  // ---------------------------------------------------------------- writes that leave the accounts alone

  predicate SameAccounts(t: Table, t': Table) {
    t'.ledger == t.ledger && t'.budgets == t.budgets && t'.dedup == t.dedup
  }

  lemma SameAccountsKeepLedger(t: Table, t': Table)
    requires LedgerOk(t) && SameAccounts(t, t') && t.jobs.Keys <= t'.jobs.Keys
    ensures LedgerOk(t')
  {
    forall k <- t'.ledger | t'.ledger[k].debited > 0 ensures Accounted(t', k) { assert Accounted(t, k); }
    forall k1 <- t'.ledger, k2 <- t'.ledger | SameCharge(t'.ledger, k1, k2) ensures k1 == k2 {
      assert SameCharge(t.ledger, k1, k2);
    }
  }

  lemma SameAccountsBalance(t: Table, t': Table)
    requires SameAccounts(t, t')
    ensures Balanced(t, t')
  {
  }

  /** A job row written under its identity. */
  lemma PutJobResults(t: Table, j: JobId, job: Job)
    requires ResultsOk(t) && Identified(j, job.identity) && (job.status == Ok ==> j in t.results)
    requires j in t.jobs ==> t.jobs[j].identity == job.identity
    ensures ResultsOk(t.(jobs := t.jobs[j := job]))
  {
  }

  lemma PutJobGrows(t: Table, j: JobId, job: Job)
    requires j in t.jobs ==> t.jobs[j].identity == job.identity
    ensures Grows(t, t.(jobs := t.jobs[j := job]))
  {
  }

  lemma PutJobKeeps(t: Table, j: JobId, job: Job)
    requires TableOk(t) && Identified(j, job.identity) && (job.status == Ok ==> j in t.results)
    requires j in t.jobs ==> t.jobs[j].identity == job.identity
    ensures Keeps(t, t.(jobs := t.jobs[j := job]))
  {
    var t' := t.(jobs := t.jobs[j := job]);
    SameAccountsKeepLedger(t, t');
    SameAccountsBalance(t, t');
    PutJobResults(t, j, job);
    PutJobGrows(t, j, job);
  }

  lemma PutResultResults(t: Table, j: JobId, res: AiResult)
    requires ResultsOk(t) && j in t.jobs && t.jobs[j].identity == res.identity
    ensures ResultsOk(t.(results := t.results[j := res]))
  {
  }

  lemma PutResultGrows(t: Table, j: JobId, res: AiResult)
    ensures Grows(t, t.(results := t.results[j := res]))
  {
  }

  lemma PutResultKeeps(t: Table, j: JobId, res: AiResult)
    requires TableOk(t) && j in t.jobs && t.jobs[j].identity == res.identity
    ensures Keeps(t, t.(results := t.results[j := res]))
  {
    var t' := t.(results := t.results[j := res]);
    SameAccountsKeepLedger(t, t');
    SameAccountsBalance(t, t');
    PutResultResults(t, j, res);
    PutResultGrows(t, j, res);
  }
}
