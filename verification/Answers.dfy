/** What the answers of GetOrQueue say to their callers (internal/ai/service.go). */
module Answers {
  import opened Base
  import opened AiTable
  import opened GetOrQueue

  /** A refusal for the budget shows a budget that explains it; a debit is reported exactly with a debit reason and for
      the priced amount; overage is reported only to callers that allow it; a free job costs nothing. */
  predicate AnswerMeans(r: Request, a: Response) {
    && a.remaining == a.included - a.used
    && (a.cached <==> a.status == OkStatus)
    && (a.debited != 0 <==> a.reason == Debited || a.reason == OverageDebited)
    && (a.debited != 0 ==> a.status == QueuedStatus && a.debited == r.Credits())
    && (a.reason == OverageDebited ==> r.allowOverage && a.overBudget)
    && (a.reason == QueuedNoCharge ==> r.Credits() == 0)
    && (a.reason == BudgetExceeded ==> !a.allowed && a.overBudget && a.remaining < r.Credits())
    && (a.reason == BudgetConflict ==> !a.allowed && a.remaining >= r.Credits())
  }

  predicate CallerMeans(c: Caller) {
    var r := c.req;
    match c.phase
    case CreateFree => r.Credits() == 0
    case ReadBudget => r.Credits() > 0
    case CommitDebit(snap) => r.Credits() > 0 && (r.allowOverage || snap.included - snap.used >= r.Credits())
    case ConflictResult => r.Credits() > 0
    case ConflictJob => r.Credits() > 0
    case ConflictBudget => r.Credits() > 0
    case Refresh(overage) => r.Credits() > 0 && (overage > 0 ==> r.allowOverage)
    case Done(answer) => AnswerMeans(r, answer)
    case _ => true
  }

  lemma EarlyMeans(t: Table, c: Caller, reply: Reply, inflight: int)
    requires CallerMeans(c) && Early(c.phase)
    ensures CallerMeans(CallerStep(t, c, reply, inflight).1)
  {
  }

  lemma LateMeans(t: Table, c: Caller, reply: Reply, inflight: int)
    requires CallerMeans(c) && Late(c.phase)
    ensures CallerMeans(CallerStep(t, c, reply, inflight).1)
  {
  }

  lemma MiddleMeans(t: Table, c: Caller, reply: Reply, inflight: int)
    requires CallerMeans(c) && !Early(c.phase) && !Late(c.phase)
    ensures CallerMeans(CallerStep(t, c, reply, inflight).1)
  {
  }

  lemma CallerStepMeans(t: Table, c: Caller, reply: Reply, inflight: int)
    requires CallerMeans(c)
    ensures CallerMeans(CallerStep(t, c, reply, inflight).1)
  {
    if Early(c.phase) {
      EarlyMeans(t, c, reply, inflight);
    } else if Late(c.phase) {
      LateMeans(t, c, reply, inflight);
    } else {
      MiddleMeans(t, c, reply, inflight);
    }
  }
}
