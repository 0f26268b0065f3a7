/** What the answer to a voice webhook rests on, in every interleaving. */
module VoiceAnswers {
  import opened Base
  import opened Billing
  import opened AiTable
  import opened GetOrQueue
  import opened VoiceMetering
  import opened WorkerSteps
  import opened AiSystem

  /** The ledger holds a charge for this call. */
  ghost predicate HasCharge(ledger: map<LedgerKey, Entry>, c: Charge) {
    exists k :: k in ledger && ledger[k].debited > 0 && ChargeOf(k) == c
  }

  /** Every dedup row stands for a charge in the ledger. */
  ghost predicate DedupOk(t: Table) { forall c <- t.dedup :: HasCharge(t.ledger, c) }

  lemma ChargeStays(t: Table, t': Table, c: Charge)
    requires Grows(t, t') && HasCharge(t.ledger, c)
    ensures HasCharge(t'.ledger, c)
  {
    var k :| k in t.ledger && t.ledger[k].debited > 0 && ChargeOf(k) == c;
    assert k in t'.ledger && t'.ledger[k].debited > 0;
  }

  lemma DedupStays(t: Table, t': Table)
    requires Grows(t, t') && DedupOk(t) && t'.dedup == t.dedup
    ensures DedupOk(t')
  {
    forall c <- t'.dedup ensures HasCharge(t'.ledger, c) {
      ChargeStays(t, t', c);
    }
  }

  lemma MeteredDedup(t: Table, c: Call, snap: Snapshot)
    requires DedupOk(t) && c.Credits() > 0 && MeterConditions(t, c)
    ensures DedupOk(Metered(t, c, snap)) && HasCharge(Metered(t, c, snap).ledger, c.Scope())
  {
    var t' := Metered(t, c, snap);
    MeteredGrows(t, c, snap);
    MeteredCharges(t, c, snap);
    assert HasCharge(t'.ledger, c.Scope());
    forall x <- t'.dedup ensures HasCharge(t'.ledger, x) {
      if x in t.dedup {
        ChargeStays(t, t', x);
      }
    }
  }

  /** A transaction refused for its conditions meets a charge that is already there. */
  lemma RefusedIsCharged(t: Table, h: Hook)
    requires TableOk(t) && DedupOk(t) && HookOk(t, h) && h.phase.Commit? && !MeterConditions(t, h.call)
    ensures HasCharge(t.ledger, h.call.Scope())
  {
    var c := h.call;
    if c.Scope() !in t.dedup {
      assert c.Key() in t.ledger;
      assert EntryOk(c.Key(), t.ledger[c.Key()]);
    }
  }

  /** What an answer rests on. Success: nothing was due, the call is charged, or the call is inbound and could not be
      billed. An error: an outbound call that could not be billed, or a transaction without a good reply. */
  ghost predicate Grounded(t: Table, h: Hook, unread: bool, unanswered: bool) {
    h.phase.Answered? ==>
      if h.phase.ok then h.call.NothingDue() || HasCharge(t.ledger, h.call.Scope()) || (h.call.inbound && unread)
      else (!h.call.inbound && unread) || unanswered
  }

  predicate LookupFails(t: Table, h: Hook, reply: Reply) { h.phase.Load? && CannotBill(t, h.call, reply) }

  lemma HookStepGrounded(t: Table, h: Hook, reply: Reply)
    requires TableOk(t) && DedupOk(t) && HookOk(t, h) && !h.phase.Answered?
    ensures var (t', h') := HookStep(t, h, reply);
            DedupOk(t') && Grounded(t', h', LookupFails(t, h, reply), h.phase.Commit? && reply != Fine)
  {
    if h.phase.Commit? {
      if MeterConditions(t, h.call) {
        MeteredDedup(t, h.call, h.phase.snap);
      } else {
        RefusedIsCharged(t, h);
      }
    }
  }

  // ---------------------------------------------------------------- over runs

  /** Event k reached webhook n. */
  ghost predicate HookAt(t: Table, es: seq<Event>, n: nat, k: nat) {
    k < |es| && es[k].HookEvent? && es[k].n == n && n in Run(Start(t), es[..k]).hooks
  }

  ghost predicate LookupFailedAt(t: Table, es: seq<Event>, n: nat, k: nat) {
    HookAt(t, es, n, k) && var s := Run(Start(t), es[..k]); LookupFails(s.table, s.hooks[n], es[k].reply)
  }

  ghost predicate UnansweredAt(t: Table, es: seq<Event>, n: nat, k: nat) {
    HookAt(t, es, n, k) && Run(Start(t), es[..k]).hooks[n].phase.Commit? && es[k].reply != Fine
  }

  ghost predicate LookupFailed(t: Table, es: seq<Event>, n: nat) { exists k: nat :: LookupFailedAt(t, es, n, k) }

  ghost predicate Unanswered(t: Table, es: seq<Event>, n: nat) { exists k: nat :: UnansweredAt(t, es, n, k) }

  lemma LookupFailedStays(t: Table, es: seq<Event>, e: Event, n: nat)
    ensures LookupFailed(t, es, n) ==> LookupFailed(t, es + [e], n)
  {
    if LookupFailed(t, es, n) {
      var k: nat :| LookupFailedAt(t, es, n, k);
      assert (es + [e])[..k] == es[..k];
      assert LookupFailedAt(t, es + [e], n, k);
    }
  }

  lemma UnansweredStays(t: Table, es: seq<Event>, e: Event, n: nat)
    ensures Unanswered(t, es, n) ==> Unanswered(t, es + [e], n)
  {
    if Unanswered(t, es, n) {
      var k: nat :| UnansweredAt(t, es, n, k);
      assert (es + [e])[..k] == es[..k];
      assert UnansweredAt(t, es + [e], n, k);
    }
  }

  lemma NowIsEvidence(t: Table, es: seq<Event>, e: Event)
    requires e.HookEvent? && e.n in Run(Start(t), es).hooks
    ensures var s := Run(Start(t), es);
            && (LookupFails(s.table, s.hooks[e.n], e.reply) ==> LookupFailed(t, es + [e], e.n))
            && (s.hooks[e.n].phase.Commit? && e.reply != Fine ==> Unanswered(t, es + [e], e.n))
  {
    var s, all, k := Run(Start(t), es), es + [e], |es|;
    assert all[..k] == es;
    if LookupFails(s.table, s.hooks[e.n], e.reply) {
      assert LookupFailedAt(t, all, e.n, k);
    }
    if s.hooks[e.n].phase.Commit? && e.reply != Fine {
      assert UnansweredAt(t, all, e.n, k);
    }
  }

  lemma MoreEvidence(t: Table, t': Table, h: Hook, unread: bool, unanswered: bool, unread': bool, unanswered': bool)
    requires Grounded(t, h, unread, unanswered) && (t' == t || Grows(t, t')) && (unread ==> unread')
        && (unanswered ==> unanswered')
    ensures Grounded(t', h, unread', unanswered')
  {
    if t' != t && HasCharge(t.ledger, h.call.Scope()) {
      ChargeStays(t, t', h.call.Scope());
    }
  }

  lemma CallerLeavesDedup(t: Table, c: Caller, reply: Reply, inflight: int)
    ensures CallerStep(t, c, reply, inflight).0.dedup == t.dedup
  {
    CallerWrites(t, c, reply, inflight);
  }

  lemma WorkerLeavesDedup(t: Table, w: Worker, reply: Reply, ran: Outcome)
    ensures WorkerStep(t, w, reply, ran).0.dedup == t.dedup
  {
  }

  /** Only a webhook writes dedup rows. */
  lemma DedupUntouched(s: System, e: Event)
    requires !e.HookEvent?
    ensures Step(s, e).table.dedup == s.table.dedup
  {
    if e.CallerEvent? && e.n in s.callers {
      CallerLeavesDedup(s.table, s.callers[e.n], e.reply, e.inflight);
    } else if e.WorkerEvent? && e.n in s.workers {
      WorkerLeavesDedup(s.table, s.workers[e.n], e.reply, e.ran);
    }
  }

  lemma DedupStep(s: System, e: Event)
    requires Inv(s) && DedupOk(s.table)
    ensures DedupOk(Step(s, e).table)
  {
    StepKeeps(s, e);
    if e.HookEvent? {
      if e.n in s.hooks && !s.hooks[e.n].phase.Answered? {
        HookStepGrounded(s.table, s.hooks[e.n], e.reply);
      }
    } else {
      DedupUntouched(s, e);
      DedupStays(s.table, Step(s, e).table);
    }
  }

  lemma {:induction false} DedupRun(t: Table, es: seq<Event>)
    requires TableOk(t) && DedupOk(t)
    ensures DedupOk(Run(Start(t), es).table)
    decreases |es|
  {
    if |es| > 0 {
      DedupRun(t, es[..|es| - 1]);
      RunKeeps(Start(t), es[..|es| - 1]);
      DedupStep(Run(Start(t), es[..|es| - 1]), es[|es| - 1]);
    }
  }

  ghost predicate HookGrounded(t: Table, es: seq<Event>, n: nat) {
    n in Run(Start(t), es).hooks ==> GroundedBy(t, es, n, Run(Start(t), es).table, Run(Start(t), es).hooks[n])
  }

  ghost predicate GroundedBy(t: Table, es: seq<Event>, n: nat, now: Table, h: Hook) {
    Grounded(now, h, LookupFailed(t, es, n), Unanswered(t, es, n))
  }

  lemma NextTable(t: Table, es: seq<Event>, e: Event)
    requires TableOk(t)
    ensures Run(Start(t), es + [e]) == Step(Run(Start(t), es), e)
    ensures Grows(Run(Start(t), es).table, Step(Run(Start(t), es), e).table)
  {
    assert (es + [e])[..|es|] == es;
    RunKeeps(Start(t), es);
    StepKeeps(Run(Start(t), es), e);
  }

  lemma HookStepInRun(t: Table, es: seq<Event>, e: Event)
    requires TableOk(t) && DedupOk(t) && e.HookEvent?
    ensures var s := Run(Start(t), es);
            e.n in s.hooks && !s.hooks[e.n].phase.Answered? ==>
              var (t', h') := HookStep(s.table, s.hooks[e.n], e.reply);
              Grounded(t', h', LookupFails(s.table, s.hooks[e.n], e.reply),
                       s.hooks[e.n].phase.Commit? && e.reply != Fine)
  {
    var s := Run(Start(t), es);
    RunKeeps(Start(t), es);
    DedupRun(t, es);
    if e.n in s.hooks && !s.hooks[e.n].phase.Answered? {
      HookStepGrounded(s.table, s.hooks[e.n], e.reply);
    }
  }

  lemma OwnEvent(t: Table, es: seq<Event>, e: Event, h: Hook)
    requires TableOk(t) && DedupOk(t) && e.HookEvent? && !h.phase.Answered?
    ensures var s := Run(Start(t), es);
            e.n in s.hooks && s.hooks[e.n] == h ==>
              GroundedBy(t, es + [e], e.n, HookStep(s.table, h, e.reply).0, HookStep(s.table, h, e.reply).1)
  {
    var s := Run(Start(t), es);
    if e.n in s.hooks && s.hooks[e.n] == h {
      HookStepInRun(t, es, e);
      NowIsEvidence(t, es, e);
      var (t', h') := HookStep(s.table, h, e.reply);
      MoreEvidence(t', t', h', LookupFails(s.table, h, e.reply), h.phase.Commit? && e.reply != Fine,
                   LookupFailed(t, es + [e], e.n), Unanswered(t, es + [e], e.n));
    }
  }

  lemma OtherEvent(t: Table, es: seq<Event>, e: Event, n: nat, now: Table, now': Table, h: Hook)
    requires GroundedBy(t, es, n, now, h) && Grows(now, now')
    ensures GroundedBy(t, es + [e], n, now', h)
  {
    LookupFailedStays(t, es, e, n);
    UnansweredStays(t, es, e, n);
    MoreEvidence(now, now', h, LookupFailed(t, es, n), Unanswered(t, es, n), LookupFailed(t, es + [e], n),
      Unanswered(t, es + [e], n));
  }

  /** How an event reaches a webhook. */
  lemma HookAfter(s: System, e: Event, n: nat)
    requires n in Step(s, e).hooks && !(e.HookEvent? && e.n == n && n in s.hooks && !s.hooks[n].phase.Answered?)
    ensures (n in s.hooks && Step(s, e).hooks[n] == s.hooks[n]) || (n !in s.hooks && Step(s, e).hooks[n].phase.Load?)
  {
  }

  lemma {:induction false} RunGrounded(t: Table, es: seq<Event>, n: nat)
    requires TableOk(t) && DedupOk(t)
    ensures HookGrounded(t, es, n)
    decreases |es|
  {
    if |es| > 0 && n in Run(Start(t), es).hooks {
      var init, e := es[..|es| - 1], es[|es| - 1];
      var s := Run(Start(t), init);
      assert es == init + [e];
      NextTable(t, init, e);
      if e.HookEvent? && e.n == n && n in s.hooks && !s.hooks[n].phase.Answered? {
        OwnEvent(t, init, e, s.hooks[n]);
      } else {
        HookAfter(s, e, n);
        if n in s.hooks {
          RunGrounded(t, init, n);
          OtherEvent(t, init, e, n, s.table, Step(s, e).table, s.hooks[n]);
        }
      }
    }
  }

  /** In every run a webhook that is answered with success had nothing to charge, or its call is charged in the ledger,
      or it is inbound and could not be billed; and one answered with an error is outbound and could not be billed, or
      got no good reply to its transaction. */
  lemma WebhookAnswers(t: Table, es: seq<Event>, n: nat)
    requires TableOk(t) && DedupOk(t)
    ensures n in Run(Start(t), es).hooks && Run(Start(t), es).hooks[n].phase.Answered? ==>
            var now, h := Run(Start(t), es).table, Run(Start(t), es).hooks[n];
            if h.phase.ok
            then h.call.NothingDue() || HasCharge(now.ledger, h.call.Scope())
              || (h.call.inbound && LookupFailed(t, es, n))
            else (!h.call.inbound && LookupFailed(t, es, n)) || Unanswered(t, es, n)
  {
    RunGrounded(t, es, n);
  }

  // ---------------------------------------------------------------- success without a charge

  /** A delivery that is not interrupted: the lookup and the transaction, with these replies. */
  function Delivery(t: Table, c: Call, lookup: Reply, commit: Reply): (Table, Hook) {
    var (t1, h1) := HookStep(t, Hook(c, Load), lookup);
    HookStep(t1, h1, commit)
  }

  lemma DeliveryIsAnswered(t: Table, c: Call, lookup: Reply, commit: Reply)
    ensures Delivery(t, c, lookup, commit).1.phase.Answered? && Delivery(t, c, lookup, commit).1.call == c
    ensures CannotBill(t, c, lookup) && !c.NothingDue() ==>
              Delivery(t, c, lookup, commit).0 == t && Delivery(t, c, lookup, commit).1.phase.ok == c.inbound
  {
  }

  /** The lookup changes no row. */
  lemma LookupReads(t: Table, c: Call, lookup: Reply)
    ensures HookStep(t, Hook(c, Load), lookup).0 == t && HookStep(t, Hook(c, Load), lookup).1.call == c
  {
  }

  lemma BilledDelivery(t: Table, c: Call, lookup: Reply, commit: Reply)
    requires TableOk(t) && DedupOk(t) && !c.NothingDue() && !CannotBill(t, c, lookup)
    ensures Delivery(t, c, lookup, commit).1.phase.ok ==> HasCharge(Delivery(t, c, lookup, commit).0.ledger, c.Scope())
  {
    var h1 := HookStep(t, Hook(c, Load), lookup).1;
    LookupReads(t, c, lookup);
    HookStepOk(t, Hook(c, Load), lookup);
    HookStepGrounded(t, h1, commit);
  }

  /** Exactly when success means a charge, for a call with something due: unless the call is inbound, cannot be billed,
      and has not been charged before. */
  lemma SuccessIsChargedIff(t: Table, c: Call, lookup: Reply, commit: Reply)
    requires TableOk(t) && DedupOk(t) && !c.NothingDue()
    ensures var (t', h') := Delivery(t, c, lookup, commit);
            h'.phase.Answered?
            && ((h'.phase.ok ==> HasCharge(t'.ledger, c.Scope()))
                <==> !(c.inbound && CannotBill(t, c, lookup) && !HasCharge(t.ledger, c.Scope())))
  {
    DeliveryIsAnswered(t, c, lookup, commit);
    if !CannotBill(t, c, lookup) {
      BilledDelivery(t, c, lookup, commit);
    }
  }

  /** One charge and nothing else: dedup row, ledger entry and usage, with the overage by which the usage at commit
      grows beyond the allowance. */
  predicate OneCharge(t: Table, t': Table, c: Call) {
    var b, k := c.Budget(), c.Key();
    && t'.jobs == t.jobs && t'.results == t.results && t'.dedup == t.dedup + {c.Scope()}
    && k in t'.ledger && t'.ledger - {k} == t.ledger
    && ChargeOf(k) == CallCharge(BudgetKey(c.instance, c.month), c.callId)
    && b in t.budgets && b in t'.budgets && t'.budgets - {b} == t.budgets - {b}
    && var (x, y, e) := (t.budgets[b], t'.budgets[b], t'.ledger[k]);
       && e.debited == e.requested == e.listed == c.Credits() && !e.cached
       && y.included == x.included && y.Used() == x.Used() + c.Credits()
       && e.parts.overage == Over(x.included, y.Used()) - Over(x.included, x.Used())
       && e.parts.included == c.Credits() - e.parts.overage
  }

  /** A call that can be billed is charged by its first delivery, exactly once, and a later one finds it charged. */
  lemma FirstDeliveryCharges(t: Table, c: Call)
    requires !c.NothingDue() && !CannotBill(t, c, Fine)
    ensures var (t', h') := Delivery(t, c, Fine, Fine);
            && h'.phase == Answered(true)
            && if c.Scope() in t.dedup then t' == t else c.Key() !in t.ledger ==> OneCharge(t, t', c)
  {
    var b := t.budgets[c.Budget()];
    PartsAreExact(b.included, b.Used(), c.Credits());
  }

  const EMPTY: Table := Table(map[], map[], map[], {}, map[])

  /** Such a run: a due inbound call on a table without budgets is answered with success, and nothing is charged. */
  lemma InboundSuccessWithoutCharge(c: Call, n: nat)
    requires c.inbound && !c.NothingDue()
    ensures var s := Run(Start(EMPTY), [NewHook(n, c), HookEvent(n, Fine)]);
            && n in s.hooks && s.hooks[n] == Hook(c, Answered(true))
            && s.table == EMPTY && !HasCharge(s.table.ledger, c.Scope())
  {
    var es := [NewHook(n, c), HookEvent(n, Fine)];
    assert es[..1] == [es[0]] && es[..1][..0] == [];
    assert Run(Start(EMPTY), es[..1]) == Start(EMPTY).(hooks := map[n := Hook(c, Load)]);
  }

  // ---------------------------------------------------------------- what a failed lookup leads to

  /** The hook was answered without being billed. */
  predicate AnsweredUnbilled(h: Hook) { h.phase.Answered? && (!h.call.NothingDue() ==> h.phase.ok == h.call.inbound) }

  lemma FailedLookupAnswers(s: System, e: Event)
    requires e.HookEvent? && e.n in s.hooks && LookupFails(s.table, s.hooks[e.n], e.reply)
    ensures e.n in Step(s, e).hooks && AnsweredUnbilled(Step(s, e).hooks[e.n])
  {
  }

  lemma AnsweredUnbilledStays(s: System, e: Event, n: nat)
    requires n in s.hooks && AnsweredUnbilled(s.hooks[n])
    ensures n in Step(s, e).hooks && Step(s, e).hooks[n] == s.hooks[n]
  {
  }

  lemma {:induction false} AnsweredUnbilledFrom(t: Table, es: seq<Event>, n: nat, k: nat, m: nat)
    requires k < m <= |es|
    ensures LookupFailedAt(t, es, n, k) ==>
              n in Run(Start(t), es[..m]).hooks && AnsweredUnbilled(Run(Start(t), es[..m]).hooks[n])
    decreases m
  {
    if LookupFailedAt(t, es, n, k) {
      assert es[..m][..m - 1] == es[..m - 1];
      if m == k + 1 {
        FailedLookupAnswers(Run(Start(t), es[..k]), es[k]);
      } else {
        AnsweredUnbilledFrom(t, es, n, k, m - 1);
        AnsweredUnbilledStays(Run(Start(t), es[..m - 1]), es[m - 1], n);
      }
    }
  }

  /** In every run a webhook that could not be billed is answered, and if something was due, with success exactly for an
      inbound call. */
  lemma UnbilledIsAnswered(t: Table, es: seq<Event>, n: nat)
    ensures LookupFailed(t, es, n) ==> n in Run(Start(t), es).hooks && AnsweredUnbilled(Run(Start(t), es).hooks[n])
  {
    if LookupFailed(t, es, n) {
      var k: nat :| LookupFailedAt(t, es, n, k);
      assert es[..|es|] == es;
      AnsweredUnbilledFrom(t, es, n, k, |es|);
    }
  }

  /** In every run, for a call with something due: success stands without a charge if and only if the call is inbound,
      could not be billed, and no other webhook has charged it. */
  lemma UnchargedSuccessIff(t: Table, es: seq<Event>, n: nat)
    requires TableOk(t) && DedupOk(t)
    ensures n in Run(Start(t), es).hooks && !Run(Start(t), es).hooks[n].call.NothingDue() ==>
            var now, h := Run(Start(t), es).table, Run(Start(t), es).hooks[n];
            (h.phase == Answered(true) && !HasCharge(now.ledger, h.call.Scope()))
            <==> (h.call.inbound && LookupFailed(t, es, n) && !HasCharge(now.ledger, h.call.Scope()))
  {
    WebhookAnswers(t, es, n);
    UnbilledIsAnswered(t, es, n);
  }
}
