/** Metering of one finished voice call (internal/controlplane/handlers_comm_webhooks.go): read the
    budget row, then commit dedup row, ledger entry and debit in one transaction. */
module VoiceMetering {
  import opened Base
  import opened Billing
  import opened AiTable
  import opened GetOrQueue

  const VOICE_MODULE: string := "comm.voice.call"

  /** A call to meter. It is billable when the webhook names whom to charge: a number for an inbound call; channel,
      provider, agent and instance for an outbound one. The inbound caller of the metering treats a call it cannot bill,
      or a budget it cannot look up, as nothing to do, the outbound one as an error. */
  datatype Call = Call(instance: string, month: string, callId: string, seconds: int, now: int, inbound: bool,
                       billable: bool) {
    function Budget(): BudgetKey { BudgetKey(instance, month) }

    /** Eight credits for every started minute. */
    function Credits(): int { if seconds <= 0 then 0 else (seconds + 59) / 60 * 8 }

    predicate NothingDue() { seconds <= 0 || callId == "" }

    function Scope(): Charge { CallCharge(Budget(), callId) }

    function Key(): LedgerKey {
      LedgerKey(now, EntryId(Budget(), Given(callId), VOICE_MODULE, CallTarget(callId), Credits()))
    }

    function NewEntry(snap: Snapshot): Entry {
      var parts := PartsForDebit(snap.included, snap.used, Credits());
      Entry(false, Credits(), Credits(), 10000, Credits(), parts, TypeFromParts(parts))
    }
  }

  /** A call costs eight credits for each of the fewest minutes that hold it. */
  lemma CallPrice(c: Call, minutes: int)
    ensures c.seconds > 0 && 60 * (minutes - 1) < c.seconds <= 60 * minutes ==> c.Credits() == 8 * minutes > 0
    ensures c.seconds <= 0 ==> c.Credits() == 0
  {
  }

  datatype HookPhase = Load | Commit(snap: Snapshot) | Answered(ok: bool)

  datatype Hook = Hook(call: Call, phase: HookPhase)

  /** The transaction creates the dedup row and the ledger row, and updates an existing budget row. */
  predicate MeterConditions(t: Table, c: Call) {
    c.Scope() !in t.dedup && c.Key() !in t.ledger && c.Budget() in t.budgets
  }

  function Metered(t: Table, c: Call, snap: Snapshot): Table
    requires MeterConditions(t, c)
  {
    Charged(t.(dedup := t.dedup + {c.Scope()}), c.Budget(), c.Key(), c.NewEntry(snap))
  }

  /** There is nobody to charge, or no budget was found. */
  predicate CannotBill(t: Table, c: Call, reply: Reply) { !c.billable || reply != Fine || c.Budget() !in t.budgets }

  /** One store call of a webhook. A failed condition is answered as success: the call was metered before. */
  function HookStep(t: Table, h: Hook, reply: Reply): (Table, Hook) {
    var c := h.call;
    match h.phase
    case Load =>
      if c.NothingDue() then (t, h.(phase := Answered(true)))
      else if CannotBill(t, c, reply) then (t, h.(phase := Answered(c.inbound)))
      else (t, h.(phase := Commit(Snapshot(t.budgets[c.Budget()].included, t.budgets[c.Budget()].Used()))))
    case Commit(snap) =>
      if reply == Fails then (t, h.(phase := Answered(false)))
      else if !MeterConditions(t, c) then (t, h.(phase := Answered(reply == Fine)))
      else (Metered(t, c, snap), h.(phase := Answered(reply == Fine)))
    case Answered(_) => (t, h)
  }

  ghost predicate HookOk(t: Table, h: Hook) {
    h.phase.Commit? ==> h.call.Credits() > 0 && SnapshotOk(t, h.call.Budget(), h.phase.snap)
  }

  lemma MeteredIsNewCharge(t: Table, c: Call)
    requires TableOk(t) && MeterConditions(t, c)
    ensures forall k <- t.ledger | t.ledger[k].debited > 0 :: ChargeOf(k) != ChargeOf(c.Key())
  {
    forall k <- t.ledger | t.ledger[k].debited > 0 ensures ChargeOf(k) != ChargeOf(c.Key()) {
      assert Accounted(t, k);
    }
  }

  lemma MeteredBalances(t: Table, c: Call, snap: Snapshot)
    requires c.Credits() > 0 && SnapshotOk(t, c.Budget(), snap) && MeterConditions(t, c)
    ensures Balanced(t, Metered(t, c, snap))
  {
    var t1 := t.(dedup := t.dedup + {c.Scope()});
    var t' := Metered(t, c, snap);
    ChargeBalances(t1, c.Budget(), c.Key(), c.NewEntry(snap), snap.used);
    BalancedFrom(t, t1, t');
  }

  lemma MeteredKeepsTable(t: Table, c: Call, snap: Snapshot)
    requires TableOk(t) && c.Credits() > 0 && MeterConditions(t, c)
    ensures TableOk(Metered(t, c, snap))
  {
    MeteredIsNewCharge(t, c);
    PartsAreExact(snap.included, snap.used, c.Credits());
    AddChargeKeepsLedger(t, Metered(t, c, snap), c.Key(), c.NewEntry(snap));
    assert ResultsOk(Metered(t, c, snap));
  }

  lemma MeteredGrows(t: Table, c: Call, snap: Snapshot)
    requires c.Credits() > 0 && MeterConditions(t, c)
    ensures Grows(t, Metered(t, c, snap))
  {
  }

  /** The transaction charges the call's price to its instance and month, once. */
  lemma MeteredCharges(t: Table, c: Call, snap: Snapshot)
    requires MeterConditions(t, c)
    ensures var t' := Metered(t, c, snap);
            && c.Key() in t'.ledger && ChargeOf(c.Key()) == c.Scope() && t'.ledger[c.Key()].debited == c.Credits()
            && t'.budgets[c.Budget()].Used() == t.budgets[c.Budget()].Used() + c.Credits()
            && t'.dedup == t.dedup + {c.Scope()}
  {
  }

  lemma MeteredKeeps(t: Table, c: Call, snap: Snapshot)
    requires TableOk(t) && c.Credits() > 0 && SnapshotOk(t, c.Budget(), snap) && MeterConditions(t, c)
    ensures Keeps(t, Metered(t, c, snap))
  {
    MeteredBalances(t, c, snap);
    MeteredKeepsTable(t, c, snap);
    MeteredGrows(t, c, snap);
  }

  lemma HookStepKeeps(t: Table, h: Hook, reply: Reply)
    requires TableOk(t) && HookOk(t, h)
    ensures Keeps(t, HookStep(t, h, reply).0)
  {
    if h.phase.Commit? && reply != Fails && MeterConditions(t, h.call) {
      MeteredKeeps(t, h.call, h.phase.snap);
    } else {
      KeepsReflexive(t);
    }
  }

  lemma HookStepOk(t: Table, h: Hook, reply: Reply)
    requires HookOk(t, h)
    ensures HookOk(HookStep(t, h, reply).0, HookStep(t, h, reply).1)
  {
  }

  lemma HookStable(t: Table, t': Table, h: Hook)
    requires Grows(t, t') && HookOk(t, h)
    ensures HookOk(t', h)
  {
    var b := h.call.Budget();
    if b in t.budgets { assert BudgetGrows(t.budgets[b], t'.budgets[b]); }
  }
}
