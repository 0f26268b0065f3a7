/** What the calls a dispatcher has made say about the answer it gives. The history is recorded where the calls are
    carried out, so an answer is judged by what was done and not by what the dispatcher believes. */
module GenesisTrail {
  import opened Base
  import opened GenesisStore
  import opened GenesisActors

  /** Reads return what is stored; a write is accepted exactly when it reaches the store, its guard holds there, and the
      reply comes back. */
  predicate DidOk(x: Did) {
    && (x.result.Got? ==> x.call.LoadJob? && x.reply == Fine && x.result.session == x.rows.session)
    && (x.call.RecordRef? || x.call.Fail? ==>
          (x.result.Accepted? <==> x.reply == Fine && !x.result.Invalid? && CallGuard(x.rows, x.call)))
    && (x.result.Invalid? ==> x.call.RecordRef?)
    && (x.result.Found? ==> x.call.LoadConversation? && x.rows.conversation == Some(x.result.conversation))
    && (x.call.LoadConversation? && x.result.NotFound? ==> x.reply == Fine && x.rows.conversation.None?)
  }

  /** The session the dispatcher loaded. */
  predicate Saw(h: seq<Did>, copy: Session) { |h| > 0 && h[0].call.LoadJob? && h[0].result == Got(copy) }

  /** Validation failed, or there was no conversation. */
  predicate Invalidates(x: Did) { x.result == Verdict(false) || (x.call.LoadConversation? && x.result.NotFound?) }

  predicate Invalidated(h: seq<Did>) { exists i :: 0 <= i < |h| && Invalidates(h[i]) }

  /** A failed lifecycle write that may not be retried: it can never succeed, or no delivery remains. */
  predicate Fatal(receive: int, x: Did) {
    x.call.RecordRef? && !x.result.Accepted? && (x.result.Invalid? || receive >= MAX_RECEIVE_COUNT)
  }

  predicate Doomed(receive: int, h: seq<Did>) { exists i :: 0 <= i < |h| && Fatal(receive, h[i]) }

  /** The reason to fail the session: validation, a missing conversation or dispatcher, no execution, a fatal lifecycle
      failure, or a refused invocation. */
  predicate Cause(d: Dispatcher, h: seq<Did>) {
    && |h| > 0
    && var last := h[|h| - 1];
       || Invalidated(h)
       || !d.wired
       || ((last.call.EnsureRun? || last.call.StartRun? || last.call.Invoke?) && last.result.Unavailable?)
       || Fatal(d.receive, last)
  }

  /** The run whose ref was recorded: the last call recorded the ref of the execution the call before it returned. */
  predicate RecordedRun(h: seq<Did>, ref: string) {
    && |h| > 1
    && h[|h| - 1].call.RecordRef? && h[|h| - 1].call.ref == ref && h[|h| - 1].result.Accepted?
    && h[|h| - 2].result == Running(ref)
  }

  /** Handed over: the ref is recorded and, with a controller, the turn was then invoked. */
  predicate HandedOver(d: Dispatcher, ref: string) {
    var h := d.history;
    if d.controller then |h| > 0 && h[|h| - 1].call.Invoke? && h[|h| - 1].result.Invoked?
      && RecordedRun(h[..|h| - 1], ref)
    else RecordedRun(h, ref)
  }

  /** The job no longer applies: it is not there, or it is valid and the session loaded for it has left this turn. */
  predicate Obsolete(d: Dispatcher) {
    var h := d.history;
    && |h| > 0 && h[0].call.LoadJob?
    && (|| (|h| == 1 && h[0].result.NotFound?)
        || (&& h[0].result.Got? && (h[0].result.session.status != InProgress || h[0].result.session.turn != d.turn)
            && h[|h| - 1].call.LoadConversation? && !Invalidated(h)))
  }

  /** The session was failed for a cause, by the last call. */
  predicate FailedFor(d: Dispatcher, accepted: bool) {
    var h := d.history;
    |h| > 0 && h[|h| - 1].call.Fail? && h[|h| - 1].result.Accepted? == accepted && Cause(d, h[..|h| - 1])
  }

  predicate ReadFailed(h: seq<Did>) {
    && |h| > 0 && h[|h| - 1].result.Unavailable?
    && (h[|h| - 1].call.LoadJob? || h[|h| - 1].call.CheckJob? || h[|h| - 1].call.LoadConversation?)
  }

  /** The lifecycle write did not come back as accepted, and may succeed on a later delivery. */
  predicate Retriable(d: Dispatcher) {
    && |d.history| > 0 && d.receive < MAX_RECEIVE_COUNT
    && var last := d.history[|d.history| - 1];
       last.call.RecordRef? && !last.result.Accepted? && !last.result.Invalid?
  }

  ghost predicate Justified(d: Dispatcher, ok: bool) {
    if ok then Obsolete(d) || FailedFor(d, true) || exists ref :: HandedOver(d, ref)
    else (d.history == [] && d.receive < 1) || ReadFailed(d.history) || Retriable(d) || FailedFor(d, false)
  }

  /** A valid job of a session in progress on this turn. */
  predicate Ready(d: Dispatcher, copy: Session, conv: Conversation) {
    LookedUp(d.history, Some(conv)) && Saw(d.history, copy) && !Invalidated(d.history) && copy.status == InProgress
      && copy.turn == d.turn
  }

  ghost predicate PhaseFits(d: Dispatcher) {
    match d.phase
    case AtLoadJob => d.history == []
    case AtCheckJob(copy) => |d.history| == 1 && Saw(d.history, copy) && !Invalidated(d.history)
    case AtLoadConversation(copy, valid) =>
      |d.history| == 2 && Saw(d.history, copy) && Invalidated(d.history) == !valid
    case AtEnsure(copy, conv, known) => Ready(d, copy, conv) && copy.lifecycleRef == Some(known)
    case AtStart(copy, conv) =>
      Ready(d, copy, conv)
        && (!d.controller || copy.lifecycleRef.None? || d.history[|d.history| - 1].result.RelaunchRequired?)
    case AtRecordRef(copy, conv, ref) =>
      Ready(d, copy, conv) && d.history[|d.history| - 1].result == Running(ref)
    case AtInvoke(copy, conv) =>
      && LookedUp(d.history, Some(conv))
      && d.controller && copy.status == InProgress && copy.turn == d.turn && copy.lifecycleRef.Some?
      && RecordedRun(d.history, copy.lifecycleRef.value) && !Invalidated(d.history)
    case AtFail(copy, conv) =>
      && Cause(d, d.history) && LookedUp(d.history, conv)
      && if Invalidated(d.history) then Saw(d.history, copy) else copy.status == InProgress && copy.turn == d.turn
    case Answered(ok) => Justified(d, ok)
  }

  /** A fatal lifecycle failure leaves only the terminalizing write, and the answer to it. */
  predicate Terminalizes(d: Dispatcher) {
    Doomed(d.receive, d.history) ==>
      d.phase.AtFail?
        || (d.phase.Answered? && d.history[|d.history| - 1].call.Fail? && !Fatal(d.receive, d.history[|d.history| - 1]))
  }

  /** The conversation was looked up by the third call, and this is what it found. */
  predicate LookedUp(h: seq<Did>, conversation: Option<Conversation>) {
    && |h| > 2 && h[2].call.LoadConversation?
    && match h[2].result
       case Found(conv) => conversation == Some(conv)
       case NotFound => conversation == None
       case _ => false
  }

  /** Lifecycle refs are recorded for the dispatcher's own turn, only the ref on record is revalidated, and with a ref
      on record a new run is started only after the controller asked for a relaunch. A failing write carries the
      conversation that was found, and is for the session alone exactly when none was. */
  predicate CallFits(d: Dispatcher, i: nat)
    requires i < |d.history|
  {
    var h := d.history;
    && (h[i].call.RecordRef? ==> h[i].call.copy.turn == d.turn)
    && (h[i].call.EnsureRun? ==> h[0].result.Got? && h[0].result.session.lifecycleRef == Some(h[i].call.ref))
    && (h[i].call.Fail? ==> LookedUp(h, h[i].call.conversation))
    && (h[i].call.StartRun? ==>
          i > 0 && h[0].result.Got?
            && (!d.controller || h[0].result.session.lifecycleRef.None? || h[i - 1].result.RelaunchRequired?))
  }

  ghost predicate Trail(d: Dispatcher) {
    && (forall i :: 0 <= i < |d.history| ==> DidOk(d.history[i]))
    && (forall i :: 0 <= i < |d.history| ==> CallFits(d, i))
    && PhaseFits(d)
    && Terminalizes(d)
  }

  // ---------------------------------------------------------------- every call extends the trail

  lemma PerformIsOk(w: World, n: nat, call: Call, env: Env)
    ensures DidOk(Did(call, Perform(w, n, call, env).1, env.reply, w.rows))
  {
  }

  lemma InvalidatedNext(h: seq<Did>, x: Did)
    ensures Invalidated(h + [x]) <==> Invalidated(h) || Invalidates(x)
  {
    assert (h + [x])[|h|] == x && forall i :: 0 <= i < |h| ==> (h + [x])[i] == h[i];
  }

  lemma DoomedNext(receive: int, h: seq<Did>, x: Did)
    ensures Doomed(receive, h + [x]) <==> Doomed(receive, h) || Fatal(receive, x)
  {
    assert (h + [x])[|h|] == x && forall i :: 0 <= i < |h| ==> (h + [x])[i] == h[i];
  }

  lemma LoadFits(w: World, n: nat, d: Dispatcher, env: Env)
    requires PhaseFits(d) && d.phase.AtLoadJob?
    ensures PhaseFits(DispatchStep(w, n, d, env).1)
  {
    var d' := DispatchStep(w, n, d, env).1;
    assert d'.history[..|d'.history| - 1] == d.history;
    InvalidatedNext(d.history, d'.history[|d.history|]);
  }

  lemma CheckFits(w: World, n: nat, d: Dispatcher, env: Env)
    requires PhaseFits(d) && d.phase.AtCheckJob?
    ensures PhaseFits(DispatchStep(w, n, d, env).1)
  {
    var d' := DispatchStep(w, n, d, env).1;
    assert d'.history[..|d'.history| - 1] == d.history;
    InvalidatedNext(d.history, d'.history[|d.history|]);
  }

  lemma ConversationFits(w: World, n: nat, d: Dispatcher, env: Env)
    requires Trail(d) && d.phase.AtLoadConversation?
    ensures PhaseFits(DispatchStep(w, n, d, env).1)
  {
    var d' := DispatchStep(w, n, d, env).1;
    assert d'.history[..|d'.history| - 1] == d.history;
    InvalidatedNext(d.history, d'.history[|d.history|]);
  }

  lemma RunFits(w: World, n: nat, d: Dispatcher, env: Env)
    requires Trail(d) && (d.phase.AtEnsure? || d.phase.AtStart?)
    ensures PhaseFits(DispatchStep(w, n, d, env).1)
  {
    var d' := DispatchStep(w, n, d, env).1;
    assert d'.history[..|d'.history| - 1] == d.history;
    InvalidatedNext(d.history, d'.history[|d.history|]);
  }

  lemma RecordFits(w: World, n: nat, d: Dispatcher, env: Env)
    requires Trail(d) && d.phase.AtRecordRef?
    ensures PhaseFits(DispatchStep(w, n, d, env).1)
  {
    var d' := DispatchStep(w, n, d, env).1;
    assert d'.history[..|d'.history| - 1] == d.history;
    InvalidatedNext(d.history, d'.history[|d.history|]);
    if d'.phase == Answered(true) {
      assert HandedOver(d', d.phase.ref);
    }
  }

  lemma InvokeFits(w: World, n: nat, d: Dispatcher, env: Env)
    requires Trail(d) && d.phase.AtInvoke?
    ensures PhaseFits(DispatchStep(w, n, d, env).1)
  {
    var d' := DispatchStep(w, n, d, env).1;
    assert d'.history[..|d'.history| - 1] == d.history;
    InvalidatedNext(d.history, d'.history[|d.history|]);
    if d'.phase == Answered(true) {
      assert HandedOver(d', d.phase.copy.lifecycleRef.value);
    }
  }

  lemma FailFits(w: World, n: nat, d: Dispatcher, env: Env)
    requires Trail(d) && d.phase.AtFail?
    ensures PhaseFits(DispatchStep(w, n, d, env).1)
  {
    var d' := DispatchStep(w, n, d, env).1;
    assert d'.history[..|d'.history| - 1] == d.history;
    InvalidatedNext(d.history, d'.history[|d.history|]);
  }

  lemma PhaseFitsNext(w: World, n: nat, d: Dispatcher, env: Env)
    requires Trail(d) && !d.phase.Answered?
    ensures PhaseFits(DispatchStep(w, n, d, env).1)
  {
    if d.phase.AtLoadJob? {
      LoadFits(w, n, d, env);
    } else if d.phase.AtCheckJob? {
      CheckFits(w, n, d, env);
    } else if d.phase.AtLoadConversation? {
      ConversationFits(w, n, d, env);
    } else if d.phase.AtEnsure? || d.phase.AtStart? {
      RunFits(w, n, d, env);
    } else if d.phase.AtRecordRef? {
      RecordFits(w, n, d, env);
    } else if d.phase.AtInvoke? {
      InvokeFits(w, n, d, env);
    } else {
      FailFits(w, n, d, env);
    }
  }

  lemma TerminalizesNext(w: World, n: nat, d: Dispatcher, env: Env)
    requires Trail(d) && !d.phase.Answered?
    ensures Terminalizes(DispatchStep(w, n, d, env).1)
  {
    var d' := DispatchStep(w, n, d, env).1;
    DoomedNext(d.receive, d.history, d'.history[|d.history|]);
  }

  lemma CallFitsNext(w: World, n: nat, d: Dispatcher, env: Env, i: nat)
    requires Trail(d) && !d.phase.Answered? && i <= |d.history|
    ensures CallFits(DispatchStep(w, n, d, env).1, i)
  {
    var d' := DispatchStep(w, n, d, env).1;
    assert forall j :: 0 <= j < |d.history| ==> d'.history[j] == d.history[j];
    if i < |d.history| {
      assert CallFits(d, i);
    }
  }

  lemma TrailNext(w: World, n: nat, d: Dispatcher, env: Env)
    requires Trail(d)
    ensures Trail(DispatchStep(w, n, d, env).1)
  {
    if !d.phase.Answered? {
      PerformIsOk(w, n, NextCall(d.phase), env);
      PhaseFitsNext(w, n, d, env);
      TerminalizesNext(w, n, d, env);
      forall i | 0 <= i <= |d.history| ensures CallFits(DispatchStep(w, n, d, env).1, i) {
        CallFitsNext(w, n, d, env, i);
      }
    }
  }

  /** A lifecycle failure that may not be retried is answered by its terminalizing write alone: with success exactly
      when that write was accepted, and otherwise the write failed to reach the store or met another row there. */
  lemma FatalFailureTerminalizes(d: Dispatcher, i: nat)
    requires Trail(d) && d.phase.Answered? && i < |d.history| && Fatal(d.receive, d.history[i])
    ensures var last := d.history[|d.history| - 1];
            && i < |d.history| - 1 && last.call.Fail?
            && (d.phase.ok <==> last.result.Accepted?)
            && (last.result.Accepted? <==> last.reply == Fine && CallGuard(last.rows, last.call))
  {
    assert Doomed(d.receive, d.history);
    assert DidOk(d.history[|d.history| - 1]);
  }
}
