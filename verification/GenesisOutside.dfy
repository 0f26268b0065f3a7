/** Where the writes of a dispatcher land. Lifecycle writes land on sessions in progress; a job that fails validation,
    or has no conversation, is failed before anyone asks whether its session is still in progress. */
module GenesisOutside {
  import opened Base
  import opened GenesisStore
  import opened GenesisActors
  import opened GenesisTrail
  import opened GenesisSystem

  /** The dispatcher failed validation, or found no conversation, for a session it loaded outside progress. */
  predicate InvalidOutside(d: Dispatcher) {
    && |d.history| > 0 && d.history[0].result.Got? && d.history[0].result.session.status != InProgress
    && Invalidated(d.history)
  }

  /** A failure write of a dispatcher ends its delivery; it landed outside progress exactly for that reason, and without
      failed validation on the dispatcher's own turn. */
  predicate FailureFits(s: System, x: Write) {
    && x.kind == FailureWrite && x.writer.ByDispatcher? && x.writer.n in s.dispatchers
    && var d := s.dispatchers[x.writer.n];
       && d.phase.Answered?
       && (x.Before().status != InProgress <==> InvalidOutside(d))
       && (x.Before().turn == d.turn || Invalidated(d.history))
       && TakesAlong(d, x)
  }

  /** The write fails the conversation that the dispatcher found, on its turn, and leaves the conversation alone exactly
      when it found none. */
  predicate TakesAlong(d: Dispatcher, x: Write) {
    && |d.history| > 2 && d.history[2].call.LoadConversation?
    && match d.history[2].result
       case Found(conv) =>
         && x.was.conversation == Some(Conversation(x.Before().status, conv.turn))
         && x.now.conversation == Some(Conversation(Failed, conv.turn))
       case NotFound => d.history[2].rows.conversation.None? && x.now.conversation == x.was.conversation
       case _ => false
  }

  predicate DispatchWriteFits(s: System, x: Write) {
    x.writer.ByDispatcher? ==> x.kind == Lifecycle || FailureFits(s, x)
  }

  ghost predicate WritesFit(s: System) { forall i :: 0 <= i < |s.world.log| ==> DispatchWriteFits(s, s.world.log[i]) }

  /** An answered dispatcher is never touched again. */
  lemma AnsweredStays(s: System, e: Event, n: nat)
    requires n in s.dispatchers && s.dispatchers[n].phase.Answered?
    ensures n in Step(s, e).dispatchers && Step(s, e).dispatchers[n] == s.dispatchers[n]
  {
  }

  lemma OldWritesFit(s: System, e: Event, x: Write)
    requires DispatchWriteFits(s, x)
    ensures DispatchWriteFits(Step(s, e), x)
  {
    if x.writer.ByDispatcher? && x.kind != Lifecycle {
      AnsweredStays(s, e, x.writer.n);
    }
  }

  lemma FailureLandsFor(first: Rows, w: World, n: nat, d: Dispatcher, env: Env)
    requires DispatcherOk(first, w, n, d) && d.phase.AtFail? && DispatchStep(w, n, d, env).0 != w
    ensures var d' := DispatchStep(w, n, d, env).1;
            && d'.phase.Answered? && (w.rows.session.status != InProgress <==> InvalidOutside(d'))
            && (w.rows.session.turn == d'.turn || Invalidated(d'.history))
            && TakesAlong(d', Write(FailureWrite, ByDispatcher(n), w.rows, DispatchStep(w, n, d, env).0.rows))
  {
    var d' := DispatchStep(w, n, d, env).1;
    InvalidatedNext(d.history, d'.history[|d.history|]);
    assert d'.history[0] == d.history[0] && d'.history[2] == d.history[2];
    assert DidOk(d.history[2]);
  }

  lemma NewDispatchWriteFits(first: Rows, s: System, e: Event)
    requires Inv(first, s) && e.DispatchEvent? && Step(s, e).world != s.world
    ensures |Step(s, e).world.log| == |s.world.log| + 1
        && DispatchWriteFits(Step(s, e), Step(s, e).world.log[|s.world.log|])
  {
    var d := s.dispatchers[e.n];
    DispatchWrites(first, s.world, e.n, d, e.env);
    if d.phase.AtFail? {
      FailureLandsFor(first, s.world, e.n, d, e.env);
    }
  }

  lemma NewWriteFits(first: Rows, s: System, e: Event)
    requires Inv(first, s) && Step(s, e).world != s.world
    ensures |Step(s, e).world.log| == |s.world.log| + 1
        && DispatchWriteFits(Step(s, e), Step(s, e).world.log[|s.world.log|])
  {
    if e.DispatchEvent? {
      NewDispatchWriteFits(first, s, e);
    } else {
      StepOk(first, s, e);
    }
  }

  lemma LogGrows(first: Rows, s: System, e: Event)
    requires Inv(first, s)
    ensures s.world.log <= Step(s, e).world.log
    ensures Step(s, e).world == s.world || |Step(s, e).world.log| == |s.world.log| + 1
  {
    StepOk(first, s, e);
  }

  lemma OldWritesStillFit(s: System, s': System, e: Event)
    requires WritesFit(s) && s' == Step(s, e) && s.world.log <= s'.world.log
    ensures forall i :: 0 <= i < |s.world.log| ==> DispatchWriteFits(s', s'.world.log[i])
  {
    forall i | 0 <= i < |s.world.log| ensures DispatchWriteFits(s', s'.world.log[i]) {
      assert DispatchWriteFits(s, s.world.log[i]);
      OldWritesFit(s, e, s.world.log[i]);
    }
  }

  lemma AllFit(s: System, k: nat)
    requires k <= |s.world.log| <= k + 1 && forall i :: 0 <= i < k ==> DispatchWriteFits(s, s.world.log[i])
    requires |s.world.log| == k + 1 ==> DispatchWriteFits(s, s.world.log[k])
    ensures WritesFit(s)
  {
  }

  lemma WritesFitNext(first: Rows, s: System, e: Event)
    requires Inv(first, s) && WritesFit(s)
    ensures WritesFit(Step(s, e))
  {
    LogGrows(first, s, e);
    OldWritesStillFit(s, Step(s, e), e);
    if Step(s, e).world != s.world {
      NewWriteFits(first, s, e);
    }
    AllFit(Step(s, e), |s.world.log|);
  }

  lemma {:induction false} RunFits(rows: Rows, es: seq<Event>)
    ensures WritesFit(Run(Start(rows), es))
    decreases |es|
  {
    if |es| > 0 {
      RunFits(rows, es[..|es| - 1]);
      RunOk(rows, Start(rows), es[..|es| - 1]);
      WritesFitNext(rows, Run(Start(rows), es[..|es| - 1]), es[|es| - 1]);
    }
  }

  /** In every run a write of a dispatcher lands on a session outside progress if and only if it is the failure write of
      a delivery that loaded the session outside progress and then failed validation or found no conversation. */
  lemma DispatchWritesOutsideIff(rows: Rows, es: seq<Event>, i: nat)
    requires i < |Run(Start(rows), es).world.log| && Run(Start(rows), es).world.log[i].writer.ByDispatcher?
    ensures var s := Run(Start(rows), es);
            var x := s.world.log[i];
            x.Before().status != InProgress <==>
              x.kind == FailureWrite && x.writer.n in s.dispatchers && InvalidOutside(s.dispatchers[x.writer.n])
  {
    RunFits(rows, es);
    RunOk(rows, Start(rows), es);
    var s := Run(Start(rows), es);
    assert DispatchWriteFits(s, s.world.log[i]) && WriteOk(s.world.log[i]);
  }

  /** In every run a dispatcher's failure write that does not follow a failed validation or a missing conversation lands
      on the session in progress, on the turn the dispatcher was sent for. */
  lemma ValidFailuresStayOnTheirTurn(rows: Rows, es: seq<Event>, i: nat)
    requires i < |Run(Start(rows), es).world.log| && Run(Start(rows), es).world.log[i].writer.ByDispatcher?
    ensures var s := Run(Start(rows), es);
            var x := s.world.log[i];
            x.kind == FailureWrite ==>
              && x.writer.n in s.dispatchers
              && (Invalidated(s.dispatchers[x.writer.n].history)
                  || (x.Before().status == InProgress && x.Before().turn == s.dispatchers[x.writer.n].turn))
  {
    RunFits(rows, es);
    var s := Run(Start(rows), es);
    assert DispatchWriteFits(s, s.world.log[i]);
  }

  /** In every run a dispatcher's failure write fails the conversation its delivery found, which had the session's
      status, and keeps its turn; it is for the session alone if and only if the delivery found no conversation. */
  lemma FailuresTakeConversationAlong(rows: Rows, es: seq<Event>, i: nat)
    requires i < |Run(Start(rows), es).world.log| && Run(Start(rows), es).world.log[i].writer.ByDispatcher?
    ensures var s := Run(Start(rows), es);
            var x := s.world.log[i];
            x.kind == FailureWrite ==> x.writer.n in s.dispatchers && TakesAlong(s.dispatchers[x.writer.n], x)
  {
    RunFits(rows, es);
    var s := Run(Start(rows), es);
    assert DispatchWriteFits(s, s.world.log[i]);
  }

  /** A system of one dispatcher. */
  function Alone(w: World, d: Dispatcher): System { System(w, map[0 := d], map[], map[]) }

  lemma AloneStep(w: World, d: Dispatcher, env: Env)
    ensures Step(Alone(w, d), DispatchEvent(0, env))
         == Alone(DispatchStep(w, 0, d, env).0, DispatchStep(w, 0, d, env).1)
  {
    assert map[0 := d][0 := DispatchStep(w, 0, d, env).1] == map[0 := DispatchStep(w, 0, d, env).1];
  }

  /** The dispatcher makes k calls, all meeting the same circumstances. */
  function Calls(w: World, d: Dispatcher, env: Env, k: nat): (World, Dispatcher)
    decreases k
  {
    if k == 0 then (w, d) else var (w', d') := DispatchStep(w, 0, d, env); Calls(w', d', env, k - 1)
  }

  lemma {:induction false} CallsAreARun(rows: Rows, es: seq<Event>, w: World, d: Dispatcher, env: Env, k: nat)
    returns (all: seq<Event>)
    requires Run(Start(rows), es) == Alone(w, d)
    ensures Run(Start(rows), all) == Alone(Calls(w, d, env, k).0, Calls(w, d, env, k).1)
    decreases k
  {
    all := es;
    if k > 0 {
      var next := es + [DispatchEvent(0, env)];
      RunSnoc(Start(rows), next, |es|);
      assert next[..|es|] == es && next[..|es| + 1] == next;
      AloneStep(w, d, env);
      all := CallsAreARun(rows, next, DispatchStep(w, 0, d, env).0, DispatchStep(w, 0, d, env).1, env, k - 1);
    }
  }

  /** A late message on a session whose assistant turn is ready, meeting a failed validation. */
  lemma LateCalls(session: Session, env: Env)
    requires session.status == AssistantTurnReady && env.reply == Fine && env.applies && !env.valid
    ensures var w := World(Rows(session, Some(Conversation(AssistantTurnReady, session.turn))), []);
            var log := Calls(w, Delivered("late", 1, true, true), env, 4).0.log;
            |log| == 1 && log[0].writer == ByDispatcher(0) && log[0].Before() == session
              && log[0].After().status == Failed
  {
    var w := World(Rows(session, Some(Conversation(AssistantTurnReady, session.turn))), []);
    var d := Delivered("late", 1, true, true);
    var d1 := DispatchStep(w, 0, d, env).1;
    assert DispatchStep(w, 0, d, env).0 == w && d1.phase == AtCheckJob(session);
    var d2 := DispatchStep(w, 0, d1, env).1;
    assert DispatchStep(w, 0, d1, env).0 == w && d2.phase == AtLoadConversation(session, false);
    var d3 := DispatchStep(w, 0, d2, env).1;
    assert DispatchStep(w, 0, d2, env).0 == w && d3.phase == AtFail(session, w.rows.conversation);
    var w4 := DispatchStep(w, 0, d3, env).0;
    assert Calls(w, d3, env, 1).0 == w4;
    assert Calls(w, d2, env, 2).0 == w4;
    assert Calls(w, d1, env, 3).0 == w4;
  }

  /** Such a write exists: a late message that fails validation fails a session whose assistant turn is ready. */
  lemma LateInvalidMessageFailsReadyTurn(session: Session) returns (es: seq<Event>)
    requires session.status == AssistantTurnReady
    ensures var rows := Rows(session, Some(Conversation(AssistantTurnReady, session.turn)));
            var log := Run(Start(rows), es).world.log;
            |log| == 1 && log[0].writer == ByDispatcher(0) && log[0].Before() == session
              && log[0].After().status == Failed
  {
    var rows := Rows(session, Some(Conversation(AssistantTurnReady, session.turn)));
    var env := Env(Fine, true, false, EnsureFailed, None, true, false);
    var d := Delivered("late", 1, true, true);
    var arrive := [NewDispatch(0, "late", 1, true, true)];
    assert arrive[..0] == [];
    assert Run(Start(rows), arrive) == Alone(World(rows, []), d);
    es := CallsAreARun(rows, arrive, World(rows, []), d, env, 4);
    LateCalls(session, env);
  }

  lemma RunSnoc(s: System, es: seq<Event>, k: nat)
    requires k < |es|
    ensures Run(s, es[..k + 1]) == Step(Run(s, es[..k]), es[k])
  {
    assert es[..k + 1][..k] == es[..k];
  }
}
