/** What one delivery of a dispatch message does, and what a failure writer does, when nobody interferes. */
module GenesisOutcome {
  import opened Base
  import opened GenesisStore
  import opened GenesisActors

  /** k calls in a row, all meeting the same circumstances. */
  function Calls(w: World, n: nat, d: Dispatcher, env: Env, k: nat): (World, Dispatcher)
    decreases k
  {
    if k == 0 then (w, d) else var (w', d') := DispatchStep(w, n, d, env); Calls(w', n, d', env, k - 1)
  }

  lemma Answered(w: World, n: nat, d: Dispatcher, env: Env, k: nat)
    requires d.phase.Answered?
    ensures Calls(w, n, d, env, k) == (w, d)
  {
  }

  lemma FirstCall(w: World, n: nat, d: Dispatcher, env: Env, k: nat)
    requires k > 0
    ensures var (w', d') := DispatchStep(w, n, d, env); Calls(w, n, d, env, k) == Calls(w', n, d', env, k - 1)
  {
  }

  // ---------------------------------------------------------------- the pieces

  /** The session, and the conversation if there is one, are failed by one write. */
  predicate FailsBoth(was: Rows, now: Rows) {
    && now.session == was.session.(status := Failed, version := was.session.version + 1)
    && now.conversation == match was.conversation { case None => None case Some(c) => Some(c.(status := Failed)) }
  }

  /** The ref of the run is recorded by one write. */
  predicate Records(was: Rows, now: Rows, ref: string) {
    && now.session == was.session.(lifecycleRef := Some(ref), version := was.session.version + 1)
    && now.conversation == was.conversation
  }

  /** The run that a dispatcher comes to: the recorded one if the controller revalidates it, another one if the
      controller asks for a relaunch or none is on record, and none if the controller fails. */
  function RunOf(s: Session, controller: bool, env: Env): Option<string> {
    if controller && s.lifecycleRef.Some? then
      match env.ensure
      case Ensured(ref) => Some(ref)
      case EnsureFailed => None
      case MustRelaunch => env.started
    else env.started
  }

  /** The conversation, if any, has the session's status, as every write leaves it. */
  predicate Together(rows: Rows) { rows.conversation.Some? ==> rows.conversation.value.status == rows.session.status }

  /** The session may still fail. */
  predicate MayFail(s: Session) { s.status != DeclarationReady && s.status != Published }

  /** What an uninterrupted delivery does and answers, case by case, when the store replies and finds the job. */
  ghost predicate Outcome(was: Rows, now: Rows, turn: string, wired: bool, controller: bool, env: Env, ok: bool) {
    var s := was.session;
    if !env.applies then now == was && ok
    else if !env.valid
      || was.conversation.None? then (if MayFail(s) then FailsBoth(was, now) && ok else now == was && !ok)
    else if s.status != InProgress || s.turn != turn then now == was && ok
    else
      var run := RunOf(s, controller, env);
      if !wired || run.None? || !env.refValid then FailsBoth(was, now) && ok
      else if controller && !env.invoked then
        ok && exists mid: Rows :: Records(was, mid, run.value) && FailsBoth(mid, now)
      else Records(was, now, run.value) && ok
  }

  // ---------------------------------------------------------------- the proof, from the last call to the first

  lemma FailEnds(w: World, n: nat, d: Dispatcher, env: Env, k: nat)
    requires d.phase.AtFail? && d.phase.copy == w.rows.session && d.phase.projection == w.rows.conversation
    requires Together(w.rows) && env.reply == Fine && k >= 1
    ensures var (w', d') := Calls(w, n, d, env, k);
            if MayFail(w.rows.session) then FailsBoth(w.rows, w'.rows) && d'.phase == GenesisActors.Answered(true)
            else w' == w && d'.phase == GenesisActors.Answered(false)
  {
    FirstCall(w, n, d, env, k);
    var (w1, d1) := DispatchStep(w, n, d, env);
    Answered(w1, n, d1, env, k - 1);
  }

  lemma InvokeEnds(w: World, n: nat, d: Dispatcher, env: Env, k: nat)
    requires d.phase.AtInvoke? && d.phase.copy == w.rows.session && w.rows.conversation == Some(d.phase.conversation)
    requires Together(w.rows) && w.rows.session.status == InProgress && env.reply == Fine && k >= 2
    ensures var (w', d') := Calls(w, n, d, env, k);
            d'.phase == GenesisActors.Answered(true) && if env.invoked then w' == w else FailsBoth(w.rows, w'.rows)
  {
    FirstCall(w, n, d, env, k);
    var (w1, d1) := DispatchStep(w, n, d, env);
    if env.invoked {
      Answered(w1, n, d1, env, k - 1);
    } else {
      FailEnds(w1, n, d1, env, k - 1);
    }
  }

  lemma RecordEnds(w: World, n: nat, d: Dispatcher, env: Env, k: nat)
    requires d.phase.AtRecordRef? && d.phase.copy == w.rows.session && w.rows.conversation == Some(d.phase.conversation)
    requires Together(w.rows) && w.rows.session.status == InProgress && env.reply == Fine && k >= 3
    ensures var (w', d') := Calls(w, n, d, env, k);
            && d'.phase == GenesisActors.Answered(true)
            && if !env.refValid then FailsBoth(w.rows, w'.rows)
               else if d.controller && !env.invoked
               then exists mid: Rows :: Records(w.rows, mid, d.phase.ref) && FailsBoth(mid, w'.rows)
               else Records(w.rows, w'.rows, d.phase.ref)
  {
    FirstCall(w, n, d, env, k);
    var (w1, d1) := DispatchStep(w, n, d, env);
    if !env.refValid {
      FailEnds(w1, n, d1, env, k - 1);
    } else {
      assert Records(w.rows, w1.rows, d.phase.ref);
      if d.controller {
        InvokeEnds(w1, n, d1, env, k - 1);
      } else {
        Answered(w1, n, d1, env, k - 1);
      }
    }
  }

  lemma StartEnds(w: World, n: nat, d: Dispatcher, env: Env, k: nat)
    requires d.phase.AtStart? && d.phase.copy == w.rows.session && w.rows.conversation == Some(d.phase.conversation)
    requires Together(w.rows) && w.rows.session.status == InProgress && env.reply == Fine && k >= 4
    ensures RunEnds(w, n, d, env, k, env.started)
  {
    FirstCall(w, n, d, env, k);
    var (w1, d1) := DispatchStep(w, n, d, env);
    if env.started.None? {
      FailEnds(w1, n, d1, env, k - 1);
    } else {
      RecordEnds(w1, n, d1, env, k - 1);
    }
  }

  /** How a delivery ends that comes to this run. */
  ghost predicate RunEnds(w: World, n: nat, d: Dispatcher, env: Env, k: nat, run: Option<string>) {
    var (w', d') := Calls(w, n, d, env, k);
    && d'.phase == GenesisActors.Answered(true)
    && if run.None? || !env.refValid then FailsBoth(w.rows, w'.rows)
       else if d.controller && !env.invoked
       then exists mid: Rows :: Records(w.rows, mid, run.value) && FailsBoth(mid, w'.rows)
       else Records(w.rows, w'.rows, run.value)
  }

  lemma EnsureEnds(w: World, n: nat, d: Dispatcher, env: Env, k: nat)
    requires d.phase.AtEnsure? && d.phase.copy == w.rows.session && w.rows.conversation == Some(d.phase.conversation)
    requires Together(w.rows) && w.rows.session.status == InProgress && env.reply == Fine && k >= 5
    requires d.controller && w.rows.session.lifecycleRef.Some?
    ensures RunEnds(w, n, d, env, k, RunOf(w.rows.session, true, env))
  {
    FirstCall(w, n, d, env, k);
    var (w1, d1) := DispatchStep(w, n, d, env);
    match env.ensure {
      case Ensured(ref) => RecordEnds(w1, n, d1, env, k - 1);
      case MustRelaunch => StartEnds(w1, n, d1, env, k - 1);
      case EnsureFailed => FailEnds(w1, n, d1, env, k - 1);
    }
  }

  lemma ConversationEnds(w: World, n: nat, d: Dispatcher, env: Env, k: nat)
    requires d.phase.AtLoadConversation? && d.phase.copy == w.rows.session && d.phase.valid == env.valid
    requires Together(w.rows) && env.reply == Fine && env.applies && k >= 6
    ensures var (w', d') := Calls(w, n, d, env, k);
            d'.phase.Answered? && Outcome(w.rows, w'.rows, d.turn, d.wired, d.controller, env, d'.phase.ok)
  {
    FirstCall(w, n, d, env, k);
    var (w1, d1) := DispatchStep(w, n, d, env);
    if d1.phase.AtFail? {
      FailEnds(w1, n, d1, env, k - 1);
    } else if d1.phase.AtEnsure? {
      EnsureEnds(w1, n, d1, env, k - 1);
    } else if d1.phase.AtStart? {
      StartEnds(w1, n, d1, env, k - 1);
    } else {
      Answered(w1, n, d1, env, k - 1);
    }
  }

  /** An uninterrupted delivery is answered after at most eight calls. */
  lemma DispatchOutcome(w: World, n: nat, turn: string, receive: int, wired: bool, controller: bool, env: Env)
    requires receive >= 1 && env.reply == Fine && Together(w.rows)
    ensures var (w', d') := Calls(w, n, Delivered(turn, receive, wired, controller), env, 8);
            d'.phase.Answered? && Outcome(w.rows, w'.rows, turn, wired, controller, env, d'.phase.ok)
  {
    var d := Delivered(turn, receive, wired, controller);
    FirstCall(w, n, d, env, 8);
    var (w1, d1) := DispatchStep(w, n, d, env);
    if !env.applies {
      Answered(w1, n, d1, env, 7);
    } else {
      FirstCall(w1, n, d1, env, 7);
      var (w2, d2) := DispatchStep(w1, n, d1, env);
      ConversationEnds(w2, n, d2, env, 6);
    }
  }

  /** A message with an invalid receive count is answered with an error at once. */
  lemma InvalidReceiveCount(w: World, n: nat, turn: string, receive: int, wired: bool, controller: bool, env: Env,
                            k: nat)
    requires receive < 1
    ensures var (w', d') := Calls(w, n, Delivered(turn, receive, wired, controller), env, k);
            w' == w && d'.phase == GenesisActors.Answered(false)
  {
    Answered(w, n, Delivered(turn, receive, wired, controller), env, k);
  }

  /** A read that gets no good reply ends the delivery with an error and without a write. */
  lemma LostReadEnds(w: World, n: nat, d: Dispatcher, env: Env)
    requires (d.phase.AtLoadJob? || d.phase.AtCheckJob? || d.phase.AtLoadConversation?) && env.reply != Fine
    ensures var (w', d') := DispatchStep(w, n, d, env); w' == w && d'.phase == GenesisActors.Answered(false)
  {
  }

  // ---------------------------------------------------------------- the failure writer

  /** The two calls of a failure writer that nobody interrupts: it fails the session of its turn with its conversation,
      and refuses sessions of other turns and sessions that have ended. */
  lemma FailureWriterOutcome(w: World, n: nat, turn: string)
    requires Together(w.rows) && w.rows.conversation == Some(Conversation(w.rows.session.status, turn))
    ensures var (w1, f1) := FailureStep(w, n, Pending(turn), Fine);
            var (w2, f2) := FailureStep(w1, n, f1, Fine);
            var s := w.rows.session;
            if s.turn == turn && s.status != Failed && s.status != DeclarationReady && s.status != Published
            then f1 == Loaded(turn, s) && FailsBoth(w.rows, w2.rows) && f2 == Closed(true)
            else f1 == Closed(false) && w2 == w && f2 == Closed(false)
  {
  }
}
