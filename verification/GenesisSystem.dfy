/** Every interleaving of redelivered dispatches, turn runners, failure writers and control-plane writes
    on one hosted-genesis session. The log lists the accepted writes of the session row. */
module GenesisSystem {
  import opened Base
  import opened GenesisStore
  import opened GenesisActors
  import opened GenesisTrail

  datatype System = System(world: World, dispatchers: map<nat, Dispatcher>, runners: map<nat, Runner>,
                           failers: map<nat, FailureWriter>)

  datatype Event =
    | NewDispatch(n: nat, turn: string, receive: int, wired: bool, controller: bool)
    | DispatchEvent(n: nat, env: Env)
    | NewRunner(n: nat, turn: string)
    | RunnerEvent(n: nat, move: Move, reply: Reply)
    | NewFailer(n: nat, turn: string)
    | FailerEvent(n: nat, reply: Reply)
    | ControlPlane(next: Session, conversation: Option<Conversation>)

  /** Control-plane writes (new turns, owner actions, recovery, publication) are arbitrary, except that
      they too are compare-and-swap writes and never lower the candidate revision. */
  predicate ControlPlaneOk(s: Session, next: Session) { s.Revision() <= next.Revision() }

  function Step(s: System, e: Event): System {
    match e
    case NewDispatch(n, turn, receive, wired, controller) =>
      if n in s.dispatchers then s
      else s.(dispatchers := s.dispatchers[n := Delivered(turn, receive, wired, controller)])
    case DispatchEvent(n, env) =>
      if n !in s.dispatchers then s
      else
        var (w, d) := DispatchStep(s.world, n, s.dispatchers[n], env);
        s.(world := w, dispatchers := s.dispatchers[n := d])
    case NewRunner(n, turn) => if n in s.runners then s else s.(runners := s.runners[n := Idle(turn)])
    case RunnerEvent(n, move, reply) =>
      if n !in s.runners then s
      else
        var (w, r) := RunnerStep(s.world, n, s.runners[n], move, reply);
        s.(world := w, runners := s.runners[n := r])
    case NewFailer(n, turn) => if n in s.failers then s else s.(failers := s.failers[n := Pending(turn)])
    case FailerEvent(n, reply) =>
      if n !in s.failers then s
      else
        var (w, f) := FailureStep(s.world, n, s.failers[n], reply);
        s.(world := w, failers := s.failers[n := f])
    case ControlPlane(next, conversation) =>
      if !ControlPlaneOk(s.world.rows.session, next) then s
      else
        var rows := Advance(s.world.rows, next).(conversation := conversation);
        s.(world := Commit(s.world, Foreign, ByControlPlane, rows))
  }

  function Run(s: System, es: seq<Event>): System
    decreases |es|
  {
    if |es| == 0 then s else Step(Run(s, es[..|es| - 1]), es[|es| - 1])
  }

  function Start(rows: Rows): System { System(World(rows, []), map[], map[], map[]) }

  // ---------------------------------------------------------------- invariant

  /** What holds of every accepted write. */
  predicate WriteOk(x: Write) {
    && x.After().version == x.Before().version + 1
    && x.Before().Revision() <= x.After().Revision()
    && (x.kind != Foreign ==> LegalTransition(x.Before().status, x.After().status))
    && SessionOk(x) && ConversationOk(x)
  }

  predicate SessionOk(x: Write) {
    match x.kind
       case Lifecycle => OnlyRefChanged(x)
       case Checkpoint => OnlyCandidateChanged(x)
       case Assistant => x.After() == Moved(x.Before(), AssistantTurnReady, x.Before().candidate)
         && x.Before().status == InProgress
       case Finalization => AffirmedFinalized(x)
       case FailureWrite => x.After() == Moved(x.Before(), Failed, x.Before().candidate)
       case Foreign => true
  }

  /** What a write does to the conversation: lifecycle writes and checkpoints leave it alone, the end of a turn moves it
      with the session, and a failure takes it along, save that a dispatcher may fail a session on its own. */
  predicate ConversationOk(x: Write) {
    match x.kind
    case Lifecycle => x.now.conversation == x.was.conversation
    case Checkpoint => x.now.conversation == x.was.conversation
    case Assistant => x.was.conversation.Some? && x.was.conversation.value.turn == x.Before().turn && MovesAlong(x)
    case Finalization => x.was.conversation.Some? && x.was.conversation.value.turn == x.Before().turn && MovesAlong(x)
    case FailureWrite => MovesAlong(x) || (x.writer.ByDispatcher? && x.now.conversation == x.was.conversation)
    case Foreign => true
  }

  /** The conversation had the session's status, and has its new one, on the turn it had. */
  predicate MovesAlong(x: Write) {
    && x.was.conversation.Some? && x.was.conversation.value.status == x.Before().status
    && x.now.conversation == Some(x.was.conversation.value.(status := x.After().status))
  }

  function Moved(s: Session, status: Status, candidate: Option<Candidate>): Session {
    s.(status := status, candidate := candidate, version := s.version + 1)
  }

  predicate OnlyRefChanged(x: Write) {
    && x.Before().status == InProgress && x.After().lifecycleRef.Some?
    && x.After() == Moved(x.Before(), InProgress, x.Before().candidate).(lifecycleRef := x.After().lifecycleRef)
  }

  /** A checkpoint moves the candidate by at most one revision and nothing else. */
  predicate OnlyCandidateChanged(x: Write) {
    && x.Before().status == InProgress && x.After() == Moved(x.Before(), InProgress, x.After().candidate)
    && x.After().Revision() <= x.Before().Revision() + 1
  }

  /** Only an affirmed candidate is finalized, at its revision and with its content. */
  predicate AffirmedFinalized(x: Write) {
    && x.Before().status == InProgress && x.Before().candidate.Some? && x.Before().candidate.value.phase == Affirmed
    && x.After() == Moved(x.Before(), DeclarationReady, Some(x.Before().candidate.value.(phase := Finalized)))
  }

  /** The rows after the first i accepted writes. */
  function RowsAt(first: Rows, log: seq<Write>, i: nat): Rows
    requires i <= |log|
  {
    if i == 0 then first else log[i - 1].now
  }

  function RowAt(first: Rows, log: seq<Write>, i: nat): Session
    requires i <= |log|
  {
    RowsAt(first, log, i).session
  }

  predicate Continues(first: Rows, log: seq<Write>, i: nat)
    requires i < |log|
  {
    log[i].was == RowsAt(first, log, i)
  }

  /** The log is the history of the row: it starts at the first row, each write continues the one before,
      and the last one left the row as it is. */
  ghost predicate LogOk(first: Rows, w: World) {
    && (forall i :: 0 <= i < |w.log| ==> WriteOk(w.log[i]))
    && (forall i :: 0 <= i < |w.log| ==> Continues(first, w.log, i))
    && w.rows == RowsAt(first, w.log, |w.log|)
  }

  /** A private copy is the stored row, or of an older version. */
  predicate CopyOk(w: World, copy: Session) {
    copy.version <= w.rows.session.version && (copy.version == w.rows.session.version ==> copy == w.rows.session)
  }

  /** The rows were stored so at some time. */
  ghost predicate Past(first: Rows, w: World, rows: Rows) {
    exists i :: 0 <= i <= |w.log| && RowsAt(first, w.log, i) == rows
  }

  function KindOf(call: Call): Kind { if call.RecordRef? then Lifecycle else FailureWrite }

  /** The log holds the write that this call made. */
  predicate Wrote(x: Write, n: nat, did: Did) {
    && CallGuard(did.rows, did.call)
    && x == Write(KindOf(did.call), ByDispatcher(n), did.rows, Written(did.rows, did.call))
  }

  ghost predicate Landed(w: World, n: nat, did: Did) { exists i :: 0 <= i < |w.log| && Wrote(w.log[i], n, did) }

  /** Every call met a row of the history, and every accepted write is in the log. */
  ghost predicate DidInWorld(first: Rows, w: World, n: nat, did: Did) {
    Past(first, w, did.rows) && (did.result.Accepted? ==> Landed(w, n, did))
  }

  predicate CarriedOk(w: World, d: Dispatcher) {
    var copy := CarriedCopy(d.phase);
    copy.Some? ==> CopyOk(w, copy.value)
  }

  ghost predicate DispatcherOk(first: Rows, w: World, n: nat, d: Dispatcher) {
    && Trail(d)
    && (forall j :: 0 <= j < |d.history| ==> DidInWorld(first, w, n, d.history[j]))
    && CarriedOk(w, d)
  }

  ghost predicate ActorsOk(first: Rows, w: World, s: System) {
    && (forall n <- s.dispatchers :: DispatcherOk(first, w, n, s.dispatchers[n]))
    && (forall n <- s.runners | s.runners[n].Active? :: RunnerOk(w, s.runners[n]))
    && (forall n <- s.failers | s.failers[n].Loaded? :: CopyOk(w, s.failers[n].copy))
  }

  /** Apart from a finalized turn, whose copy keeps its old version, a runner's copy is a copy of the row. */
  predicate RunnerOk(w: World, r: Runner)
    requires r.Active?
  {
    CopyOk(w, r.copy)
  }

  ghost predicate Inv(first: Rows, s: System) { LogOk(first, s.world) && ActorsOk(first, s.world, s) }

  /** Nothing, or one well-formed write. */
  ghost predicate OneWrite(w: World, w': World, writer: Writer) {
    || w' == w
    || (|w'.log| == |w.log| + 1 && w.log <= w'.log && NextWrite(w, w', writer, w'.log[|w.log|]))
  }

  predicate NextWrite(w: World, w': World, writer: Writer, x: Write) {
    WriteOk(x) && x.writer == writer && x.was == w.rows && x.now == w'.rows
  }

  lemma CommitIsOneWrite(w: World, kind: Kind, writer: Writer, rows: Rows)
    requires WriteOk(Write(kind, writer, w.rows, rows))
    ensures OneWrite(w, Commit(w, kind, writer, rows), writer)
  {
  }

  lemma OneWriteKeepsLog(first: Rows, w: World, w': World, writer: Writer)
    requires LogOk(first, w) && OneWrite(w, w', writer)
    ensures LogOk(first, w')
    ensures w.rows.session.version <= w'.rows.session.version && w.log <= w'.log
    ensures w' != w ==> w'.rows.session.version == w.rows.session.version + 1
  {
    if w' != w {
      forall i | 0 <= i < |w'.log| ensures WriteOk(w'.log[i]) && Continues(first, w'.log, i) {
        assert i < |w.log| ==> Continues(first, w.log, i);
        assert RowsAt(first, w'.log, i) == RowsAt(first, w.log, i);
        assert i < |w.log| ==> w'.log[i] == w.log[i];
      }
    }
  }

  lemma DidStable(first: Rows, w: World, w': World, n: nat, did: Did)
    requires DidInWorld(first, w, n, did) && w.log <= w'.log
    ensures DidInWorld(first, w', n, did)
  {
    var i :| 0 <= i <= |w.log| && RowsAt(first, w.log, i) == did.rows;
    assert RowsAt(first, w'.log, i) == did.rows;
    if did.result.Accepted? {
      var j :| 0 <= j < |w.log| && Wrote(w.log[j], n, did);
      assert w'.log[j] == w.log[j];
    }
  }

  lemma DispatcherStable(first: Rows, w: World, w': World, n: nat, d: Dispatcher)
    requires DispatcherOk(first, w, n, d) && w.log <= w'.log
    requires w' == w || w'.rows.session.version == w.rows.session.version + 1
    ensures DispatcherOk(first, w', n, d)
  {
    forall j | 0 <= j < |d.history| ensures DidInWorld(first, w', n, d.history[j]) {
      DidStable(first, w, w', n, d.history[j]);
    }
  }

  lemma ActorsStable(first: Rows, w: World, w': World, s: System)
    requires ActorsOk(first, w, s) && w.log <= w'.log
    requires w' == w || w'.rows.session.version == w.rows.session.version + 1
    ensures ActorsOk(first, w', s)
  {
    forall n <- s.dispatchers ensures DispatcherOk(first, w', n, s.dispatchers[n]) {
      DispatcherStable(first, w, w', n, s.dispatchers[n]);
    }
  }

  // ---------------------------------------------------------------- one step

  /** The copy a writing call was made from. */
  function CopyOf(call: Call): Session
    requires call.RecordRef? || call.Fail?
  {
    call.copy
  }

  lemma CallIsOneWrite(w: World, n: nat, call: Call)
    requires (call.RecordRef? || call.Fail?) && CopyOk(w, CopyOf(call)) && CallGuard(w.rows, call)
    ensures var w' := Commit(w, KindOf(call), ByDispatcher(n), Written(w.rows, call));
            && OneWrite(w, w', ByDispatcher(n))
            && Wrote(w'.log[|w.log|], n, Did(call, Accepted, Fine, w.rows))
            && (call.RecordRef? ==> w'.rows.session == WithRef(call.copy, call.ref).(version := call.copy.version + 1))
  {
    CommitIsOneWrite(w, KindOf(call), ByDispatcher(n), Written(w.rows, call));
  }

  /** A call either changes nothing or is one logged write. */
  lemma DispatchWrites(first: Rows, w: World, n: nat, d: Dispatcher, env: Env)
    requires DispatcherOk(first, w, n, d)
    ensures var w' := DispatchStep(w, n, d, env).0;
            && OneWrite(w, w', ByDispatcher(n))
            && (w' != w ==> d.phase.AtRecordRef? || d.phase.AtFail?)
            && (w' != w ==> w'.log[|w.log|].kind == KindOf(NextCall(d.phase)))
  {
    if (d.phase.AtRecordRef? || d.phase.AtFail?) && CallGuard(w.rows, NextCall(d.phase)) {
      CallIsOneWrite(w, n, NextCall(d.phase));
    }
  }

  lemma AcceptedLanded(w: World, n: nat, call: Call, env: Env)
    requires (call.RecordRef? || call.Fail?) && CopyOk(w, CopyOf(call)) && Perform(w, n, call, env).1.Accepted?
    ensures Landed(Perform(w, n, call, env).0, n, Did(call, Accepted, env.reply, w.rows))
  {
    var w' := Perform(w, n, call, env).0;
    CallIsOneWrite(w, n, call);
    assert Wrote(w'.log[|w.log|], n, Did(call, Accepted, env.reply, w.rows));
  }

  lemma NowIsPast(first: Rows, w: World, w': World)
    requires LogOk(first, w) && w.log <= w'.log
    ensures Past(first, w', w.rows)
  {
    assert RowsAt(first, w'.log, |w.log|) == RowsAt(first, w.log, |w.log|);
  }

  lemma NewDidInWorld(first: Rows, w: World, n: nat, d: Dispatcher, env: Env)
    requires LogOk(first, w) && DispatcherOk(first, w, n, d) && !d.phase.Answered?
    ensures var (w', d') := DispatchStep(w, n, d, env); DidInWorld(first, w', n, d'.history[|d.history|])
  {
    var (w', d') := DispatchStep(w, n, d, env);
    DispatchWrites(first, w, n, d, env);
    NowIsPast(first, w, w');
    if d'.history[|d.history|].result.Accepted? {
      AcceptedLanded(w, n, NextCall(d.phase), env);
    }
  }

  /** Only a load takes a new copy, and only a recorded ref changes one. */
  lemma CopyMoves(w: World, n: nat, d: Dispatcher, env: Env)
    requires !d.phase.Answered? && !d.phase.AtRecordRef?
    ensures var copy := CarriedCopy(DispatchStep(w, n, d, env).1.phase);
            copy.Some? ==> copy == CarriedCopy(d.phase) || copy.value == w.rows.session
  {
  }

  lemma RecordMoves(w: World, n: nat, d: Dispatcher, env: Env)
    requires d.phase.AtRecordRef? && CopyOk(w, d.phase.copy)
    ensures var (w', d') := DispatchStep(w, n, d, env);
            CarriedCopy(d'.phase).Some? ==>
              CarriedCopy(d'.phase) == CarriedCopy(d.phase) || CarriedCopy(d'.phase).value == w'.rows.session
  {
    if CallGuard(w.rows, NextCall(d.phase)) {
      CallIsOneWrite(w, n, NextCall(d.phase));
    }
  }

  lemma DispatchCopies(first: Rows, w: World, n: nat, d: Dispatcher, env: Env)
    requires LogOk(first, w) && DispatcherOk(first, w, n, d) && !d.phase.Answered?
    ensures CarriedOk(DispatchStep(w, n, d, env).0, DispatchStep(w, n, d, env).1)
  {
    var w' := DispatchStep(w, n, d, env).0;
    DispatchWrites(first, w, n, d, env);
    OneWriteKeepsLog(first, w, w', ByDispatcher(n));
    if d.phase.AtRecordRef? {
      RecordMoves(w, n, d, env);
    } else {
      CopyMoves(w, n, d, env);
    }
  }

  lemma DispatchStepOk(first: Rows, w: World, n: nat, d: Dispatcher, env: Env)
    requires LogOk(first, w) && DispatcherOk(first, w, n, d)
    ensures var (w', d') := DispatchStep(w, n, d, env);
            OneWrite(w, w', ByDispatcher(n)) && DispatcherOk(first, w', n, d')
  {
    var (w', d') := DispatchStep(w, n, d, env);
    DispatchWrites(first, w, n, d, env);
    if !d.phase.Answered? {
      OneWriteKeepsLog(first, w, w', ByDispatcher(n));
      DispatcherStable(first, w, w', n, d);
      TrailNext(w, n, d, env);
      NewDidInWorld(first, w, n, d, env);
      DispatchCopies(first, w, n, d, env);
    }
  }

  lemma RunnerStepOk(w: World, n: nat, r: Runner, move: Move, reply: Reply)
    requires r.Active? ==> RunnerOk(w, r)
    ensures var (w', r') := RunnerStep(w, n, r, move, reply);
            OneWrite(w, w', ByRunner(n)) && (r'.Active? ==> RunnerOk(w', r'))
  {
    var w' := RunnerStep(w, n, r, move, reply).0;
    if w' != w {
      CommitIsOneWrite(w, Wanted(r.copy, r.action, move).value.0, ByRunner(n), w'.rows);
    }
  }

  lemma FailureStepOk(w: World, n: nat, f: FailureWriter, reply: Reply)
    requires f.Loaded? ==> CopyOk(w, f.copy)
    ensures var (w', f') := FailureStep(w, n, f, reply);
            OneWrite(w, w', ByFailureWriter(n)) && (f'.Loaded? ==> CopyOk(w', f'.copy))
  {
    var w' := FailureStep(w, n, f, reply).0;
    if w' != w {
      CommitIsOneWrite(w, FailureWrite, ByFailureWriter(n), w'.rows);
    }
  }

  /** Who the event lets write. */
  function WriterOf(e: Event): Writer {
    match e
    case DispatchEvent(n, _) => ByDispatcher(n)
    case RunnerEvent(n, _, _) => ByRunner(n)
    case FailerEvent(n, _) => ByFailureWriter(n)
    case _ => ByControlPlane
  }

  lemma StepWrites(first: Rows, s: System, e: Event)
    requires Inv(first, s)
    ensures OneWrite(s.world, Step(s, e).world, WriterOf(e))
  {
    var w, s' := s.world, Step(s, e);
    match e {
      case DispatchEvent(n, env) => if n in s.dispatchers { DispatchStepOk(first, w, n, s.dispatchers[n], env); }
      case RunnerEvent(n, move, reply) => if n in s.runners { RunnerStepOk(w, n, s.runners[n], move, reply); }
      case FailerEvent(n, reply) => if n in s.failers { FailureStepOk(w, n, s.failers[n], reply); }
      case ControlPlane(next, conv) =>
        if ControlPlaneOk(w.rows.session, next) { CommitIsOneWrite(w, Foreign, ByControlPlane, s'.world.rows); }
      case _ =>
    }
  }

  lemma DispatchActors(first: Rows, s: System, e: Event)
    requires Inv(first, s) && e.DispatchEvent? && ActorsOk(first, Step(s, e).world, s)
    ensures ActorsOk(first, Step(s, e).world, Step(s, e))
  {
    if e.n in s.dispatchers {
      DispatchStepOk(first, s.world, e.n, s.dispatchers[e.n], e.env);
    }
  }

  lemma RunnerActors(first: Rows, s: System, e: Event)
    requires Inv(first, s) && e.RunnerEvent? && ActorsOk(first, Step(s, e).world, s)
    ensures ActorsOk(first, Step(s, e).world, Step(s, e))
  {
    if e.n in s.runners {
      RunnerStepOk(s.world, e.n, s.runners[e.n], e.move, e.reply);
    }
  }

  lemma FailerActors(first: Rows, s: System, e: Event)
    requires Inv(first, s) && e.FailerEvent? && ActorsOk(first, Step(s, e).world, s)
    ensures ActorsOk(first, Step(s, e).world, Step(s, e))
  {
    if e.n in s.failers {
      FailureStepOk(s.world, e.n, s.failers[e.n], e.reply);
    }
  }

  lemma ArrivalActors(first: Rows, s: System, e: Event)
    requires !e.DispatchEvent? && !e.RunnerEvent? && !e.FailerEvent? && ActorsOk(first, Step(s, e).world, s)
    ensures ActorsOk(first, Step(s, e).world, Step(s, e))
  {
  }

  /** The acting actor is in order after its step; the others were not touched. */
  lemma StepActors(first: Rows, s: System, e: Event)
    requires Inv(first, s) && ActorsOk(first, Step(s, e).world, s)
    ensures ActorsOk(first, Step(s, e).world, Step(s, e))
  {
    if e.DispatchEvent? {
      DispatchActors(first, s, e);
    } else if e.RunnerEvent? {
      RunnerActors(first, s, e);
    } else if e.FailerEvent? {
      FailerActors(first, s, e);
    } else {
      ArrivalActors(first, s, e);
    }
  }

  lemma StepOk(first: Rows, s: System, e: Event)
    requires Inv(first, s)
    ensures Inv(first, Step(s, e)) && OneWrite(s.world, Step(s, e).world, WriterOf(e))
  {
    StepWrites(first, s, e);
    OneWriteKeepsLog(first, s.world, Step(s, e).world, WriterOf(e));
    ActorsStable(first, s.world, Step(s, e).world, s);
    StepActors(first, s, e);
  }

  lemma {:induction false} RunOk(first: Rows, s: System, es: seq<Event>)
    requires Inv(first, s)
    ensures Inv(first, Run(s, es)) && s.world.log <= Run(s, es).world.log
    decreases |es|
  {
    if |es| > 0 {
      RunOk(first, s, es[..|es| - 1]);
      StepOk(first, Run(s, es[..|es| - 1]), es[|es| - 1]);
      OneWriteKeepsLog(first, Run(s, es[..|es| - 1]).world, Run(s, es).world, WriterOf(es[|es| - 1]));
    }
  }

  // ---------------------------------------------------------------- main results

  lemma {:induction false} HistoryVersions(first: Rows, w: World, i: nat)
    requires LogOk(first, w) && i <= |w.log|
    ensures RowAt(first, w.log, i).version == first.session.version + i
  {
    if i > 0 {
      HistoryVersions(first, w, i - 1);
      assert WriteOk(w.log[i - 1]) && Continues(first, w.log, i - 1);
    }
  }

  lemma {:induction false} HistoryRevisions(first: Rows, w: World, i: nat, j: nat)
    requires LogOk(first, w) && i <= j <= |w.log|
    ensures RowAt(first, w.log, i).Revision() <= RowAt(first, w.log, j).Revision()
    decreases j
  {
    if i < j {
      HistoryRevisions(first, w, i, j - 1);
      assert WriteOk(w.log[j - 1]) && Continues(first, w.log, j - 1);
    }
  }

  /** The stored version rises by exactly one for each accepted write, whoever writes. */
  lemma VersionCountsWrites(rows: Rows, es: seq<Event>)
    ensures var w := Run(Start(rows), es).world; w.rows.session.version == rows.session.version + |w.log|
  {
    RunOk(rows, Start(rows), es);
    HistoryVersions(rows, Run(Start(rows), es).world, |Run(Start(rows), es).world.log|);
  }

  /** The candidate revision never falls along the history of the row. */
  lemma RevisionNeverFalls(rows: Rows, es: seq<Event>, i: nat, j: nat)
    requires i <= j <= |Run(Start(rows), es).world.log|
    ensures var log := Run(Start(rows), es).world.log;
            RowAt(rows, log, i).Revision() <= RowAt(rows, log, j).Revision()
  {
    RunOk(rows, Start(rows), es);
    HistoryRevisions(rows, Run(Start(rows), es).world, i, j);
  }

  /** Every dispatch lifecycle write landed on a session in progress and changed nothing but the ref; every
      checkpoint and assistant turn landed on a session in progress and moved nothing but candidate or
      status; only affirmed candidates were finalized; every failure write changed nothing but the status. */
  lemma WritesLandWhereTheyMay(rows: Rows, es: seq<Event>, i: nat)
    requires i < |Run(Start(rows), es).world.log|
    ensures var log := Run(Start(rows), es).world.log;
            WriteOk(log[i]) && log[i].was == RowsAt(rows, log, i)
  {
    RunOk(rows, Start(rows), es);
    assert Continues(rows, Run(Start(rows), es).world.log, i);
  }

  /** Every assistant turn, finalization and failure writer's write that is accepted leaves the conversation in the
      session's new status, on the turn it had; lifecycle writes and checkpoints leave it as it was. */
  lemma ConversationFollows(rows: Rows, es: seq<Event>, i: nat)
    requires i < |Run(Start(rows), es).world.log|
    ensures var x := Run(Start(rows), es).world.log[i];
            && (x.kind == Assistant || x.kind == Finalization || (x.kind == FailureWrite && !x.writer.ByDispatcher?) ==>
                  && x.was.conversation.Some?
                  && x.now.conversation == Some(Conversation(x.now.session.status, x.was.conversation.value.turn)))
            && (x.kind == Lifecycle || x.kind == Checkpoint ==> x.now.conversation == x.was.conversation)
  {
    WritesLandWhereTheyMay(rows, es, i);
  }

  // ---------------------------------------------------------------- dispatch answers

  /** The log holds this dispatcher's lifecycle write of the ref, on the turn it was sent for. */
  ghost predicate RefLogged(w: World, n: nat, turn: string, ref: string) {
    exists i :: 0 <= i < |w.log| && w.log[i].kind == Lifecycle && w.log[i].writer == ByDispatcher(n)
                && w.log[i].After().lifecycleRef == Some(ref) && w.log[i].After().turn == turn
  }

  ghost predicate FailureLogged(w: World, n: nat) {
    exists i :: 0 <= i < |w.log| && w.log[i].kind == FailureWrite && w.log[i].writer == ByDispatcher(n)
                && w.log[i].After().status == Failed
  }

  lemma HandedOverIsLogged(first: Rows, w: World, n: nat, d: Dispatcher, ref: string)
    requires DispatcherOk(first, w, n, d) && HandedOver(d, ref)
    ensures RefLogged(w, n, d.turn, ref)
  {
    var k := if d.controller then |d.history| - 2 else |d.history| - 1;
    var did := d.history[k];
    assert CallFits(d, k) && DidInWorld(first, w, n, did);
    var i :| 0 <= i < |w.log| && Wrote(w.log[i], n, did);
    assert w.log[i].After().lifecycleRef == Some(ref);
  }

  lemma FailedForIsLogged(first: Rows, w: World, n: nat, d: Dispatcher)
    requires DispatcherOk(first, w, n, d) && FailedFor(d, true)
    ensures FailureLogged(w, n)
  {
    var did := d.history[|d.history| - 1];
    assert DidInWorld(first, w, n, did);
    var i :| 0 <= i < |w.log| && Wrote(w.log[i], n, did);
    assert w.log[i].After().status == Failed;
  }

  /** Success means: the job is not there, or the session it loaded, which was stored so at that time, had left this
      turn; or the ref of a run was recorded on this turn and, with a controller, the turn was then invoked; or this
      delivery failed the session, for a cause. */
  lemma SuccessIsJustified(rows: Rows, es: seq<Event>, n: nat)
    requires n in Run(Start(rows), es).dispatchers && Run(Start(rows), es).dispatchers[n].phase == Answered(true)
    ensures var s := Run(Start(rows), es);
            var d := s.dispatchers[n];
            || (Obsolete(d) && (d.history[0].result.Got? ==>
                 d.history[0].result.session == d.history[0].rows.session && Past(rows, s.world, d.history[0].rows)))
            || (exists ref :: HandedOver(d, ref) && RefLogged(s.world, n, d.turn, ref))
            || (FailedFor(d, true) && FailureLogged(s.world, n))
  {
    RunOk(rows, Start(rows), es);
    var s := Run(Start(rows), es);
    var d := s.dispatchers[n];
    if Obsolete(d) {
      assert DidOk(d.history[0]) && DidInWorld(rows, s.world, n, d.history[0]);
    } else if FailedFor(d, true) {
      FailedForIsLogged(rows, s.world, n, d);
    } else {
      var ref :| HandedOver(d, ref);
      HandedOverIsLogged(rows, s.world, n, d, ref);
    }
  }

  /** An error means: an invalid receive count, a read that failed, a lifecycle write that may still succeed on a later
      delivery, or a failing write, called for by a cause, that itself did not reach the store or met another row there.
      */
  lemma ErrorIsJustified(rows: Rows, es: seq<Event>, n: nat)
    requires n in Run(Start(rows), es).dispatchers && Run(Start(rows), es).dispatchers[n].phase == Answered(false)
    ensures var d := Run(Start(rows), es).dispatchers[n];
            || (d.history == [] && d.receive < 1)
            || ReadFailed(d.history)
            || Retriable(d)
            || (&& FailedFor(d, false)
                && var last := d.history[|d.history| - 1];
                   last.reply != Fine || !CallGuard(last.rows, last.call))
  {
    RunOk(rows, Start(rows), es);
    var d := Run(Start(rows), es).dispatchers[n];
    if FailedFor(d, false) {
      assert DidOk(d.history[|d.history| - 1]);
    }
  }

  lemma FatalAnswer(first: Rows, w: World, n: nat, d: Dispatcher, i: nat)
    requires DispatcherOk(first, w, n, d) && d.phase.Answered? && i < |d.history| && Fatal(d.receive, d.history[i])
    ensures TerminalAnswer(w, n, d, i)
  {
    FatalFailureTerminalizes(d, i);
    if d.phase.ok {
      FailedForIsLogged(first, w, n, d);
    }
  }

  /** The last call is a terminalizing write made after call i. Success means that it failed the session, an error that
      it did not reach the store or met another row there. */
  ghost predicate TerminalAnswer(w: World, n: nat, d: Dispatcher, i: nat) {
    && d.phase.Answered? && 0 <= i < |d.history| - 1
    && var last := d.history[|d.history| - 1];
       && last.call.Fail?
       && if d.phase.ok then FailureLogged(w, n) else last.reply != Fine || !CallGuard(last.rows, last.call)
  }

  /** A lifecycle failure that is permanent, or comes on receive three or later, is answered by a terminalizing write
      made after it, and with an error only when that write is itself refused. */
  lemma LifecycleFailureTerminalizes(rows: Rows, es: seq<Event>, n: nat, i: nat)
    requires n in Run(Start(rows), es).dispatchers && Run(Start(rows), es).dispatchers[n].phase.Answered?
    requires var d := Run(Start(rows), es).dispatchers[n]; i < |d.history| && Fatal(d.receive, d.history[i])
    ensures TerminalAnswer(Run(Start(rows), es).world, n, Run(Start(rows), es).dispatchers[n], i)
  {
    RunOk(rows, Start(rows), es);
    var s := Run(Start(rows), es);
    FatalAnswer(rows, s.world, n, s.dispatchers[n], i);
  }

  /** With a lifecycle ref on record, a new run is started only right after the controller asked for a relaunch. */
  lemma RelaunchOnlyOnRequest(rows: Rows, es: seq<Event>, n: nat, i: nat)
    requires n in Run(Start(rows), es).dispatchers
    requires var d := Run(Start(rows), es).dispatchers[n];
             d.controller && i < |d.history| && d.history[i].call.StartRun?
             && d.history[0].result.Got? && d.history[0].result.session.lifecycleRef.Some?
    ensures i > 0 && Run(Start(rows), es).dispatchers[n].history[i - 1].result.RelaunchRequired?
  {
    RunOk(rows, Start(rows), es);
    assert CallFits(Run(Start(rows), es).dispatchers[n], i);
  }

  lemma {:induction false} FailedStays(first: Rows, w: World, i: nat, j: nat)
    requires LogOk(first, w) && i < j <= |w.log| && w.log[i].kind == FailureWrite
    requires forall k :: i < k < j ==> w.log[k].kind != Foreign
    ensures RowAt(first, w.log, j).status == Failed
    decreases j
  {
    assert WriteOk(w.log[j - 1]) && Continues(first, w.log, j - 1);
    if i < j - 1 {
      FailedStays(first, w, i, j - 1);
    }
  }

  /** A failure is durable: after a failure write the session stays failed through every later write of
      dispatchers, runners and failure writers, until the control plane itself writes. */
  lemma FailureIsDurable(rows: Rows, es: seq<Event>, i: nat, j: nat)
    requires var log := Run(Start(rows), es).world.log;
             i < j <= |log| && log[i].kind == FailureWrite && forall k :: i < k < j ==> log[k].kind != Foreign
    ensures RowAt(rows, Run(Start(rows), es).world.log, j).status == Failed
  {
    RunOk(rows, Start(rows), es);
    FailedStays(rows, Run(Start(rows), es).world, i, j);
  }
}
