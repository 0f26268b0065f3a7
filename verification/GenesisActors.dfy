/** The writers of one hosted-genesis session, cut into their store and controller calls: the queue
    dispatcher (internal/aiworker/hosted_genesis_microvm.go, hosted_genesis.go), the in-VM turn runner
    and its failure writer (cmd/hosted-genesis-microvm-workload/runner.go, actor.go). */
module GenesisActors {
  import opened Base
  import opened GenesisStore

  datatype Writer = ByDispatcher(n: nat) | ByRunner(n: nat) | ByFailureWriter(n: nat) | ByControlPlane

  datatype Kind = Lifecycle | Checkpoint | Assistant | Finalization | FailureWrite | Foreign

  /** One accepted write of the session row, with the rows before and after it. */
  datatype Write = Write(kind: Kind, writer: Writer, was: Rows, now: Rows) {
    function Before(): Session { was.session }

    function After(): Session { now.session }
  }

  datatype World = World(rows: Rows, log: seq<Write>)

  function Commit(w: World, kind: Kind, writer: Writer, rows: Rows): World {
    World(rows, w.log + [Write(kind, writer, w.rows, rows)])
  }

  // ---------------------------------------------------------------- dispatcher

  const MAX_RECEIVE_COUNT: int := 3

  /** The calls a dispatcher makes. */
  datatype Call =
    | LoadJob
    | CheckJob
    | LoadConversation
    | EnsureRun(ref: string)
    | StartRun
    | RecordRef(copy: Session, ref: string)
    | Invoke
    | Fail(copy: Session, conversation: Option<Conversation>)

  /** What a call comes back with. Unavailable is any error that does not say more. */
  datatype Result =
    | Unavailable
    | NotFound
    | Got(session: Session)
    | Verdict(valid: bool)
    | Found(conversation: Conversation)
    | Running(ref: string)
    | RelaunchRequired
    | Accepted
    | Conflict
    | Invalid
    | Invoked

  /** Everything outside this process that a call depends on. */
  datatype Env = Env(reply: Reply, applies: bool, valid: bool, ensure: EnsureReply, started: Option<string>,
                     refValid: bool,
                     invoked: bool)

  datatype EnsureReply = Ensured(ref: string) | MustRelaunch | EnsureFailed

  function WithRef(copy: Session, ref: string): Session { copy.(lifecycleRef := Some(ref), status := InProgress) }

  /** The guard of a call that writes. */
  predicate CallGuard(rows: Rows, call: Call) {
    match call
    case RecordRef(copy, ref) => UpdateGuard(rows, WithRef(copy, ref), copy.version, InProgress)
    case Fail(copy, Some(conv)) => FailGuard(rows, copy.version, copy.status, copy.turn, conv.turn)
    case Fail(copy, None) => UpdateGuard(rows, copy.(status := Failed), copy.version, copy.status)
    case _ => false
  }

  /** The rows after an accepted write. */
  function Written(rows: Rows, call: Call): Rows
    requires CallGuard(rows, call)
  {
    match call
    case RecordRef(copy, ref) => Advance(rows, WithRef(copy, ref))
    case Fail(copy, Some(conv)) => FailedRows(rows)
    case Fail(copy, None) => Advance(rows, copy.(status := Failed))
  }

  /** Carries out a write: it lands when it reaches the store and its guard holds there. */
  function Attempt(w: World, n: nat, kind: Kind, call: Call, reply: Reply): (World, Result) {
    if reply == Fails then (w, Unavailable)
    else if !CallGuard(w.rows, call) then (w, if reply == Fine then Conflict else Unavailable)
    else (Commit(w, kind, ByDispatcher(n), Written(w.rows, call)), if reply == Fine then Accepted else Unavailable)
  }

  /** Carries out a call against the store or the MicroVM controller. */
  function Perform(w: World, n: nat, call: Call, env: Env): (World, Result) {
    match call
    case LoadJob =>
      (w, if env.reply != Fine then Unavailable else if !env.applies then NotFound else Got(w.rows.session))
    case CheckJob => (w, if env.reply != Fine then Unavailable else Verdict(env.valid))
    case LoadConversation =>
      (w, if env.reply != Fine then Unavailable
          else if w.rows.conversation.None? then NotFound else Found(w.rows.conversation.value))
    case EnsureRun(_) =>
      (w, match env.ensure
          case Ensured(ref) => Running(ref)
          case MustRelaunch => RelaunchRequired
          case EnsureFailed => Unavailable)
    case StartRun => (w, if env.started.None? then Unavailable else Running(env.started.value))
    case RecordRef(_, _) => if !env.refValid then (w, Invalid) else Attempt(w, n, Lifecycle, call, env.reply)
    case Invoke => (w, if env.invoked then Invoked else Unavailable)
    case Fail(_, _) => Attempt(w, n, FailureWrite, call, env.reply)
  }

  datatype DispatchPhase =
    | AtLoadJob
    | AtCheckJob(copy: Session)
    | AtLoadConversation(copy: Session, valid: bool)
    | AtEnsure(copy: Session, conversation: Conversation, known: string)
    | AtStart(copy: Session, conversation: Conversation)
    | AtRecordRef(copy: Session, conversation: Conversation, ref: string)
    | AtInvoke(copy: Session, conversation: Conversation)
    | AtFail(copy: Session, projection: Option<Conversation>)
    | Answered(ok: bool)

  /** A call that was made: its result, the reply of the store, and the rows at that moment. */
  datatype Did = Did(call: Call, result: Result, reply: Reply, rows: Rows)

  /** One delivery of a dispatch message. Whether a MicroVM dispatcher is wired for the session, and whether it is a
      turn controller, does not change during the delivery. The history is what happened, kept for the proofs. */
  datatype Dispatcher = Dispatcher(turn: string, receive: int, wired: bool, controller: bool, phase: DispatchPhase,
                                   history: seq<Did>)

  function Delivered(turn: string, receive: int, wired: bool, controller: bool): Dispatcher {
    Dispatcher(turn, receive, wired, controller, if receive < 1 then Answered(false) else AtLoadJob, [])
  }

  function NextCall(p: DispatchPhase): Call
    requires !p.Answered?
  {
    match p
    case AtLoadJob => LoadJob
    case AtCheckJob(_) => CheckJob
    case AtLoadConversation(_, _) => LoadConversation
    case AtEnsure(_, _, known) => EnsureRun(known)
    case AtStart(_, _) => StartRun
    case AtRecordRef(copy, _, ref) => RecordRef(copy, ref)
    case AtInvoke(_, _) => Invoke
    case AtFail(copy, conv) => Fail(copy, conv)
  }

  /** The private copy of the session that a dispatcher carries. */
  function CarriedCopy(p: DispatchPhase): Option<Session> {
    match p
    case AtLoadJob => None
    case AtCheckJob(copy) => Some(copy)
    case AtLoadConversation(copy, _) => Some(copy)
    case AtEnsure(copy, _, _) => Some(copy)
    case AtStart(copy, _) => Some(copy)
    case AtRecordRef(copy, _, _) => Some(copy)
    case AtInvoke(copy, _) => Some(copy)
    case AtFail(copy, _) => Some(copy)
    case Answered(_) => None
  }

  /** With the conversation at hand: fail an invalid job, drop one that does not apply any more, else reuse a recorded
      execution where a controller can revalidate it, or start one. */
  function WithConversation(d: Dispatcher, copy: Session, valid: bool, conv: Conversation): DispatchPhase {
    if !valid then AtFail(copy, Some(conv))
    else if copy.status != InProgress || copy.turn != d.turn then Answered(true)
    else if !d.wired then AtFail(copy, Some(conv))
    else if d.controller && copy.lifecycleRef.Some? then AtEnsure(copy, conv, copy.lifecycleRef.value)
    else AtStart(copy, conv)
  }

  /** After the lifecycle write: a transient failure is retried while deliveries remain, any other is terminalized. */
  function AfterRecordRef(d: Dispatcher, copy: Session, conv: Conversation, ref: string,
                          result: Result): DispatchPhase {
    match result
    case Accepted =>
      if d.controller then AtInvoke(WithRef(copy, ref).(version := copy.version + 1), conv) else Answered(true)
    case Invalid => AtFail(copy, Some(conv))
    case _ => if d.receive < MAX_RECEIVE_COUNT then Answered(false) else AtFail(copy, Some(conv))
  }

  function Resume(d: Dispatcher, result: Result): DispatchPhase {
    match (d.phase, result)
    case (AtLoadJob, Got(session)) => AtCheckJob(session)
    case (AtLoadJob, NotFound) => Answered(true)
    case (AtCheckJob(copy), Verdict(valid)) => AtLoadConversation(copy, valid)
    case (AtLoadConversation(copy, valid), Found(conv)) => WithConversation(d, copy, valid, conv)
    case (AtLoadConversation(copy, _), NotFound) => AtFail(copy, None)
    case (AtEnsure(copy, conv, _), Running(ref)) => AtRecordRef(copy, conv, ref)
    case (AtEnsure(copy, conv, _), RelaunchRequired) => AtStart(copy, conv)
    case (AtEnsure(copy, conv, _), _) => AtFail(copy, Some(conv))
    case (AtStart(copy, conv), Running(ref)) => AtRecordRef(copy, conv, ref)
    case (AtStart(copy, conv), _) => AtFail(copy, Some(conv))
    case (AtRecordRef(copy, conv, ref), _) => AfterRecordRef(d, copy, conv, ref, result)
    case (AtInvoke(_, _), Invoked) => Answered(true)
    case (AtInvoke(copy, conv), _) => AtFail(copy, Some(conv))
    case (AtFail(_, _), Accepted) => Answered(true)
    case (_, _) => Answered(false)
  }

  /** Makes the next call, records it and moves on. */
  function DispatchStep(w: World, n: nat, d: Dispatcher, env: Env): (World, Dispatcher) {
    if d.phase.Answered? then (w, d)
    else
      var call := NextCall(d.phase);
      var (w', result) := Perform(w, n, call, env);
      (w', d.(phase := Resume(d, result), history := d.history + [Did(call, result, env.reply, w.rows)]))
  }

  // ---------------------------------------------------------------- turn runner

  datatype Action = ConstructSection | RenderReview | Finalize | Wait | FailRecoverably

  /** The next action, from the durable typed candidate alone. */
  function Decide(s: Session): Action {
    if s.status != InProgress then
      if s.status == AssistantTurnReady || s.status == DeclarationReady || s.status == Published then Wait
      else FailRecoverably
    else if s.candidate.None? then FailRecoverably
    else match s.candidate.value.phase
         case Section => ConstructSection
         case Affirmed => Finalize
         case Review => RenderReview
         case Finalized => FailRecoverably
  }

  datatype Runner = Idle(turn: string) | Active(turn: string, copy: Session, action: Action)

  /** What the runner does next: an accepted tool result, provider evidence, or the end of its turn. */
  datatype Move = Tool(hash: string, phase: CandidatePhase) | Evidence | EndTurn

  function LoadTurn(w: World, r: Runner): Runner { Active(r.turn, w.rows.session, Decide(w.rows.session)) }

  /** The session a move wants to store, or none when the move does not apply to this copy. */
  function Wanted(copy: Session, action: Action, move: Move): Option<(Kind, Session)> {
    if copy.candidate.None? then None
    else
      var c := copy.candidate.value;
      match (move, action)
      case (Tool(hash, phase), ConstructSection) =>
        if c.phase == Section && (phase == Section || phase == Review)
        then Some((Checkpoint, copy.(candidate := Some(c.(revision := c.revision + 1, hash := hash, phase := phase)))))
        else None
      case (Evidence, ConstructSection) => Some((Checkpoint, copy))
      case (EndTurn, ConstructSection) => Some((Assistant, copy.(status := AssistantTurnReady)))
      case (EndTurn, RenderReview) => Some((Assistant, copy.(status := AssistantTurnReady)))
      case (EndTurn, Finalize) =>
        Some((Finalization, copy.(status := DeclarationReady, candidate := Some(c.(phase := Finalized)))))
      case _ => None
  }

  predicate WriteGuard(rows: Rows, kind: Kind, item: Session, copy: Session, turn: string) {
    match kind
    case Checkpoint => CheckpointGuard(rows, item, copy.version, turn, copy.Revision(), copy.Hash())
    case Assistant => AssistantGuard(rows, item, copy.version, turn, copy.Revision(), copy.Hash())
    case Finalization => FinalizeGuard(rows, item, copy.version, turn, copy.Revision(), copy.Hash())
    case _ => false
  }

  /** One guarded write of the runner. Its copy moves on only when it was told that the write was accepted;
      finalization leaves the copy's version behind. */
  function RunnerStep(w: World, n: nat, r: Runner, move: Move, reply: Reply): (World, Runner) {
    if r.Idle? then (w, if reply == Fine then LoadTurn(w, r) else r)
    else
      var wanted := Wanted(r.copy, r.action, move);
      if wanted.None? || reply == Fails
        || !WriteGuard(w.rows, wanted.value.0, wanted.value.1, r.copy, r.turn) then (w, r)
      else
        var (kind, item) := wanted.value;
        var rows := if kind == Checkpoint then Advance(w.rows, item) else Project(w.rows, item);
        var w' := Commit(w, kind, ByRunner(n), rows);
        if reply == Lost then (w', r)
        else if kind == Finalization then (w', r.(copy := item))
        else (w', r.(copy := item.(version := r.copy.version + 1)))
  }

  // ---------------------------------------------------------------- failure writer

  datatype FailureWriter = Pending(turn: string) | Loaded(turn: string, copy: Session) | Closed(ok: bool)

  predicate TerminalForFailure(s: Status) { s == Failed || s == DeclarationReady || s == Published }

  /** RecordFailure: load, refuse terminal sessions and other turns, then fail under the loaded version. */
  function FailureStep(w: World, n: nat, f: FailureWriter, reply: Reply): (World, FailureWriter) {
    match f
    case Pending(turn) =>
      if reply != Fine || TerminalForFailure(w.rows.session.status)
        || w.rows.session.turn != turn then (w, Closed(false))
      else (w, Loaded(turn, w.rows.session))
    case Loaded(turn, copy) =>
      if reply == Fails || !FailGuard(w.rows, copy.version, copy.status, copy.turn, turn) then (w, Closed(false))
      else (Commit(w, FailureWrite, ByFailureWriter(n), FailedRows(w.rows)), Closed(reply == Fine))
    case Closed(_) => (w, f)
  }
}
