/** What the turn decision leads to (cmd/hosted-genesis-microvm-workload/actor.go, runner.go): which turns end in an
    assistant turn, which in a finalization, and for which sessions a runner writes at all. */
module GenesisTurns {
  import opened Base
  import opened GenesisStore
  import opened GenesisActors
  import opened GenesisSystem

  /** The action of a runner suits the candidate it carries. A section may have become a review by the runner's own
      tools. */
  predicate ActionFits(r: Runner) {
    r.Active? && r.copy.status == InProgress && r.copy.candidate.Some? ==>
      match r.copy.candidate.value.phase
      case Section => r.action == ConstructSection
      case Review => r.action == RenderReview || r.action == ConstructSection
      case Affirmed => r.action == Finalize
      case Finalized => r.action == FailRecoverably
  }

  lemma LoadFits(w: World, r: Runner)
    ensures ActionFits(LoadTurn(w, r))
  {
  }

  lemma RunnerFits(w: World, n: nat, r: Runner, move: Move, reply: Reply)
    requires ActionFits(r)
    ensures ActionFits(RunnerStep(w, n, r, move, reply).1) && RunnerStep(w, n, r, move, reply).1.turn == r.turn
  {
  }

  ghost predicate RunnersFit(s: System) { forall n <- s.runners :: ActionFits(s.runners[n]) }

  lemma RunnersFitNext(s: System, e: Event)
    requires RunnersFit(s)
    ensures RunnersFit(Step(s, e))
  {
    if e.RunnerEvent? && e.n in s.runners {
      RunnerFits(s.world, e.n, s.runners[e.n], e.move, e.reply);
    }
  }

  lemma {:induction false} RunFits(rows: Rows, es: seq<Event>)
    ensures RunnersFit(Run(Start(rows), es))
    decreases |es|
  {
    if |es| > 0 {
      RunFits(rows, es[..|es| - 1]);
      RunnersFitNext(Run(Start(rows), es[..|es| - 1]), es[|es| - 1]);
    }
  }

  /** What is decided, for every session: to wait where the turn has ended or the genesis is published, to work on a
      candidate in progress by its phase, and to fail recoverably in every other case. */
  lemma Decisions(s: Session)
    ensures Decide(s) == Wait <==>
            s.status == AssistantTurnReady || s.status == DeclarationReady || s.status == Published
    ensures Decide(s) == FailRecoverably <==>
            || s.status == Created || s.status == Failed
            || (s.status == InProgress && (s.candidate.None? || s.candidate.value.phase == Finalized))
  {
  }

  /** A write that is bound to a candidate is refused unless the stored session is in progress, at the version, on
      the turn and with the candidate, by revision and hash, from which it was made. */
  lemma BoundWrites(rows: Rows, item: Session, version: nat, turn: string, revision: nat, hash: string)
    ensures CheckpointGuard(rows, item, version, turn, revision, hash)
            || AssistantGuard(rows, item, version, turn, revision, hash)
            || FinalizeGuard(rows, item, version, turn, revision, hash) ==>
              var s := rows.session;
              && s.version == version && s.status == InProgress && s.turn == turn == item.turn
              && s.Revision() == revision && s.Hash() == hash
  {
  }

  // ---------------------------------------------------------------- the end of a turn

  /** The runner is up to date with a session in progress on its turn, with a candidate and its conversation. */
  predicate CanEnd(w: World, r: Runner) {
    && r.Active? && r.copy == w.rows.session && r.copy.status == InProgress && r.copy.candidate.Some?
    && r.turn != "" && r.copy.turn == r.turn && r.copy.Hash() != ""
    && ConversationAt(w.rows, InProgress, r.turn)
  }

  /** How the turn of a candidate ends. */
  function Ending(p: CandidatePhase): Option<Kind> {
    match p
    case Section => Some(Assistant)
    case Review => Some(Assistant)
    case Affirmed => Some(Finalization)
    case Finalized => None
  }

  /** The write that ends the turn, or none. */
  predicate EndsWith(w: World, w': World, n: nat, kind: Option<Kind>) {
    match kind
    case None => w' == w
    case Some(k) => |w'.log| == |w.log| + 1 && w'.log[|w.log|].kind == k && w'.log[|w.log|].writer == ByRunner(n)
  }

  lemma TurnEnds(w: World, n: nat, r: Runner)
    requires CanEnd(w, r) && ActionFits(r)
    ensures EndsWith(w, RunnerStep(w, n, r, EndTurn, Fine).0, n, Ending(r.copy.candidate.value.phase))
    ensures var (w', r') := RunnerStep(w, n, r, EndTurn, Fine);
            r'.Active? && r'.copy.status == w'.rows.session.status && r'.copy.candidate == w'.rows.session.candidate
  {
  }

  /** In every run, a runner that is not overtaken ends its turn as its candidate demands: with an assistant turn for
      sections and reviews, with the finalization of an affirmed candidate, and with no write for a finalized one. */
  lemma TurnsEndAsDecided(rows: Rows, es: seq<Event>, n: nat)
    ensures var s := Run(Start(rows), es);
            n in s.runners && CanEnd(s.world, s.runners[n]) ==>
              EndsWith(s.world, Step(s, RunnerEvent(n, EndTurn, Fine)).world, n,
                Ending(s.runners[n].copy.candidate.value.phase))
  {
    var s := Run(Start(rows), es);
    RunFits(rows, es);
    if n in s.runners && CanEnd(s.world, s.runners[n]) {
      TurnEnds(s.world, n, s.runners[n]);
    }
  }

  // ---------------------------------------------------------------- checkpoints

  /** The runner is up to date with a session in progress on its turn, whose candidate it may construct. */
  predicate CanCheckpoint(w: World, r: Runner) {
    && r.Active? && r.copy == w.rows.session && r.copy.status == InProgress && r.copy.candidate.Some?
    && r.turn != "" && r.copy.turn == r.turn && r.copy.Hash() != "" && r.copy.candidate.value.phase == Section
  }

  /** One checkpoint of the runner, with the session it stored; the runner carries on with the row as it now is. */
  predicate Checkpointed(w: World, w': World, n: nat, r': Runner, stored: Session) {
    && w'.log == w.log + [Write(Checkpoint, ByRunner(n), w.rows, w'.rows)]
    && w'.rows == w.rows.(session := stored)
    && r'.Active? && r'.copy == stored
  }

  /** The session after a tool result was accepted: one version and one revision on, with the result's hash and phase.
      */
  function AfterTool(s: Session, hash: string, phase: CandidatePhase): Session
    requires s.candidate.Some?
  {
    var c := s.candidate.value;
    s.(version := s.version + 1, candidate := Some(Candidate(c.revision + 1, hash, phase, c.sourceTurn)))
  }

  lemma ToolCheckpoints(w: World, n: nat, r: Runner, hash: string, phase: CandidatePhase)
    requires CanCheckpoint(w, r) && ActionFits(r) && (phase == Section || phase == Review)
    ensures var (w', r') := RunnerStep(w, n, r, Tool(hash, phase), Fine);
            Checkpointed(w, w', n, r', AfterTool(w.rows.session, hash, phase))
  {
  }

  lemma EvidenceCheckpoints(w: World, n: nat, r: Runner)
    requires CanCheckpoint(w, r) && ActionFits(r)
    ensures var (w', r') := RunnerStep(w, n, r, Evidence, Fine);
            Checkpointed(w, w', n, r', w.rows.session.(version := w.rows.session.version + 1))
  {
  }

  /** In every run, a runner that is not overtaken and constructs a section stores every tool result it is given, and
      every piece of provider evidence, by exactly one checkpoint, and carries on from the stored row. */
  lemma CheckpointsLand(rows: Rows, es: seq<Event>, n: nat, hash: string, phase: CandidatePhase)
    requires phase == Section || phase == Review
    ensures var s := Run(Start(rows), es);
            n in s.runners && CanCheckpoint(s.world, s.runners[n]) ==>
              var row := s.world.rows.session;
              var s1 := Step(s, RunnerEvent(n, Tool(hash, phase), Fine));
              var s2 := Step(s, RunnerEvent(n, Evidence, Fine));
              && Checkpointed(s.world, s1.world, n, s1.runners[n], AfterTool(row, hash, phase))
              && Checkpointed(s.world, s2.world, n, s2.runners[n], row.(version := row.version + 1))
  {
    var s := Run(Start(rows), es);
    RunFits(rows, es);
    if n in s.runners && CanCheckpoint(s.world, s.runners[n]) {
      ToolCheckpoints(s.world, n, s.runners[n], hash, phase);
      EvidenceCheckpoints(s.world, n, s.runners[n]);
    }
  }

  /** Loading a turn gives the runner the stored row; a failed load leaves it idle. */
  lemma LoadsTheRow(w: World, n: nat, turn: string, move: Move, reply: Reply)
    ensures var (w', r') := RunnerStep(w, n, Idle(turn), move, reply);
            w' == w && if reply == Fine then r'.Active? && r'.copy == w.rows.session
              && r'.turn == turn else r' == Idle(turn)
  {
  }

  // ---------------------------------------------------------------- and nothing else

  /** A runner writes for a candidate of its own turn in progress, and finalizes exactly the affirmed ones. */
  predicate RunnerWriteOk(s: System, x: Write) {
    x.writer.ByRunner? ==>
      && x.writer.n in s.runners
      && x.Before().status == InProgress && x.Before().candidate.Some? && x.Before().turn == s.runners[x.writer.n].turn
      && (x.kind == Checkpoint || x.kind == Assistant || x.kind == Finalization)
      && (x.kind == Finalization <==> x.Before().candidate.value.phase == Affirmed)
      && x.Before().candidate.value.phase != Finalized
  }

  lemma RunnerWrites(w: World, n: nat, r: Runner, move: Move, reply: Reply)
    requires ActionFits(r) && (r.Active? ==> RunnerOk(w, r))
    requires RunnerStep(w, n, r, move, reply).0 != w
    ensures var w' := RunnerStep(w, n, r, move, reply).0;
            && |w'.log| == |w.log| + 1 && w'.log[|w.log|].Before() == w.rows.session
            && var x := w'.log[|w.log|];
               && x.Before().status == InProgress && x.Before().candidate.Some? && x.Before().turn == r.turn
               && (x.kind == Checkpoint || x.kind == Assistant || x.kind == Finalization)
               && (x.kind == Finalization <==> x.Before().candidate.value.phase == Affirmed)
               && x.Before().candidate.value.phase != Finalized
  {
  }

  lemma NewRunnerWrite(first: Rows, s: System, e: Event)
    requires Inv(first, s) && RunnersFit(s) && Step(s, e).world != s.world
    ensures |Step(s, e).world.log| == |s.world.log| + 1
        && RunnerWriteOk(Step(s, e), Step(s, e).world.log[|s.world.log|])
  {
    StepOk(first, s, e);
    if e.RunnerEvent? {
      var r := s.runners[e.n];
      RunnerWrites(s.world, e.n, r, e.move, e.reply);
      RunnerFits(s.world, e.n, r, e.move, e.reply);
    }
  }

  lemma OldRunnerWrite(s: System, e: Event, x: Write)
    requires RunnersFit(s) && RunnerWriteOk(s, x)
    ensures RunnerWriteOk(Step(s, e), x)
  {
    if e.RunnerEvent? && e.n in s.runners {
      RunnerFits(s.world, e.n, s.runners[e.n], e.move, e.reply);
    }
  }

  lemma LogAfter(first: Rows, s: System, e: Event)
    requires Inv(first, s)
    ensures s.world.log <= Step(s, e).world.log
    ensures Step(s, e).world == s.world || |Step(s, e).world.log| == |s.world.log| + 1
  {
    StepOk(first, s, e);
  }

  ghost predicate AllRunnerWritesOk(s: System) {
    forall i :: 0 <= i < |s.world.log| ==> RunnerWriteOk(s, s.world.log[i])
  }

  lemma OldRunnerWrites(s: System, s': System, e: Event)
    requires RunnersFit(s) && AllRunnerWritesOk(s) && s' == Step(s, e) && s.world.log <= s'.world.log
    ensures forall i :: 0 <= i < |s.world.log| ==> RunnerWriteOk(s', s'.world.log[i])
  {
    forall i | 0 <= i < |s.world.log| ensures RunnerWriteOk(s', s'.world.log[i]) {
      assert RunnerWriteOk(s, s.world.log[i]);
      OldRunnerWrite(s, e, s.world.log[i]);
    }
  }

  lemma OldAndNew(s: System, k: nat)
    requires k <= |s.world.log| <= k + 1 && forall i :: 0 <= i < k ==> RunnerWriteOk(s, s.world.log[i])
    requires |s.world.log| == k + 1 ==> RunnerWriteOk(s, s.world.log[k])
    ensures AllRunnerWritesOk(s)
  {
  }

  lemma RunnerWritesNext(first: Rows, s: System, e: Event)
    requires Inv(first, s) && RunnersFit(s) && AllRunnerWritesOk(s)
    ensures AllRunnerWritesOk(Step(s, e))
  {
    LogAfter(first, s, e);
    OldRunnerWrites(s, Step(s, e), e);
    if Step(s, e).world != s.world {
      NewRunnerWrite(first, s, e);
    }
    OldAndNew(Step(s, e), |s.world.log|);
  }

  /** In every run, every write of a runner lands on a session in progress with a candidate, on the runner's own turn,
      and is a finalization exactly for an affirmed candidate; nothing is ever written for a finalized one. */
  lemma {:induction false} RunnersWriteOnlyForTheirTurn(rows: Rows, es: seq<Event>)
    ensures AllRunnerWritesOk(Run(Start(rows), es))
    decreases |es|
  {
    if |es| > 0 {
      RunnersWriteOnlyForTheirTurn(rows, es[..|es| - 1]);
      RunOk(rows, Start(rows), es[..|es| - 1]);
      RunFits(rows, es[..|es| - 1]);
      RunnerWritesNext(rows, Run(Start(rows), es[..|es| - 1]), es[|es| - 1]);
    }
  }
}
