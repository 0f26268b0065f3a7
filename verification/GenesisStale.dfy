/** Writers that were overtaken: a runner, a failure writer or a dispatcher whose copy of the session is older than the
    row. */
module GenesisStale {
  import opened Base
  import opened GenesisStore
  import opened GenesisActors
  import opened GenesisSystem

  /** The copy of the session a writer works from, if it has one. */
  function CopyIn(s: System, who: Writer): Option<Session> {
    match who
    case ByRunner(n) => if n in s.runners && s.runners[n].Active? then Some(s.runners[n].copy) else None
    case ByFailureWriter(n) => if n in s.failers && s.failers[n].Loaded? then Some(s.failers[n].copy) else None
    case ByDispatcher(n) => if n in s.dispatchers then CarriedCopy(s.dispatchers[n].phase) else None
    case ByControlPlane => None
  }

  /** The writer has given its answer. */
  predicate Over(s: System, who: Writer) {
    match who
    case ByFailureWriter(n) => n in s.failers && s.failers[n].Closed?
    case ByDispatcher(n) => n in s.dispatchers && s.dispatchers[n].phase.Answered?
    case _ => false
  }

  predicate Older(copy: Option<Session>, w: World) { copy.Some? && copy.value.version < w.rows.session.version }

  /** The writer's copy is older than the row, or it has no more to write. */
  predicate Overtaken(s: System, who: Writer) { Over(s, who) || Older(CopyIn(s, who), s.world) }

  // ---------------------------------------------------------------- stale writes are refused

  lemma StaleRunner(w: World, n: nat, r: Runner, move: Move, reply: Reply)
    requires r.Active? && r.copy.version < w.rows.session.version
    ensures RunnerStep(w, n, r, move, reply) == (w, r)
  {
  }

  lemma StaleFailer(w: World, n: nat, f: FailureWriter, reply: Reply)
    requires f.Closed? || (f.Loaded? && f.copy.version < w.rows.session.version)
    ensures FailureStep(w, n, f, reply).0 == w && FailureStep(w, n, f, reply).1.Closed?
  {
  }

  lemma StaleDispatcher(w: World, n: nat, d: Dispatcher, env: Env)
    requires d.phase.Answered? || Older(CarriedCopy(d.phase), w)
    ensures var (w', d') := DispatchStep(w, n, d, env);
            w' == w && (d'.phase.Answered? || Older(CarriedCopy(d'.phase), w))
  {
  }

  lemma VersionGrows(first: Rows, s: System, e: Event)
    requires Inv(first, s)
    ensures s.world.rows.session.version <= Step(s, e).world.rows.session.version
  {
    StepOk(first, s, e);
    OneWriteKeepsLog(first, s.world, Step(s, e).world, WriterOf(e));
  }

  /** The overtaken writer's own event writes nothing and leaves it overtaken. */
  lemma OwnEvent(s: System, e: Event, who: Writer)
    requires Overtaken(s, who) && WriterOf(e) == who
    ensures Step(s, e).world == s.world && Overtaken(Step(s, e), who)
  {
    match e {
      case RunnerEvent(n, move, reply) => StaleRunner(s.world, n, s.runners[n], move, reply);
      case FailerEvent(n, reply) => StaleFailer(s.world, n, s.failers[n], reply);
      case DispatchEvent(n, env) => StaleDispatcher(s.world, n, s.dispatchers[n], env);
      case _ =>
    }
  }

  /** Any other event leaves the writer and its copy alone. */
  lemma OtherEvent(s: System, e: Event, who: Writer)
    requires WriterOf(e) != who && (CopyIn(s, who).Some? || Over(s, who))
    ensures CopyIn(Step(s, e), who) == CopyIn(s, who) && (Over(s, who) ==> Over(Step(s, e), who))
  {
  }

  lemma OvertakenStep(first: Rows, s: System, e: Event, who: Writer)
    requires Inv(first, s) && Overtaken(s, who)
    ensures Overtaken(Step(s, e), who) && (WriterOf(e) == who ==> Step(s, e).world == s.world)
  {
    if WriterOf(e) == who {
      OwnEvent(s, e, who);
    } else {
      VersionGrows(first, s, e);
      OtherEvent(s, e, who);
    }
  }

  // ---------------------------------------------------------------- over runs

  ghost predicate SilentSince(log: seq<Write>, from: nat, who: Writer) {
    forall i :: from <= i < |log| ==> log[i].writer != who
  }

  lemma StillSilent(w: World, w': World, writer: Writer, from: nat, who: Writer)
    requires OneWrite(w, w', writer) && from <= |w.log| && SilentSince(w.log, from, who)
    requires writer == who ==> w' == w
    ensures SilentSince(w'.log, from, who)
  {
    forall i | from <= i < |w'.log| ensures w'.log[i].writer != who {
      assert i < |w.log| ==> w'.log[i] == w.log[i];
    }
  }

  lemma {:induction false} OvertakenRun(first: Rows, s: System, es: seq<Event>, who: Writer)
    requires Inv(first, s) && Overtaken(s, who)
    ensures Overtaken(Run(s, es), who) && SilentSince(Run(s, es).world.log, |s.world.log|, who)
    decreases |es|
  {
    if |es| > 0 {
      var m, e := Run(s, es[..|es| - 1]), es[|es| - 1];
      OvertakenRun(first, s, es[..|es| - 1], who);
      RunOk(first, s, es[..|es| - 1]);
      OvertakenStep(first, m, e, who);
      StepOk(first, m, e);
      StillSilent(m.world, Run(s, es).world, WriterOf(e), |s.world.log|, who);
    }
  }

  /** Once a writer's copy is older than the row, every later write from it is refused, in every continuation of every
      run: checkpoints, assistant turns and finalizations of a runner, lifecycle and failure writes of a dispatcher, and
      the write of a failure writer. */
  lemma StaleWriterStaysSilent(rows: Rows, past: seq<Event>, future: seq<Event>, who: Writer)
    requires Overtaken(Run(Start(rows), past), who)
    ensures var s := Run(Start(rows), past); SilentSince(Run(s, future).world.log, |s.world.log|, who)
  {
    RunOk(rows, Start(rows), past);
    OvertakenRun(rows, Run(Start(rows), past), future, who);
  }

  lemma CopyIsCopy(first: Rows, s: System, who: Writer)
    requires Inv(first, s) && CopyIn(s, who).Some?
    ensures CopyOk(s.world, CopyIn(s, who).value)
  {
    match who {
      case ByRunner(n) => assert RunnerOk(s.world, s.runners[n]);
      case ByDispatcher(n) => assert DispatcherOk(first, s.world, n, s.dispatchers[n]);
      case ByFailureWriter(n) => assert CopyOk(s.world, s.failers[n].copy);
    }
  }

  /** A write by anyone else does overtake a writer that was up to date. */
  lemma ForeignWriteOvertakes(rows: Rows, past: seq<Event>, e: Event, who: Writer)
    requires CopyIn(Run(Start(rows), past), who).Some?
    requires WriterOf(e) != who && Step(Run(Start(rows), past), e).world != Run(Start(rows), past).world
    ensures Overtaken(Step(Run(Start(rows), past), e), who)
  {
    var s := Run(Start(rows), past);
    RunOk(rows, Start(rows), past);
    StepOk(rows, s, e);
    OneWriteKeepsLog(rows, s.world, Step(s, e).world, WriterOf(e));
    CopyIsCopy(rows, s, who);
    OtherEvent(s, e, who);
  }
}
