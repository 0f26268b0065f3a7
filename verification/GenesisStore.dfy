/** The hosted-genesis session row and its conversation projection, with the guarded writes of
    internal/store/hosted_genesis_sessions.go. Every write compares version and status and raises
    the version by one. */
module GenesisStore {
  import opened Base

  datatype Status = Created | InProgress | AssistantTurnReady | DeclarationReady | Published | Failed

  /** The Host-owned transition rules. */
  predicate LegalTransition(from: Status, to: Status) {
    if from == to then true
    else if from == Published || from == Failed then false
    else if from == DeclarationReady then to == Published
    else if to == Failed then true
    else match from
         case Created => to == InProgress
         case InProgress => to == AssistantTurnReady || to == DeclarationReady
         case AssistantTurnReady => to == InProgress || to == DeclarationReady
         case _ => false
  }

  datatype CandidatePhase = Section | Review | Affirmed | Finalized

  datatype Candidate = Candidate(revision: nat, hash: string, phase: CandidatePhase, sourceTurn: string)

  datatype Session = Session(version: nat, status: Status, turn: string, candidate: Option<Candidate>,
                             lifecycleRef: Option<string>) {
    /** The candidate revision column: zero without a candidate. */
    function Revision(): nat { if candidate.Some? then candidate.value.revision else 0 }
    function Hash(): string { if candidate.Some? then candidate.value.hash else "" }
  }

  datatype Conversation = Conversation(status: Status, turn: string)

  datatype Rows = Rows(session: Session, conversation: Option<Conversation>)

  /** The optimistic lock shared by all writes. */
  predicate Locked(rows: Rows, version: nat, status: Status) {
    rows.session.version == version && rows.session.status == status
  }

  predicate ConversationAt(rows: Rows, status: Status, turn: string) {
    rows.conversation.Some? && rows.conversation.value == Conversation(status, turn)
  }

  function Advance(rows: Rows, item: Session): Rows {
    rows.(session := item.(version := rows.session.version + 1))
  }

  /** UpdateHostedGenesisSession. */
  predicate UpdateGuard(rows: Rows, item: Session, version: nat, status: Status) {
    LegalTransition(status, item.status) && Locked(rows, version, status)
  }

  /** CheckpointHostedGenesisCandidate: also bound to turn, candidate revision and candidate hash. */
  predicate CheckpointGuard(rows: Rows, item: Session, version: nat, turn: string, revision: nat, hash: string) {
    && item.candidate.Some? && turn != "" && hash != "" && item.turn == turn
    && UpdateGuard(rows, item, version, InProgress)
    && rows.session.turn == turn && rows.session.Revision() == revision && rows.session.Hash() == hash
  }

  /** RecordHostedGenesisAssistantTurnAndConversation: the candidate must not have moved. */
  predicate AssistantGuard(rows: Rows, item: Session, version: nat, turn: string, revision: nat, hash: string) {
    && CheckpointGuard(rows, item, version, turn, revision, hash)
    && item.status == AssistantTurnReady && item.Revision() == revision && item.Hash() == hash
    && rows.session.candidate.Some? && rows.session.candidate.value.phase == item.candidate.value.phase
    && ConversationAt(rows, InProgress, turn)
  }

  /** FinalizeHostedGenesisCandidateAndConversation: from the affirmed candidate, unchanged in content. */
  predicate FinalizeGuard(rows: Rows, item: Session, version: nat, turn: string, revision: nat, hash: string) {
    && CheckpointGuard(rows, item, version, turn, revision, hash)
    && item.status == DeclarationReady && item.Revision() == revision && item.Hash() == hash
    && item.candidate.value.phase == Finalized
    && rows.session.candidate.Some? && rows.session.candidate.value.phase == Affirmed
    && ConversationAt(rows, InProgress, turn)
  }

  /** FailHostedGenesisSessionAndConversation: writes only the terminal fields. */
  predicate FailGuard(rows: Rows, version: nat, status: Status, turn: string, conversationTurn: string) {
    && LegalTransition(status, Failed) && Locked(rows, version, status) && rows.session.turn == turn
    && ConversationAt(rows, status, conversationTurn)
  }

  function FailedRows(rows: Rows): Rows
    requires rows.conversation.Some?
  {
    Rows(rows.session.(status := Failed, version := rows.session.version + 1),
         Some(rows.conversation.value.(status := Failed)))
  }

  /** A projected write: session and conversation move together. */
  function Project(rows: Rows, item: Session): Rows
    requires rows.conversation.Some?
  {
    Advance(rows, item).(conversation := Some(rows.conversation.value.(status := item.status)))
  }
}
