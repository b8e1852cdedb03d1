/** The durable run records shared by both journals, and the status machine they follow. */
module Runs {

  datatype Option<+T> = None | Some(value: T)

  // UUIDs and wall-clock readings; microseconds are the database's clock resolution.
  type Uuid = nat
  type Time = int
  const MICROSECONDS := 1_000_000

  // SHA-256 over canonical JSON is taken to be injective, so a digest carries what it digests.
  datatype Digest<+T> = Digest(of: T)

  datatype Access = Access(tenant: string, user: string, permissions: set<string>)
  datatype Owner = Owner(digest: Digest<(string, string, string)>)
  datatype Scope = Scope(digest: Digest<Access>)

  function Principal(profile: string, access: Access): (Owner, Scope) {
    (Owner(Digest((profile, access.tenant, access.user))), Scope(Digest(access)))
  }

  datatype RunStatus =
    | Queued | Running | CancellationRequested
    | Completed | Failed | Cancelled | Interrupted

  predicate Terminal(status: RunStatus) {
    status in {Completed, Failed, Cancelled, Interrupted}
  }

  // The two statuses in which a worker may be executing the question.
  predicate InFlight(status: RunStatus) {
    status in {Running, CancellationRequested}
  }

  // Agent reports are opaque here; an answer carries the report of the agents that produced it.
  type Report = nat
  // `source` is the fingerprint of the data it was computed from.
  datatype Answer = Answer(body: nat, source: string, agentRun: Option<Report>)

  datatype ErrorCode =
    | ExecutionExpired | AuthorityExpiredCode | WorkerStopped | RunFailed | WorkerRestarted | AgentCode(code: nat)

  datatype RunRequest = RunRequest(
    clientRequestId: Uuid,
    conversationId: Uuid,
    expectedRevision: nat,
    question: string,
    asOf: Time,
    sourceFingerprint: Option<string>,
    definitionSnapshotId: nat)

  datatype Conversation = Conversation(
    conversationId: Uuid,
    revision: nat,
    title: string,
    latestRunId: Option<Uuid>,
    createdAt: Time)

  datatype RunSnapshot = RunSnapshot(
    runId: Uuid,
    request: RunRequest,
    sourceBinding: string,
    status: RunStatus,
    sequence: nat,
    updatedAt: Time,
    progress: Option<Report>,
    result: Option<Answer>,
    errorCode: Option<ErrorCode>)

  datatype EventKind = Accepted | Started | AgentProgress | Became(status: RunStatus)

  datatype RunEvent = RunEvent(
    runId: Uuid,
    sequence: nat,
    kind: EventKind,
    status: RunStatus,
    progress: Option<Report>)

  datatype RunError =
    | ConversationUnavailable | RunUnavailable | ConversationCapacity | AuthorityInvalid | AuthorityExpired
    | RequestConflict | ConversationChanged | ActiveQuestion | CapacityOccupied | StorageConflict
    | CursorOutside | CancelFirst | LeaseLost | ProgressBudget | TerminalRequired | AdmissionStopping

  datatype Outcome<+T> = Ok(value: T) | Err(error: RunError)

  datatype Grant = Grant(access: Access, expiresAt: Time)

  // The columns only the shared store's run table has; a single-worker row has none of them.
  datatype Extra =
    | Local
    | Shared(tenant: string, binding: string, grant: Grant, expiresAt: Time, fence: Option<Uuid>, leaseUntil: Option<Time>)

  // How a run is to end, and the run once it has.
  datatype Ending = Ending(status: RunStatus, result: Option<Answer>, code: Option<ErrorCode>)

  function Ended(run: RunSnapshot, ending: Ending): RunSnapshot {
    run.(status := ending.status, result := ending.result, errorCode := ending.code,
         progress := if ending.result.Some? then ending.result.value.agentRun else run.progress)
  }

  // How far a run still is from its end; only progress reports keep the rank.
  function Rank(status: RunStatus): nat {
    match status
    case Queued => 3
    case Running => 2
    case CancellationRequested => 1
    case _ => 0
  }

  // Every committed write of a run is one of these changes.
  predicate LegalChange(before: RunSnapshot, after: RunSnapshot) {
    && after.runId == before.runId
    && after.request == before.request
    && after.sourceBinding == before.sourceBinding
    && after.sequence == before.sequence + 1
    && (|| Rank(after.status) < Rank(before.status)
        || (before.status == after.status == Running && before.sequence < 60))
  }

  // The well-founded measure of a run: lexicographic in the status rank and the remaining progress budget.
  predicate MeasureDecreases(before: RunSnapshot, after: RunSnapshot) {
    || Rank(after.status) < Rank(before.status)
    || (Rank(after.status) == Rank(before.status) && 60 - after.sequence < 60 - before.sequence && 0 < 60 - before.sequence)
  }

  // What the sequence number can be in each status; a journal holds at most 62 events.
  predicate SequenceInRange(status: RunStatus, sequence: nat) {
    match status
    case Queued => sequence == 1
    case Running => 2 <= sequence <= 60
    case CancellationRequested => 2 <= sequence <= 61
    case _ => 2 <= sequence <= 62
  }

  lemma LegalChangeKeepsRange(before: RunSnapshot, after: RunSnapshot)
    requires LegalChange(before, after)
    requires SequenceInRange(before.status, before.sequence)
    ensures SequenceInRange(after.status, after.sequence)
    ensures MeasureDecreases(before, after)
    ensures !Terminal(before.status)
  {
  }

  // The part of a run that progress events carry to a client.
  datatype Visible = Visible(status: RunStatus, sequence: nat, progress: Option<Report>)

  function Shown(run: RunSnapshot): Visible {
    Visible(run.status, run.sequence, run.progress)
  }

  // What a client holding `start` believes after it has folded `events` in order.
  function Fold(start: Visible, events: seq<RunEvent>): Visible {
    if events == [] then start
    else
      var last := events[|events| - 1];
      var before := Fold(start, events[..|events| - 1]);
      before.(status := last.status, sequence := last.sequence, progress := last.progress)
  }
}
