/**
 The columns of the run tables, for saying what a transaction does to them without the functions that
 compute it.
 */
module RunEffects {
  import opened Runs
  import opened RunTables

  function Appended(journal: Journal, run: RunSnapshot, kind: EventKind): Journal {
    journal[run.sequence := RunEvent(run.runId, run.sequence, kind, run.status, run.progress)]
  }

  // One run row was rewritten, and the one event that records it was added; nothing else changed.
  ghost predicate Wrote(t: Tables, t': Tables, r: Uuid, row: Row, kind: EventKind) {
    && r in t.runs && r in t.events
    && t'.convs == t.convs && t'.order == t.order
    && t'.runs == t.runs[r := row] && t'.events == t.events[r := Appended(t.events[r], row.payload, kind)]
  }

  // The row with a new status, progress, answer and error code, one sequence further.
  function Next(row: Row, status: RunStatus, progress: Option<Report>, result: Option<Answer>, code: Option<ErrorCode>, wall: Time): Row {
    var run := row.payload;
    row.(status := status,
         payload := RunSnapshot(run.runId, run.request, run.sourceBinding, status, run.sequence + 1, wall, progress, result, code))
  }

  ghost predicate Belongs(t: Tables, owner: Owner, scope: Scope, c: Uuid) {
    c in t.convs && t.convs[c].owner == owner && t.convs[c].scope == scope
  }

  // Nothing of the conversation is queued, executing or being stopped.
  ghost predicate AtRest(t: Tables, c: Uuid) {
    forall r :: r in t.runs && t.runs[r].conversation == c ==> t.runs[r].status in {Completed, Failed, Cancelled, Interrupted}
  }

  // No run of the conversation carries the request's identifier.
  ghost predicate Unasked(t: Tables, request: RunRequest) {
    forall r :: r in t.runs && t.runs[r].conversation == request.conversationId ==> t.runs[r].requestId != request.clientRequestId
  }

  // Who may see a run: the identity and scope of its conversation.
  ghost predicate Reaches(t: Tables, owner: Owner, scope: Scope, r: Uuid) {
    r in t.runs && t.runs[r].conversation in t.convs
    && t.convs[t.runs[r].conversation].owner == owner && t.convs[t.runs[r].conversation].scope == scope
  }

  // The conversation counts one more run and is named after its question; the run is queued, and
  // its journal holds the one event of its acceptance.
  ghost predicate AfterAdmission(t: Tables, t': Tables, request: RunRequest, binding: string, extra: Extra, runId: Uuid, wall: Time) {
    var c := request.conversationId;
    var run := RunSnapshot(runId, request, binding, Queued, 1, wall, None, None, None);
    && c in t.convs && runId !in t.runs
    && t'.convs == t.convs[c := ConvRow(t.convs[c].owner, t.convs[c].scope,
                                        Conversation(t.convs[c].payload.conversationId, t.convs[c].payload.revision + 1,
                                                     if |request.question| <= 80 then request.question else request.question[..80],
                                                     Some(runId), t.convs[c].payload.createdAt))]
    && t'.order == t.order + [Key(runId, c)]
    && t'.runs == t.runs[runId := Row(c, request.clientRequestId, Digest(request), Queued, run, extra)]
    && t'.events == t.events[runId := map[1 := RunEvent(runId, 1, Accepted, Queued, None)]]
  }

  // The conversations and everything that hangs on them are gone, the rest is as it was and in its order.
  ghost predicate Removed(t: Tables, t': Tables, gone: set<Uuid>) {
    && t'.convs == t.convs - gone
    && (forall r :: r in t'.runs <==> r in t.runs && t.runs[r].conversation !in gone)
    && (forall r :: r in t'.runs ==> t'.runs[r] == t.runs[r] && JournalFor(t', r) == JournalFor(t, r))
    && (forall r :: r in t'.events ==> r in t'.runs)
    && (forall key :: key in t'.order <==> key in t.order && key.conversation !in gone)
    && (forall c :: RunsOf(t'.order, c) == if c in gone then [] else RunsOf(t.order, c))
  }

  lemma DropRemoves(t: Tables, gone: set<Uuid>)
    ensures Removed(t, DropConversations(t, gone), gone)
  {
    hide RunsOf, Surviving;
    forall key ensures key in Surviving(t.order, gone) <==> key in t.order && key.conversation !in gone {
      SurvivingKeeps(t.order, gone, key);
    }
    forall c ensures RunsOf(Surviving(t.order, gone), c) == if c in gone then [] else RunsOf(t.order, c) {
      RunsOfSurviving(t.order, gone, c);
    }
    assert DropConversations(t, gone).convs == t.convs - gone;
  }
}
