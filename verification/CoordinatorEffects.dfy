/** What the coordinator answers to a submission, and which await decides how a run ends. */
module CoordinatorEffects {
  import opened Runs
  import opened RunTables
  import opened RunEffects
  import SqliteRuns
  import SqliteEffects
  import opened RunCoordinators

  // The stored run of the same conversation and request identifier.
  ghost predicate Stored(t: Tables, request: RunRequest, r: Uuid) {
    r in t.runs && t.runs[r].conversation == request.conversationId && t.runs[r].requestId == request.clientRequestId
  }

  // A repeated request gets its run back, or a conflict if it now says something else; a new one is admitted
  // exactly when there is a slot and the store admits it. Nothing else writes.
  lemma SubmissionEffect(t: Tables, open: bool, owner: Owner, scope: Scope, request: RunRequest, binding: string, runId: Uuid, wall: Time)
    requires Consistent(t)
    ensures var (t', outcome) := Submission(t, open, owner, scope, request, binding, runId, wall);
            && (open && SqliteEffects.Admits(t, owner, scope, request, runId) ==>
                  AfterAdmission(t, t', request, binding, Local, runId, wall) && outcome == Ok(t'.runs[runId].payload))
            && (!(open && SqliteEffects.Admits(t, owner, scope, request, runId)) ==> t' == t)
            && (!Belongs(t, owner, scope, request.conversationId) ==> outcome == Err(ConversationUnavailable))
            && (Belongs(t, owner, scope, request.conversationId) ==>
                  && (forall r :: Stored(t, request, r) ==>
                        outcome == if t.runs[r].payload.request == request then Ok(t.runs[r].payload) else Err(RequestConflict))
                  && (Unasked(t, request) && !open ==> outcome == Err(CapacityOccupied))
                  && (Unasked(t, request) && open && !SqliteEffects.Admits(t, owner, scope, request, runId) ==> outcome.Err?))
  {
    hide Consistent, SqliteRuns.Enqueue, SqliteEffects.Admits, Unasked;
    SqliteEffects.EnqueueEffect(t, owner, scope, request, binding, runId, wall);
    ExistingIsStored(t, request);
    AdmitsUnasked(t, owner, scope, request, runId);
  }

  lemma AdmitsUnasked(t: Tables, owner: Owner, scope: Scope, request: RunRequest, runId: Uuid)
    ensures SqliteEffects.Admits(t, owner, scope, request, runId) ==> Unasked(t, request) && Belongs(t, owner, scope, request.conversationId)
  {
  }

  lemma ExistingIsStored(t: Tables, request: RunRequest)
    requires Consistent(t)
    ensures Unasked(t, request) ==> RunTables.Existing(t, request) == Ok(None) && forall r :: !Stored(t, request, r)
    ensures !Unasked(t, request) ==> RunTables.Existing(t, request) != Ok(None)
    ensures forall r :: Stored(t, request, r) ==>
              RunTables.Existing(t, request) == if t.runs[r].payload.request == request then Ok(Some(t.runs[r].payload)) else Err(RequestConflict)
  {
    hide OrderOk, NumberingOk, JournalsOk, OnlyLatestActive;
    forall r | Stored(t, request, r)
      ensures RunTables.Existing(t, request) == if t.runs[r].payload.request == request then Ok(Some(t.runs[r].payload)) else Err(RequestConflict)
    {
      assert RowOk(t.convs, r, t.runs[r]);
      ExistingIs(t, r, request);
    }
    if Unasked(t, request) {
      forall r ensures !IsRequest(t, r, request) {}
    } else {
      var r :| r in t.runs && t.runs[r].conversation == request.conversationId && t.runs[r].requestId == request.clientRequestId;
      assert Stored(t, request, r);
    }
  }

  // The await that ends a coroutine decides: authority granted once more after the operation completes it,
  // a failure fails it under its code, a cancellation cancels it, or interrupts it at shutdown.
  lemma {:induction false} LastWakeupDecides(phase: Phase, wakeups: seq<Wakeup>, closing: bool)
    requires AllPossible(phase, wakeups, closing) && CourseThrough(phase, wakeups, closing).Over?
    ensures wakeups != []
    ensures var ending := CourseThrough(phase, wakeups, closing).ending;
            match wakeups[|wakeups| - 1]
            case Returned => ending.status == Completed && ending.result.Some? && ending.code == None
            case Produced(_) => false
            case AgentFailure(code) => ending == Ending(Failed, None, Some(AgentCode(code)))
            case Failure => ending == Ending(Failed, None, Some(RunFailed))
            case Cancellation => ending == if closing then Ending(Interrupted, None, Some(WorkerStopped)) else Ending(Cancelled, None, None)
    decreases |wakeups|
  {
    if CourseOf(phase, wakeups[0], closing).Onward? {
      LastWakeupDecides(CourseOf(phase, wakeups[0], closing).phase, wakeups[1..], closing);
      assert wakeups[1..][|wakeups| - 2] == wakeups[|wakeups| - 1];
    }
  }

  // A run nobody disturbs gets through both checks and ends with its operation's answer.
  lemma UndisturbedCompletes(answer: Answer, closing: bool)
    ensures var wakeups := [Returned, Produced(answer), Returned];
            && AllPossible(Authorizing, wakeups, closing)
            && CourseThrough(Authorizing, wakeups, closing) == Over(Ending(Completed, Some(answer), None))
  {
    var wakeups := [Returned, Produced(answer), Returned];
    assert wakeups[1..] == [Produced(answer), Returned] && wakeups[1..][1..] == [Returned] && wakeups[1..][1..][1..] == [];
    assert CourseThrough(Reauthorizing(answer), [Returned], closing) == Over(Ending(Completed, Some(answer), None));
    assert CourseThrough(Operating, [Produced(answer), Returned], closing) == Over(Ending(Completed, Some(answer), None));
    assert AllPossible(Reauthorizing(answer), [Returned], closing);
    assert AllPossible(Operating, [Produced(answer), Returned], closing);
  }
}
