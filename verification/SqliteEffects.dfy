/**
 What each transaction of the single-worker store does to the columns of its rows, said a second time
 without the functions that compute it, and what follows for cancelled runs over whole histories.
 */
module SqliteEffects {
  import opened Runs
  import opened RunTables
  import opened RunEffects
  import opened SqliteRuns
  import RunStores

  lemma Filed(t: Tables, r: Uuid)
    requires Consistent(t) && r in t.runs
    ensures t.runs[r].payload.runId == r && t.runs[r].status == t.runs[r].payload.status
    ensures t.runs[r].conversation == t.runs[r].payload.request.conversationId
    ensures r in t.events && JournalFor(t, r) == t.events[r]
  {
    RunFacts(t, r);
  }

  // ---------------------------------------------------------------- the transactions of a worker

  lemma StartEffect(t: Tables, r: Uuid, wall: Time)
    requires Consistent(t) && r in t.runs
    ensures var (t', outcome) := Start(t, r, wall);
            var row := t.runs[r];
            if row.status == Queued then
              outcome == Ok(true) && Wrote(t, t', r, Next(row, Running, row.payload.progress, row.payload.result, row.payload.errorCode, wall), Started)
            else t' == t && outcome == Ok(false)
  {
    hide Consistent;
    Filed(t, r);
  }

  lemma ProgressEffect(t: Tables, r: Uuid, report: Report, wall: Time)
    requires Consistent(t) && r in t.runs
    ensures var (t', outcome) := Progress(t, r, report, wall);
            var row := t.runs[r];
            if row.status != Running then t' == t && outcome == Ok(())
            else if row.payload.sequence >= 60 then t' == t && outcome == Err(ProgressBudget)
            else outcome == Ok(()) && Wrote(t, t', r, Next(row, Running, Some(report), row.payload.result, row.payload.errorCode, wall), AgentProgress)
  {
    hide Consistent;
    Filed(t, r);
  }

  // A finished run keeps its end. One asked to stop ends cancelled, without an answer, unless it is
  // interrupted; any other ends with the status, answer and code that were wanted.
  lemma FinishEffect(t: Tables, r: Uuid, wanted: Ending, wall: Time)
    requires Consistent(t) && r in t.runs && wanted.status in {Completed, Failed, Cancelled, Interrupted}
    ensures var (t', outcome) := Finish(t, r, wanted, wall);
            var row := t.runs[r];
            && r in t'.runs && outcome == Ok(t'.runs[r].payload)
            && if row.status in {Completed, Failed, Cancelled, Interrupted} then t' == t
               else if row.status == CancellationRequested && wanted.status != Interrupted then
                 Wrote(t, t', r, Next(row, Cancelled, row.payload.progress, None, None, wall), Became(Cancelled))
               else
                 var progress := if wanted.result.Some? then wanted.result.value.agentRun else row.payload.progress;
                 Wrote(t, t', r, Next(row, wanted.status, progress, wanted.result, wanted.code, wall), Became(wanted.status))
  {
    hide Consistent;
    Filed(t, r);
  }

  // ---------------------------------------------------------------- the transactions of a client

  lemma CancelEffect(t: Tables, owner: Owner, scope: Scope, r: Uuid, wall: Time)
    requires Consistent(t) && r in t.runs
    ensures var (t', outcome) := Cancel(t, owner, scope, r, wall);
            var row := t.runs[r];
            if !Reaches(t, owner, scope, r) then t' == t && outcome == Err(ConversationUnavailable)
            else
              && r in t'.runs && outcome == Ok(t'.runs[r].payload)
              && if row.status in {Queued, Running} then
                   Wrote(t, t', r, Next(row, CancellationRequested, row.payload.progress, row.payload.result, row.payload.errorCode, wall),
                         Became(CancellationRequested))
                 else t' == t
  {
    hide Consistent;
    Filed(t, r);
  }

  lemma CreateEffect(t: Tables, owner: Owner, scope: Scope, id: Uuid, wall: Time)
    ensures var (t', outcome) := CreateConversation(t, owner, scope, id, wall);
            var made := Conversation(id, 0, "New conversation", None, wall);
            if |t.convs| >= 512 || |set c | c in t.convs && t.convs[c].owner == owner| >= 16
            then t' == t && outcome == Err(ConversationCapacity)
            else if id in t.convs then t' == t && outcome == Err(StorageConflict)
            else
              && outcome == Ok(made) && t'.runs == t.runs && t'.order == t.order && t'.events == t.events
              && t'.convs == t.convs[id := ConvRow(owner, scope, made)]
  {
    assert OwnedBy(t, owner) == set c | c in t.convs && t.convs[c].owner == owner;
  }

  ghost predicate Admits(t: Tables, owner: Owner, scope: Scope, request: RunRequest, runId: Uuid) {
    var c := request.conversationId;
    && Belongs(t, owner, scope, c) && t.convs[c].payload.revision == request.expectedRevision < 64
    && AtRest(t, c) && Unasked(t, request) && runId !in t.runs
  }

  lemma EnqueueEffect(t: Tables, owner: Owner, scope: Scope, request: RunRequest, binding: string, runId: Uuid, wall: Time)
    requires Consistent(t)
    ensures var (t', outcome) := Enqueue(t, owner, scope, request, binding, runId, wall);
            if Admits(t, owner, scope, request, runId)
            then AfterAdmission(t, t', request, binding, Local, runId, wall) && outcome == Ok(t'.runs[runId].payload)
            else t' == t && outcome.Err?
  {
    hide Consistent, HasActive, HasRequest, AtRest, Unasked, Count;
    if request.conversationId in t.convs { ConversationNumbers(t, request.conversationId); }
    AtRestIs(t, request.conversationId);
    UnaskedIs(t, request);
    KeysMatch(t);
  }

  lemma AtRestIs(t: Tables, c: Uuid)
    ensures AtRest(t, c) <==> !HasActive(t, c)
  {
  }

  lemma UnaskedIs(t: Tables, request: RunRequest)
    ensures Unasked(t, request) <==> !HasRequest(t, request)
  {
    if !Unasked(t, request) {
      var r :| r in t.runs && t.runs[r].conversation == request.conversationId && t.runs[r].requestId == request.clientRequestId;
      assert IsRequest(t, r, request);
    }
  }

  lemma KeysMatch(t: Tables)
    requires Consistent(t)
    ensures t.events.Keys == t.runs.Keys
  {
    JournalKeys(t);
  }

  lemma DeleteEffect(t: Tables, owner: Owner, scope: Scope, c: Uuid)
    ensures var (t', outcome) := Delete(t, owner, scope, c);
            && outcome == (if !Belongs(t, owner, scope, c) then Err(ConversationUnavailable) else if !AtRest(t, c) then Err(CancelFirst) else Ok(()))
            && if outcome.Ok? then Removed(t, t', {c}) else t' == t
  {
    DropRemoves(t, {c});
  }

  // A restart interrupts exactly the runs that are not finished.
  lemma RecoveredIs(t: Tables, r: Uuid, wall: Time)
    requires Consistent(t) && r in t.runs
    ensures var row := t.runs[r];
            RunStores.Recovered(t, r, wall)
            == if row.status in {Queued, Running, CancellationRequested}
               then Next(row, Interrupted, row.payload.progress, None, Some(WorkerRestarted), wall) else row
  {
    hide Consistent;
    Filed(t, r);
  }

  // ---------------------------------------------------------------- maintenance

  // A checkpoint is pruned exactly when it is due and nothing of its conversation is unfinished, and its
  // conversation goes with it; no other checkpoint and no other conversation does.
  lemma PruneEffect(d: Database, wallTime: Time)
    ensures var d' := Commit(d, PruneDue(wallTime));
            && (forall k :: k in d.checkpoints && d.checkpoints[k].expiresWall <= wallTime && AtRest(d.tables, d.checkpoints[k].conversationId) ==>
                  k !in d'.checkpoints && d.checkpoints[k].conversationId !in d'.tables.convs)
            && (forall k :: k in d.checkpoints && !(d.checkpoints[k].expiresWall <= wallTime && AtRest(d.tables, d.checkpoints[k].conversationId)) ==>
                  k in d'.checkpoints && d'.checkpoints[k] == d.checkpoints[k])
            && d'.checkpoints.Keys <= d.checkpoints.Keys && d'.definitions == d.definitions
            && Removed(d.tables, d'.tables, set k | k in d.checkpoints - d'.checkpoints.Keys :: d.checkpoints[k].conversationId)
  {
    var d', due := Commit(d, PruneDue(wallTime)), Prunable(d, wallTime);
    forall k | k in d.checkpoints
      ensures k in due <==> d.checkpoints[k].expiresWall <= wallTime && AtRest(d.tables, d.checkpoints[k].conversationId)
    {
      var c := d.checkpoints[k].conversationId;
      assert AtRest(d.tables, c) <==> !HasActive(d.tables, c);
    }
    assert (d.checkpoints - d'.checkpoints.Keys).Keys == due;
    var gone := set k | k in d.checkpoints - d'.checkpoints.Keys :: d.checkpoints[k].conversationId;
    assert gone == Conversations(d, due);
    DropRemoves(d.tables, gone);
  }

  // Older than the cutoff, with all its runs, which are all finished.
  predicate Stale(t: Tables, c: Uuid, before: Time) {
    && c in t.convs && t.convs[c].payload.createdAt < before
    && forall r :: r in t.runs && t.runs[r].conversation == c ==>
         t.runs[r].payload.status in {Completed, Failed, Cancelled, Interrupted} && t.runs[r].payload.updatedAt < before
  }

  // Retention removes exactly the stale conversations.
  lemma RetainEffect(d: Database, before: Time)
    ensures var d' := Commit(d, Retain(before));
            && d'.checkpoints == d.checkpoints && d'.definitions == d.definitions
            && Removed(d.tables, d'.tables, set c | c in d.tables.convs && Stale(d.tables, c, before))
  {
    hide Removed, DropConversations;
    forall c ensures Stale(d.tables, c, before) <==> Idle(d.tables, c, before) {}
    hide Stale, Idle;
    assert Candidates(d.tables, before) == set c | c in d.tables.convs && Stale(d.tables, c, before);
    DropRemoves(d.tables, Candidates(d.tables, before));
  }

  // ---------------------------------------------------------------- over whole histories

  // What callers promise: an answer is only ever passed along with COMPLETED.
  predicate AnswersComplete(x: Transaction) {
    x.Conclude? && x.wanted.result.Some? ==> x.wanted.status == Completed
  }

  ghost predicate Unanswered(d: Database) {
    forall r :: r in d.tables.runs && d.tables.runs[r].payload.status in {Queued, Running, CancellationRequested} ==>
      d.tables.runs[r].payload.result == None
  }

  // What one transaction can do to a run that has no answer yet.
  ghost predicate Careful(row: Row, row': Row) {
    && (row'.payload.status in {Queued, Running, CancellationRequested} ==> row'.payload.result == None)
    && (row.payload.status == CancellationRequested ==>
          row'.payload.status in {CancellationRequested, Cancelled, Interrupted} && row'.payload.result == None)
  }

  lemma CommitCareful(d: Database, x: Transaction, r: Uuid)
    requires Consistent(d.tables) && AnswersComplete(x) && r in d.tables.runs && r in Commit(d, x).tables.runs
    requires d.tables.runs[r].payload.status in {Queued, Running, CancellationRequested} && d.tables.runs[r].payload.result == None
    ensures Careful(d.tables.runs[r], Commit(d, x).tables.runs[r])
  {
    hide Consistent, SqliteRuns.CreateConversation, SqliteRuns.Enqueue, Start, SqliteRuns.Progress, SqliteRuns.Finish, SqliteRuns.Cancel, SqliteRuns.Delete;
    var t := d.tables;
    match x
    case Create(owner, scope, id, wall) => CreateEffect(t, owner, scope, id, wall);
    case Submit(owner, scope, request, binding, id, wall) => EnqueueEffect(t, owner, scope, request, binding, id, wall);
    case Remove(owner, scope, conversation) => DeleteEffect(t, owner, scope, conversation);
    case Save(_, _) =>
    case PruneDue(wallTime) => PruneEffect(d, wallTime);
    case Retain(before) => RetainEffect(d, before);
    case _ => WriteCareful(d, x, r);
  }

  lemma WriteCareful(d: Database, x: Transaction, r: Uuid)
    requires Consistent(d.tables) && AnswersComplete(x) && r in d.tables.runs && r in Commit(d, x).tables.runs
    requires x.Begin? || x.Tell? || x.Conclude? || x.RequestCancel?
    requires d.tables.runs[r].payload.status in {Queued, Running, CancellationRequested} && d.tables.runs[r].payload.result == None
    ensures Careful(d.tables.runs[r], Commit(d, x).tables.runs[r])
  {
    hide Consistent, Start, SqliteRuns.Progress, SqliteRuns.Finish, SqliteRuns.Cancel;
    var t := d.tables;
    Filed(t, r);
    NoSuchRun(t, x.run, if x.Tell? then x.report else 0, if x.Conclude? then x.wanted else RESTARTED, x.wall);
    if x.run in t.runs {
      match x
      case Begin(run, wall) => StartEffect(t, run, wall);
      case Tell(run, report, wall) => ProgressEffect(t, run, report, wall);
      case Conclude(run, wanted, wall) => if Terminal(wanted.status) { FinishEffect(t, run, wanted, wall); }
      case RequestCancel(owner, scope, run, wall) => CancelEffect(t, owner, scope, run, wall);
    } else if x.RequestCancel? {
      NoSuchCancel(t, x.owner, x.scope, x.run, x.wall);
    }
  }

  lemma NoSuchRun(t: Tables, r: Uuid, report: Report, wanted: Ending, wall: Time)
    ensures r !in t.runs ==> Start(t, r, wall).0 == t && SqliteRuns.Progress(t, r, report, wall).0 == t && SqliteRuns.Finish(t, r, wanted, wall).0 == t
    ensures !Terminal(wanted.status) ==> SqliteRuns.Finish(t, r, wanted, wall).0 == t
  {
  }

  lemma NoSuchCancel(t: Tables, owner: Owner, scope: Scope, r: Uuid, wall: Time)
    ensures r !in t.runs ==> SqliteRuns.Cancel(t, owner, scope, r, wall).0 == t
  {
  }

  lemma CommitUnanswered(d: Database, x: Transaction)
    requires Consistent(d.tables) && AnswersComplete(x) && Unanswered(d)
    ensures Unanswered(Commit(d, x))
  {
    hide Consistent, Commit;
    CommitKeeps(d, x);
    var d' := Commit(d, x);
    forall r | r in d'.tables.runs && d'.tables.runs[r].payload.status in {Queued, Running, CancellationRequested}
      ensures d'.tables.runs[r].payload.result == None
    {
      if r !in d.tables.runs {
        AdmittedUnanswered(d, x);
      } else {
        assert Forward(d.tables, d'.tables, r);
        CommitCareful(d, x, r);
      }
    }
  }

  lemma AdmittedUnanswered(d: Database, x: Transaction)
    requires Consistent(d.tables) && x.Submit? && x.id !in d.tables.runs && x.id in Commit(d, x).tables.runs
    ensures Commit(d, x).tables.runs[x.id].payload.result == None
  {
    hide Consistent, SqliteRuns.Enqueue, Admits;
    EnqueueEffect(d.tables, x.owner, x.scope, x.request, x.binding, x.id, x.wall);
  }

  lemma {:induction false} HistoryUnanswered(states: seq<Database>, log: seq<Transaction>, i: nat)
    requires History(states, log) && i < |states| && forall k :: 0 <= k < |log| ==> AnswersComplete(log[k])
    ensures Unanswered(states[i])
  {
    hide Commit, Validates, Consistent, AnswersComplete, Unanswered;
    if i == 0 {
      NothingAnswered(states[0]);
    } else {
      HistoryUnanswered(states, log, i - 1);
      ReachableValidates(states, log, i - 1);
      CommitUnanswered(states[i - 1], log[i - 1]);
    }
  }

  lemma NothingAnswered(d: Database)
    requires d.tables == Tables(map[], map[], [], map[])
    ensures Unanswered(d)
  {
  }

  // After a cancellation request no answer and no COMPLETED ever follows, through restarts as well.
  lemma {:induction false} CancellationIsFinal(states: seq<Database>, log: seq<Transaction>, i: nat, j: nat, r: Uuid)
    requires History(states, log) && FreshIds(log) && i <= j < |states| && forall k :: 0 <= k < |log| ==> AnswersComplete(log[k])
    requires r in states[i].tables.runs && r in states[j].tables.runs
    requires states[i].tables.runs[r].payload.status == CancellationRequested
    ensures states[j].tables.runs[r].payload.status in {CancellationRequested, Cancelled, Interrupted}
    ensures states[j].tables.runs[r].payload.result == None
    decreases j
  {
    hide Commit, Validates, Consistent, AnswersComplete, FreshIds;
    HistoryUnanswered(states, log, i);
    if i < j {
      Resident(states, log, i, j, r);
      CancellationIsFinal(states, log, i, j - 1, r);
      ReachableValidates(states, log, j - 1);
      CommitKeeps(states[j - 1], log[j - 1]);
      StillCancelled(states[j - 1], log[j - 1], r);
    }
  }

  lemma StillCancelled(d: Database, x: Transaction, r: Uuid)
    requires Consistent(d.tables) && AnswersComplete(x) && r in d.tables.runs && r in Commit(d, x).tables.runs
    requires d.tables.runs[r].payload.status in {CancellationRequested, Cancelled, Interrupted} && d.tables.runs[r].payload.result == None
    ensures Commit(d, x).tables.runs[r].payload.status in {CancellationRequested, Cancelled, Interrupted}
    ensures Commit(d, x).tables.runs[r].payload.result == None
  {
    hide Consistent, Commit;
    CommitKeeps(d, x);
    if d.tables.runs[r].payload.status == CancellationRequested {
      CommitCareful(d, x, r);
    } else {
      assert Forward(d.tables, Commit(d, x).tables, r);
    }
  }

  // And what is concluded for a run that nobody cancelled is what every later state shows.
  lemma AnswerStays(states: seq<Database>, log: seq<Transaction>, i: nat, j: nat)
    requires History(states, log) && FreshIds(log) && i < j < |states| && i < |log|
    requires log[i].Conclude? && Terminal(log[i].wanted.status)
    requires log[i].run in states[i].tables.runs && log[i].run in states[j].tables.runs
    requires states[i].tables.runs[log[i].run].payload.status in {Queued, Running}
    ensures var run := states[j].tables.runs[log[i].run].payload;
            && run.status == log[i].wanted.status && run.result == log[i].wanted.result && run.errorCode == log[i].wanted.code
            && run.sequence == states[i].tables.runs[log[i].run].payload.sequence + 1
  {
    hide Validates, Consistent, FreshIds, SqliteRuns.Finish;
    var r := log[i].run;
    ReachableValidates(states, log, i);
    Filed(states[i].tables, r);
    FinishEffect(states[i].tables, r, log[i].wanted, log[i].wall);
    assert states[i + 1] == Commit(states[i], log[i]);
    RunsOnlyMoveForward(states, log, i + 1, j, r);
    assert Forward(states[i + 1].tables, states[j].tables, r);
  }
}
