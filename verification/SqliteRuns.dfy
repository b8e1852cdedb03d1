/**
 The single-worker journal: each transaction as a function of the database, the maintenance check
 of a whole state file, and what every reachable file satisfies.
 */
module SqliteRuns {
  import opened Runs
  import opened RunTables

  datatype Checkpoint = Checkpoint(expiresWall: Time, conversationId: Uuid, userId: string)

  // Definition streams share the file; their payloads are opaque here.
  datatype Database = Database(
    tables: Tables,
    checkpoints: map<Digest<string>, Checkpoint>,
    definitions: map<string, nat>)

  // ---------------------------------------------------------------- transactions

  function CreateConversation(t: Tables, owner: Owner, scope: Scope, id: Uuid, wall: Time): (Tables, Outcome<Conversation>) {
    var owned := OwnedBy(t, owner);
    var value := Conversation(id, 0, "New conversation", None, wall);
    if |t.convs| >= 512 || |owned| >= 16 then (t, Err(ConversationCapacity))
    else if id in t.convs then (t, Err(StorageConflict))
    else (AddConversation(t, ConvRow(owner, scope, value)), Ok(value))
  }

  function Enqueue(t: Tables, owner: Owner, scope: Scope, request: RunRequest, binding: string, runId: Uuid, wall: Time): (Tables, Outcome<RunSnapshot>) {
    var c := request.conversationId;
    if !Owns(t, owner, scope, c) then (t, Err(ConversationUnavailable))
    else if t.convs[c].payload.revision != request.expectedRevision then (t, Err(ConversationChanged))
    else if Count(t.runs, InConversation(c)) >= 64 then (t, Err(CapacityOccupied))
    else if HasActive(t, c) then (t, Err(ActiveQuestion))
    else if runId in t.runs || HasRequest(t, request) then (t, Err(StorageConflict))
    else
      var t' := Admit(t, NewRun(request, binding, runId, wall), Local, wall);
      (t', Ok(if runId in t'.runs then t'.runs[runId].payload else NewRun(request, binding, runId, wall)))
  }

  function Start(t: Tables, r: Uuid, wall: Time): (Tables, Outcome<bool>) {
    if r !in t.runs then (t, Err(RunUnavailable))
    else
      var run := t.runs[r].payload;
      if run.status != Queued then (t, Ok(false))
      else (Persist(t, run.(status := Running), Started, wall), Ok(true))
  }

  function Progress(t: Tables, r: Uuid, report: Report, wall: Time): (Tables, Outcome<()>) {
    if r !in t.runs then (t, Err(RunUnavailable))
    else
      var run := t.runs[r].payload;
      if run.status != Running then (t, Ok(()))
      else if run.sequence >= 60 then (t, Err(ProgressBudget))
      else (Persist(t, run.(progress := Some(report)), AgentProgress, wall), Ok(()))
  }

  // A requested cancellation wins over every ending but an interruption.
  function Decide(run: RunSnapshot, wanted: Ending): Ending {
    if run.status == CancellationRequested && wanted.status != Interrupted then Ending(Cancelled, None, None) else wanted
  }

  function Finish(t: Tables, r: Uuid, wanted: Ending, wall: Time): (Tables, Outcome<RunSnapshot>) {
    if !Terminal(wanted.status) then (t, Err(TerminalRequired))
    else if r !in t.runs then (t, Err(RunUnavailable))
    else
      var run := t.runs[r].payload;
      if Terminal(run.status) then (t, Ok(run))
      else
        var ending := Decide(run, wanted);
        (Persist(t, Ended(run, ending), Became(ending.status), wall), Ok(Stamped(Ended(run, ending), wall)))
  }

  function Cancel(t: Tables, owner: Owner, scope: Scope, r: Uuid, wall: Time): (Tables, Outcome<RunSnapshot>) {
    if r !in t.runs then (t, Err(RunUnavailable))
    else
      var run := t.runs[r].payload;
      if !Owns(t, owner, scope, run.request.conversationId) then (t, Err(ConversationUnavailable))
      else if Terminal(run.status) || run.status == CancellationRequested then (t, Ok(run))
      else
        var requested := run.(status := CancellationRequested);
        (Persist(t, requested, Became(CancellationRequested), wall), Ok(Stamped(requested, wall)))
  }

  function Delete(t: Tables, owner: Owner, scope: Scope, c: Uuid): (Tables, Outcome<()>) {
    if !Owns(t, owner, scope, c) then (t, Err(ConversationUnavailable))
    else if HasActive(t, c) then (t, Err(CancelFirst))
    else (DropConversations(t, {c}), Ok(()))
  }

  const RESTARTED := Ending(Interrupted, None, Some(WorkerRestarted))

  // The runs a restarted process finds unfinished.
  function Unfinished(t: Tables): set<Uuid> {
    set r | r in t.runs && !Terminal(t.runs[r].status)
  }

  // Nothing of the conversation is in progress, and nothing of it happened at or after the cutoff.
  predicate Idle(t: Tables, c: Uuid, before: Time) {
    && c in t.convs && t.convs[c].payload.createdAt < before
    && forall r :: r in t.runs && t.runs[r].conversation == c ==>
         Terminal(t.runs[r].payload.status) && t.runs[r].payload.updatedAt < before
  }

  function Candidates(t: Tables, before: Time): set<Uuid> {
    set c | c in t.convs && Idle(t, c, before)
  }

  // Checkpoints that are due and whose conversation has nothing in progress.
  function Prunable(d: Database, wallTime: Time): set<Digest<string>> {
    set k | k in d.checkpoints && d.checkpoints[k].expiresWall <= wallTime && !HasActive(d.tables, d.checkpoints[k].conversationId)
  }

  function Conversations(d: Database, keys: set<Digest<string>>): set<Uuid> {
    set k | k in keys && k in d.checkpoints :: d.checkpoints[k].conversationId
  }

  function Prune(d: Database, keys: set<Digest<string>>): Database {
    d.(tables := DropConversations(d.tables, Conversations(d, keys)), checkpoints := d.checkpoints - keys)
  }

  // ---------------------------------------------------------------- the maintenance check

  // Foreign keys, and for every conversation and run the record checks of `validate(..., "state")`.
  ghost predicate Validates(t: Tables) {
    && (forall r :: r in t.runs ==> t.runs[r].conversation in t.convs)
    && (forall r :: r in t.events ==> t.events[r] == map[] || r in t.runs)
    && (forall c :: c in t.convs ==> ConversationValidates(t, c))
    && (forall r :: r in t.runs ==> RunValidates(t, r))
  }

  ghost predicate ConversationValidates(t: Tables, c: Uuid)
    requires c in t.convs
  {
    var conversation, ids := t.convs[c].payload, RunsOf(t.order, c);
    && conversation.conversationId == c
    && conversation.revision == |ids|
    && (if ids != [] then conversation.latestRunId == Some(ids[|ids| - 1]) else conversation.latestRunId == None)
  }

  ghost predicate RunValidates(t: Tables, r: Uuid)
    requires r in t.runs
  {
    var row, run, journal := t.runs[r], t.runs[r].payload, JournalFor(t, r);
    && run.runId == r && run.status == row.status && run.request.conversationId == row.conversation
    && (forall k :: k in journal <==> 1 <= k <= run.sequence)
    && (forall k :: k in journal ==> journal[k].runId == run.runId && journal[k].sequence == k)
    && 1 <= run.sequence && journal[run.sequence].status == run.status
  }

  lemma ConsistentValidates(t: Tables)
    requires Consistent(t)
    ensures Validates(t)
  {
    hide Consistent;
    assert t.events.Keys == t.runs.Keys by { JournalKeys(t); }
    forall c | c in t.convs ensures ConversationValidates(t, c) { NumberingFacts(t, c); }
    forall r | r in t.runs ensures RunValidates(t, r) && t.runs[r].conversation in t.convs { RunFacts(t, r); }
  }

  lemma JournalKeys(t: Tables)
    requires Consistent(t)
    ensures t.events.Keys == t.runs.Keys
  {
  }

  lemma NumberingFacts(t: Tables, c: Uuid)
    requires Consistent(t) && c in t.convs
    ensures Numbered(RunsOf(t.order, c), c, t.convs[c].payload)
  {
    hide RowsOk, JournalsOk, OrderOk, UniqueRequests, OnlyLatestActive;
  }

  // ---------------------------------------------------------------- every transaction keeps the tables consistent

  lemma Unchanged(t: Tables)
    ensures Step(t, t)
  {
  }

  lemma WriteKeeps(t: Tables, r: Uuid, run: RunSnapshot, kind: EventKind, wall: Time)
    requires Consistent(t) && r in t.runs && run.runId == r
    requires LegalChange(t.runs[r].payload, Stamped(run, wall))
    ensures Consistent(Persist(t, run, kind, wall)) && Step(t, Persist(t, run, kind, wall))
  {
    hide Consistent, Step;
    PersistKeeps(t, run, kind, wall);
    PersistForward(t, run, kind, wall);
  }

  lemma CreateKeeps(t: Tables, owner: Owner, scope: Scope, id: Uuid, wall: Time)
    requires Consistent(t)
    ensures var t' := CreateConversation(t, owner, scope, id, wall).0; Consistent(t') && Step(t, t')
  {
    hide Consistent;
    var (t', outcome) := CreateConversation(t, owner, scope, id, wall);
    if outcome.Ok? {
      AddConversationKeeps(t, ConvRow(owner, scope, outcome.value));
    }
  }

  lemma EnqueueKeeps(t: Tables, owner: Owner, scope: Scope, request: RunRequest, binding: string, runId: Uuid, wall: Time)
    requires Consistent(t)
    ensures var t' := Enqueue(t, owner, scope, request, binding, runId, wall).0; Consistent(t') && Step(t, t')
  {
    hide Consistent, Step, HasActive, Count;
    var (t', outcome) := Enqueue(t, owner, scope, request, binding, runId, wall);
    Unchanged(t);
    if outcome.Ok? {
      var run := NewRun(request, binding, runId, wall);
      ConversationNumbers(t, request.conversationId);
      assert Admissible(t, run);
      AdmitKeeps(t, run, Local, wall);
      AdmitForward(t, run, Local, wall);
    }
  }

  lemma ConversationNumbers(t: Tables, c: Uuid)
    requires Consistent(t) && c in t.convs
    ensures t.convs[c].payload.revision == Count(t.runs, InConversation(c))
  {
    hide RowsOk, JournalsOk, UniqueRequests, OnlyLatestActive, OrderOk, NumberingOk;
    RevisionCounts(t, c);
  }

  lemma StartKeeps(t: Tables, r: Uuid, wall: Time)
    requires Consistent(t)
    ensures var t' := Start(t, r, wall).0; Consistent(t') && Step(t, t')
  {
    hide Consistent, Step;
    Unchanged(t);
    if r in t.runs && t.runs[r].payload.status == Queued {
      RunFacts(t, r);
      WriteKeeps(t, r, t.runs[r].payload.(status := Running), Started, wall);
    }
  }

  lemma ProgressKeeps(t: Tables, r: Uuid, report: Report, wall: Time)
    requires Consistent(t)
    ensures var t' := Progress(t, r, report, wall).0; Consistent(t') && Step(t, t')
  {
    hide Consistent, Step;
    Unchanged(t);
    if r in t.runs && t.runs[r].payload.status == Running && t.runs[r].payload.sequence < 60 {
      RunFacts(t, r);
      WriteKeeps(t, r, t.runs[r].payload.(progress := Some(report)), AgentProgress, wall);
    }
  }

  lemma FinishKeeps(t: Tables, r: Uuid, wanted: Ending, wall: Time)
    requires Consistent(t)
    ensures var t' := Finish(t, r, wanted, wall).0; Consistent(t') && Step(t, t')
  {
    hide Consistent, Step;
    Unchanged(t);
    if Terminal(wanted.status) && r in t.runs && !Terminal(t.runs[r].payload.status) {
      RunFacts(t, r);
      var run := t.runs[r].payload;
      var ending := Decide(run, wanted);
      WriteKeeps(t, r, Ended(run, ending), Became(ending.status), wall);
    }
  }

  lemma CancelKeeps(t: Tables, owner: Owner, scope: Scope, r: Uuid, wall: Time)
    requires Consistent(t)
    ensures var t' := Cancel(t, owner, scope, r, wall).0; Consistent(t') && Step(t, t')
  {
    hide Consistent, Step, Owns;
    Unchanged(t);
    if r in t.runs && !Terminal(t.runs[r].payload.status) && t.runs[r].payload.status != CancellationRequested {
      RunFacts(t, r);
      WriteKeeps(t, r, t.runs[r].payload.(status := CancellationRequested), Became(CancellationRequested), wall);
    }
  }

  lemma DropsKeep(t: Tables, gone: set<Uuid>)
    requires Consistent(t)
    ensures var t' := DropConversations(t, gone); Consistent(t') && Step(t, t')
  {
    hide Consistent, Step;
    JournalKeys(t);
    DropKeeps(t, gone);
    DropForward(t, gone);
  }

  // ---------------------------------------------------------------- all runs of the process, including crashes

  // One committed transaction; retention is one while the process is stopped. A crash is the end of a history between two of them; recovery is one
  // Conclude per unfinished run, so a crash inside recovery is covered as well.
  datatype Transaction =
    | Create(owner: Owner, scope: Scope, id: Uuid, wall: Time)
    | Submit(owner: Owner, scope: Scope, request: RunRequest, binding: string, id: Uuid, wall: Time)
    | Begin(run: Uuid, wall: Time)
    | Tell(run: Uuid, report: Report, wall: Time)
    | Conclude(run: Uuid, wanted: Ending, wall: Time)
    | RequestCancel(owner: Owner, scope: Scope, run: Uuid, wall: Time)
    | Remove(owner: Owner, scope: Scope, conversation: Uuid)
    | Save(token: string, checkpoint: Option<Checkpoint>)
    | PruneDue(wallTime: Time)
    | Retain(before: Time)

  function Commit(d: Database, x: Transaction): Database {
    match x
    case Create(owner, scope, id, wall) => d.(tables := CreateConversation(d.tables, owner, scope, id, wall).0)
    case Submit(owner, scope, request, binding, id, wall) => d.(tables := Enqueue(d.tables, owner, scope, request, binding, id, wall).0)
    case Begin(run, wall) => d.(tables := Start(d.tables, run, wall).0)
    case Tell(run, report, wall) => d.(tables := Progress(d.tables, run, report, wall).0)
    case Conclude(run, wanted, wall) => d.(tables := Finish(d.tables, run, wanted, wall).0)
    case RequestCancel(owner, scope, run, wall) => d.(tables := Cancel(d.tables, owner, scope, run, wall).0)
    case Remove(owner, scope, conversation) => d.(tables := Delete(d.tables, owner, scope, conversation).0)
    case Save(token, checkpoint) =>
      d.(checkpoints := if checkpoint.None? then d.checkpoints - {Digest(token)} else d.checkpoints[Digest(token) := checkpoint.value])
    case PruneDue(wallTime) => Prune(d, Prunable(d, wallTime))
    case Retain(before) => d.(tables := DropConversations(d.tables, Candidates(d.tables, before)))
  }

  ghost predicate History(states: seq<Database>, log: seq<Transaction>) {
    && |states| == |log| + 1
    && states[0].tables == Tables(map[], map[], [], map[])
    && forall i :: 0 <= i < |log| ==> states[i + 1] == Commit(states[i], log[i])
  }

  // Run identifiers are never drawn twice.
  ghost predicate FreshIds(log: seq<Transaction>) {
    forall i, j :: 0 <= i < j < |log| && log[i].Submit? && log[j].Submit? ==> log[i].id != log[j].id
  }

  lemma CommitKeeps(d: Database, x: Transaction)
    requires Consistent(d.tables)
    ensures Consistent(Commit(d, x).tables) && Step(d.tables, Commit(d, x).tables)
    ensures forall r :: r in Commit(d, x).tables.runs ==> r in d.tables.runs || (x.Submit? && r == x.id)
  {
    hide Consistent, Step;
    hide CreateConversation, Enqueue, Start, Progress, Finish, Cancel, HasActive, Owns, Prunable, Conversations, Candidates;
    var t := d.tables;
    Unchanged(t);
    CommitRows(d, x);
    match x
    case Create(owner, scope, id, wall) => CreateKeeps(t, owner, scope, id, wall);
    case Submit(owner, scope, request, binding, id, wall) => EnqueueKeeps(t, owner, scope, request, binding, id, wall);
    case Begin(run, wall) => StartKeeps(t, run, wall);
    case Tell(run, report, wall) => ProgressKeeps(t, run, report, wall);
    case Conclude(run, wanted, wall) => FinishKeeps(t, run, wanted, wall);
    case RequestCancel(owner, scope, run, wall) => CancelKeeps(t, owner, scope, run, wall);
    case Remove(owner, scope, conversation) => DropsKeep(t, {conversation});
    case Save(token, checkpoint) =>
    case PruneDue(wallTime) => DropsKeep(t, Conversations(d, Prunable(d, wallTime)));
    case Retain(before) => DropsKeep(t, Candidates(t, before));
  }

  lemma CommitRows(d: Database, x: Transaction)
    ensures forall r :: r in Commit(d, x).tables.runs ==> r in d.tables.runs || (x.Submit? && r == x.id)
  {
    hide Count, HasActive, Owns;
  }

  // Every state a process can reach, through any crash, recovery, deletion, pruning or retention, passes the check.
  lemma {:induction false} ReachableValidates(states: seq<Database>, log: seq<Transaction>, i: nat)
    requires History(states, log) && i < |states|
    ensures Consistent(states[i].tables) && Validates(states[i].tables)
  {
    hide Validates, Commit;
    if i == 0 {
      assert Consistent(states[0].tables);
    } else {
      hide Consistent;
      ReachableValidates(states, log, i - 1);
      CommitKeeps(states[i - 1], log[i - 1]);
    }
    ConsistentValidates(states[i].tables);
  }

  lemma {:induction false} DrawnBefore(states: seq<Database>, log: seq<Transaction>, i: nat, r: Uuid)
    requires History(states, log) && i < |states| && r in states[i].tables.runs
    ensures exists k :: 0 <= k < i && log[k].Submit? && log[k].id == r
  {
    hide Commit;
    if i > 0 {
      CommitRows(states[i - 1], log[i - 1]);
      if r in states[i - 1].tables.runs {
        DrawnBefore(states, log, i - 1, r);
      }
    }
  }

  // A run that exists at two times existed all the time in between.
  lemma Resident(states: seq<Database>, log: seq<Transaction>, i: nat, j: nat, r: Uuid)
    requires History(states, log) && FreshIds(log) && i < j < |states|
    requires r in states[i].tables.runs && r in states[j].tables.runs
    ensures |states| == |log| + 1 && r in states[j - 1].tables.runs
  {
    hide Commit;
    CommitRows(states[j - 1], log[j - 1]);
    DrawnBefore(states, log, i, r);
    var k :| 0 <= k < i && log[k].Submit? && log[k].id == r;
  }

  // If the run exists at both times, it only moved forward in between.
  ghost predicate OnlyForward(t: Tables, t': Tables, r: Uuid) {
    r in t.runs && r in t'.runs ==> Forward(t, t', r)
  }

  lemma NothingMoved(t: Tables, r: Uuid)
    ensures OnlyForward(t, t, r)
  {
  }

  lemma NothingLeft(t: Tables, t': Tables, r: Uuid)
    requires r !in t'.runs
    ensures OnlyForward(t, t', r)
  {
  }

  lemma OneStepFurther(a: Tables, b: Tables, c: Tables, r: Uuid)
    requires r in a.runs && r in b.runs && OnlyForward(a, b, r) && Step(b, c)
    ensures OnlyForward(a, c, r)
  {
    if r in c.runs { ForwardTrans(a, b, c, r); }
  }

  lemma StepAt(states: seq<Database>, log: seq<Transaction>, i: nat)
    requires History(states, log) && i < |log|
    ensures |states| == |log| + 1 && Step(states[i].tables, states[i + 1].tables)
  {
    hide Step, Commit, Consistent, Validates;
    ReachableValidates(states, log, i);
    CommitKeeps(states[i], log[i]);
  }

  lemma {:induction false} RunsOnlyMoveForward(states: seq<Database>, log: seq<Transaction>, i: nat, j: nat, r: Uuid)
    requires |states| == |log| + 1 && History(states, log) && FreshIds(log) && i <= j < |states|
    requires r in states[i].tables.runs
    ensures OnlyForward(states[i].tables, states[j].tables, r)
    decreases j
  {
    hide History, OnlyForward, Step, FreshIds;
    if i == j {
      NothingMoved(states[i].tables, r);
    } else if r !in states[j].tables.runs {
      NothingLeft(states[i].tables, states[j].tables, r);
    } else {
      Resident(states, log, i, j, r);
      StepAt(states, log, j - 1);
      RunsOnlyMoveForward(states, log, i, j - 1, r);
      OneStepFurther(states[i].tables, states[j - 1].tables, states[j].tables, r);
    }
  }

  // Folding events 1..k of any later journal shows what the run was when it was persisted at sequence k.
  lemma JournalShowsEveryState(states: seq<Database>, log: seq<Transaction>, i: nat, j: nat, r: Uuid, start: Visible)
    requires History(states, log) && FreshIds(log) && i <= j < |states|
    requires r in states[i].tables.runs && r in states[j].tables.runs
    ensures var run := states[i].tables.runs[r].payload;
            && r in states[j].tables.events
            && Fold(start, EventsBetween(states[j].tables.events[r], 0, run.sequence)) == Shown(run)
            && run.sequence <= states[j].tables.runs[r].payload.sequence <= 62
  {
    hide Validates, Commit, OrderOk, NumberingOk, UniqueRequests, OnlyLatestActive, RowsOk;
    ReachableValidates(states, log, i);
    ReachableValidates(states, log, j);
    RunsOnlyMoveForward(states, log, i, j, r);
    RunFacts(states[j].tables, r);
    FoldShowsPast(states[i].tables, states[j].tables, r, start);
  }

  // Every committed write of a run decreases its measure and appends one event.
  lemma WritesDecrease(states: seq<Database>, log: seq<Transaction>, i: nat, r: Uuid)
    requires History(states, log) && i < |log|
    requires r in states[i].tables.runs && r in states[i + 1].tables.runs
    requires states[i].tables.runs[r].payload != states[i + 1].tables.runs[r].payload
    ensures MeasureDecreases(states[i].tables.runs[r].payload, states[i + 1].tables.runs[r].payload)
    ensures states[i + 1].tables.runs[r].payload.sequence == states[i].tables.runs[r].payload.sequence + 1
    ensures !Terminal(states[i].tables.runs[r].payload.status)
  {
    hide Validates, Commit, Consistent;
    ReachableValidates(states, log, i);
    CommitKeeps(states[i], log[i]);
    RunFacts(states[i].tables, r);
    LegalChangeKeepsRange(states[i].tables.runs[r].payload, states[i + 1].tables.runs[r].payload);
  }

  // Pruning never removes a conversation with a question in progress, nor one no due checkpoint names.
  lemma PruneSpares(d: Database, wallTime: Time, c: Uuid)
    requires c in d.tables.convs
    requires HasActive(d.tables, c)
          || forall k :: k in d.checkpoints && d.checkpoints[k].conversationId == c ==> d.checkpoints[k].expiresWall > wallTime
    ensures var d' := Prune(d, Prunable(d, wallTime));
            && c in d'.tables.convs && d'.tables.convs[c] == d.tables.convs[c]
            && RunsOf(d'.tables.order, c) == RunsOf(d.tables.order, c)
  {
    var gone := Conversations(d, Prunable(d, wallTime));
    assert c !in gone;
    RunsOfSurviving(d.tables.order, gone, c);
  }
}
