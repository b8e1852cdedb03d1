/** The single-worker run journal as an object over its database. */
module RunStores {
  import opened Runs
  import opened RunTables
  import opened SqliteRuns

  class RunStore {
    var tables: Tables
    var checkpoints: map<Digest<string>, Checkpoint>
    var definitions: map<string, nat>

    function View(): Database
      reads this
    {
      Database(tables, checkpoints, definitions)
    }

    ghost predicate Valid()
      reads this
    {
      Consistent(tables)
    }

    // A state file is opened and recovered before anything is served from it.
    constructor (file: Database, wall: Time)
      requires Consistent(file.tables)
      ensures Valid() && View().checkpoints == file.checkpoints && View().definitions == file.definitions
      ensures Unfinished(tables) == {}
      ensures Validates(tables)
      ensures tables.runs.Keys == file.tables.runs.Keys && tables.convs == file.tables.convs
      ensures forall r :: r in tables.runs ==> tables.runs[r] == Recovered(file.tables, r, wall)
    {
      tables, checkpoints, definitions := file.tables, file.checkpoints, file.definitions;
      new;
      Recover(wall);
      ConsistentValidates(tables);
    }

    method CreateConversation(owner: Owner, scope: Scope, id: Uuid, wall: Time) returns (outcome: Outcome<Conversation>)
      requires Valid()
      modifies `tables
      ensures Valid()
      ensures (tables, outcome) == SqliteRuns.CreateConversation(old(tables), owner, scope, id, wall)
    {
      CreateKeeps(tables, owner, scope, id, wall);
      var value := Conversation(id, 0, "New conversation", None, wall);
      if |tables.convs| >= 512 {
        return Err(ConversationCapacity);
      }
      if |OwnedBy(tables, owner)| >= 16 {
        return Err(ConversationCapacity);
      }
      if id in tables.convs {
        return Err(StorageConflict);
      }
      tables := AddConversation(tables, ConvRow(owner, scope, value));
      return Ok(value);
    }

    // UPDATE durable_runs ...; INSERT INTO run_events ...
    method Write(run: RunSnapshot, kind: EventKind, wall: Time) returns (written: RunSnapshot)
      requires run.runId in tables.runs
      modifies `tables
      ensures tables == Persist(old(tables), run, kind, wall)
      ensures written == Stamped(run, wall)
    {
      written := run.(sequence := run.sequence + 1, updatedAt := wall);
      var event := RunEvent(written.runId, written.sequence, kind, written.status, written.progress);
      var journal := JournalFor(tables, written.runId);
      tables := tables.(
        runs := tables.runs[written.runId := tables.runs[written.runId].(payload := written, status := written.status)],
        events := tables.events[written.runId := journal[written.sequence := event]]);
    }

    method Existing(owner: Owner, scope: Scope, request: RunRequest) returns (found: Outcome<Option<RunSnapshot>>)
      requires Valid()
      ensures found == if Owns(tables, owner, scope, request.conversationId) then RunTables.Existing(tables, request)
                       else Err(ConversationUnavailable)
    {
      hide RowsOk, JournalsOk, OrderOk, NumberingOk, OnlyLatestActive;
      if !Owns(tables, owner, scope, request.conversationId) {
        return Err(ConversationUnavailable);
      }
      if r :| r in tables.runs && IsRequest(tables, r, request) {
        ExistingIs(tables, r, request);
        if tables.runs[r].requestHash != Digest(request) {
          return Err(RequestConflict);
        }
        return Ok(Some(tables.runs[r].payload));
      }
      return Ok(None);
    }

    method Enqueue(owner: Owner, scope: Scope, request: RunRequest, binding: string, runId: Uuid, wall: Time) returns (outcome: Outcome<RunSnapshot>)
      requires Valid()
      modifies `tables
      ensures Valid()
      ensures (tables, outcome) == SqliteRuns.Enqueue(old(tables), owner, scope, request, binding, runId, wall)
    {
      hide Consistent, Step, HasActive, Count, Persist;
      EnqueueKeeps(tables, owner, scope, request, binding, runId, wall);
      var c := request.conversationId;
      if !Owns(tables, owner, scope, c) {
        return Err(ConversationUnavailable);
      }
      if tables.convs[c].payload.revision != request.expectedRevision {
        return Err(ConversationChanged);
      }
      if Count(tables.runs, InConversation(c)) >= 64 {
        return Err(CapacityOccupied);
      }
      if HasActive(tables, c) {
        return Err(ActiveQuestion);
      }
      if runId in tables.runs || HasRequest(tables, request) {
        return Err(StorageConflict);
      }
      var run := AdmitRun(request, binding, runId, wall);
      return Ok(run);
    }

    method AdmitRun(request: RunRequest, binding: string, runId: Uuid, wall: Time) returns (run: RunSnapshot)
      requires request.conversationId in tables.convs
      modifies `tables
      ensures tables == Admit(old(tables), NewRun(request, binding, runId, wall), Local, wall)
      ensures runId in tables.runs && run == tables.runs[runId].payload
    {
      run := NewRun(request, binding, runId, wall);
      var c := request.conversationId;
      var conversation := tables.convs[c].payload;
      conversation := conversation.(revision := conversation.revision + 1);
      conversation := conversation.(latestRunId := Some(runId), title := Prefix(request.question, 80));
      tables := tables.(
        convs := tables.convs[c := tables.convs[c].(payload := conversation)],
        runs := tables.runs[runId := Row(c, request.clientRequestId, Digest(request), run.status, run, Local)],
        order := tables.order + [Key(runId, c)]);
      run := Write(run, Accepted, wall);
    }

    method Start(r: Uuid, wall: Time) returns (outcome: Outcome<bool>)
      requires Valid()
      modifies `tables
      ensures Valid()
      ensures (tables, outcome) == SqliteRuns.Start(old(tables), r, wall)
    {
      hide Consistent, Step;
      StartKeeps(tables, r, wall);
      IdMatches(tables, r);
      if r !in tables.runs {
        return Err(RunUnavailable);
      }
      var run := tables.runs[r].payload;
      if run.status != Queued {
        return Ok(false);
      }
      var _ := Write(run.(status := Running), Started, wall);
      return Ok(true);
    }

    method Progress(r: Uuid, report: Report, wall: Time) returns (outcome: Outcome<()>)
      requires Valid()
      modifies `tables
      ensures Valid()
      ensures (tables, outcome) == SqliteRuns.Progress(old(tables), r, report, wall)
    {
      hide Consistent, Step;
      ProgressKeeps(tables, r, report, wall);
      IdMatches(tables, r);
      if r !in tables.runs {
        return Err(RunUnavailable);
      }
      var run := tables.runs[r].payload;
      if run.status != Running {
        return Ok(());
      }
      if run.sequence >= 60 {
        return Err(ProgressBudget);
      }
      var _ := Write(run.(progress := Some(report)), AgentProgress, wall);
      return Ok(());
    }

    method Finish(r: Uuid, wanted: Ending, wall: Time) returns (outcome: Outcome<RunSnapshot>)
      requires Valid()
      modifies `tables
      ensures Valid()
      ensures (tables, outcome) == SqliteRuns.Finish(old(tables), r, wanted, wall)
    {
      hide Consistent, Step;
      FinishKeeps(tables, r, wanted, wall);
      IdMatches(tables, r);
      if !Terminal(wanted.status) {
        return Err(TerminalRequired);
      }
      if r !in tables.runs {
        return Err(RunUnavailable);
      }
      var run := tables.runs[r].payload;
      if Terminal(run.status) {
        return Ok(run);
      }
      var ending := wanted;
      if run.status == CancellationRequested && wanted.status != Interrupted {
        ending := Ending(Cancelled, None, None);
      }
      run := run.(status := ending.status, result := ending.result, errorCode := ending.code);
      if ending.result.Some? {
        run := run.(progress := ending.result.value.agentRun);
      }
      run := Write(run, Became(ending.status), wall);
      return Ok(run);
    }

    method Cancel(owner: Owner, scope: Scope, r: Uuid, wall: Time) returns (outcome: Outcome<RunSnapshot>)
      requires Valid()
      modifies `tables
      ensures Valid()
      ensures (tables, outcome) == SqliteRuns.Cancel(old(tables), owner, scope, r, wall)
    {
      hide Consistent, Step, Owns;
      CancelKeeps(tables, owner, scope, r, wall);
      IdMatches(tables, r);
      if r !in tables.runs {
        return Err(RunUnavailable);
      }
      var run := tables.runs[r].payload;
      if !Owns(tables, owner, scope, run.request.conversationId) {
        return Err(ConversationUnavailable);
      }
      if !Terminal(run.status) && run.status != CancellationRequested {
        run := Write(run.(status := CancellationRequested), Became(CancellationRequested), wall);
      }
      return Ok(run);
    }

    // Each unfinished run is concluded in a transaction of its own.
    method Recover(wall: Time)
      requires Valid()
      modifies `tables
      ensures Valid()
      ensures Unfinished(tables) == {}
      ensures tables.runs.Keys == old(tables.runs.Keys) && tables.convs == old(tables.convs)
      ensures forall r :: r in tables.runs ==> tables.runs[r] == Recovered(old(tables), r, wall)
    {
      hide Consistent;
      ghost var before := tables;
      var ids := Unfinished(tables);
      var pending := ids;
      while pending != {}
        invariant pending <= ids && Valid()
        invariant tables.runs.Keys == before.runs.Keys && tables.convs == before.convs
        invariant forall r :: r in before.runs ==>
          tables.runs[r] == if r in ids - pending then Recovered(before, r, wall) else before.runs[r]
        decreases |pending|
      {
        var r :| r in pending;
        RecoverOne(before, r, wall);
        pending := pending - {r};
      }
      forall r | r in tables.runs ensures Terminal(tables.runs[r].status) && tables.runs[r] == Recovered(before, r, wall) {
        IdMatches(tables, r);
      }
    }

    method RecoverOne(ghost before: Tables, r: Uuid, wall: Time)
      requires Valid() && r in tables.runs && r in before.runs && tables.runs[r] == before.runs[r] && !Terminal(tables.runs[r].status)
      modifies `tables
      ensures Valid()
      ensures tables.runs == old(tables).runs[r := Recovered(before, r, wall)] && tables.convs == old(tables).convs
    {
      hide Consistent, SqliteRuns.Finish, Recovered;
      IdMatches(tables, r);
      FinishRestarts(tables, r, wall);
      RecoveredSame(before, tables, r, wall);
      var _ := Finish(r, RESTARTED, wall);
    }

    method Delete(owner: Owner, scope: Scope, c: Uuid) returns (outcome: Outcome<()>)
      requires Valid()
      modifies `tables
      ensures Valid()
      ensures (tables, outcome) == SqliteRuns.Delete(old(tables), owner, scope, c)
    {
      hide Consistent, Step, Owns, HasActive;
      DropsKeep(tables, {c});
      if !Owns(tables, owner, scope, c) {
        return Err(ConversationUnavailable);
      }
      if HasActive(tables, c) {
        return Err(CancelFirst);
      }
      tables := DropConversations(tables, {c});
      return Ok(());
    }

    method SaveCheckpoint(token: string, checkpoint: Option<Checkpoint>)
      requires Valid()
      modifies `checkpoints
      ensures Valid()
      ensures View() == Commit(old(View()), Save(token, checkpoint))
    {
      var key := Digest(token);
      if checkpoint.None? {
        checkpoints := checkpoints - {key};
      } else {
        checkpoints := checkpoints[key := checkpoint.value];
      }
    }

    method PruneOne(ghost before: Database, ghost done: set<Digest<string>>, key: Digest<string>, wallTime: Time) returns (user: Option<string>)
      requires Valid() && Consistent(before.tables) && done <= Prunable(before, wallTime) && View() == Prune(before, done)
      requires key in before.checkpoints && key !in done
      modifies `tables, `checkpoints
      ensures Valid() && user == if key in Prunable(before, wallTime) then Some(before.checkpoints[key].userId) else None
      ensures View() == Prune(before, if user.Some? then done + {key} else done)
    {
      hide Consistent, DropConversations, HasActive, Step;
      var payload := checkpoints[key];
      PruneSeesSameActivity(before, done, wallTime, payload.conversationId);
      if payload.expiresWall > wallTime || HasActive(tables, payload.conversationId) {
        return None;
      }
      PruneOneMore(before, done, key);
      DropsKeep(tables, {payload.conversationId});
      tables := DropConversations(tables, {payload.conversationId});
      checkpoints := checkpoints - {key};
      return Some(payload.userId);
    }

    // Due checkpoints are visited one by one; a conversation with a question in progress keeps its own.
    method PruneCheckpoints(wallTime: Time) returns (deleted: seq<string>)
      requires Valid()
      modifies `tables, `checkpoints
      ensures Valid()
      ensures View() == Commit(old(View()), PruneDue(wallTime))
      ensures forall user :: multiset(deleted)[user] == |CheckpointsOf(old(View()), Prunable(old(View()), wallTime), user)|
    {
      hide Consistent, Prune, HasActive, Prunable, Commit, CheckpointsOf;
      deleted := [];
      ghost var before := View();
      Due(before, wallTime);
      ghost var due := Prunable(before, wallTime);
      var pending := checkpoints.Keys;
      PruneNothing(before);
      assert due - pending == {};
      NoneYet(before);
      while pending != {}
        invariant Valid() && pending <= before.checkpoints.Keys
        invariant View() == Prune(before, due - pending)
        invariant forall user :: multiset(deleted)[user] == |CheckpointsOf(before, due - pending, user)|
        decreases |pending|
      {
        var key :| key in pending;
        var user := PruneOne(before, due - pending, key, wallTime);
        Visited(before, due, pending, key);
        pending := pending - {key};
        if user.Some? {
          deleted := deleted + [user.value];
        }
      }
      assert due - pending == due;
    }
  }

  // Those of the checkpoints that belong to one user.
  function CheckpointsOf(d: Database, keys: set<Digest<string>>, user: string): set<Digest<string>> {
    set k | k in keys && k in d.checkpoints && d.checkpoints[k].userId == user
  }

  lemma NoneYet(d: Database)
    ensures forall user :: CheckpointsOf(d, {}, user) == {}
  {
  }

  lemma Visited(d: Database, due: set<Digest<string>>, pending: set<Digest<string>>, key: Digest<string>)
    requires key in pending && key in d.checkpoints
    ensures due - (pending - {key}) == if key in due then due - pending + {key} else due - pending
    ensures forall user :: |CheckpointsOf(d, due - (pending - {key}), user)|
                        == |CheckpointsOf(d, due - pending, user)| + if key in due && d.checkpoints[key].userId == user then 1 else 0
  {
    hide CheckpointsOf;
    assert due - (pending - {key}) == if key in due then due - pending + {key} else due - pending;
    forall user { OneMoreOf(d, due - pending, key, user); }
  }

  lemma OneMoreOf(d: Database, keys: set<Digest<string>>, key: Digest<string>, user: string)
    requires key !in keys && key in d.checkpoints
    ensures |CheckpointsOf(d, keys + {key}, user)|
         == |CheckpointsOf(d, keys, user)| + if d.checkpoints[key].userId == user then 1 else 0
  {
    var before, after := CheckpointsOf(d, keys, user), CheckpointsOf(d, keys + {key}, user);
    assert after == if d.checkpoints[key].userId == user then before + {key} else before;
  }

  // What recovery makes of one run row.
  function Recovered(t: Tables, r: Uuid, wall: Time): Row
    requires r in t.runs
  {
    if Terminal(t.runs[r].status) then t.runs[r]
    else
      var run := Stamped(Ended(t.runs[r].payload, RESTARTED), wall);
      t.runs[r].(payload := run, status := run.status)
  }

  lemma RecoveredSame(t: Tables, t': Tables, r: Uuid, wall: Time)
    requires r in t.runs && r in t'.runs && t.runs[r] == t'.runs[r]
    ensures Recovered(t, r, wall) == Recovered(t', r, wall)
  {
  }

  lemma FinishRestarts(t: Tables, r: Uuid, wall: Time)
    requires r in t.runs && t.runs[r].payload.runId == r && t.runs[r].payload.status == t.runs[r].status && !Terminal(t.runs[r].status)
    ensures var t' := SqliteRuns.Finish(t, r, RESTARTED, wall).0;
            t'.runs == t.runs[r := Recovered(t, r, wall)] && t'.convs == t.convs
  {
  }

  lemma IdMatches(t: Tables, r: Uuid)
    requires Consistent(t)
    ensures r in t.runs ==> t.runs[r].payload.runId == r && t.runs[r].payload.status == t.runs[r].status
  {
    if r in t.runs { RunFacts(t, r); }
  }

  lemma Due(d: Database, wallTime: Time)
    ensures Commit(d, PruneDue(wallTime)) == Prune(d, Prunable(d, wallTime))
    ensures Prunable(d, wallTime) <= d.checkpoints.Keys
  {
  }

  lemma PruneNothing(d: Database)
    requires Consistent(d.tables)
    ensures Prune(d, {}) == d
  {
    JournalKeys(d.tables);
    DropNone(d.tables);
    assert Conversations(d, {}) == {};
  }

  lemma PruneOneMore(d: Database, done: set<Digest<string>>, key: Digest<string>)
    requires Consistent(d.tables) && done <= d.checkpoints.Keys && key in d.checkpoints
    ensures var d' := Prune(d, done);
            Prune(d, done + {key}) == d'.(tables := DropConversations(d'.tables, {d.checkpoints[key].conversationId}), checkpoints := d'.checkpoints - {key})
  {
    hide Consistent;
    JournalKeys(d.tables);
    var c := d.checkpoints[key].conversationId;
    assert Conversations(d, done + {key}) == Conversations(d, done) + {c};
    DropTwice(d.tables, Conversations(d, done), {c});
    assert d.checkpoints - (done + {key}) == (d.checkpoints - done) - {key};
  }

  // Deleting inactive conversations does not change which conversations are active.
  lemma PruneSeesSameActivity(d: Database, done: set<Digest<string>>, wallTime: Time, c: Uuid)
    requires done <= Prunable(d, wallTime)
    ensures HasActive(Prune(d, done).tables, c) == HasActive(d.tables, c)
  {
    var t, t' := d.tables, Prune(d, done).tables;
    if HasActive(t, c) {
      var r :| r in t.runs && t.runs[r].conversation == c && !Terminal(t.runs[r].status);
      assert c !in Conversations(d, done);
      assert r in t'.runs;
    }
  }
}
