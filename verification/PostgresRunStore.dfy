/** The shared run store as an object over mutable tables; every method is one transaction. */
module PostgresRunStores {
  import opened Runs
  import opened RunTables
  import opened PostgresRuns

  class PostgresRunStore {
    const settings: Settings
    var convs: map<Uuid, ConvRow>
    var runs: map<Uuid, Row>
    var order: seq<Key>
    var events: map<Uuid, Journal>

    function View(): Tables
      reads this
    {
      Tables(convs, runs, order, events)
    }

    ghost predicate Valid()
      reads this
    {
      Sound(View(), settings)
    }

    constructor (settings: Settings)
      ensures this.settings == settings
      ensures View() == Tables(map[], map[], [], map[]) && Valid()
    {
      this.settings := settings;
      convs, runs, order, events := map[], map[], [], map[];
      new;
      EmptySound(settings);
    }

    method CreateConversation(owner: Owner, scope: Scope, id: Uuid, wall: Time) returns (outcome: Outcome<Conversation>)
      requires Valid()
      modifies this
      ensures Valid()
      ensures (View(), outcome) == PostgresRuns.CreateConversation(old(View()), settings, owner, scope, id, wall)
    {
      hide Sound, Proceeds, Silent;
      CreateKeeps(View(), settings, owner, scope, id, wall);
      var value := Conversation(id, 0, "New conversation", None, wall);
      var owned := set c | c in convs && convs[c].owner == owner;
      assert owned == OwnedBy(View(), owner);
      if |convs| >= settings.maximumConversations || |owned| >= 16 {
        return Err(ConversationCapacity);
      }
      if id in convs {
        return Err(StorageConflict);
      }
      convs := convs[id := ConvRow(owner, scope, value)];
      return Ok(value);
    }

    // UPDATE t2d_runs ...; INSERT INTO t2d_events ...
    method Write(run: RunSnapshot, kind: EventKind, wall: Time) returns (written: RunSnapshot)
      requires run.runId in runs
      modifies this
      ensures View() == Persist(old(View()), run, kind, wall)
      ensures written == Stamped(run, wall)
    {
      written := run.(sequence := run.sequence + 1, updatedAt := wall);
      var event := RunEvent(written.runId, written.sequence, kind, written.status, written.progress);
      runs := runs[written.runId := runs[written.runId].(payload := written, status := written.status)];
      var journal := if written.runId in events then events[written.runId] else map[];
      events := events[written.runId := journal[written.sequence := event]];
    }

    method Lookup(request: RunRequest) returns (found: Outcome<Option<RunSnapshot>>)
      requires Valid()
      ensures found == Existing(View(), request)
    {
      if r :| r in runs && IsRequest(View(), r, request) {
        ExistingIs(View(), r, request);
        if runs[r].requestHash != Digest(request) {
          return Err(RequestConflict);
        }
        return Ok(Some(runs[r].payload));
      }
      return Ok(None);
    }

    method Enqueue(owner: Owner, scope: Scope, request: RunRequest, binding: string, grant: Grant,
                   runId: Uuid, now: Time, wall: Time) returns (outcome: Outcome<RunSnapshot>)
      requires Valid()
      modifies this
      ensures Valid()
      ensures (View(), outcome) ==
              PostgresRuns.Enqueue(old(View()), settings, owner, scope, request, binding, grant, runId, now, wall)
    {
      hide Sound, Proceeds, Silent, HasActive, Existing, Count;
      EnqueueKeeps(View(), settings, owner, scope, request, binding, grant, runId, now, wall);
      var c := request.conversationId;
      if Principal("internal", grant.access) != (owner, scope) || request.sourceFingerprint.Some? {
        return Err(AuthorityInvalid);
      }
      if !Owns(View(), owner, scope, c) {
        return Err(ConversationUnavailable);
      }
      var existing := Lookup(request);
      match existing {
        case Err(e) => return Err(e);
        case Ok(Some(run)) => return Ok(run);
        case Ok(None) =>
      }
      if grant.expiresAt <= now {
        return Err(AuthorityExpired);
      }
      var conversation := convs[c].payload;
      if conversation.revision != request.expectedRevision {
        return Err(ConversationChanged);
      }
      if HasActive(View(), c) {
        return Err(ActiveQuestion);
      }
      if Count(runs, InConversation(c)) >= 64 || Count(runs, IsQueued) >= settings.maximumPending {
        return Err(CapacityOccupied);
      }
      if runId in runs {
        return Err(StorageConflict);
      }
      var run := Insert(request, binding, grant, runId, wall);
      return Ok(run);
    }

    // UPDATE t2d_conversations ...; INSERT INTO t2d_runs ...; then the first event.
    method Insert(request: RunRequest, binding: string, grant: Grant, runId: Uuid, wall: Time) returns (run: RunSnapshot)
      requires request.conversationId in convs
      modifies this
      ensures View() == Admit(old(View()), NewRun(request, binding, runId, wall),
                              Shared(grant.access.tenant, binding, grant, grant.expiresAt, None, None), wall)
      ensures run == View().runs[runId].payload
    {
      run := NewRun(request, binding, runId, wall);
      var c := request.conversationId;
      var conversation := convs[c].payload;
      conversation := conversation.(revision := conversation.revision + 1);
      conversation := conversation.(latestRunId := Some(runId), title := Prefix(request.question, 80));
      convs := convs[c := convs[c].(payload := conversation)];
      runs := runs[runId := Row(c, request.clientRequestId, Digest(request), run.status, run,
                                Shared(grant.access.tenant, binding, grant, grant.expiresAt, None, None))];
      order := order + [Key(runId, c)];
      run := Write(run, Accepted, wall);
    }

    method Cancel(owner: Owner, scope: Scope, r: Uuid, wall: Time) returns (outcome: Outcome<RunSnapshot>)
      requires Valid()
      modifies this
      ensures Valid()
      ensures (View(), outcome) == PostgresRuns.Cancel(old(View()), owner, scope, r, wall)
    {
      hide Sound, Proceeds, Silent;
      IdsMatch(View(), settings);
      CancelKeeps(View(), settings, owner, scope, r, wall);
      if r !in runs {
        return Err(RunUnavailable);
      }
      var run := runs[r].payload;
      if !Owns(View(), owner, scope, run.request.conversationId) {
        return Err(RunUnavailable);
      }
      if !Terminal(run.status) && run.status != CancellationRequested {
        run := run.(status := if run.status == Queued then Cancelled else CancellationRequested);
        run := Write(run, Became(run.status), wall);
      }
      return Ok(run);
    }

    method Delete(owner: Owner, scope: Scope, c: Uuid) returns (outcome: Outcome<()>)
      requires Valid()
      modifies this
      ensures Valid()
      ensures (View(), outcome) == PostgresRuns.Delete(old(View()), owner, scope, c)
    {
      hide Sound, Proceeds, Silent;
      DeleteKeeps(View(), settings, owner, scope, c);
      if !Owns(View(), owner, scope, c) {
        return Err(ConversationUnavailable);
      }
      if HasActive(View(), c) {
        return Err(CancelFirst);
      }
      var kept := DropConversations(View(), {c});
      convs, runs, order, events := kept.convs, kept.runs, kept.order, kept.events;
      return Ok(());
    }

    // The rows are interrupted one by one, in no particular order.
    method InterruptExpired(now: Time, wall: Time)
      requires Valid()
      modifies this
      ensures View() == Sweep(old(View()), now, wall)
    {
      hide Sound, SweepRows, ExpiredRuns;
      ghost var before := View();
      var expired := ExpiredRuns(View(), now);
      ExpiredSweepable(before, settings, now);
      SweepNone(before, wall);
      var pending := expired;
      assert expired - pending == {};
      while pending != {}
        invariant pending <= expired
        invariant View() == SweepRows(before, expired - pending, wall)
        decreases |pending|
      {
        var r :| r in pending;
        assert expired - (pending - {r}) == expired - pending + {r};
        InterruptOne(before, expired - pending, r, wall);
        pending := pending - {r};
      }
      assert expired - pending == expired;
    }

    method InterruptOne(ghost before: Tables, ghost done: set<Uuid>, r: Uuid, wall: Time)
      requires View() == SweepRows(before, done, wall) && Sweepable(before, done + {r}) && r !in done
      modifies this
      ensures View() == SweepRows(before, done + {r}, wall)
    {
      SweepPeels(before, done, r, wall);
      var run := runs[r].payload;
      run := run.(status := Interrupted, errorCode := Some(ExecutionExpired));
      var _ := Write(run, Became(Interrupted), wall);
    }

    method Claim(binding: string, locked: set<Uuid>, fence: Uuid, now: Time, wall: Time) returns (job: Option<ClaimedRun>)
      requires Valid()
      modifies this
      ensures Valid()
      ensures (View(), job) == PostgresRuns.Claim(old(View()), settings, binding, locked, fence, now, wall)
    {
      hide Sound, Proceeds, Silent, FencesKept, ClaimedFrom;
      IdsMatch(View(), settings);
      ClaimKeeps(View(), settings, binding, locked, fence, now, wall);
      InterruptExpired(now, wall);
      job := ClaimNext(binding, locked, fence, now, wall);
    }

    method ClaimNext(binding: string, locked: set<Uuid>, fence: Uuid, now: Time, wall: Time) returns (job: Option<ClaimedRun>)
      requires forall r :: r in runs ==> runs[r].payload.runId == r
      modifies this
      ensures (View(), job) == PostgresRuns.ClaimSwept(old(View()), settings, binding, locked, fence, now, wall)
    {
      if Count(runs, IsInFlight) >= settings.maximumRunning {
        return None;
      }
      var next := NextClaimable(binding, locked);
      if next.None? {
        return None;
      }
      var run, grant := runs[next.value].payload, runs[next.value].extra.grant;
      SetLease(next.value, fence, now);
      run := Write(run.(status := Running), Started, wall);
      return Some(ClaimedRun(run, grant, fence));
    }

    // ORDER BY created_at LIMIT 1 FOR UPDATE SKIP LOCKED.
    method NextClaimable(binding: string, locked: set<Uuid>) returns (next: Option<Uuid>)
      ensures next == FirstClaimable(View(), settings, binding, locked, order)
    {
      var i := 0;
      while i < |order|
        invariant i <= |order|
        invariant FirstClaimable(View(), settings, binding, locked, order)
               == FirstClaimable(View(), settings, binding, locked, order[i..])
      {
        if order[i].run !in locked && Claimable(View(), settings, binding, order[i].run) {
          return Some(order[i].run);
        }
        i := i + 1;
      }
      return None;
    }

    method SetLease(r: Uuid, fence: Uuid, now: Time)
      requires r in runs && runs[r].extra.Shared?
      modifies this
      ensures View() == Leased(old(View()), settings, r, fence, now)
    {
      var row := runs[r];
      row := row.(extra := row.extra.(fence := Some(fence)));
      row := row.(extra := row.extra.(leaseUntil := Some(now + settings.leaseSeconds * MICROSECONDS)));
      runs := runs[r := row];
    }

    method Heartbeat(job: ClaimedRun, now: Time) returns (outcome: Outcome<bool>)
      requires Valid()
      modifies this
      ensures Valid()
      ensures (View(), outcome) == PostgresRuns.Heartbeat(old(View()), settings, job, now)
    {
      hide Sound, Proceeds, Silent, Leased;
      HeartbeatKeeps(View(), settings, job, now);
      if !Owned(View(), job, now) {
        return Err(LeaseLost);
      }
      var row := runs[job.run.runId];
      var live := row.payload.status != CancellationRequested && now < row.extra.expiresAt;
      if live {
        SetLease(job.run.runId, job.fence, now);
      }
      return Ok(live);
    }

    method Progress(job: ClaimedRun, report: Report, now: Time, wall: Time) returns (outcome: Outcome<()>)
      requires Valid()
      modifies this
      ensures Valid()
      ensures (View(), outcome) == PostgresRuns.Progress(old(View()), job, report, now, wall)
    {
      hide Sound, Proceeds, Silent;
      ProgressKeeps(View(), settings, job, report, now, wall);
      if !Owned(View(), job, now) {
        return Err(LeaseLost);
      }
      var run := runs[job.run.runId].payload;
      if run.status == CancellationRequested {
        return Ok(());
      }
      if run.sequence >= 60 {
        return Err(ProgressBudget);
      }
      var _ := Write(run.(progress := Some(report)), AgentProgress, wall);
      return Ok(());
    }

    method Finish(job: ClaimedRun, wanted: Ending, now: Time, wall: Time) returns (outcome: Outcome<RunSnapshot>)
      requires Valid()
      modifies this
      ensures Valid()
      ensures (View(), outcome) == PostgresRuns.Finish(old(View()), job, wanted, now, wall)
    {
      hide Sound, Proceeds, Silent;
      FinishKeeps(View(), settings, job, wanted, now, wall);
      if !Terminal(wanted.status) {
        return Err(TerminalRequired);
      }
      if !Owned(View(), job, now) {
        return Err(LeaseLost);
      }
      var run := runs[job.run.runId].payload;
      var ending := wanted;
      if run.status == CancellationRequested {
        ending := Ending(Cancelled, None, None);
      } else if runs[job.run.runId].extra.expiresAt <= now {
        ending := Ending(Interrupted, None, Some(AuthorityExpiredCode));
      }
      run := run.(status := ending.status, result := ending.result, errorCode := ending.code);
      if ending.result.Some? {
        run := run.(progress := ending.result.value.agentRun);
      }
      run := Write(run, Became(ending.status), wall);
      return Ok(run);
    }

    // Other transactions commit in between; what every one of them keeps of a run is all that is known.
    method Meanwhile(r: Uuid)
      requires Valid()
      modifies this
      ensures Valid() && (r in old(runs) && r in runs ==> Forward(old(View()), View(), r))
    {
      hide Sound;
      if r in runs { StaysForward(View(), settings, r); }
    }

    // The row is read and the cursor tested in one transaction, the events are selected in a later one: the
    // replay is what follows the cursor by then, complete and in order, or nothing if the run is gone.
    method Replay(owner: Owner, scope: Scope, r: Uuid, after: int) returns (outcome: Outcome<seq<RunEvent>>)
      requires Valid()
      modifies this
      ensures Valid()
      ensures outcome.Err? <==> CursorRefusal(old(View()), owner, scope, r, after).Some?
      ensures outcome.Err? ==> Some(outcome.error) == CursorRefusal(old(View()), owner, scope, r, after)
      ensures outcome.Ok? && r !in runs ==> outcome.value == []
      ensures outcome.Ok? && r in runs ==>
                && r in old(runs) && 0 <= after <= old(runs[r].payload.sequence) <= runs[r].payload.sequence
                && CompleteFrom(View(), r, after, outcome.value)
    {
      hide Sound, JournalFor, Readable, CompleteFrom;
      var refusal := TestCursor(owner, scope, r, after);
      if refusal.Some? {
        return Err(refusal.value);
      }
      Meanwhile(r);
      var replay := Select(r, after);
      return Ok(replay);
    }

    method TestCursor(owner: Owner, scope: Scope, r: Uuid, after: int) returns (refusal: Option<RunError>)
      ensures refusal == CursorRefusal(View(), owner, scope, r, after)
      ensures refusal.None? ==> r in runs && 0 <= after <= runs[r].payload.sequence
    {
      if !Readable(View(), owner, scope, r) {
        return Some(RunUnavailable);
      }
      if after < 0 || after > runs[r].payload.sequence {
        return Some(CursorOutside);
      }
      return None;
    }

    method Select(r: Uuid, after: nat) returns (replay: seq<RunEvent>)
      requires Valid() && (r in runs ==> after <= runs[r].payload.sequence)
      ensures r !in runs ==> replay == []
      ensures r in runs ==> CompleteFrom(View(), r, after, replay)
    {
      hide Sound, EventsBetween, CompleteFrom;
      if r !in runs {
        return [];
      }
      ReplayFollows(View(), settings, r, after);
      JournalPresent(View(), settings, r);
      replay := Collect(events[r], after, runs[r].payload.sequence);
    }

    // SELECT payload FROM t2d_events WHERE run_id=r AND sequence>after ORDER BY sequence.
    static method Collect(journal: Journal, after: nat, upto: nat) returns (replay: seq<RunEvent>)
      requires after <= upto
      ensures replay == EventsBetween(journal, after, upto)
    {
      replay := [];
      var k := after;
      while k < upto
        invariant after <= k <= upto
        invariant replay == EventsBetween(journal, after, k)
      {
        k := k + 1;
        if k in journal {
          replay := replay + [journal[k]];
        }
      }
    }
  }

  lemma EmptySound(s: Settings)
    ensures Sound(Tables(map[], map[], [], map[]), s)
  {
    var t := Tables(map[], map[], [], map[]);
    assert Consistent(t);
    assert Selected(t.runs, IsInFlight) == {} && Selected(t.runs, IsQueued) == {};
    forall tenant ensures Selected(t.runs, InFlightOf(tenant)) == {} {}
    forall owner ensures OwnedBy(t, owner) == {} {}
  }

  lemma JournalPresent(t: Tables, s: Settings, r: Uuid)
    requires Sound(t, s) && r in t.runs
    ensures r in t.events && JournalFor(t, r) == t.events[r]
  {
    RunFacts(t, r);
  }

  // The events after a cursor up to the run's own sequence: gapless, in order, and nothing else.
  ghost predicate CompleteFrom(t: Tables, r: Uuid, after: nat, replay: seq<RunEvent>) {
    && r in t.runs && after + |replay| == t.runs[r].payload.sequence
    && forall i :: 0 <= i < |replay| ==>
         && replay[i].sequence == after + 1 + i && replay[i].runId == r
         && after + 1 + i in JournalFor(t, r) && replay[i] == JournalFor(t, r)[after + 1 + i]
  }

  lemma ReplayFollows(t: Tables, s: Settings, r: Uuid, after: nat)
    requires Sound(t, s) && r in t.runs && after <= t.runs[r].payload.sequence
    ensures CompleteFrom(t, r, after, EventsBetween(JournalFor(t, r), after, t.runs[r].payload.sequence))
  {
    hide Consistent, LeasesOk;
    RunFacts(t, r);
    ReplayIs(t.events[r], t.runs[r].payload, after, t.runs[r].payload.sequence);
    hide EventsBetween;
    var replay := EventsBetween(JournalFor(t, r), after, t.runs[r].payload.sequence);
    forall i | 0 <= i < |replay|
      ensures after + 1 + i in JournalFor(t, r) && replay[i] == JournalFor(t, r)[after + 1 + i] && replay[i].sequence == after + 1 + i
    {
      var event := replay[i];
    }
  }

  lemma StaysForward(t: Tables, s: Settings, r: Uuid)
    requires Sound(t, s) && r in t.runs
    ensures Forward(t, t, r)
  {
  }

  lemma IdsMatch(t: Tables, s: Settings)
    requires Sound(t, s)
    ensures forall r :: r in t.runs ==> t.runs[r].payload.runId == r
  {
    forall r | r in t.runs ensures t.runs[r].payload.runId == r { RunFacts(t, r); }
  }

  lemma ExpiredSweepable(t: Tables, s: Settings, now: Time)
    requires Sound(t, s)
    ensures Sweepable(t, ExpiredRuns(t, now))
  {
    hide OrderOk, NumberingOk, UniqueRequests, OnlyLatestActive;
  }
}
