/**
 What each transaction of the shared store does to the columns of its rows, said a second time without
 the functions that compute it: which calls take effect, and the whole new state when they do.
 */
module PostgresEffects {
  import opened Runs
  import opened RunTables
  import opened RunEffects
  import opened PostgresRuns

  const SECOND := 1_000_000

  lemma JobRow(t: Tables, s: Settings, r: Uuid)
    requires Sound(t, s) && r in t.runs
    ensures t.runs[r].payload.runId == r && t.runs[r].status == t.runs[r].payload.status
    ensures r in t.events && JournalFor(t, r) == t.events[r] && t.runs[r].extra.Shared?
  {
    RunFacts(t, r);
    LeaseFacts(t, r);
  }

  // ---------------------------------------------------------------- the calls of a worker that holds a job

  // The row still carries the job's fence, its lease runs, and it is executing or asked to stop.
  ghost predicate Holds(t: Tables, job: ClaimedRun, now: Time) {
    var r := job.run.runId;
    && r in t.runs && t.runs[r].extra.Shared? && t.runs[r].extra.fence == Some(job.fence)
    && t.runs[r].extra.leaseUntil.Some? && now < t.runs[r].extra.leaseUntil.value
    && (t.runs[r].status == Running || t.runs[r].status == CancellationRequested)
  }

  lemma OwnedHolds(t: Tables, s: Settings, job: ClaimedRun, now: Time)
    requires Sound(t, s)
    ensures Owned(t, job, now) <==> Holds(t, job, now)
  {
    hide Sound;
    if job.run.runId in t.runs { JobRow(t, s, job.run.runId); }
  }

  // A terminal write takes effect exactly for the holder. Asked to stop, the run ends cancelled; with its
  // authority over, interrupted; otherwise with the status, answer and code the worker wanted.
  lemma FinishEffect(t: Tables, s: Settings, job: ClaimedRun, wanted: Ending, now: Time, wall: Time)
    requires Sound(t, s) && wanted.status in {Completed, Failed, Cancelled, Interrupted}
    ensures var (t', outcome) := Finish(t, job, wanted, now, wall);
            var r := job.run.runId;
            && (!Holds(t, job, now) ==> t' == t && outcome == Err(LeaseLost))
            && (Holds(t, job, now) ==>
                  && r in t'.runs && outcome == Ok(t'.runs[r].payload)
                  && var row := t.runs[r];
                  if row.status == CancellationRequested then
                    Wrote(t, t', r, Next(row, Cancelled, row.payload.progress, None, None, wall), Became(Cancelled))
                  else if row.extra.expiresAt <= now then
                    Wrote(t, t', r, Next(row, Interrupted, row.payload.progress, None, Some(AuthorityExpiredCode), wall), Became(Interrupted))
                  else
                    var progress := if wanted.result.Some? then wanted.result.value.agentRun else row.payload.progress;
                    Wrote(t, t', r, Next(row, wanted.status, progress, wanted.result, wanted.code, wall), Became(wanted.status)))
  {
    hide Sound;
    OwnedHolds(t, s, job, now);
    if Holds(t, job, now) { JobRow(t, s, job.run.runId); }
  }

  // A report is recorded exactly for the holder, while the run is not asked to stop and has room for it.
  lemma ProgressEffect(t: Tables, s: Settings, job: ClaimedRun, report: Report, now: Time, wall: Time)
    requires Sound(t, s)
    ensures var (t', outcome) := Progress(t, job, report, now, wall);
            var r := job.run.runId;
            && (!Holds(t, job, now) ==> t' == t && outcome == Err(LeaseLost))
            && (Holds(t, job, now) ==>
                  var row := t.runs[r];
                  if row.status == CancellationRequested then t' == t && outcome == Ok(())
                  else if row.payload.sequence >= 60 then t' == t && outcome == Err(ProgressBudget)
                  else
                    && outcome == Ok(())
                    && Wrote(t, t', r, Next(row, Running, Some(report), row.payload.result, row.payload.errorCode, wall), AgentProgress))
  {
    hide Sound;
    OwnedHolds(t, s, job, now);
    if Holds(t, job, now) { JobRow(t, s, job.run.runId); }
  }

  // A heartbeat moves the end of the lease exactly for the holder of a run that may go on; it changes no
  // other column, no other row and no journal.
  lemma HeartbeatEffect(t: Tables, s: Settings, job: ClaimedRun, now: Time)
    requires Sound(t, s)
    ensures var (t', outcome) := Heartbeat(t, s, job, now);
            var r := job.run.runId;
            && (!Holds(t, job, now) ==> t' == t && outcome == Err(LeaseLost))
            && (Holds(t, job, now) ==>
                  var row := t.runs[r];
                  if row.status == CancellationRequested || row.extra.expiresAt <= now then t' == t && outcome == Ok(false)
                  else
                    && outcome == Ok(true) && t'.convs == t.convs && t'.order == t.order && t'.events == t.events
                    && t'.runs == t.runs[r := row.(extra := row.extra.(leaseUntil := Some(now + s.leaseSeconds * SECOND)))])
  {
    hide Sound;
    OwnedHolds(t, s, job, now);
    if Holds(t, job, now) { JobRow(t, s, job.run.runId); }
  }

  // ---------------------------------------------------------------- the calls of a client

  // A queued run is cancelled at once, a running one is asked to stop, and any other is left as it is.
  lemma CancelEffect(t: Tables, s: Settings, owner: Owner, scope: Scope, r: Uuid, wall: Time)
    requires Sound(t, s)
    ensures var (t', outcome) := Cancel(t, owner, scope, r, wall);
            && (!Reaches(t, owner, scope, r) ==> t' == t && outcome == Err(RunUnavailable))
            && (Reaches(t, owner, scope, r) ==>
                  && r in t'.runs && outcome == Ok(t'.runs[r].payload)
                  && var row := t.runs[r];
                  match row.status
                  case Queued =>
                    Wrote(t, t', r, Next(row, Cancelled, row.payload.progress, row.payload.result, row.payload.errorCode, wall), Became(Cancelled))
                  case Running =>
                    Wrote(t, t', r, Next(row, CancellationRequested, row.payload.progress, row.payload.result, row.payload.errorCode, wall),
                          Became(CancellationRequested))
                  case _ => t' == t)
  {
    hide Consistent, LeasesOk, WithinCapacity, ConversationsBounded;
    if r in t.runs { RunFacts(t, r); }
  }

  // A conversation is created exactly within both limits and under an identifier nobody has, empty and owned.
  lemma CreateEffect(t: Tables, s: Settings, owner: Owner, scope: Scope, id: Uuid, wall: Time)
    ensures var (t', outcome) := CreateConversation(t, s, owner, scope, id, wall);
            var made := Conversation(id, 0, "New conversation", None, wall);
            if |t.convs| >= s.maximumConversations || |set c | c in t.convs && t.convs[c].owner == owner| >= 16
            then t' == t && outcome == Err(ConversationCapacity)
            else if id in t.convs then t' == t && outcome == Err(StorageConflict)
            else
              && outcome == Ok(made) && t'.runs == t.runs && t'.order == t.order && t'.events == t.events
              && t'.convs == t.convs[id := ConvRow(owner, scope, made)]
  {
    assert OwnedBy(t, owner) == set c | c in t.convs && t.convs[c].owner == owner;
  }

  // A question is admitted exactly when its authority is the asker's and lasts, the conversation is the
  // asker's, at the expected revision and idle, no run has the request's identifier, and there is room.
  ghost predicate Admits(t: Tables, s: Settings, owner: Owner, scope: Scope, request: RunRequest, grant: Grant, runId: Uuid, now: Time) {
    var c := request.conversationId;
    && owner == Owner(Digest(("internal", grant.access.tenant, grant.access.user))) && scope == Scope(Digest(grant.access))
    && request.sourceFingerprint == None && now < grant.expiresAt
    && Belongs(t, owner, scope, c) && t.convs[c].payload.revision == request.expectedRevision < 64
    && AtRest(t, c) && Unasked(t, request)
    && |set r | r in t.runs && t.runs[r].status == Queued| < s.maximumPending
    && runId !in t.runs
  }

  lemma EnqueueEffect(t: Tables, s: Settings, owner: Owner, scope: Scope, request: RunRequest, binding: string,
                      grant: Grant, runId: Uuid, now: Time, wall: Time)
    requires Sound(t, s)
    ensures var (t', outcome) := Enqueue(t, s, owner, scope, request, binding, grant, runId, now, wall);
            if Admits(t, s, owner, scope, request, grant, runId, now)
            then
              && AfterAdmission(t, t', request, binding, Shared(grant.access.tenant, binding, grant, grant.expiresAt, None, None), runId, wall)
              && outcome == Ok(t'.runs[runId].payload)
            else t' == t
  {
    hide LeasesOk, WithinCapacity, ConversationsBounded, RowsOk, JournalsOk, UniqueRequests, OnlyLatestActive, OrderOk, NumberingOk;
    assert Selected(t.runs, IsQueued) == set r | r in t.runs && t.runs[r].status == Queued;
    var t' := Enqueue(t, s, owner, scope, request, binding, grant, runId, now, wall).0;
    if Admits(t, s, owner, scope, request, grant, runId, now) {
      SameKeys(t, s);
      RevisionCounts(t, request.conversationId);
      forall r ensures !IsRequest(t, r, request) {}
    } else if t' != t {
      EnqueueAdmissible(t, s, owner, scope, request, binding, grant, runId, now, wall);
      forall r | r in t.runs && t.runs[r].conversation == request.conversationId
        ensures Terminal(t.runs[r].status) && t.runs[r].requestId != request.clientRequestId
      {
        assert !IsRequest(t, r, request);
      }
    }
  }

  // A conversation is removed exactly for its owner while it is idle, with its runs and their journals.
  lemma DeleteEffect(t: Tables, owner: Owner, scope: Scope, c: Uuid)
    ensures var (t', outcome) := Delete(t, owner, scope, c);
            && outcome == (if !Belongs(t, owner, scope, c) then Err(ConversationUnavailable) else if !AtRest(t, c) then Err(CancelFirst) else Ok(()))
            && if outcome.Ok? then Removed(t, t', {c}) else t' == t
  {
    DropRemoves(t, {c});
  }

  // ---------------------------------------------------------------- claiming

  // In flight with the lease over, or queued with the authority over.
  predicate Overdue(row: Row, now: Time) {
    row.extra.Shared?
    && (|| ((row.status == Running || row.status == CancellationRequested) && row.extra.leaseUntil.Some? && row.extra.leaseUntil.value <= now)
        || (row.status == Queued && row.extra.expiresAt <= now))
  }

  // The runs in flight that are not overdue, of all tenants and of one.
  function Executing(t: Tables, now: Time): set<Uuid> {
    set r | r in t.runs && (t.runs[r].status == Running || t.runs[r].status == CancellationRequested) && !Overdue(t.runs[r], now)
  }

  function ExecutingOf(t: Tables, now: Time, tenant: string): set<Uuid> {
    set r | r in Executing(t, now) && t.runs[r].extra.Shared? && t.runs[r].extra.tenant == tenant
  }

  // What a worker of one binding may be given: an unlocked queued row of that binding whose authority
  // lasts and whose tenant has a slot free.
  predicate Waiting(t: Tables, s: Settings, binding: string, locked: set<Uuid>, now: Time, r: Uuid) {
    && r in t.runs && r !in locked && t.runs[r].status == Queued && t.runs[r].extra.Shared?
    && t.runs[r].extra.binding == binding && now < t.runs[r].extra.expiresAt
    && |ExecutingOf(t, now, t.runs[r].extra.tenant)| < s.maximumRunningPerTenant
  }

  ghost predicate FirstWaiting(t: Tables, s: Settings, binding: string, locked: set<Uuid>, now: Time, k: nat) {
    && k < |t.order| && Waiting(t, s, binding, locked, now, t.order[k].run)
    && forall i :: 0 <= i < k ==> !Waiting(t, s, binding, locked, now, t.order[i].run)
  }

  ghost predicate SomeWaiting(t: Tables, s: Settings, binding: string, locked: set<Uuid>, now: Time) {
    exists k: nat :: FirstWaiting(t, s, binding, locked, now, k)
  }

  // The run is the first that waits, and the job carries its payload, its own grant and the new fence.
  ghost predicate Handed(t: Tables, t': Tables, s: Settings, binding: string, locked: set<Uuid>, now: Time, fence: Uuid, job: ClaimedRun) {
    var r := job.run.runId;
    && r in t.runs && r in t'.runs && t.runs[r].extra.Shared?
    && (exists k: nat :: FirstWaiting(t, s, binding, locked, now, k) && t.order[k].run == r)
    && job.run == t'.runs[r].payload && job.grant == t.runs[r].extra.grant && job.fence == fence
  }

  function Swept(row: Row, wall: Time): Row {
    Next(row, Interrupted, row.payload.progress, row.payload.result, Some(ExecutionExpired), wall)
  }

  function Taken(row: Row, s: Settings, fence: Uuid, now: Time, wall: Time): Row
    requires row.extra.Shared?
  {
    Next(row, Running, row.payload.progress, row.payload.result, row.payload.errorCode, wall)
      .(extra := row.extra.(fence := Some(fence), leaseUntil := Some(now + s.leaseSeconds * SECOND)))
  }

  // Every overdue run is interrupted, `claimed` is started under the fence, and nothing else is touched.
  ghost predicate AfterClaim(t: Tables, t': Tables, s: Settings, claimed: Option<Uuid>, fence: Uuid, now: Time, wall: Time) {
    && t'.convs == t.convs && t'.order == t.order && t'.runs.Keys == t.runs.Keys && t'.events.Keys == t.events.Keys == t.runs.Keys
    && forall r :: r in t.runs ==> RunAfterClaim(t, t', s, claimed, fence, now, wall, r)
  }

  ghost predicate RunAfterClaim(t: Tables, t': Tables, s: Settings, claimed: Option<Uuid>, fence: Uuid, now: Time, wall: Time, r: Uuid) {
    && r in t.runs && r in t'.runs && r in t.events && r in t'.events && t.runs[r].extra.Shared?
    && var row, row' := t.runs[r], t'.runs[r];
       if Overdue(row, now) then row' == Swept(row, wall) && t'.events[r] == Appended(t.events[r], row'.payload, Became(Interrupted))
       else if claimed == Some(r) then row' == Taken(row, s, fence, now, wall) && t'.events[r] == Appended(t.events[r], row'.payload, Started)
       else row' == row && t'.events[r] == t.events[r]
  }

  lemma SweptIs(t: Tables, s: Settings, now: Time, wall: Time)
    requires Sound(t, s)
    ensures forall fence :: AfterClaim(t, Sweep(t, now, wall), s, None, fence, now, wall)
  {
    hide Sound, RunAfterClaim;
    SameKeys(t, s);
    forall r, fence | r in t.runs ensures RunAfterClaim(t, Sweep(t, now, wall), s, None, fence, now, wall, r) {
      SweptRowIs(t, s, now, wall, fence, r);
    }
  }

  lemma SweptRowIs(t: Tables, s: Settings, now: Time, wall: Time, fence: Uuid, r: Uuid)
    requires Sound(t, s) && r in t.runs
    ensures RunAfterClaim(t, Sweep(t, now, wall), s, None, fence, now, wall, r)
  {
    hide Sound;
    JobRow(t, s, r);
  }

  lemma SameKeys(t: Tables, s: Settings)
    requires Sound(t, s)
    ensures t.events.Keys == t.runs.Keys
  {
  }

  // The sweep frees exactly the slots of the overdue runs.
  lemma SweptCounts(t: Tables, s: Settings, now: Time, wall: Time)
    requires Sound(t, s)
    ensures var t' := Sweep(t, now, wall);
            && Count(t'.runs, IsInFlight) == |Executing(t, now)|
            && forall tenant :: Count(t'.runs, InFlightOf(tenant)) == |ExecutingOf(t, now, tenant)|
  {
    hide Sound, Sweep;
    SweptIs(t, s, now, wall);
    var t' := Sweep(t, now, wall);
    assert AfterClaim(t, t', s, None, 0, now, wall);
    forall r ensures r in Selected(t'.runs, IsInFlight) <==> r in Executing(t, now) {
      if r in t.runs { assert RunAfterClaim(t, t', s, None, 0, now, wall, r); }
    }
    assert Selected(t'.runs, IsInFlight) == Executing(t, now);
    forall tenant ensures Count(t'.runs, InFlightOf(tenant)) == |ExecutingOf(t, now, tenant)| {
      forall r ensures r in Selected(t'.runs, InFlightOf(tenant)) <==> r in ExecutingOf(t, now, tenant) {
        if r in t.runs { assert RunAfterClaim(t, t', s, None, 0, now, wall, r); }
      }
      assert Selected(t'.runs, InFlightOf(tenant)) == ExecutingOf(t, now, tenant);
    }
  }

  predicate Free(t: Tables, s: Settings, binding: string, locked: set<Uuid>, r: Uuid) {
    r !in locked && Claimable(t, s, binding, r)
  }

  lemma FreeIsWaiting(t: Tables, s: Settings, binding: string, locked: set<Uuid>, now: Time, wall: Time, r: Uuid)
    requires Sound(t, s)
    ensures Free(Sweep(t, now, wall), s, binding, locked, r) <==> Waiting(t, s, binding, locked, now, r)
  {
    hide Sound, Sweep, Count, ExecutingOf;
    SweptIs(t, s, now, wall);
    SweptCounts(t, s, now, wall);
    var t' := Sweep(t, now, wall);
    assert AfterClaim(t, t', s, None, 0, now, wall);
    if r in t.runs { assert RunAfterClaim(t, t', s, None, 0, now, wall, r); }
  }

  lemma {:induction false} FirstClaimableIs(t: Tables, s: Settings, binding: string, locked: set<Uuid>, order: seq<Key>)
    ensures var first := FirstClaimable(t, s, binding, locked, order);
            && (first.None? ==> forall i :: 0 <= i < |order| ==> !Free(t, s, binding, locked, order[i].run))
            && (first.Some? ==> exists k :: 0 <= k < |order| && order[k].run == first.value && Free(t, s, binding, locked, order[k].run)
                                  && forall i :: 0 <= i < k ==> !Free(t, s, binding, locked, order[i].run))
  {
    hide Claimable;
    if order != [] && !Free(t, s, binding, locked, order[0].run) {
      FirstClaimableIs(t, s, binding, locked, order[1..]);
      hide FirstClaimable, Free;
      var first := FirstClaimable(t, s, binding, locked, order[1..]);
      if first.Some? {
        var k :| 0 <= k < |order[1..]| && order[1..][k].run == first.value && Free(t, s, binding, locked, order[1..][k].run)
                 && forall i :: 0 <= i < k ==> !Free(t, s, binding, locked, order[1..][i].run);
        assert order[k + 1].run == first.value;
        forall i | 0 <= i < k + 1 ensures !Free(t, s, binding, locked, order[i].run) {
          if i > 0 { assert order[1..][i - 1] == order[i]; }
        }
      } else {
        forall i | 0 <= i < |order| ensures !Free(t, s, binding, locked, order[i].run) {
          if i > 0 { assert order[1..][i - 1] == order[i]; }
        }
      }
    }
  }

  // A claim hands out a job exactly when there is a slot and a row for this worker, and then the first such
  // row in admission order, under its own grant; the overdue runs are interrupted either way.
  lemma ClaimEffect(t: Tables, s: Settings, binding: string, locked: set<Uuid>, fence: Uuid, now: Time, wall: Time)
    requires Sound(t, s)
    ensures var (t', job) := Claim(t, s, binding, locked, fence, now, wall);
            && (job.Some? <==> |Executing(t, now)| < s.maximumRunning && SomeWaiting(t, s, binding, locked, now))
            && match job
               case None => AfterClaim(t, t', s, None, fence, now, wall)
               case Some(taken) => AfterClaim(t, t', s, Some(taken.run.runId), fence, now, wall)
                                   && Handed(t, t', s, binding, locked, now, fence, taken)
  {
    hide Sound, Claim, Sweep, FirstClaimable, Count, StartRun, FirstWaiting, SomeWaiting, AfterClaim, Executing, Overdue;
    ClaimIs(t, s, binding, locked, fence, now, wall);
    SweptIs(t, s, now, wall);
    SweptCounts(t, s, now, wall);
    FirstIsWaiting(t, s, binding, locked, now, wall);
    var swept := Sweep(t, now, wall);
    var first := FirstClaimable(swept, s, binding, locked, swept.order);
    if first.Some? { TakenIs(t, s, first.value, fence, now, wall); }
  }

  lemma ClaimIs(t: Tables, s: Settings, binding: string, locked: set<Uuid>, fence: Uuid, now: Time, wall: Time)
    ensures var swept := Sweep(t, now, wall);
            var first := FirstClaimable(swept, s, binding, locked, swept.order);
            Claim(t, s, binding, locked, fence, now, wall)
            == if Count(swept.runs, IsInFlight) >= s.maximumRunning || first.None? then (swept, None)
               else
                 var t' := StartRun(swept, s, first.value, fence, now, wall);
                 (t', Some(ClaimedRun(t'.runs[first.value].payload, swept.runs[first.value].extra.grant, fence)))
  {
    hide Sweep, FirstClaimable, Count;
  }

  lemma FirstIsWaiting(t: Tables, s: Settings, binding: string, locked: set<Uuid>, now: Time, wall: Time)
    requires Sound(t, s)
    ensures var swept := Sweep(t, now, wall);
            var first := FirstClaimable(swept, s, binding, locked, swept.order);
            && (first.Some? <==> SomeWaiting(t, s, binding, locked, now))
            && match first
               case None => true
               case Some(r) => Chosen(t, s, binding, locked, now, r)
  {
    hide Sound, Sweep, FirstClaimable, Free, Waiting;
    var swept := Sweep(t, now, wall);
    SameOrder(t, s, now, wall);
    FirstClaimableIs(swept, s, binding, locked, swept.order);
    forall r ensures Free(swept, s, binding, locked, r) <==> Waiting(t, s, binding, locked, now, r) {
      FreeIsWaiting(t, s, binding, locked, now, wall, r);
    }
    var first := FirstClaimable(swept, s, binding, locked, swept.order);
    if first.Some? {
      var k :| 0 <= k < |t.order| && t.order[k].run == first.value && Free(swept, s, binding, locked, t.order[k].run)
               && forall i :: 0 <= i < k ==> !Free(swept, s, binding, locked, t.order[i].run);
      assert FirstWaiting(t, s, binding, locked, now, k);
      WaitingRow(t, s, binding, locked, now, first.value);
    }
  }

  ghost predicate Chosen(t: Tables, s: Settings, binding: string, locked: set<Uuid>, now: Time, r: Uuid) {
    && r in t.runs && t.runs[r].status == Queued && t.runs[r].extra.Shared? && !Overdue(t.runs[r], now)
    && exists k: nat :: FirstWaiting(t, s, binding, locked, now, k) && t.order[k].run == r
  }

  lemma WaitingRow(t: Tables, s: Settings, binding: string, locked: set<Uuid>, now: Time, r: Uuid)
    requires Waiting(t, s, binding, locked, now, r)
    ensures r in t.runs && t.runs[r].status == Queued && t.runs[r].extra.Shared? && !Overdue(t.runs[r], now)
  {
  }

  lemma SameOrder(t: Tables, s: Settings, now: Time, wall: Time)
    ensures Sweep(t, now, wall).order == t.order
  {
  }

  lemma TakenIs(t: Tables, s: Settings, r: Uuid, fence: Uuid, now: Time, wall: Time)
    requires Sound(t, s) && r in t.runs && t.runs[r].status == Queued && t.runs[r].extra.Shared? && !Overdue(t.runs[r], now)
    ensures var swept := Sweep(t, now, wall);
            && r in swept.runs && swept.runs[r] == t.runs[r]
            && var t' := StartRun(swept, s, r, fence, now, wall);
            && r in t'.runs && t'.runs[r].payload.runId == r && AfterClaim(t, t', s, Some(r), fence, now, wall)
  {
    hide Sound, Sweep;
    var swept := Sweep(t, now, wall);
    SweptIs(t, s, now, wall);
    JobRow(t, s, r);
    assert AfterClaim(t, swept, s, None, fence, now, wall);
    var t' := StartRun(swept, s, r, fence, now, wall);
    assert RunAfterClaim(t, swept, s, None, fence, now, wall, r);
    forall q | q in t.runs ensures RunAfterClaim(t, t', s, Some(r), fence, now, wall, q) {
      assert RunAfterClaim(t, swept, s, None, fence, now, wall, q);
    }
  }

  // A claim that hands out nothing leaves nothing it could have handed out.
  lemma NothingLeft(t: Tables, s: Settings, binding: string, locked: set<Uuid>, fence: Uuid, now: Time, wall: Time)
    requires Sound(t, s) && Claim(t, s, binding, locked, fence, now, wall).1.None?
    ensures var t' := Claim(t, s, binding, locked, fence, now, wall).0;
            |Executing(t', now)| >= s.maximumRunning || !SomeWaiting(t', s, binding, locked, now)
  {
    hide Sound, Sweep, FirstClaimable, Count, Executing, SomeWaiting;
    var t' := Claim(t, s, binding, locked, fence, now, wall).0;
    ClaimIs(t, s, binding, locked, fence, now, wall);
    SweepKeeps(t, s, now, wall);
    SweepTwice(t, s, now, wall);
    ClaimIs(t', s, binding, locked, fence, now, wall);
    ClaimEffect(t', s, binding, locked, fence, now, wall);
  }

  lemma SweepTwice(t: Tables, s: Settings, now: Time, wall: Time)
    requires Sound(t, s)
    ensures var swept := Sweep(t, now, wall); Sweep(swept, now, wall) == swept
  {
    hide Sound;
    var swept := Sweep(t, now, wall);
    SweepKeeps(t, s, now, wall);
    SweepComplete(t, now, wall);
    SameKeys(t, s);
    assert ExpiredRuns(swept, now) == {};
    SweepNone(swept, wall);
  }
}
