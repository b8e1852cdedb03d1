/**
 The shared run store. Each transaction is one function of the tables, the database clock and the
 identifiers it draws. PostgresRunStores performs the same statements on mutable tables.
 */
module PostgresRuns {
  import opened Runs
  import opened RunTables

  datatype Settings = Settings(
    leaseSeconds: nat,
    maximumPending: nat,
    maximumRunning: nat,
    maximumRunningPerTenant: nat,
    maximumConversations: nat)

  // What a worker holds after a claim; it may be stale by the time it is used.
  datatype ClaimedRun = ClaimedRun(run: RunSnapshot, grant: Grant, fence: Uuid)

  // ---------------------------------------------------------------- row conditions

  predicate IsQueued(row: Row) { row.status == Queued }

  predicate IsInFlight(row: Row) { InFlight(row.status) }

  function InFlightOf(tenant: string): Row -> bool {
    (row: Row) => InFlight(row.status) && row.extra.Shared? && row.extra.tenant == tenant
  }

  // (status IN ('RUNNING','CANCELLATION_REQUESTED') AND lease_until<=now) OR (status='QUEUED' AND expires_at<=now)
  predicate Expired(row: Row, now: Time) {
    row.extra.Shared? &&
    (|| (InFlight(row.status) && row.extra.leaseUntil.Some? && row.extra.leaseUntil.value <= now)
     || (row.status == Queued && row.extra.expiresAt <= now))
  }

  // ---------------------------------------------------------------- transactions

  function CreateConversation(t: Tables, s: Settings, owner: Owner, scope: Scope, id: Uuid, wall: Time): (Tables, Outcome<Conversation>) {
    var owned := OwnedBy(t, owner);
    var value := Conversation(id, 0, "New conversation", None, wall);
    if |t.convs| >= s.maximumConversations || |owned| >= 16 then (t, Err(ConversationCapacity))
    else if id in t.convs then (t, Err(StorageConflict))
    else (AddConversation(t, ConvRow(owner, scope, value)), Ok(value))
  }

  ghost function Enqueue(t: Tables, s: Settings, owner: Owner, scope: Scope, request: RunRequest, binding: string,
                         grant: Grant, runId: Uuid, now: Time, wall: Time): (Tables, Outcome<RunSnapshot>)
  {
    var c := request.conversationId;
    if Principal("internal", grant.access) != (owner, scope) || request.sourceFingerprint.Some? then (t, Err(AuthorityInvalid))
    else if !Owns(t, owner, scope, c) then (t, Err(ConversationUnavailable))
    else
      match Existing(t, request)
      case Err(e) => (t, Err(e))
      case Ok(Some(run)) => (t, Ok(run))
      case Ok(None) =>
        if grant.expiresAt <= now then (t, Err(AuthorityExpired))
        else if t.convs[c].payload.revision != request.expectedRevision then (t, Err(ConversationChanged))
        else if HasActive(t, c) then (t, Err(ActiveQuestion))
        else if Count(t.runs, InConversation(c)) >= 64 || Count(t.runs, IsQueued) >= s.maximumPending
        then (t, Err(CapacityOccupied))
        else if runId in t.runs then (t, Err(StorageConflict))
        else
          var extra := Shared(grant.access.tenant, binding, grant, grant.expiresAt, None, None);
          var t' := Admit(t, NewRun(request, binding, runId, wall), extra, wall);
          (t', Ok(t'.runs[runId].payload))
  }

  // A run is readable by the identity and scope of its conversation only.
  predicate Readable(t: Tables, owner: Owner, scope: Scope, r: Uuid) {
    r in t.runs && Owns(t, owner, scope, t.runs[r].payload.request.conversationId)
  }

  function Cancel(t: Tables, owner: Owner, scope: Scope, r: Uuid, wall: Time): (Tables, Outcome<RunSnapshot>) {
    if !Readable(t, owner, scope, r) then (t, Err(RunUnavailable))
    else
      var run := t.runs[r].payload;
      if Terminal(run.status) || run.status == CancellationRequested then (t, Ok(run))
      else
        var status := if run.status == Queued then Cancelled else CancellationRequested;
        var t' := Persist(t, run.(status := status), Became(status), wall);
        (t', Ok(t'.runs[r].payload))
  }

  function Delete(t: Tables, owner: Owner, scope: Scope, c: Uuid): (Tables, Outcome<()>) {
    if !Owns(t, owner, scope, c) then (t, Err(ConversationUnavailable))
    else if HasActive(t, c) then (t, Err(CancelFirst))
    else (DropConversations(t, {c}), Ok(()))
  }

  function Lapsed(run: RunSnapshot): RunSnapshot {
    run.(status := Interrupted, errorCode := Some(ExecutionExpired))
  }

  // Every expired run becomes INTERRUPTED, whatever order the rows are visited in.
  function Sweep(t: Tables, now: Time, wall: Time): Tables {
    SweepRows(t, ExpiredRuns(t, now), wall)
  }

  function ExpiredRuns(t: Tables, now: Time): set<Uuid> {
    set r | r in t.runs && Expired(t.runs[r], now)
  }

  function SweepRows(t: Tables, expired: set<Uuid>, wall: Time): Tables {
    t.(runs := map r | r in t.runs ::
                 if r in expired
                 then var next := Stamped(Lapsed(t.runs[r].payload), wall); t.runs[r].(payload := next, status := next.status)
                 else t.runs[r],
       events := map r | r in t.runs.Keys + t.events.Keys ::
                   if r in expired && r in t.runs
                   then var next := Stamped(Lapsed(t.runs[r].payload), wall);
                        JournalFor(t, r)[next.sequence := EventFor(next, Became(Interrupted))]
                   else JournalFor(t, r))
  }

  predicate Claimable(t: Tables, s: Settings, binding: string, r: Uuid) {
    && r in t.runs && t.runs[r].status == Queued
    && t.runs[r].extra.Shared? && t.runs[r].extra.binding == binding
    && Count(t.runs, InFlightOf(t.runs[r].extra.tenant)) < s.maximumRunningPerTenant
  }

  // ORDER BY created_at LIMIT 1 FOR UPDATE SKIP LOCKED; `locked` holds rows other transactions keep locked.
  function FirstClaimable(t: Tables, s: Settings, binding: string, locked: set<Uuid>, order: seq<Key>): (first: Option<Uuid>)
    ensures first.Some? ==> first.value !in locked && Claimable(t, s, binding, first.value)
  {
    if order == [] then None
    else if order[0].run !in locked && Claimable(t, s, binding, order[0].run) then Some(order[0].run)
    else FirstClaimable(t, s, binding, locked, order[1..])
  }

  function Fenced(row: Row, fence: Uuid, until: Time): Row
    requires row.extra.Shared?
  {
    row.(extra := row.extra.(fence := Some(fence), leaseUntil := Some(until)))
  }

  function Leased(t: Tables, s: Settings, r: Uuid, fence: Uuid, now: Time): Tables
    requires r in t.runs && t.runs[r].extra.Shared?
  {
    t.(runs := t.runs[r := Fenced(t.runs[r], fence, now + s.leaseSeconds * MICROSECONDS)])
  }

  function StartRun(t: Tables, s: Settings, r: Uuid, fence: Uuid, now: Time, wall: Time): Tables
    requires r in t.runs && t.runs[r].extra.Shared?
  {
    Persist(Leased(t, s, r, fence, now), t.runs[r].payload.(status := Running), Started, wall)
  }

  function Claim(t: Tables, s: Settings, binding: string, locked: set<Uuid>, fence: Uuid, now: Time, wall: Time): (Tables, Option<ClaimedRun>)
  {
    ClaimSwept(Sweep(t, now, wall), s, binding, locked, fence, now, wall)
  }

  function ClaimSwept(t: Tables, s: Settings, binding: string, locked: set<Uuid>, fence: Uuid, now: Time, wall: Time): (Tables, Option<ClaimedRun>)
  {
    if Count(t.runs, IsInFlight) >= s.maximumRunning then (t, None)
    else
      match FirstClaimable(t, s, binding, locked, t.order)
      case None => (t, None)
      case Some(r) =>
        var t' := StartRun(t, s, r, fence, now, wall);
        (t', Some(ClaimedRun(t'.runs[r].payload, t.runs[r].extra.grant, fence)))
  }

  // Without other transactions' locks this is first come, first served: no earlier row was claimable.
  lemma OldestFirst(t: Tables, s: Settings, binding: string, locked: set<Uuid>, order: seq<Key>, k: nat)
    requires k < |order| && order[k].run !in locked && Claimable(t, s, binding, order[k].run)
    ensures exists i :: 0 <= i <= k && FirstClaimable(t, s, binding, locked, order) == Some(order[i].run)
  {
    if order[0].run !in locked && Claimable(t, s, binding, order[0].run) {
    } else {
      OldestFirst(t, s, binding, locked, order[1..], k - 1);
      var i :| 0 <= i <= k - 1 && FirstClaimable(t, s, binding, locked, order[1..]) == Some(order[1..][i].run);
      assert order[1..][i] == order[i + 1];
    }
  }

  // The check every worker call passes first: same fence, unexpired lease, still in flight.
  predicate Owned(t: Tables, job: ClaimedRun, now: Time) {
    var r := job.run.runId;
    && r in t.runs && t.runs[r].extra.Shared?
    && t.runs[r].extra.fence == Some(job.fence)
    && t.runs[r].extra.leaseUntil.Some? && now < t.runs[r].extra.leaseUntil.value
    && InFlight(t.runs[r].payload.status)
    && t.runs[r].payload.runId == r
  }

  function Heartbeat(t: Tables, s: Settings, job: ClaimedRun, now: Time): (Tables, Outcome<bool>) {
    var r := job.run.runId;
    if !Owned(t, job, now) then (t, Err(LeaseLost))
    else if t.runs[r].payload.status == CancellationRequested || t.runs[r].extra.expiresAt <= now then (t, Ok(false))
    else (Leased(t, s, r, job.fence, now), Ok(true))
  }

  function Progress(t: Tables, job: ClaimedRun, report: Report, now: Time, wall: Time): (Tables, Outcome<()>) {
    if !Owned(t, job, now) then (t, Err(LeaseLost))
    else
      var run := t.runs[job.run.runId].payload;
      if run.status == CancellationRequested then (t, Ok(()))
      else if run.sequence >= 60 then (t, Err(ProgressBudget))
      else (Persist(t, run.(progress := Some(report)), AgentProgress, wall), Ok(()))
  }

  // A requested cancellation or an expired authority replaces whatever the worker wanted to commit.
  function Decide(row: Row, wanted: Ending, now: Time): Ending
    requires row.extra.Shared?
  {
    if row.payload.status == CancellationRequested then Ending(Cancelled, None, None)
    else if row.extra.expiresAt <= now then Ending(Interrupted, None, Some(AuthorityExpiredCode))
    else wanted
  }

  function Finish(t: Tables, job: ClaimedRun, wanted: Ending, now: Time, wall: Time): (Tables, Outcome<RunSnapshot>) {
    if !Terminal(wanted.status) then (t, Err(TerminalRequired))
    else if !Owned(t, job, now) then (t, Err(LeaseLost))
    else
      var row := t.runs[job.run.runId];
      var ending := Decide(row, wanted, now);
      var t' := Persist(t, Ended(row.payload, ending), Became(ending.status), wall);
      (t', Ok(t'.runs[job.run.runId].payload))
  }

  // The first of a replay's two transactions reads the run and tests the cursor.
  function CursorRefusal(t: Tables, owner: Owner, scope: Scope, r: Uuid, after: int): Option<RunError> {
    if !Readable(t, owner, scope, r) then Some(RunUnavailable)
    else if after < 0 || after > t.runs[r].payload.sequence then Some(CursorOutside)
    else None
  }

  // ---------------------------------------------------------------- invariant of the shared store

  ghost predicate LeaseOk(row: Row) {
    && row.extra.Shared?
    && row.extra.expiresAt == row.extra.grant.expiresAt
    && row.extra.tenant == row.extra.grant.access.tenant
    && (InFlight(row.status) ==> row.extra.fence.Some? && row.extra.leaseUntil.Some?)
    && (row.status == Queued ==> row.extra.fence == None)
    && (row.payload.result.Some? ==> Terminal(row.status))
  }

  ghost predicate LeasesOk(t: Tables) {
    forall r :: r in t.runs ==> LeaseOk(t.runs[r])
  }

  ghost predicate WithinCapacity(t: Tables, s: Settings) {
    && Count(t.runs, IsInFlight) <= s.maximumRunning
    && Count(t.runs, IsQueued) <= s.maximumPending
    && forall tenant :: Count(t.runs, InFlightOf(tenant)) <= s.maximumRunningPerTenant
  }

  ghost predicate ConversationsBounded(t: Tables, s: Settings) {
    && |t.convs| <= s.maximumConversations
    && forall owner :: |OwnedBy(t, owner)| <= 16
  }

  ghost predicate Sound(t: Tables, s: Settings) {
    Consistent(t) && LeasesOk(t) && WithinCapacity(t, s) && ConversationsBounded(t, s)
  }

  // ---------------------------------------------------------------- one write at a time

  // A write that does not start a queued run never raises an occupancy count.
  lemma PersistFreesCapacity(t: Tables, s: Settings, run: RunSnapshot, kind: EventKind, wall: Time)
    requires WithinCapacity(t, s) && run.runId in t.runs
    requires !Terminal(t.runs[run.runId].status)
    requires InFlight(run.status) ==> InFlight(t.runs[run.runId].status)
    requires run.status != Queued
    ensures WithinCapacity(Persist(t, run, kind, wall), s)
  {
    var t' := Persist(t, run, kind, wall);
    CountNoMore(t.runs, t'.runs, IsInFlight);
    CountNoMore(t.runs, t'.runs, IsQueued);
    forall tenant ensures Count(t'.runs, InFlightOf(tenant)) <= s.maximumRunningPerTenant {
      CountNoMore(t.runs, t'.runs, InFlightOf(tenant));
    }
  }

  // The common case: an owned or queued run moves on without being started.
  lemma WriteKeepsSound(t: Tables, s: Settings, run: RunSnapshot, kind: EventKind, wall: Time)
    requires Sound(t, s) && run.runId in t.runs
    requires LegalChange(t.runs[run.runId].payload, Stamped(run, wall))
    requires InFlight(run.status) ==> InFlight(t.runs[run.runId].status)
    requires run.result.Some? ==> Terminal(run.status)
    ensures Sound(Persist(t, run, kind, wall), s)
    ensures Step(t, Persist(t, run, kind, wall))
  {
    hide Consistent, WithinCapacity, ConversationsBounded, Step;
    RunFacts(t, run.runId);
    assert LeaseOk(t.runs[run.runId]);
    LegalChangeKeepsRange(t.runs[run.runId].payload, Stamped(run, wall));
    PersistKeeps(t, run, kind, wall);
    PersistForward(t, run, kind, wall);
    PersistFreesCapacity(t, s, run, kind, wall);
    PersistKeepsLeases(t, run, kind, wall);
    SameConversations(t, Persist(t, run, kind, wall), s);
  }

  lemma SameConversations(t: Tables, t': Tables, s: Settings)
    requires ConversationsBounded(t, s)
    requires forall c :: c in t'.convs ==> c in t.convs && t'.convs[c].owner == t.convs[c].owner
    ensures ConversationsBounded(t', s)
  {
    SubsetCardinality(t'.convs.Keys, t.convs.Keys);
    forall owner ensures |OwnedBy(t', owner)| <= 16 {
      SubsetCardinality(OwnedBy(t', owner), OwnedBy(t, owner));
    }
  }

  lemma PersistKeepsLeases(t: Tables, run: RunSnapshot, kind: EventKind, wall: Time)
    requires LeasesOk(t) && run.runId in t.runs
    requires run.status != Queued
    requires InFlight(run.status) ==> InFlight(t.runs[run.runId].status)
    requires run.result.Some? ==> Terminal(run.status)
    ensures LeasesOk(Persist(t, run, kind, wall))
  {
    assert LeaseOk(t.runs[run.runId]);
  }

  function Relabel(t: Tables, r: Uuid, extra: Extra): Tables
    requires r in t.runs
  {
    t.(runs := t.runs[r := t.runs[r].(extra := extra)])
  }

  lemma RelabelKeepsKeys(t: Tables, r: Uuid, extra: Extra)
    requires OrderOk(t) && NumberingOk(t) && UniqueRequests(t) && r in t.runs
    ensures var t' := Relabel(t, r, extra); OrderOk(t') && NumberingOk(t') && UniqueRequests(t')
  {
    var t' := Relabel(t, r, extra);
    forall c | c in t'.convs ensures Submitted(RunsOf(t'.order, c), t'.runs) {
      assert Submitted(RunsOf(t.order, c), t.runs);
    }
    forall p, q | SameRequest(t'.runs, p, q) ensures p == q { assert SameRequest(t.runs, p, q); }
  }

  lemma RelabelKeepsRows(t: Tables, r: Uuid, extra: Extra)
    requires RowsOk(t) && JournalsOk(t) && OnlyLatestActive(t) && r in t.runs
    ensures var t' := Relabel(t, r, extra); RowsOk(t') && JournalsOk(t') && OnlyLatestActive(t')
  {
    assert Relabel(t, r, extra).events.Keys == Relabel(t, r, extra).runs.Keys;
  }

  // Renewing a lease, or writing a fence onto a row, touches nothing the journal invariants look at.
  lemma RelabelKeeps(t: Tables, r: Uuid, extra: Extra)
    requires Consistent(t) && r in t.runs
    ensures Consistent(Relabel(t, r, extra))
  {
    RelabelKeepsKeys(t, r, extra);
    RelabelKeepsRows(t, r, extra);
  }

  // ---------------------------------------------------------------- what each transaction keeps

  // The row-level promises: binding and grant never change, a fence is written once, and a requested cancellation never ends in an answer.
  ghost predicate Onward(before: Row, after: Row) {
    && before.extra.Shared? && after.extra.Shared?
    && after.extra.expiresAt == before.extra.expiresAt
    && after.extra.binding == before.extra.binding && after.extra.grant == before.extra.grant
    && (before.extra.fence.Some? ==> after.extra.fence == before.extra.fence)
    && (before.payload.status == CancellationRequested ==>
          after.payload.status in {CancellationRequested, Cancelled, Interrupted} && after.payload.result == before.payload.result)
  }

  ghost predicate Proceeds(t: Tables, t': Tables) {
    && Step(t, t')
    && forall r :: r in t.runs && r in t'.runs ==> Onward(t.runs[r], t'.runs[r])
  }

  // No run was completed and no answer was released between the two states.
  ghost predicate Silent(t: Tables, t': Tables) {
    forall r :: r in t.runs && r in t'.runs ==>
      && (t'.runs[r].payload.status == Completed ==> t.runs[r].payload.status == Completed)
      && t'.runs[r].payload.result == t.runs[r].payload.result
  }

  lemma WriteProceeds(t: Tables, s: Settings, run: RunSnapshot, kind: EventKind, wall: Time)
    requires Sound(t, s) && run.runId in t.runs
    requires LegalChange(t.runs[run.runId].payload, Stamped(run, wall))
    requires t.runs[run.runId].payload.status == CancellationRequested ==>
               run.status in {Cancelled, Interrupted} && run.result == t.runs[run.runId].payload.result
    ensures Proceeds(t, Persist(t, run, kind, wall))
    ensures run.status != Completed && run.result == t.runs[run.runId].payload.result ==> Silent(t, Persist(t, run, kind, wall))
  {
    hide Consistent, WithinCapacity, ConversationsBounded, Step;
    RunFacts(t, run.runId);
    PersistForward(t, run, kind, wall);
    forall r | r in t.runs ensures t.runs[r].extra.Shared? { assert LeaseOk(t.runs[r]); }
  }

  lemma StaysPut(t: Tables, s: Settings)
    requires Sound(t, s)
    ensures Proceeds(t, t) && Silent(t, t)
  {
    hide Consistent, WithinCapacity, ConversationsBounded;
    forall r | r in t.runs ensures t.runs[r].extra.Shared? { assert LeaseOk(t.runs[r]); }
  }

  lemma LeaseFacts(t: Tables, r: Uuid)
    requires LeasesOk(t) && r in t.runs
    ensures LeaseOk(t.runs[r])
  {
  }

  // Runs that only one of the two states has say nothing about each other.
  lemma SameRunsProceed(t: Tables, t': Tables, s: Settings)
    requires Sound(t, s)
    requires forall r :: r in t.runs && r in t'.runs ==> t'.runs[r] == t.runs[r] && JournalFor(t', r) == JournalFor(t, r)
    ensures Proceeds(t, t') && Silent(t, t')
  {
    hide Consistent, WithinCapacity, ConversationsBounded;
    forall r | r in t.runs ensures t.runs[r].extra.Shared? { assert LeaseOk(t.runs[r]); }
  }

  ghost predicate SameOccupancy(row: Row, row': Row) {
    && row'.status == row.status && row'.payload == row.payload
    && row.extra.Shared? && LeaseOk(row') && row'.extra.tenant == row.extra.tenant
  }

  lemma FewerRunsFit(t: Tables, t': Tables, s: Settings)
    requires LeasesOk(t) && WithinCapacity(t, s)
    requires forall r :: r in t'.runs ==> r in t.runs && SameOccupancy(t.runs[r], t'.runs[r])
    ensures LeasesOk(t') && WithinCapacity(t', s)
  {
    CountNoMore(t.runs, t'.runs, IsInFlight);
    CountNoMore(t.runs, t'.runs, IsQueued);
    forall tenant ensures Count(t'.runs, InFlightOf(tenant)) <= s.maximumRunningPerTenant {
      CountNoMore(t.runs, t'.runs, InFlightOf(tenant));
    }
  }

  lemma CreateKeeps(t: Tables, s: Settings, owner: Owner, scope: Scope, id: Uuid, wall: Time)
    requires Sound(t, s)
    ensures var t' := CreateConversation(t, s, owner, scope, id, wall).0; Sound(t', s) && Proceeds(t, t') && Silent(t, t')
  {
    hide Consistent, LeasesOk, WithinCapacity, ConversationsBounded, Proceeds, Silent;
    var (t', outcome) := CreateConversation(t, s, owner, scope, id, wall);
    if outcome.Ok? {
      AddConversationKeeps(t, ConvRow(owner, scope, outcome.value));
      SameRunsProceed(t, t', s);
      assert LeasesOk(t') && WithinCapacity(t', s) by { SameRowsFit(t, t', s); }
      OneMoreConversation(t, s, ConvRow(owner, scope, outcome.value));
    } else {
      StaysPut(t, s);
    }
  }

  lemma OneMoreConversation(t: Tables, s: Settings, row: ConvRow)
    requires ConversationsBounded(t, s) && row.payload.conversationId !in t.convs
    requires |t.convs| < s.maximumConversations && |OwnedBy(t, row.owner)| < 16
    ensures ConversationsBounded(AddConversation(t, row), s)
  {
    var t' := AddConversation(t, row);
    MapGrows(t.convs, row.payload.conversationId, row);
    forall o ensures |OwnedBy(t', o)| <= 16 { OwnedAfter(t, row, o); }
  }

  lemma MapGrows<K, V>(m: map<K, V>, k: K, v: V)
    requires k !in m
    ensures |m[k := v]| == |m| + 1
  {
    assert m[k := v].Keys == m.Keys + {k};
  }

  lemma OwnedAfter(t: Tables, row: ConvRow, o: Owner)
    requires row.payload.conversationId !in t.convs
    ensures |OwnedBy(AddConversation(t, row), o)| == |OwnedBy(t, o)| + if o == row.owner then 1 else 0
  {
    var id := row.payload.conversationId;
    assert OwnedBy(AddConversation(t, row), o) == OwnedBy(t, o) + if o == row.owner then {id} else {};
  }

  lemma SameRowsFit(t: Tables, t': Tables, s: Settings)
    requires LeasesOk(t) && WithinCapacity(t, s) && t'.runs == t.runs
    ensures LeasesOk(t') && WithinCapacity(t', s)
  {
  }

  lemma EnqueueAdmissible(t: Tables, s: Settings, owner: Owner, scope: Scope, request: RunRequest, binding: string,
                          grant: Grant, runId: Uuid, now: Time, wall: Time)
    requires Sound(t, s)
    requires Enqueue(t, s, owner, scope, request, binding, grant, runId, now, wall).0 != t
    ensures Admissible(t, NewRun(request, binding, runId, wall))
    ensures Count(t.runs, IsQueued) < s.maximumPending && now < grant.expiresAt
    ensures Owns(t, owner, scope, request.conversationId)
  {
    hide LeasesOk, WithinCapacity, ConversationsBounded, RowsOk, JournalsOk, UniqueRequests, OnlyLatestActive, OrderOk, NumberingOk;
    RevisionCounts(t, request.conversationId);
  }

  lemma EnqueueKeeps(t: Tables, s: Settings, owner: Owner, scope: Scope, request: RunRequest, binding: string,
                     grant: Grant, runId: Uuid, now: Time, wall: Time)
    requires Sound(t, s)
    ensures var t' := Enqueue(t, s, owner, scope, request, binding, grant, runId, now, wall).0;
            Sound(t', s) && Proceeds(t, t') && Silent(t, t')
  {
    hide Consistent, LeasesOk, WithinCapacity, ConversationsBounded, Proceeds, Silent, Admissible, Existing, Owns, HasActive;
    var t' := Enqueue(t, s, owner, scope, request, binding, grant, runId, now, wall).0;
    if t' != t {
      EnqueueAdmissible(t, s, owner, scope, request, binding, grant, runId, now, wall);
      var extra := Shared(grant.access.tenant, binding, grant, grant.expiresAt, None, None);
      AdmitKeepsSound(t, s, NewRun(request, binding, runId, wall), extra, wall);
    } else {
      StaysPut(t, s);
    }
  }

  lemma AdmitKeepsSound(t: Tables, s: Settings, run: RunSnapshot, extra: Extra, wall: Time)
    requires Sound(t, s) && Admissible(t, run) && Count(t.runs, IsQueued) < s.maximumPending
    requires run.result == None
    requires extra.Shared? && extra.expiresAt == extra.grant.expiresAt && extra.tenant == extra.grant.access.tenant && extra.fence == None
    ensures var t' := Admit(t, run, extra, wall); Sound(t', s) && Proceeds(t, t') && Silent(t, t')
  {
    hide Consistent, LeasesOk, WithinCapacity, ConversationsBounded, Proceeds, Silent;
    var t' := Admit(t, run, extra, wall);
    AdmitKeeps(t, run, extra, wall);
    AdmitUsesQueue(t, s, run, extra, wall);
    SameConversations(t, t', s);
    SameRunsProceed(t, t', s);
  }

  lemma AdmitUsesQueue(t: Tables, s: Settings, run: RunSnapshot, extra: Extra, wall: Time)
    requires LeasesOk(t) && WithinCapacity(t, s) && Count(t.runs, IsQueued) < s.maximumPending
    requires run.request.conversationId in t.convs && run.runId !in t.runs && run.status == Queued && run.result == None
    requires extra.Shared? && extra.expiresAt == extra.grant.expiresAt && extra.tenant == extra.grant.access.tenant && extra.fence == None
    ensures LeasesOk(Admit(t, run, extra, wall)) && WithinCapacity(Admit(t, run, extra, wall), s)
  {
    var t' := Admit(t, run, extra, wall);
    CountOneMore(t.runs, t'.runs, run.runId, IsQueued);
    CountNoMore(t.runs, t'.runs, IsInFlight);
    forall tenant ensures Count(t'.runs, InFlightOf(tenant)) <= s.maximumRunningPerTenant {
      CountNoMore(t.runs, t'.runs, InFlightOf(tenant));
    }
  }

  lemma CancelKeeps(t: Tables, s: Settings, owner: Owner, scope: Scope, r: Uuid, wall: Time)
    requires Sound(t, s)
    ensures var t' := Cancel(t, owner, scope, r, wall).0; Sound(t', s) && Proceeds(t, t') && Silent(t, t')
  {
    hide Consistent, LeasesOk, WithinCapacity, ConversationsBounded, Proceeds, Silent, Step;
    var t' := Cancel(t, owner, scope, r, wall).0;
    StaysPut(t, s);
    if t' != t {
      var run := t.runs[r].payload;
      RunFacts(t, r);
      assert LeaseOk(t.runs[r]) by { LeaseFacts(t, r); }
      var status := if run.status == Queued then Cancelled else CancellationRequested;
      WriteKeepsSound(t, s, run.(status := status), Became(status), wall);
      WriteProceeds(t, s, run.(status := status), Became(status), wall);
    }
  }

  lemma DeleteKeeps(t: Tables, s: Settings, owner: Owner, scope: Scope, c: Uuid)
    requires Sound(t, s)
    ensures var t' := Delete(t, owner, scope, c).0; Sound(t', s) && Proceeds(t, t') && Silent(t, t')
  {
    hide Consistent, LeasesOk, WithinCapacity, ConversationsBounded, Proceeds, Silent, HasActive, Owns;
    var t' := Delete(t, owner, scope, c).0;
    StaysPut(t, s);
    if t' != t {
      DropKeeps(t, {c});
      SameConversations(t, t', s);
      SameRunsProceed(t, t', s);
      forall r | r in t'.runs ensures SameOccupancy(t.runs[r], t'.runs[r]) { LeaseFacts(t, r); }
      FewerRunsFit(t, t', s);
    }
  }

  lemma RelabelProceeds(t: Tables, s: Settings, r: Uuid, extra: Extra)
    requires Sound(t, s) && r in t.runs && t.runs[r].extra.Shared? && extra.Shared?
    requires extra.fence == t.runs[r].extra.fence && extra.expiresAt == t.runs[r].extra.expiresAt
    requires extra.binding == t.runs[r].extra.binding && extra.grant == t.runs[r].extra.grant
    ensures Proceeds(t, Relabel(t, r, extra)) && Silent(t, Relabel(t, r, extra))
  {
    hide Consistent, WithinCapacity, ConversationsBounded, Step;
    RelabelSteps(t, r, extra);
    forall q | q in t.runs ensures t.runs[q].extra.Shared? { assert LeaseOk(t.runs[q]); }
  }

  lemma RelabelSteps(t: Tables, r: Uuid, extra: Extra)
    requires r in t.runs
    ensures Step(t, Relabel(t, r, extra))
  {
  }

  lemma HeartbeatKeeps(t: Tables, s: Settings, job: ClaimedRun, now: Time)
    requires Sound(t, s)
    ensures var t' := Heartbeat(t, s, job, now).0; Sound(t', s) && Proceeds(t, t') && Silent(t, t')
  {
    hide Consistent, LeasesOk, WithinCapacity, ConversationsBounded, Proceeds, Silent;
    var t' := Heartbeat(t, s, job, now).0;
    StaysPut(t, s);
    if t' != t {
      var r := job.run.runId;
      RelabelKeeps(t, r, t'.runs[r].extra);
      assert t' == Relabel(t, r, t'.runs[r].extra);
      SameConversations(t, t', s);
      forall q | q in t'.runs ensures SameOccupancy(t.runs[q], t'.runs[q]) { LeaseFacts(t, q); }
      FewerRunsFit(t, t', s);
      RelabelProceeds(t, s, r, t'.runs[r].extra);
    }
  }

  lemma ProgressKeeps(t: Tables, s: Settings, job: ClaimedRun, report: Report, now: Time, wall: Time)
    requires Sound(t, s)
    ensures var t' := Progress(t, job, report, now, wall).0; Sound(t', s) && Proceeds(t, t') && Silent(t, t')
  {
    hide Consistent, LeasesOk, WithinCapacity, ConversationsBounded, Proceeds, Silent, Step;
    var t' := Progress(t, job, report, now, wall).0;
    StaysPut(t, s);
    if t' != t {
      var run := t.runs[job.run.runId].payload;
      RunFacts(t, run.runId);
      LeaseFacts(t, run.runId);
      WriteKeepsSound(t, s, run.(progress := Some(report)), AgentProgress, wall);
      WriteProceeds(t, s, run.(progress := Some(report)), AgentProgress, wall);
    }
  }

  // What must hold at the moment a run is completed or an answer is released.
  ghost predicate HolderInTime(row: Row, job: ClaimedRun, now: Time) {
    && row.payload.runId == job.run.runId
    && row.payload.status == Running
    && row.extra.Shared? && row.extra.fence == Some(job.fence)
    && row.extra.leaseUntil.Some? && now < row.extra.leaseUntil.value && now < row.extra.expiresAt
  }

  ghost predicate Releases(before: Row, after: Row) {
    || after.payload.result != before.payload.result
    || (after.payload.status == Completed && before.payload.status != Completed)
  }

  // An answer, or the COMPLETED status, is committed only by the current fence's holder, before both the
  // lease and the authority end, and only when no cancellation was requested.
  lemma FinishKeeps(t: Tables, s: Settings, job: ClaimedRun, wanted: Ending, now: Time, wall: Time)
    requires Sound(t, s)
    ensures var t' := Finish(t, job, wanted, now, wall).0;
            Sound(t', s) && Proceeds(t, t') && ReleasedBy(t, t', job, now)
  {
    hide Consistent, LeasesOk, WithinCapacity, ConversationsBounded, Proceeds, Silent, Step;
    var t' := Finish(t, job, wanted, now, wall).0;
    StaysPut(t, s);
    if t' != t {
      var row := t.runs[job.run.runId];
      var run := row.payload;
      RunFacts(t, run.runId);
      LeaseFacts(t, run.runId);
      var ending := Decide(row, wanted, now);
      WriteKeepsSound(t, s, Ended(run, ending), Became(ending.status), wall);
      WriteProceeds(t, s, Ended(run, ending), Became(ending.status), wall);
    }
  }

  ghost predicate ReleasedBy(t: Tables, t': Tables, job: ClaimedRun, now: Time) {
    forall r :: r in t.runs && r in t'.runs && Releases(t.runs[r], t'.runs[r]) ==> HolderInTime(t.runs[r], job, now)
  }

  // ---------------------------------------------------------------- the expiry sweep

  ghost predicate Sweepable(t: Tables, expired: set<Uuid>) {
    && t.events.Keys == t.runs.Keys
    && forall r :: r in expired ==> r in t.runs && !Terminal(t.runs[r].payload.status) && t.runs[r].payload.runId == r
  }

  // Sweeping one more row is one more committed write, whatever the order.
  lemma SweepPeels(t: Tables, expired: set<Uuid>, r: Uuid, wall: Time)
    requires Sweepable(t, expired + {r}) && r !in expired
    ensures SweepRows(t, expired + {r}, wall)
         == Persist(SweepRows(t, expired, wall), Lapsed(t.runs[r].payload), Became(Interrupted), wall)
  {
    var swept := SweepRows(t, expired, wall);
    var both := SweepRows(t, expired + {r}, wall);
    var written := Persist(swept, Lapsed(t.runs[r].payload), Became(Interrupted), wall);
    assert both.runs == written.runs;
    assert both.events == written.events;
  }

  lemma SweepNone(t: Tables, wall: Time)
    requires t.events.Keys == t.runs.Keys
    ensures SweepRows(t, {}, wall) == t
  {
    assert SweepRows(t, {}, wall).runs == t.runs;
    assert SweepRows(t, {}, wall).events == t.events;
  }

  lemma {:induction false} SweepRowsKeep(t: Tables, s: Settings, expired: set<Uuid>, wall: Time)
    requires Sound(t, s) && Sweepable(t, expired)
    ensures Sound(SweepRows(t, expired, wall), s)
  {
    hide Consistent, LeasesOk, WithinCapacity, ConversationsBounded, Step;
    if expired == {} {
      SweepNone(t, wall);
    } else {
      var r :| r in expired;
      var rest := expired - {r};
      assert rest + {r} == expired;
      SweepRowsKeep(t, s, rest, wall);
      SweepPeels(t, rest, r, wall);
      var swept := SweepRows(t, rest, wall);
      assert swept.runs[r] == t.runs[r];
      LeaseFacts(t, r);
      WriteKeepsSound(swept, s, Lapsed(t.runs[r].payload), Became(Interrupted), wall);
    }
  }

  lemma SweepKeeps(t: Tables, s: Settings, now: Time, wall: Time)
    requires Sound(t, s)
    ensures var t' := Sweep(t, now, wall); Sound(t', s) && Proceeds(t, t') && Silent(t, t')
  {
    hide LeasesOk, WithinCapacity, ConversationsBounded, Proceeds, Silent, OrderOk, NumberingOk, UniqueRequests, OnlyLatestActive, RowsOk;
    var expired := ExpiredRuns(t, now);
    forall r | r in expired ensures !Terminal(t.runs[r].payload.status) && t.runs[r].payload.runId == r {
      LeaseFacts(t, r);
      RunFacts(t, r);
    }
    SweepRowsKeep(t, s, expired, wall);
    SweepSteps(t, s, expired, wall);
  }

  lemma SweepSteps(t: Tables, s: Settings, expired: set<Uuid>, wall: Time)
    requires Sound(t, s) && Sweepable(t, expired)
    ensures Proceeds(t, SweepRows(t, expired, wall)) && Silent(t, SweepRows(t, expired, wall))
  {
    hide Sound, Forward, LegalChange, Onward;
    var t' := SweepRows(t, expired, wall);
    forall r | r in t.runs
      ensures Forward(t, t', r) && Onward(t.runs[r], t'.runs[r])
      ensures t'.runs[r].payload != t.runs[r].payload ==> LegalChange(t.runs[r].payload, t'.runs[r].payload)
    {
      SweptRow(t, s, expired, r, wall);
    }
  }

  lemma SweptRow(t: Tables, s: Settings, expired: set<Uuid>, r: Uuid, wall: Time)
    requires Sound(t, s) && Sweepable(t, expired) && r in t.runs
    ensures var t' := SweepRows(t, expired, wall);
            && Forward(t, t', r) && Onward(t.runs[r], t'.runs[r])
            && (t'.runs[r].payload != t.runs[r].payload ==> LegalChange(t.runs[r].payload, t'.runs[r].payload))
  {
    hide Consistent, LeasesOk, WithinCapacity, ConversationsBounded, Forward;
    LeaseFacts(t, r);
    RunFacts(t, r);
    SweptForward(t, expired, r, wall);
  }

  lemma SweptForward(t: Tables, expired: set<Uuid>, r: Uuid, wall: Time)
    requires Sweepable(t, expired) && r in t.runs
    requires forall k :: k in JournalFor(t, r) ==> k <= t.runs[r].payload.sequence
    ensures Forward(t, SweepRows(t, expired, wall), r)
  {
  }

  // ---------------------------------------------------------------- claiming

  lemma StartKeeps(t: Tables, s: Settings, binding: string, r: Uuid, fence: Uuid, now: Time, wall: Time)
    requires Sound(t, s) && Claimable(t, s, binding, r) && Count(t.runs, IsInFlight) < s.maximumRunning
    requires t.runs[r].payload.runId == r
    ensures var t' := StartRun(t, s, r, fence, now, wall);
            Sound(t', s) && Proceeds(t, t') && Silent(t, t') && t'.runs[r].extra.fence == Some(fence)
  {
    hide Consistent, LeasesOk, WithinCapacity, ConversationsBounded, Proceeds, Silent;
    var row := t.runs[r];
    RunFacts(t, r);
    LeaseFacts(t, r);
    var extra := Fenced(row, fence, now + s.leaseSeconds * MICROSECONDS).extra;
    var leased := Relabel(t, r, extra);
    RelabelKeeps(t, r, extra);
    var run := row.payload.(status := Running);
    PersistKeeps(leased, run, Started, wall);
    StartUsesSlot(t, s, r, extra, run, wall);
    StartSteps(t, s, r, extra, run, wall);
    SameConversations(t, Persist(leased, run, Started, wall), s);
  }

  lemma StartUsesSlot(t: Tables, s: Settings, r: Uuid, extra: Extra, run: RunSnapshot, wall: Time)
    requires WithinCapacity(t, s) && LeasesOk(t)
    requires r in t.runs && r == run.runId && run.status == Running && run.result == t.runs[r].payload.result == None
    requires t.runs[r].extra.Shared? && extra.Shared? && extra.tenant == t.runs[r].extra.tenant && extra.fence.Some? && extra.leaseUntil.Some?
    requires extra.expiresAt == t.runs[r].extra.expiresAt && extra.grant == t.runs[r].extra.grant
    requires Count(t.runs, IsInFlight) < s.maximumRunning
    requires Count(t.runs, InFlightOf(extra.tenant)) < s.maximumRunningPerTenant
    ensures var t' := Persist(Relabel(t, r, extra), run, Started, wall); WithinCapacity(t', s) && LeasesOk(t')
  {
    var t' := Persist(Relabel(t, r, extra), run, Started, wall);
    assert LeaseOk(t.runs[r]);
    CountOneMore(t.runs, t'.runs, r, IsInFlight);
    CountNoMore(t.runs, t'.runs, IsQueued);
    forall tenant ensures Count(t'.runs, InFlightOf(tenant)) <= s.maximumRunningPerTenant {
      if tenant == extra.tenant {
        CountOneMore(t.runs, t'.runs, r, InFlightOf(tenant));
      } else {
        CountNoMore(t.runs, t'.runs, InFlightOf(tenant));
      }
    }
  }

  lemma StartSteps(t: Tables, s: Settings, r: Uuid, extra: Extra, run: RunSnapshot, wall: Time)
    requires Sound(t, s)
    requires r in t.runs && t.runs[r].payload.status == Queued && run == t.runs[r].payload.(status := Running) && run.runId == r
    requires extra.Shared? && extra.expiresAt == t.runs[r].extra.expiresAt
    requires extra.binding == t.runs[r].extra.binding && extra.grant == t.runs[r].extra.grant
    ensures var t' := Persist(Relabel(t, r, extra), run, Started, wall); Proceeds(t, t') && Silent(t, t')
  {
    hide Consistent, LeasesOk, WithinCapacity, ConversationsBounded;
    var leased := Relabel(t, r, extra);
    var t' := Persist(leased, run, Started, wall);
    forall q | q in t.runs
      ensures Forward(t, t', q) && Onward(t.runs[q], t'.runs[q])
    {
      LeaseFacts(t, q);
      RunFacts(t, q);
    }
  }

  // What a returned job says about the tables it was claimed from.
  ghost predicate ClaimedFrom(t: Tables, t': Tables, job: ClaimedRun, fence: Uuid) {
    var r := job.run.runId;
    && r in t.runs && r in t'.runs
    && t.runs[r].payload.status == Queued && t.runs[r].extra.Shared? && t.runs[r].extra.fence == None
    && t'.runs[r].extra.Shared? && t'.runs[r].extra.fence == Some(fence) && job.fence == fence
    && t'.runs[r].payload == job.run && job.run.status == Running
  }

  // Every fence but the claimed run's stays as it was.
  ghost predicate FencesKept(t: Tables, t': Tables, job: Option<ClaimedRun>) {
    forall r :: r in t'.runs ==>
      && r in t.runs && t'.runs[r].extra.Shared? && t.runs[r].extra.Shared?
      && (t'.runs[r].extra.fence == t.runs[r].extra.fence || (job.Some? && r == job.value.run.runId))
  }

  // The claimed run is the one run the sweep left alone, so each run takes at most one write.
  lemma ProceedsThrough(t: Tables, mid: Tables, t': Tables, r: Uuid)
    requires Proceeds(t, mid) && Silent(t, mid) && Proceeds(mid, t') && Silent(mid, t')
    requires t.runs.Keys == mid.runs.Keys == t'.runs.Keys && r in mid.runs && mid.runs[r].payload == t.runs[r].payload
    requires forall q :: q in mid.runs && q != r ==> t'.runs[q] == mid.runs[q] && JournalFor(t', q) == JournalFor(mid, q)
    requires JournalFor(mid, r) == JournalFor(t, r)
    ensures Proceeds(t, t') && Silent(t, t')
  {
    hide LegalChange, Forward, JournalFor;
    forall q | q in t.runs
      ensures Forward(t, t', q) && Onward(t.runs[q], t'.runs[q])
      ensures t'.runs[q].payload != t.runs[q].payload ==> LegalChange(t.runs[q].payload, t'.runs[q].payload)
    {
      ForwardTrans(t, mid, t', q);
    }
  }

  // The sweep leaves queued rows it did not interrupt alone, and never touches a fence.
  lemma SweepLeaves(t: Tables, s: Settings, now: Time, wall: Time)
    requires Sound(t, s)
    ensures var t' := Sweep(t, now, wall);
            && t'.runs.Keys == t.runs.Keys
            && FencesKept(t, t', None)
            && forall r :: r in t.runs && t'.runs[r].status == Queued ==> t'.runs[r] == t.runs[r] && JournalFor(t', r) == JournalFor(t, r)
  {
    hide Consistent, LeasesOk, WithinCapacity, ConversationsBounded;
    forall r | r in t.runs ensures t.runs[r].extra.Shared? {
      LeaseFacts(t, r);
      RunFacts(t, r);
    }
  }

  lemma ClaimKeeps(t: Tables, s: Settings, binding: string, locked: set<Uuid>, fence: Uuid, now: Time, wall: Time)
    requires Sound(t, s)
    ensures var (t', job) := Claim(t, s, binding, locked, fence, now, wall);
            && Sound(t', s) && Proceeds(t, t') && Silent(t, t')
            && (job.Some? ==> ClaimedFrom(t, t', job.value, fence))
            && FencesKept(t, t', job)
  {
    hide Sound, Proceeds, Silent, FirstClaimable, Sweep, StartRun;
    SweepKeeps(t, s, now, wall);
    SweepLeaves(t, s, now, wall);
    var swept := Sweep(t, now, wall);
    var (t', job) := Claim(t, s, binding, locked, fence, now, wall);
    if job.Some? {
      var r := FirstClaimable(swept, s, binding, locked, swept.order).value;
      RunIs(swept, s, r);
      StartKeeps(swept, s, binding, r, fence, now, wall);
      StartsFrom(swept, s, r, fence, now, wall);
      ProceedsThrough(t, swept, t', r);
    }
  }

  // After the sweep nothing is overdue, so a run is only ever handed out while its authority lasts and
  // with a lease that has not run out.
  lemma ClaimedInTime(t: Tables, s: Settings, binding: string, locked: set<Uuid>, fence: Uuid, now: Time, wall: Time)
    requires Sound(t, s)
    ensures forall r :: r in t.runs ==> r in Sweep(t, now, wall).runs && !Expired(Sweep(t, now, wall).runs[r], now)
    ensures var (t', job) := Claim(t, s, binding, locked, fence, now, wall);
            job.Some? && s.leaseSeconds > 0 ==>
              var r := job.value.run.runId;
              r in t'.runs && t'.runs[r].extra.Shared? && now < t'.runs[r].extra.expiresAt && Owned(t', job.value, now)
  {
    hide Sound, Proceeds, Silent, FirstClaimable;
    var swept := Sweep(t, now, wall);
    SweepKeeps(t, s, now, wall);
    SweepComplete(t, now, wall);
    if Claim(t, s, binding, locked, fence, now, wall).1.Some? {
      var r := FirstClaimable(swept, s, binding, locked, swept.order).value;
      RunIs(swept, s, r);
      LeasedInTime(swept, s, r, fence, now, wall);
    }
  }

  lemma SweepComplete(t: Tables, now: Time, wall: Time)
    ensures forall r :: r in t.runs ==> r in Sweep(t, now, wall).runs && !Expired(Sweep(t, now, wall).runs[r], now)
  {
  }

  lemma LeasedInTime(t: Tables, s: Settings, r: Uuid, fence: Uuid, now: Time, wall: Time)
    requires r in t.runs && t.runs[r].payload.runId == r && t.runs[r].status == Queued && t.runs[r].extra.Shared?
    requires !Expired(t.runs[r], now)
    ensures var t' := StartRun(t, s, r, fence, now, wall);
            && r in t'.runs && t'.runs[r].payload.runId == r && t'.runs[r].extra.Shared? && now < t'.runs[r].extra.expiresAt
            && (s.leaseSeconds > 0 ==> Owned(t', ClaimedRun(t'.runs[r].payload, t.runs[r].extra.grant, fence), now))
  {
  }

  lemma RunIs(t: Tables, s: Settings, r: Uuid)
    requires Sound(t, s) && r in t.runs
    ensures t.runs[r].payload.runId == r
  {
    RunFacts(t, r);
  }

  lemma StartsFrom(t: Tables, s: Settings, r: Uuid, fence: Uuid, now: Time, wall: Time)
    requires Sound(t, s) && r in t.runs && t.runs[r].status == Queued && t.runs[r].payload.runId == r && t.runs[r].extra.Shared?
    ensures var t' := StartRun(t, s, r, fence, now, wall);
            && t'.runs.Keys == t.runs.Keys
            && ClaimedFrom(t, t', ClaimedRun(t'.runs[r].payload, t.runs[r].extra.grant, fence), fence)
            && FencesKept(t, t', Some(ClaimedRun(t'.runs[r].payload, t.runs[r].extra.grant, fence)))
            && forall q :: q in t.runs && q != r ==> t'.runs[q] == t.runs[q] && JournalFor(t', q) == JournalFor(t, q)
  {
    hide Consistent, LeasesOk, WithinCapacity, ConversationsBounded;
    forall q | q in t.runs ensures LeaseOk(t.runs[q]) && t.runs[q].status == t.runs[q].payload.status {
      LeaseFacts(t, q);
      RunFacts(t, q);
    }
  }
}
