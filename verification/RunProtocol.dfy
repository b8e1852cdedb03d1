/**
 Every interleaving of API calls and workers over the shared store. Workers are the adversary: any
 job a claim ever returned may be used again at any later time, in any order, so crashed, paused
 and stale workers are all covered. Transactions are atomic and read one monotone database clock.
 */
module RunProtocol {
  import opened Runs
  import opened RunTables
  import opened PostgresRuns
  import PostgresEffects

  // `issued` holds every identifier ever drawn for a run or a fence (uuid4 never repeats) or given to a
  // conversation; `jobs` every job ever returned.
  datatype System = System(store: Tables, now: Time, issued: set<Uuid>, jobs: set<ClaimedRun>)

  datatype Action =
    | Wait(until: Time)
    | Create(owner: Owner, scope: Scope, id: Uuid, wall: Time)
    | Submit(owner: Owner, scope: Scope, request: RunRequest, binding: string, grant: Grant, id: Uuid, wall: Time)
    | RequestCancel(owner: Owner, scope: Scope, run: Uuid, wall: Time)
    | Remove(owner: Owner, scope: Scope, conversation: Uuid)
    | Take(binding: string, locked: set<Uuid>, id: Uuid, wall: Time)
    | Beat(job: ClaimedRun)
    | Tell(job: ClaimedRun, report: Report, wall: Time)
    | End(job: ClaimedRun, wanted: Ending, wall: Time)

  function Initial(now: Time): System {
    System(Tables(map[], map[], [], map[]), now, {}, {})
  }

  predicate Enabled(y: System, a: Action) {
    match a
    case Wait(until) => y.now <= until
    case Submit(_, _, _, _, _, id, _) => id !in y.issued
    case Take(_, _, id, _) => id !in y.issued
    case Beat(job) => job in y.jobs
    case Tell(job, _, _) => job in y.jobs
    case End(job, _, _) => job in y.jobs
    case _ => true
  }

  ghost function StoreAfter(y: System, s: Settings, a: Action): Tables {
    match a
    case Wait(_) => y.store
    case Create(owner, scope, id, wall) => CreateConversation(y.store, s, owner, scope, id, wall).0
    case Submit(owner, scope, request, binding, grant, id, wall) =>
      Enqueue(y.store, s, owner, scope, request, binding, grant, id, y.now, wall).0
    case RequestCancel(owner, scope, run, wall) => Cancel(y.store, owner, scope, run, wall).0
    case Remove(owner, scope, conversation) => Delete(y.store, owner, scope, conversation).0
    case Take(binding, locked, id, wall) => Claim(y.store, s, binding, locked, id, y.now, wall).0
    case Beat(job) => Heartbeat(y.store, s, job, y.now).0
    case Tell(job, report, wall) => Progress(y.store, job, report, y.now, wall).0
    case End(job, wanted, wall) => Finish(y.store, job, wanted, y.now, wall).0
  }

  function Drawn(a: Action): set<Uuid> {
    if a.Create? || a.Submit? || a.Take? then {a.id} else {}
  }

  ghost function JobFrom(y: System, s: Settings, a: Action): Option<ClaimedRun> {
    if a.Take? then Claim(y.store, s, a.binding, a.locked, a.id, y.now, a.wall).1 else None
  }

  ghost function Next(y: System, s: Settings, a: Action): System {
    var job := JobFrom(y, s, a);
    System(StoreAfter(y, s, a),
           if a.Wait? then a.until else y.now,
           y.issued + Drawn(a),
           y.jobs + if job.Some? then {job.value} else {})
  }

  // A run of the system: one state before each action and one after the last.
  ghost predicate Trace(states: seq<System>, acts: seq<Action>, s: Settings) {
    && |states| == |acts| + 1
    && states[0] == Initial(states[0].now)
    && forall i :: 0 <= i < |acts| ==> Enabled(states[i], acts[i]) && states[i + 1] == Next(states[i], s, acts[i])
  }

  // ---------------------------------------------------------------- invariant

  ghost predicate IssuedOk(y: System) {
    && y.store.convs.Keys <= y.issued
    && y.store.runs.Keys <= y.issued
    && forall job :: job in y.jobs ==> job.run.runId in y.issued && job.fence in y.issued
  }

  // The fence of a claimed run is the one its job carries, for as long as the run exists.
  ghost predicate JobHolds(t: Tables, job: ClaimedRun) {
    job.run.runId in t.runs ==>
      t.runs[job.run.runId].extra.Shared? && t.runs[job.run.runId].extra.fence == Some(job.fence)
  }

  ghost predicate JobsOk(y: System) {
    && (forall job :: job in y.jobs ==> JobHolds(y.store, job))
    && (forall a, b :: a in y.jobs && b in y.jobs && a.run.runId == b.run.runId ==> a == b)
  }

  ghost predicate Invariant(y: System, s: Settings) {
    Sound(y.store, s) && IssuedOk(y) && JobsOk(y)
  }

  // What one step keeps of every run, and who may release an answer in it.
  ghost predicate StepOk(y: System, y': System, a: Action) {
    && Proceeds(y.store, y'.store)
    && (forall r :: r in y'.store.runs ==> r in y.store.runs || r !in y.issued)
    && y.issued <= y'.issued && y.jobs <= y'.jobs
    && ReleaseOk(y, y', a)
  }

  ghost predicate ReleaseOk(y: System, y': System, a: Action) {
    forall r :: r in y.store.runs && r in y'.store.runs && Releases(y.store.runs[r], y'.store.runs[r]) ==>
      a.End? && a.job in y.jobs && HolderInTime(y.store.runs[r], a.job, y.now)
  }

  lemma SilentReleasesNothing(t: Tables, t': Tables)
    requires Silent(t, t')
    ensures forall r :: r in t.runs && r in t'.runs ==> !Releases(t.runs[r], t'.runs[r])
  {
  }

  // Only admission adds run rows, under the identifier it drew, and a conversation gets the one it was given.
  lemma NewRows(y: System, s: Settings, a: Action)
    ensures var t' := StoreAfter(y, s, a);
            && t'.runs.Keys <= y.store.runs.Keys + (if a.Submit? then {a.id} else {})
            && t'.convs.Keys <= y.store.convs.Keys + Drawn(a)
  {
    hide Enqueue, Claim, Persist, Existing, Count, CreateConversation, Cancel, Progress, Finish;
    match a
    case Create(owner, scope, id, wall) => CreateRows(y.store, s, owner, scope, id, wall);
    case Submit(owner, scope, request, binding, grant, id, wall) =>
      EnqueueRows(y.store, s, owner, scope, request, binding, grant, id, y.now, wall);
    case Take(binding, locked, id, wall) => ClaimRows(y.store, s, binding, locked, id, y.now, wall);
    case RequestCancel(owner, scope, run, wall) => WriteRows(y.store, owner, scope, run, wall);
    case Tell(job, report, wall) => JobRows(y.store, job, report, Ending(Failed, None, None), y.now, wall);
    case End(job, wanted, wall) => JobRows(y.store, job, 0, wanted, y.now, wall);
    case _ =>
  }

  lemma CreateRows(t: Tables, s: Settings, owner: Owner, scope: Scope, id: Uuid, wall: Time)
    ensures var t' := CreateConversation(t, s, owner, scope, id, wall).0;
            t'.runs == t.runs && t'.convs.Keys <= t.convs.Keys + {id}
  {
  }

  lemma WriteRows(t: Tables, owner: Owner, scope: Scope, run: Uuid, wall: Time)
    ensures var t' := Cancel(t, owner, scope, run, wall).0; t'.runs.Keys == t.runs.Keys && t'.convs == t.convs
  {
    hide Persist;
    PersistRows();
  }

  lemma JobRows(t: Tables, job: ClaimedRun, report: Report, wanted: Ending, now: Time, wall: Time)
    ensures var t' := Progress(t, job, report, now, wall).0; t'.runs.Keys == t.runs.Keys && t'.convs == t.convs
    ensures var t' := Finish(t, job, wanted, now, wall).0; t'.runs.Keys == t.runs.Keys && t'.convs == t.convs
  {
    hide Persist;
    PersistRows();
  }

  lemma PersistRows()
    ensures forall t: Tables, run: RunSnapshot, kind: EventKind, wall: Time ::
      Persist(t, run, kind, wall).runs.Keys == t.runs.Keys && Persist(t, run, kind, wall).convs == t.convs
  {
  }

  lemma EnqueueRows(t: Tables, s: Settings, owner: Owner, scope: Scope, request: RunRequest, binding: string,
                    grant: Grant, id: Uuid, now: Time, wall: Time)
    ensures var t' := Enqueue(t, s, owner, scope, request, binding, grant, id, now, wall).0;
            t'.runs.Keys <= t.runs.Keys + {id} && t'.convs.Keys == t.convs.Keys
  {
    hide Existing, Count, Persist, HasActive;
    PersistRows();
  }

  lemma ClaimRows(t: Tables, s: Settings, binding: string, locked: set<Uuid>, fence: Uuid, now: Time, wall: Time)
    ensures var t' := Claim(t, s, binding, locked, fence, now, wall).0; t'.runs.Keys == t.runs.Keys && t'.convs == t.convs
  {
    hide Count, Persist, FirstClaimable;
    PersistRows();
  }

  lemma StoreStep(y: System, s: Settings, a: Action)
    requires Sound(y.store, s)
    ensures var t' := StoreAfter(y, s, a);
            && Sound(t', s) && Proceeds(y.store, t')
            && (!a.End? ==> Silent(y.store, t'))
            && (a.End? ==> ReleasedBy(y.store, t', a.job, y.now))
  {
    hide Sound, Proceeds, Silent, ReleasedBy;
    hide CreateConversation, Enqueue, Cancel, Delete, Claim, Heartbeat, Progress, Finish;
    match a
    case Wait(_) => StaysPut(y.store, s);
    case Create(owner, scope, id, wall) => CreateKeeps(y.store, s, owner, scope, id, wall);
    case Submit(owner, scope, request, binding, grant, id, wall) =>
      EnqueueKeeps(y.store, s, owner, scope, request, binding, grant, id, y.now, wall);
    case RequestCancel(owner, scope, run, wall) => CancelKeeps(y.store, s, owner, scope, run, wall);
    case Remove(owner, scope, conversation) => DeleteKeeps(y.store, s, owner, scope, conversation);
    case Take(binding, locked, id, wall) => ClaimKeeps(y.store, s, binding, locked, id, y.now, wall);
    case Beat(job) => HeartbeatKeeps(y.store, s, job, y.now);
    case Tell(job, report, wall) => ProgressKeeps(y.store, s, job, report, y.now, wall);
    case End(job, wanted, wall) => FinishKeeps(y.store, s, job, wanted, y.now, wall);
  }

  // A claim hands out a run nobody was handed before.
  lemma ClaimIsFresh(y: System, s: Settings, a: Action)
    requires Invariant(y, s) && Enabled(y, a) && JobFrom(y, s, a).Some?
    ensures var job := JobFrom(y, s, a).value;
            && a.Take? && job.fence == a.id
            && job.run.runId in y.store.runs
            && JobHolds(StoreAfter(y, s, a), job)
            && forall earlier :: earlier in y.jobs ==> earlier.run.runId != job.run.runId
  {
    hide Sound, Proceeds, Silent, FencesKept, Claim;
    ClaimKeeps(y.store, s, a.binding, a.locked, a.id, y.now, a.wall);
  }

  lemma InvariantStep(y: System, s: Settings, a: Action)
    requires Invariant(y, s) && Enabled(y, a)
    ensures Invariant(Next(y, s, a), s) && StepOk(y, Next(y, s, a), a)
  {
    hide Sound, Silent, ReleasedBy, StoreAfter, JobFrom, Step;
    var y' := Next(y, s, a);
    StoreStep(y, s, a);
    NewRows(y, s, a);
    if JobFrom(y, s, a).Some? {
      ClaimIsFresh(y, s, a);
    }
    assert ReleaseOk(y, y', a) by {
      hide JobsOk, IssuedOk, Proceeds;
      if a.End? {
        ReleasedOnlyBy(y.store, y'.store, a.job, y.now);
      } else {
        SilentReleasesNothing(y.store, y'.store);
      }
    }
    assert JobsOk(y') by { JobsStep(y, s, a); }
  }

  lemma ReleasedOnlyBy(t: Tables, t': Tables, job: ClaimedRun, now: Time)
    requires ReleasedBy(t, t', job, now)
    ensures forall r :: r in t.runs && r in t'.runs && Releases(t.runs[r], t'.runs[r]) ==> HolderInTime(t.runs[r], job, now)
  {
  }

  lemma JobsStep(y: System, s: Settings, a: Action)
    requires Invariant(y, s) && Enabled(y, a)
    ensures JobsOk(Next(y, s, a))
  {
    hide Sound, Silent, StoreAfter, JobFrom, Step;
    var y' := Next(y, s, a);
    StoreStep(y, s, a);
    NewRows(y, s, a);
    if JobFrom(y, s, a).Some? {
      ClaimIsFresh(y, s, a);
    }
    forall job | job in y.jobs ensures JobHolds(y'.store, job) {
      if job.run.runId in y'.store.runs {
        assert job.run.runId in y.store.runs;
        assert Onward(y.store.runs[job.run.runId], y'.store.runs[job.run.runId]);
      }
    }
  }

  // ---------------------------------------------------------------- safety over whole runs

  // Every reachable state satisfies the store invariant: consistent tables, complete journals,
  // numbered conversations, unique requests, one active run, and every capacity limit.
  lemma {:induction false} Reachable(states: seq<System>, acts: seq<Action>, s: Settings, i: nat)
    requires Trace(states, acts, s) && i < |states|
    ensures Invariant(states[i], s)
  {
    hide Sound, JobsOk, Next, StepOk, Enabled;
    if i == 0 {
      InitialOk(states[0].now, s);
    } else {
      Reachable(states, acts, s, i - 1);
      InvariantStep(states[i - 1], s, acts[i - 1]);
    }
  }

  lemma InitialOk(now: Time, s: Settings)
    ensures Invariant(Initial(now), s)
  {
    var t := Initial(now).store;
    assert Consistent(t);
    assert Selected(t.runs, IsInFlight) == {} && Selected(t.runs, IsQueued) == {};
    forall tenant ensures Selected(t.runs, InFlightOf(tenant)) == {} {}
    forall owner ensures OwnedBy(t, owner) == {} {}
  }

  // How a run that exists at both times has changed between them.
  ghost predicate Since(early: Tables, late: Tables, r: Uuid)
    requires r in early.runs && r in late.runs
  {
    Forward(early, late, r) && Onward(early.runs[r], late.runs[r])
  }

  lemma SinceTrans(a: Tables, b: Tables, c: Tables, r: Uuid)
    requires r in a.runs && r in b.runs && r in c.runs && Since(a, b, r) && Since(b, c, r)
    ensures Since(a, c, r)
  {
  }

  lemma {:induction false} History(states: seq<System>, acts: seq<Action>, s: Settings, i: nat, j: nat, r: Uuid)
    requires Trace(states, acts, s) && i <= j < |states| && r in states[i].store.runs
    ensures states[i].issued <= states[j].issued && states[i].jobs <= states[j].jobs
    ensures r in states[j].store.runs ==> Since(states[i].store, states[j].store, r)
    decreases j
  {
    hide Sound, JobsOk, Next, Since, Enabled, ReleaseOk;
    Reachable(states, acts, s, i);
    if i == j {
      SinceItself(states[i].store, s, r);
    } else {
      History(states, acts, s, i, j - 1, r);
      Reachable(states, acts, s, j - 1);
      InvariantStep(states[j - 1], s, acts[j - 1]);
      if r in states[j].store.runs {
        assert r in states[i].issued;
        SinceStep(states[j - 1].store, states[j].store, r);
        SinceTrans(states[i].store, states[j - 1].store, states[j].store, r);
      }
    }
  }

  lemma SinceItself(t: Tables, s: Settings, r: Uuid)
    requires Sound(t, s) && r in t.runs
    ensures Since(t, t, r)
  {
    hide Consistent, WithinCapacity, ConversationsBounded;
    LeaseFacts(t, r);
  }

  lemma SinceStep(t: Tables, t': Tables, r: Uuid)
    requires Proceeds(t, t') && r in t.runs && r in t'.runs
    ensures Since(t, t', r)
  {
  }

  // Each run is claimed at most once, however often workers crash, pause or retry.
  lemma ClaimedAtMostOnce(states: seq<System>, acts: seq<Action>, s: Settings, i: nat, j: nat)
    requires Trace(states, acts, s) && i < j < |acts|
    requires JobFrom(states[i], s, acts[i]).Some? && JobFrom(states[j], s, acts[j]).Some?
    ensures JobFrom(states[i], s, acts[i]).value.run.runId != JobFrom(states[j], s, acts[j]).value.run.runId
  {
    hide Sound, JobsOk, StepOk, JobFrom, StoreAfter, Since, Enabled;
    Reachable(states, acts, s, i);
    Reachable(states, acts, s, j);
    InvariantStep(states[i], s, acts[i]);
    ClaimIsFresh(states[i], s, acts[i]);
    ClaimIsFresh(states[j], s, acts[j]);
    JobsRemain(states, acts, s, i + 1, j);
  }

  lemma {:induction false} JobsRemain(states: seq<System>, acts: seq<Action>, s: Settings, i: nat, j: nat)
    requires Trace(states, acts, s) && i <= j < |states|
    ensures states[i].jobs <= states[j].jobs
    decreases j
  {
    if i < j {
      JobsRemain(states, acts, s, i, j - 1);
    }
  }

  // A fence, once written, never changes.
  lemma FenceWrittenOnce(states: seq<System>, acts: seq<Action>, s: Settings, i: nat, j: nat, r: Uuid)
    requires Trace(states, acts, s) && i <= j < |states|
    requires r in states[i].store.runs && r in states[j].store.runs
    requires states[i].store.runs[r].extra.Shared? && states[i].store.runs[r].extra.fence.Some?
    ensures states[j].store.runs[r].extra.Shared?
    ensures states[j].store.runs[r].extra.fence == states[i].store.runs[r].extra.fence
  {
    hide Sound, JobsOk, Next, Enabled, Forward;
    History(states, acts, s, i, j, r);
  }

  // COMPLETED, and any answer, is committed only by the one job the run was ever handed out with,
  // strictly before both the lease and the authority end.
  lemma ReleasedOnlyByHolder(states: seq<System>, acts: seq<Action>, s: Settings, i: nat, r: Uuid)
    requires Trace(states, acts, s) && i < |acts|
    requires r in states[i].store.runs && r in states[i + 1].store.runs
    requires Releases(states[i].store.runs[r], states[i + 1].store.runs[r])
    ensures acts[i].End? && acts[i].job in states[i].jobs && HolderInTime(states[i].store.runs[r], acts[i].job, states[i].now)
    ensures forall job :: job in states[i].jobs && job.run.runId == r ==> job == acts[i].job
  {
    hide Sound, Next, Enabled;
    Reachable(states, acts, s, i);
    InvariantStep(states[i], s, acts[i]);
    RunIs(states[i].store, s, r);
  }

  // A requested cancellation is never followed by an answer or by COMPLETED.
  lemma CancellationIsFinal(states: seq<System>, acts: seq<Action>, s: Settings, i: nat, j: nat, r: Uuid)
    requires Trace(states, acts, s) && i <= j < |states|
    requires r in states[i].store.runs && r in states[j].store.runs
    requires states[i].store.runs[r].payload.status == CancellationRequested
    ensures states[j].store.runs[r].payload.status in {CancellationRequested, Cancelled, Interrupted}
    ensures states[j].store.runs[r].payload.result == None
  {
    hide Sound, JobsOk, Next, Enabled, Forward;
    History(states, acts, s, i, j, r);
    Reachable(states, acts, s, i);
    LeaseIs(states[i].store, s, r);
  }

  // What its holder commits in time is committed: the status, answer and code the worker wanted are what
  // every later state shows, as long as the run exists.
  lemma AnswerStays(states: seq<System>, acts: seq<Action>, s: Settings, i: nat, j: nat)
    requires Trace(states, acts, s) && i < |acts| && i < j < |states|
    requires acts[i].End? && Terminal(acts[i].wanted.status)
    requires var r := acts[i].job.run.runId;
             r in states[i].store.runs && HolderInTime(states[i].store.runs[r], acts[i].job, states[i].now) && r in states[j].store.runs
    ensures var r, wanted := acts[i].job.run.runId, acts[i].wanted;
            && |states| == |acts| + 1
            && states[j].store.runs[r].payload.status == wanted.status
            && states[j].store.runs[r].payload.result == wanted.result
            && states[j].store.runs[r].payload.errorCode == wanted.code
            && states[j].store.runs[r].payload.sequence == states[i].store.runs[r].payload.sequence + 1
  {
    hide Sound, JobsOk, IssuedOk, Enabled, Finish, Forward, Onward;
    var r := acts[i].job.run.runId;
    Reachable(states, acts, s, i);
    PostgresEffects.JobRow(states[i].store, s, r);
    PostgresEffects.FinishEffect(states[i].store, s, acts[i].job, acts[i].wanted, states[i].now, acts[i].wall);
    TerminalIsFinal(states, acts, s, i + 1, j, r);
  }

  // A run is bound to one source from its admission on, and only workers of that source are ever given it.
  ghost predicate BindingsOk(y: System) {
    forall r :: r in y.store.runs ==>
      y.store.runs[r].extra.Shared? && y.store.runs[r].extra.binding == y.store.runs[r].payload.sourceBinding
  }

  lemma {:induction false} BoundForGood(states: seq<System>, acts: seq<Action>, s: Settings, i: nat)
    requires Trace(states, acts, s) && i < |states|
    ensures BindingsOk(states[i])
  {
    hide Sound, JobsOk, Enabled, Forward;
    if i > 0 {
      BoundForGood(states, acts, s, i - 1);
      Reachable(states, acts, s, i - 1);
      BoundStep(states[i - 1], s, acts[i - 1]);
    }
  }

  lemma BoundStep(y: System, s: Settings, a: Action)
    requires Invariant(y, s) && Enabled(y, a) && BindingsOk(y)
    ensures BindingsOk(Next(y, s, a))
  {
    hide Sound, JobsOk, IssuedOk, Enabled, StoreAfter, JobFrom, ReleaseOk;
    InvariantStep(y, s, a);
    NewRows(y, s, a);
    var y' := Next(y, s, a);
    forall r | r in y'.store.runs
      ensures y'.store.runs[r].extra.Shared? && y'.store.runs[r].extra.binding == y'.store.runs[r].payload.sourceBinding
    {
      if r !in y.store.runs {
        AdmittedBound(y, s, a);
      } else {
        assert Onward(y.store.runs[r], y'.store.runs[r]) && Forward(y.store, y'.store, r);
      }
    }
  }

  lemma AdmittedBound(y: System, s: Settings, a: Action)
    requires Sound(y.store, s) && a.Submit? && a.id !in y.store.runs && a.id in StoreAfter(y, s, a).runs
    ensures var row := StoreAfter(y, s, a).runs[a.id]; row.extra.Shared? && row.extra.binding == row.payload.sourceBinding
  {
    hide Sound, Enqueue, PostgresEffects.Admits;
    PostgresEffects.EnqueueEffect(y.store, s, a.owner, a.scope, a.request, a.binding, a.grant, a.id, y.now, a.wall);
  }

  lemma ClaimedForItsSource(states: seq<System>, acts: seq<Action>, s: Settings, i: nat)
    requires Trace(states, acts, s) && i < |acts| && JobFrom(states[i], s, acts[i]).Some?
    ensures var job := JobFrom(states[i], s, acts[i]).value;
            && |states| == |acts| + 1 && acts[i].Take? && job.run.sourceBinding == acts[i].binding
            && job.run.runId in states[i].store.runs && states[i].store.runs[job.run.runId].extra.Shared?
            && states[i].store.runs[job.run.runId].extra.grant == job.grant && states[i].now < job.grant.expiresAt
  {
    hide Sound, JobsOk, IssuedOk, Enabled, Claim, Forward, Onward;
    var y, a := states[i], acts[i];
    Reachable(states, acts, s, i);
    BoundForGood(states, acts, s, i);
    PostgresEffects.ClaimEffect(y.store, s, a.binding, a.locked, a.id, y.now, a.wall);
    HandedBound(y.store, Claim(y.store, s, a.binding, a.locked, a.id, y.now, a.wall).0, s, a.binding, a.locked, a.id, y.now, a.wall,
                JobFrom(y, s, a).value);
  }

  lemma HandedBound(t: Tables, t': Tables, s: Settings, binding: string, locked: set<Uuid>, fence: Uuid, now: Time, wall: Time, job: ClaimedRun)
    requires Sound(t, s) && PostgresEffects.Handed(t, t', s, binding, locked, now, fence, job)
    requires PostgresEffects.AfterClaim(t, t', s, Some(job.run.runId), fence, now, wall)
    ensures var r := job.run.runId;
            && r in t.runs && t.runs[r].extra.Shared? && t.runs[r].extra.binding == binding && t.runs[r].extra.grant == job.grant
            && now < job.grant.expiresAt && job.run.sourceBinding == t.runs[r].payload.sourceBinding
  {
    hide Consistent, WithinCapacity, ConversationsBounded;
    var r := job.run.runId;
    LeaseFacts(t, r);
    assert PostgresEffects.RunAfterClaim(t, t', s, Some(r), fence, now, wall, r);
  }

  lemma LeaseIs(t: Tables, s: Settings, r: Uuid)
    requires Sound(t, s) && r in t.runs
    ensures LeaseOk(t.runs[r]) && t.runs[r].status == t.runs[r].payload.status
  {
    hide Consistent, WithinCapacity, ConversationsBounded;
    LeaseFacts(t, r);
    RunFacts(t, r);
  }

  // Terminal states are absorbing: nothing about a finished run ever changes again.
  lemma TerminalIsFinal(states: seq<System>, acts: seq<Action>, s: Settings, i: nat, j: nat, r: Uuid)
    requires Trace(states, acts, s) && i <= j < |states|
    requires r in states[i].store.runs && r in states[j].store.runs
    requires Terminal(states[i].store.runs[r].payload.status)
    ensures states[j].store.runs[r].payload == states[i].store.runs[r].payload
  {
    hide Sound, JobsOk, Next, Enabled, Onward;
    History(states, acts, s, i, j, r);
  }

  // Folding events 1..k of any later journal shows what the run was at sequence k.
  lemma JournalShowsEveryState(states: seq<System>, acts: seq<Action>, s: Settings, i: nat, j: nat, r: Uuid, start: Visible)
    requires Trace(states, acts, s) && i <= j < |states|
    requires r in states[i].store.runs && r in states[j].store.runs
    ensures var run := states[i].store.runs[r].payload;
            && r in states[j].store.events
            && Fold(start, EventsBetween(states[j].store.events[r], 0, run.sequence)) == Shown(run)
            && run.sequence <= states[j].store.runs[r].payload.sequence <= 62
  {
    hide JobsOk, Next, Enabled, Onward, OrderOk, NumberingOk, UniqueRequests, OnlyLatestActive, RowsOk, LeasesOk, WithinCapacity, ConversationsBounded;
    History(states, acts, s, i, j, r);
    Reachable(states, acts, s, i);
    Reachable(states, acts, s, j);
    RunFacts(states[j].store, r);
    FoldShowsPast(states[i].store, states[j].store, r, start);
  }

  // Each committed write of a run decreases its measure, so the writes of one run are bounded.
  lemma WritesDecrease(states: seq<System>, acts: seq<Action>, s: Settings, i: nat, r: Uuid)
    requires Trace(states, acts, s) && i < |acts|
    requires r in states[i].store.runs && r in states[i + 1].store.runs
    requires states[i].store.runs[r].payload != states[i + 1].store.runs[r].payload
    ensures MeasureDecreases(states[i].store.runs[r].payload, states[i + 1].store.runs[r].payload)
    ensures states[i + 1].store.runs[r].payload.sequence == states[i].store.runs[r].payload.sequence + 1
  {
    hide Sound, JobsOk, Next, Enabled, Onward, ReleaseOk;
    Reachable(states, acts, s, i);
    InvariantStep(states[i], s, acts[i]);
    SequenceIs(states[i].store, s, r);
    LegalChangeKeepsRange(states[i].store.runs[r].payload, states[i + 1].store.runs[r].payload);
  }

  lemma SequenceIs(t: Tables, s: Settings, r: Uuid)
    requires Sound(t, s) && r in t.runs
    ensures SequenceInRange(t.runs[r].payload.status, t.runs[r].payload.sequence)
  {
    RunFacts(t, r);
  }

  // Exactly-once admission: a retry of an admitted request returns that run, with nothing written,
  // as long as its conversation exists; no other run ever carries the request id there.
  lemma RetryReturnsTheRun(states: seq<System>, acts: seq<Action>, s: Settings, i: nat, j: nat, r: Uuid,
                           owner: Owner, scope: Scope, binding: string, grant: Grant, id: Uuid, wall: Time)
    requires Trace(states, acts, s) && i <= j < |states|
    requires r in states[i].store.runs && r in states[j].store.runs
    requires var request := states[i].store.runs[r].payload.request;
             && request.sourceFingerprint == None
             && Owns(states[j].store, owner, scope, request.conversationId)
             && Principal("internal", grant.access) == (owner, scope)
    ensures var y, request := states[j], states[i].store.runs[r].payload.request;
            && Enqueue(y.store, s, owner, scope, request, binding, grant, id, y.now, wall) == (y.store, Ok(y.store.runs[r].payload))
            && forall q :: IsRequest(y.store, q, request) ==> q == r
  {
    hide JobsOk, Next, Enabled, Onward, LeasesOk, WithinCapacity, ConversationsBounded, OrderOk, NumberingOk, JournalsOk, OnlyLatestActive;
    History(states, acts, s, i, j, r);
    Reachable(states, acts, s, j);
    var t, request := states[j].store, states[i].store.runs[r].payload.request;
    RunFacts(t, r);
    ExistingIs(t, r, request);
    forall q | IsRequest(t, q, request) ensures q == r { assert SameRequest(t.runs, q, r); }
  }

  // A conversation's revision is its number of runs, its k-th run was submitted against revision k,
  // and its latest run is the last one.
  lemma ConversationNumbering(states: seq<System>, acts: seq<Action>, s: Settings, i: nat, c: Uuid)
    requires Trace(states, acts, s) && i < |states| && c in states[i].store.convs
    ensures var t := states[i].store;
            var ids := RunsOf(t.order, c);
            && t.convs[c].payload.revision == |ids| == Count(t.runs, InConversation(c)) <= 64
            && t.convs[c].payload.latestRunId == (if ids == [] then None else Some(ids[|ids| - 1]))
            && forall k :: 0 <= k < |ids| ==> ids[k] in t.runs && t.runs[ids[k]].payload.request.expectedRevision == k
  {
    hide JobsOk, Next, Enabled, RowsOk, JournalsOk, UniqueRequests, OnlyLatestActive, LeasesOk, WithinCapacity, ConversationsBounded, OrderOk;
    Reachable(states, acts, s, i);
    RevisionCounts(states[i].store, c);
  }

  // The limits of the settings hold in every reachable state.
  lemma CapacityHolds(states: seq<System>, acts: seq<Action>, s: Settings, i: nat, tenant: string, owner: Owner)
    requires Trace(states, acts, s) && i < |states|
    ensures var t := states[i].store;
            && Count(t.runs, IsInFlight) <= s.maximumRunning
            && Count(t.runs, InFlightOf(tenant)) <= s.maximumRunningPerTenant
            && Count(t.runs, IsQueued) <= s.maximumPending
            && |t.convs| <= s.maximumConversations
            && |OwnedBy(t, owner)| <= 16
            && forall r, q | r in t.runs && q in t.runs && !Terminal(t.runs[r].status) && !Terminal(t.runs[q].status) ::
                 t.runs[r].conversation == t.runs[q].conversation ==> r == q
  {
    hide JobsOk, Next, Enabled, RowsOk, JournalsOk, UniqueRequests, LeasesOk, OrderOk, NumberingOk;
    Reachable(states, acts, s, i);
  }

  // ---------------------------------------------------------------- leases between a worker's own calls

  // The fence and lease of a row, and whether a worker may still act on it.
  ghost predicate LeaseNotExtended(t: Tables, t': Tables, r: Uuid)
    requires r in t.runs && r in t'.runs
  {
    && t'.runs[r].extra == t.runs[r].extra
    && (InFlight(t'.runs[r].payload.status) ==> InFlight(t.runs[r].payload.status))
    && t'.runs[r].payload.runId == t.runs[r].payload.runId
  }

  lemma ClaimExtendsNothing(t: Tables, s: Settings, binding: string, locked: set<Uuid>, fence: Uuid, now: Time, wall: Time, r: Uuid)
    requires Sound(t, s) && r in t.runs && t.runs[r].extra.Shared? && t.runs[r].extra.fence.Some?
    ensures var t' := Claim(t, s, binding, locked, fence, now, wall).0; r in t'.runs && LeaseNotExtended(t, t', r)
  {
    hide Count, FirstClaimable, Sound, Sweep, StartRun, LeaseNotExtended;
    RunIs(t, s, r);
    var swept := Sweep(t, now, wall);
    SweepKeeps(t, s, now, wall);
    SweepExtendsNothing(t, s, now, wall, r);
    var first := FirstClaimable(swept, s, binding, locked, swept.order);
    if first.Some? && Claim(t, s, binding, locked, fence, now, wall).1.Some? {
      LeaseIs(swept, s, first.value);
      RunIs(swept, s, first.value);
      StartExtendsNothing(swept, s, first.value, fence, now, wall, r);
      NotExtendedOnward(t, swept, StartRun(swept, s, first.value, fence, now, wall), r);
    }
  }

  lemma SweepExtendsNothing(t: Tables, s: Settings, now: Time, wall: Time, r: Uuid)
    requires r in t.runs && t.runs[r].payload.runId == r
    ensures var t' := Sweep(t, now, wall); r in t'.runs && LeaseNotExtended(t, t', r)
  {
  }

  lemma StartExtendsNothing(t: Tables, s: Settings, first: Uuid, fence: Uuid, now: Time, wall: Time, r: Uuid)
    requires r in t.runs && first in t.runs && t.runs[first].payload.runId == first && t.runs[first].payload.status == Queued
    requires t.runs[first].extra.Shared? && t.runs[first].extra.fence.None? && r != first
    ensures var t' := StartRun(t, s, first, fence, now, wall); r in t'.runs && LeaseNotExtended(t, t', r)
  {
  }

  lemma NotExtendedOnward(a: Tables, b: Tables, c: Tables, r: Uuid)
    requires r in a.runs && r in b.runs && r in c.runs && LeaseNotExtended(a, b, r) && LeaseNotExtended(b, c, r)
    ensures LeaseNotExtended(a, c, r)
  {
  }

  lemma LeaseExtendedOnlyByOwner(y: System, s: Settings, a: Action, job: ClaimedRun, at: Time)
    requires Invariant(y, s) && Enabled(y, a) && job in y.jobs
    requires a.Beat? ==> a.job != job
    requires Owned(StoreAfter(y, s, a), job, at)
    ensures Owned(y.store, job, at)
  {
    hide Sound, Enqueue, Claim, Cancel, Progress, Finish, LeaseNotExtended, CreateConversation;
    var t, r := y.store, job.run.runId;
    NewRows(y, s, a);
    assert r in t.runs by { assert r in y.issued; }
    assert JobHolds(t, job);
    LeaseIs(t, s, r);
    RunIs(t, s, r);
    if a.Submit? || a.RequestCancel? || a.Take? || a.Tell? || a.End? {
      WritesExtendNothing(y, s, a, r);
      NotExtendedOwned(t, StoreAfter(y, s, a), job, at);
    } else if a.Create? {
      CreationAddsNoRun(t, s, a.owner, a.scope, a.id, a.wall);
    }
  }

  lemma CreationAddsNoRun(t: Tables, s: Settings, owner: Owner, scope: Scope, id: Uuid, wall: Time)
    ensures CreateConversation(t, s, owner, scope, id, wall).0.runs == t.runs
  {
  }

  lemma NotExtendedOwned(t: Tables, t': Tables, job: ClaimedRun, at: Time)
    requires job.run.runId in t.runs && job.run.runId in t'.runs && LeaseNotExtended(t, t', job.run.runId)
    requires Owned(t', job, at)
    ensures Owned(t, job, at)
  {
  }

  lemma WritesExtendNothing(y: System, s: Settings, a: Action, r: Uuid)
    requires Invariant(y, s) && r in y.store.runs && y.store.runs[r].extra.Shared? && y.store.runs[r].extra.fence.Some?
    requires a.Submit? || a.RequestCancel? || a.Take? || a.Tell? || a.End?
    ensures r in StoreAfter(y, s, a).runs && LeaseNotExtended(y.store, StoreAfter(y, s, a), r)
  {
    hide Sound, Enqueue, Claim, Cancel, Progress, Finish, LeaseNotExtended;
    var t := y.store;
    match a
    case Submit(owner, scope, request, binding, grant, id, wall) =>
      EnqueueExtendsNothing(t, s, owner, scope, request, binding, grant, id, y.now, wall, r);
    case Take(binding, locked, id, wall) =>
      ClaimExtendsNothing(t, s, binding, locked, id, y.now, wall, r);
    case RequestCancel(owner, scope, run, wall) =>
      if run in t.runs { RunIs(t, s, run); }
      CancelExtendsNothing(t, owner, scope, run, wall, r);
    case Tell(teller, report, wall) =>
      TellExtendsNothing(t, teller, report, y.now, wall, r);
    case End(ender, wanted, wall) =>
      EndExtendsNothing(t, ender, wanted, y.now, wall, r);
  }

  lemma TellExtendsNothing(t: Tables, job: ClaimedRun, report: Report, now: Time, wall: Time, r: Uuid)
    requires r in t.runs
    ensures var t' := Progress(t, job, report, now, wall).0; r in t'.runs && LeaseNotExtended(t, t', r)
  {
  }

  lemma EndExtendsNothing(t: Tables, job: ClaimedRun, wanted: Ending, now: Time, wall: Time, r: Uuid)
    requires r in t.runs
    ensures var t' := Finish(t, job, wanted, now, wall).0; r in t'.runs && LeaseNotExtended(t, t', r)
  {
  }

  lemma CancelExtendsNothing(t: Tables, owner: Owner, scope: Scope, run: Uuid, wall: Time, r: Uuid)
    requires (run in t.runs ==> t.runs[run].payload.runId == run) && r in t.runs
    ensures var t' := Cancel(t, owner, scope, run, wall).0; r in t'.runs && LeaseNotExtended(t, t', r)
  {
  }

  lemma EnqueueExtendsNothing(t: Tables, s: Settings, owner: Owner, scope: Scope, request: RunRequest, binding: string,
                              grant: Grant, id: Uuid, now: Time, wall: Time, r: Uuid)
    requires r in t.runs
    ensures var t' := Enqueue(t, s, owner, scope, request, binding, grant, id, now, wall).0; r in t'.runs && LeaseNotExtended(t, t', r)
  {
    hide Existing, Count, HasActive;
  }
}
