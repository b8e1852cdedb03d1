/** One worker process over the shared store. Between any two of its transactions, others may run. */
module DistributedWorkers {
  import opened Runs
  import opened RunTables
  import opened PostgresRuns
  import opened RunProtocol
  import opened PostgresRunStores
  import PostgresEffects

  // How the awaited operation of one job ends, if nothing cancels it.
  datatype Operation = Answered(answer: Answer) | Raised

  // Where a cancelled task was waiting.
  datatype Stage = Authorizing | Beating | Operating | Reauthorizing | Committing

  // What happens while the operation runs: its progress reports, and the monitor's rounds, each testing
  // authority and then beating.
  datatype Incident = Reported(report: Report, now: Time) | Monitored(authorized: bool, now: Time)

  // A refused report raises inside the operation; a failed round of the monitor cancels it.
  datatype Observed = Undisturbed | Rejected | Abandoned

  const STOPPED := Ending(Interrupted, None, Some(WorkerStopped))
  const FAILED := Ending(Failed, None, Some(RunFailed))

  // What other transactions may do to the store while this worker is not in one: each keeps every
  // promise of a transaction, and identifiers are never drawn twice, so a vanished run stays away.
  ghost predicate Elsewhere(t: Tables, t': Tables, jobs: set<ClaimedRun>) {
    && (forall job :: job in jobs && JobHolds(t, job) ==> JobHolds(t', job))
    && (forall job, now :: job in jobs && !Owned(t, job, now) ==> !Owned(t', job, now))
  }

  // Everything that decides one job: where it is cancelled, if it is, what the two authority checks and
  // the operation say, and what happens meanwhile.
  datatype Course = Course(
    cancelled: Option<Stage>, authorized: bool, incidents: seq<Incident>, operation: Operation, reauthorized: bool)

  // The ending the worker asks for; `alive` is its heartbeat before the dispatch.
  function Wanted(c: Course, alive: bool, observed: Observed): Ending {
    if c.cancelled == Some(Authorizing) then STOPPED
    else if !c.authorized then FAILED
    else if c.cancelled == Some(Beating) then STOPPED
    else if !alive then FAILED
    else if c.cancelled == Some(Operating) || observed.Abandoned? then STOPPED
    else if observed.Rejected? || c.operation.Raised? then FAILED
    else if c.cancelled == Some(Reauthorizing) then STOPPED
    else if !c.reauthorized then FAILED
    else Ending(Completed, Some(c.operation.answer), None)
  }

  // When the worker asks for what: COMPLETED with the operation's answer when nothing went wrong on the way,
  // INTERRUPTED when the cancellation or the monitor got there first, FAILED when anything else did.
  lemma WantedExactly(c: Course, alive: bool, observed: Observed)
    ensures var wanted := Wanted(c, alive, observed);
            var operated := alive && c.authorized && c.cancelled !in {Some(Authorizing), Some(Beating)};
            var answered := operated && c.cancelled != Some(Operating) && observed.Undisturbed? && c.operation.Answered?;
            && (wanted.status == Completed <==> answered && c.cancelled != Some(Reauthorizing) && c.reauthorized)
            && (wanted.status == Completed ==> wanted.result == Some(c.operation.answer) && wanted.code == None)
            && (wanted.status == Interrupted <==>
                  || c.cancelled == Some(Authorizing)
                  || (c.authorized && c.cancelled == Some(Beating))
                  || (operated && (c.cancelled == Some(Operating) || observed.Abandoned?))
                  || (answered && c.cancelled == Some(Reauthorizing)))
            && (wanted.status == Interrupted ==> wanted.result == None && wanted.code == Some(WorkerStopped))
            && (wanted.status !in {Completed, Interrupted} ==> wanted == Ending(Failed, None, Some(RunFailed)))
  {
  }

  // What is committed for a job: what the worker asked for, unless the run was cancelled, its authority
  // ended, or the worker was stopped while it committed.
  predicate Commits(run: RunSnapshot, wanted: Ending, stopping: bool) {
    || (run.status == wanted.status && run.result == wanted.result && run.errorCode == wanted.code)
    || (run.status == Cancelled && run.result == None && run.errorCode == None)
    || (run.status == Interrupted && run.result == None && run.errorCode == Some(AuthorityExpiredCode))
    || (stopping && run.status == Interrupted && run.result == None && run.errorCode == Some(WorkerStopped))
  }

  // Every check of authority the job passed before its answer could be committed.
  predicate Cleared(c: Course) {
    && c.authorized && c.reauthorized && (c.cancelled.Some? ==> c.cancelled.value.Committing?)
    && forall i :: 0 <= i < |c.incidents| && c.incidents[i].Monitored? ==> c.incidents[i].authorized
  }

  class DistributedWorker {
    const store: PostgresRunStore
    const binding: string
    const maximumActive: nat
    var tasks: set<Uuid>
    var jobs: map<Uuid, ClaimedRun>
    var stop: bool

    ghost predicate Valid()
      reads this, store
    {
      && store.Valid()
      && tasks == jobs.Keys
      && |tasks| <= maximumActive
      && (forall r :: r in jobs ==> jobs[r].run.runId == r && JobHolds(store.View(), jobs[r]))
    }

    constructor (store: PostgresRunStore, binding: string, maximumActive: nat)
      requires store.Valid()
      ensures Valid() && this.store == store && tasks == {} && !stop
    {
      this.store, this.binding, this.maximumActive := store, binding, maximumActive;
      tasks, jobs, stop := {}, map[], false;
    }

    // Other workers and API instances get their turn; nothing is done here, so the caller learns
    // only what every interleaving keeps.
    method Others(ghost held: set<ClaimedRun>)
      requires store.Valid()
      modifies store
      ensures store.Valid() && Elsewhere(old(store.View()), store.View(), held)
    {
    }

    // Nothing the store offers now could be claimed by this worker.
    ghost predicate Dry(now: Time)
      reads store
    {
      || |PostgresEffects.Executing(store.View(), now)| >= store.settings.maximumRunning
      || !PostgresEffects.SomeWaiting(store.View(), store.settings, binding, {}, now)
    }

    // Claim until the pool is full, the queue offers nothing or the worker is stopping.
    method Tick(fences: nat -> Uuid, clock: nat -> Time, wall: Time) returns (claimed: nat)
      requires Valid()
      modifies this, store
      ensures Valid() && stop == old(stop) && (stop ==> claimed == 0)
      ensures |tasks| == |old(tasks)| + claimed
      ensures |tasks| == maximumActive || stop || Dry(clock(claimed))
      ensures forall r :: r in old(jobs) ==> r in jobs && jobs[r] == old(jobs)[r]
    {
      hide Dry;
      claimed := 0;
      while |tasks| < maximumActive && !stop
        invariant Valid() && stop == old(stop) && (stop ==> claimed == 0)
        invariant |tasks| == |old(tasks)| + claimed
        invariant forall r :: r in old(jobs) ==> r in jobs && jobs[r] == old(jobs)[r]
        decreases maximumActive - |tasks|
      {
        var added := TickOnce(fences(claimed), clock(claimed), wall);
        if !added {
          return;
        }
        claimed := claimed + 1;
      }
    }

    method TickOnce(fence: Uuid, now: Time, wall: Time) returns (added: bool)
      requires Valid() && |tasks| < maximumActive
      modifies this, store
      ensures Valid() && stop == old(stop)
      ensures |tasks| == |old(tasks)| + if added then 1 else 0
      ensures !added ==> Dry(now)
      ensures forall r :: r in old(jobs) ==> r in jobs && jobs[r] == old(jobs)[r]
    {
      hide PostgresRunStore.Valid, JobHolds, PostgresRuns.Claim, Dry;
      Yield();
      var job := ClaimOne(fence, now, wall);
      added := job.Some?;
      if added {
        jobs := jobs[job.value.run.runId := job.value];
        tasks := tasks + {job.value.run.runId};
      }
    }

    // The same interference, seen by the jobs this worker holds.
    method Yield()
      requires Valid()
      modifies store
      ensures Valid()
    {
      hide PostgresRunStore.Valid, JobHolds;
      Others(jobs.Values);
    }

    method ClaimOne(fence: Uuid, now: Time, wall: Time) returns (job: Option<ClaimedRun>)
      requires store.Valid() && forall r :: r in jobs ==> jobs[r].run.runId == r && JobHolds(store.View(), jobs[r])
      modifies store
      ensures store.Valid()
      ensures forall r :: r in jobs ==> JobHolds(store.View(), jobs[r])
      ensures job.Some? ==> job.value.run.runId !in jobs && JobHolds(store.View(), job.value)
      ensures (store.View(), job) == PostgresRuns.Claim(old(store.View()), store.settings, binding, {}, fence, now, wall)
      ensures job.None? ==> Dry(now)
    {
      hide Sound, Proceeds, Silent, Claim, PostgresEffects.SomeWaiting, PostgresEffects.Executing;
      ghost var t := store.View();
      ClaimKeeps(t, store.settings, binding, {}, fence, now, wall);
      if PostgresRuns.Claim(t, store.settings, binding, {}, fence, now, wall).1.None? {
        PostgresEffects.NothingLeft(t, store.settings, binding, {}, fence, now, wall);
      }
      job := store.Claim(binding, {}, fence, now, wall);
    }

    // One job from dispatch to its terminal write. COMPLETED is requested only after authority was
    // checked before the dispatch, in every round of the monitor, and again on the finished result.
    method Execute(job: ClaimedRun, c: Course, interruptFirst: bool, dispatched: Time, finished: Time, again: Time, wall: Time)
      returns (committed: Outcome<RunSnapshot>, ghost alive: bool, ghost observed: Observed)
      requires Valid() && job.run.runId in jobs && jobs[job.run.runId] == job && finished <= again
      modifies this, store
      ensures job.run.runId !in jobs && job.run.runId !in tasks && jobs == old(jobs) - {job.run.runId}
      ensures store.Valid()
      ensures committed.Ok? && committed.value.status == Completed ==>
                Cleared(c) && c.operation.Answered? && committed.value.result == Some(c.operation.answer)
      ensures committed.Ok? && committed.value.result.Some? ==> committed.value.status == Completed
      ensures committed.Ok? ==> Commits(committed.value, Wanted(c, alive, observed), c.cancelled == Some(Committing))
      ensures forall at :: committed.Ok? || finished <= at ==> !Owned(store.View(), job, at)
    {
      hide PostgresRunStore.Valid, JobHolds, Owned, Wanted, Cleared;
      var wanted, living, seen := Dispatch(job, c, dispatched, wall);
      alive, observed := living, seen;
      if c.cancelled == Some(Committing) && wanted.status == Completed {
        committed := CommitBoth(job, wanted, interruptFirst, finished, again, wall);
      } else {
        committed := Commit(job, wanted, finished, again, wall);
      }
      tasks := tasks - {job.run.runId};
      jobs := jobs - {job.run.runId};
    }

    // The ending the worker asks for.
    method Dispatch(job: ClaimedRun, c: Course, dispatched: Time, wall: Time) returns (wanted: Ending, alive: bool, observed: Observed)
      requires store.Valid()
      modifies store
      ensures wanted == Wanted(c, alive, observed)
      ensures !c.authorized || c.cancelled == Some(Authorizing) ==> store.View() == old(store.View())
      ensures store.Valid() && Terminal(wanted.status) && (wanted.result.Some? ==> wanted.status == Completed)
      ensures wanted.status == Completed ==> Cleared(c) && c.operation.Answered? && wanted.result == Some(c.operation.answer)
    {
      hide PostgresRunStore.Valid;
      wanted, alive, observed := FAILED, false, Undisturbed;
      if c.cancelled == Some(Authorizing) {
        return STOPPED, alive, observed;
      }
      if !c.authorized {
        return;
      }
      Others({job});
      var beat := store.Heartbeat(job, dispatched);
      alive := beat == Ok(true);
      if c.cancelled == Some(Beating) {
        return STOPPED, alive, observed;
      }
      if !alive {
        return;
      }
      observed := Observe(job, c.incidents, wall);
      if c.cancelled == Some(Operating) || observed.Abandoned? {
        return STOPPED, alive, observed;
      }
      if observed.Rejected? || c.operation.Raised? {
        return;
      }
      if c.cancelled == Some(Reauthorizing) {
        return STOPPED, alive, observed;
      }
      if c.reauthorized {
        wanted := Ending(Completed, Some(c.operation.answer), None);
      }
    }

    method Commit(job: ClaimedRun, wanted: Ending, finished: Time, again: Time, wall: Time) returns (committed: Outcome<RunSnapshot>)
      requires store.Valid() && finished <= again && Terminal(wanted.status) && (wanted.result.Some? ==> wanted.status == Completed)
      modifies store
      ensures store.Valid()
      ensures committed.Ok? && committed.value.status == Completed ==>
                wanted.status == Completed && committed.value.result == wanted.result
      ensures committed.Ok? && committed.value.result.Some? ==> committed.value.status == Completed
      ensures committed.Ok? ==> Commits(committed.value, wanted, false)
      ensures forall at :: committed.Ok? || finished <= at ==> !Owned(store.View(), job, at)
    {
      hide PostgresRunStore.Valid, Owned;
      Others({job});
      committed := FinishJob(job, wanted, finished, wall);
      if committed.Err? && wanted.status == Completed {
        committed := EndAgain(job, FAILED, finished, again, wall);
      }
    }

    // A task cancelled while its COMPLETED is on the way to the database asks for INTERRUPTED beside it;
    // whichever transaction comes first, the other finds that the job owns nothing any more.
    method CommitBoth(job: ClaimedRun, wanted: Ending, interruptFirst: bool, finished: Time, again: Time, wall: Time)
      returns (committed: Outcome<RunSnapshot>)
      requires store.Valid() && finished <= again && Terminal(wanted.status) && (wanted.result.Some? ==> wanted.status == Completed)
      modifies store
      ensures store.Valid()
      ensures committed.Ok? && committed.value.status == Completed ==>
                wanted.status == Completed && committed.value.result == wanted.result
      ensures committed.Ok? && committed.value.result.Some? ==> committed.value.status == Completed
      ensures committed.Ok? ==> Commits(committed.value, wanted, true)
      ensures forall at :: committed.Ok? || finished <= at ==> !Owned(store.View(), job, at)
    {
      hide PostgresRunStore.Valid, Owned;
      Others({job});
      committed := FinishJob(job, if interruptFirst then STOPPED else wanted, finished, wall);
      var _ := EndAgain(job, if interruptFirst then wanted else STOPPED, finished, again, wall);
    }

    // A second terminal write for the same job is refused: by then the job owns nothing.
    method EndAgain(job: ClaimedRun, ending: Ending, refused: Time, now: Time, wall: Time) returns (outcome: Outcome<RunSnapshot>)
      requires store.Valid() && refused <= now && Terminal(ending.status) && (ending.result.Some? ==> ending.status == Completed)
      requires forall at :: refused <= at ==> !Owned(store.View(), job, at)
      modifies store
      ensures store.Valid() && outcome == Err(LeaseLost)
      ensures forall at :: !Owned(old(store.View()), job, at) ==> !Owned(store.View(), job, at)
    {
      hide PostgresRunStore.Valid;
      Others({job});
      assert !Owned(store.View(), job, now);
      ghost var before := store.View();
      outcome := FinishJob(job, ending, now, wall);
      forall at | !Owned(before, job, at) ensures !Owned(store.View(), job, at) {
        FinishTakesNothing(before, job, ending, now, wall, job, at);
      }
    }

    // The reports and the monitor's rounds up to the end of the operation, or to the first that ends it.
    method Observe(job: ClaimedRun, incidents: seq<Incident>, wall: Time) returns (observed: Observed)
      requires store.Valid()
      modifies store
      ensures store.Valid()
      ensures observed.Undisturbed? ==> forall i :: 0 <= i < |incidents| && incidents[i].Monitored? ==> incidents[i].authorized
    {
      hide PostgresRunStore.Valid;
      observed := Undisturbed;
      for k := 0 to |incidents|
        invariant store.Valid() && observed.Undisturbed?
        invariant forall i :: 0 <= i < k && incidents[i].Monitored? ==> incidents[i].authorized
      {
        observed := ObserveOne(job, incidents[k], wall);
        if !observed.Undisturbed? {
          return;
        }
      }
    }

    method ObserveOne(job: ClaimedRun, incident: Incident, wall: Time) returns (observed: Observed)
      requires store.Valid()
      modifies store
      ensures store.Valid()
      ensures observed.Undisturbed? && incident.Monitored? ==> incident.authorized
      ensures incident.Monitored? && !incident.authorized ==> observed.Abandoned? && store.View() == old(store.View())
      ensures if incident.Monitored? then !observed.Rejected? else !observed.Abandoned?
    {
      hide PostgresRunStore.Valid, PostgresRuns.Progress, PostgresRuns.Heartbeat;
      if incident.Monitored? && !incident.authorized {
        return Abandoned;
      }
      Others({job});
      match incident {
        case Reported(report, now) =>
          var outcome := store.Progress(job, report, now, wall);
          return if outcome.Err? then Rejected else Undisturbed;
        case Monitored(_, now) =>
          var beat := store.Heartbeat(job, now);
          return if beat == Ok(true) then Undisturbed else Abandoned;
      }
    }

    method FinishJob(job: ClaimedRun, wanted: Ending, now: Time, wall: Time) returns (outcome: Outcome<RunSnapshot>)
      requires store.Valid() && Terminal(wanted.status)
      requires wanted.result.Some? ==> wanted.status == Completed
      modifies store
      ensures store.Valid()
      ensures (store.View(), outcome) == PostgresRuns.Finish(old(store.View()), job, wanted, now, wall)
      ensures outcome.Err? ==> outcome == Err(LeaseLost)
      ensures forall at :: outcome.Ok? || now <= at ==> !Owned(store.View(), job, at)
      ensures outcome.Ok? && outcome.value.status == Completed ==>
                wanted.status == Completed && outcome.value.result == wanted.result
      ensures outcome.Ok? && outcome.value.result.Some? ==> outcome.value.status == Completed
      ensures outcome.Ok? ==> Commits(outcome.value, wanted, false)
    {
      hide Sound;
      outcome := store.Finish(job, wanted, now, wall);
    }

    // Shutdown cancels every task. One that was entered ends its own job; `committing` are those whose
    // COMPLETED was on its way. Jobs whose task never ran are fenced afterwards. From the last clock
    // reading on, no job held before can be owned.
    method Close(entered: set<Uuid>, committing: map<Uuid, Answer>, interruptFirst: Uuid -> bool, clock: seq<Time>, last: Time, wall: Time)
      requires Valid() && entered <= jobs.Keys && |jobs| <= |clock| && forall now :: now in clock ==> now <= last
      modifies this, store
      ensures Valid() && stop && tasks == {} && jobs == map[]
      ensures forall at, r :: r in old(jobs) && last <= at ==> !Owned(store.View(), old(jobs)[r], at)
    {
      hide PostgresRunStore.Valid, JobHolds, Owned;
      stop := true;
      ghost var held := jobs;
      var writes := |jobs|;
      LeaveAll(entered, committing, interruptFirst, clock, last, wall);
      var later := clock[writes - |jobs|..];
      assert forall now :: now in later ==> now in clock;
      FenceAll(held, later, last, wall);
      tasks, jobs := {}, map[];
    }

    method LeaveAll(entered: set<Uuid>, committing: map<Uuid, Answer>, interruptFirst: Uuid -> bool, clock: seq<Time>, last: Time, wall: Time)
      requires store.Valid() && entered <= jobs.Keys && |jobs| <= |clock| && forall now :: now in clock ==> now <= last
      modifies `jobs, `tasks, store
      ensures store.Valid() && |jobs| <= |old(jobs)|
      ensures forall r :: r in jobs <==> r in old(jobs) && r !in entered
      ensures forall r :: r in jobs ==> jobs[r] == old(jobs)[r]
      ensures forall at, r :: r in entered && last <= at ==> !Owned(store.View(), old(jobs)[r], at)
    {
      hide PostgresRunStore.Valid, Owned;
      ghost var held := jobs;
      var rest := entered;
      var k := 0;
      while rest != {}
        invariant rest <= entered && jobs.Keys <= held.Keys && store.Valid() && k + |jobs| == |held|
        invariant forall r :: r in held ==> (r in jobs <==> r !in entered || r in rest)
        invariant forall r :: r in jobs ==> jobs[r] == held[r]
        invariant forall at, r :: r in entered && r !in rest && last <= at ==> !Owned(store.View(), held[r], at)
        decreases |rest|
      {
        var r :| r in rest;
        assert clock[k] in clock;
        ghost var present := jobs.Keys;
        Leave(held, r, if r in committing then Some(committing[r]) else None, interruptFirst(r), clock[k], wall);
        assert jobs.Keys == present - {r};
        rest := rest - {r};
        k := k + 1;
      }
    }

    // What one cancelled task still writes before it takes itself off the list.
    method Leave(ghost held: map<Uuid, ClaimedRun>, r: Uuid, committing: Option<Answer>, interruptFirst: bool, now: Time, wall: Time)
      requires store.Valid() && r in held && r in jobs && jobs[r] == held[r]
      modifies `jobs, `tasks, store
      ensures store.Valid() && jobs == old(jobs) - {r} && |jobs| == |old(jobs)| - 1
      ensures forall at :: now <= at ==> !Owned(store.View(), held[r], at)
      ensures forall q, at :: q in held && !Owned(old(store.View()), held[q], at) ==> !Owned(store.View(), held[q], at)
    {
      hide PostgresRunStore.Valid, Owned;
      if committing.None? {
        CloseOne(held, jobs[r], STOPPED, now, wall);
      } else {
        var answer := Ending(Completed, committing, None);
        CloseOne(held, jobs[r], if interruptFirst then STOPPED else answer, now, wall);
        CloseOne(held, jobs[r], if interruptFirst then answer else STOPPED, now, wall);
      }
      MapShrinks(jobs, r);
      tasks, jobs := tasks - {r}, jobs - {r};
    }

    method FenceAll(ghost held: map<Uuid, ClaimedRun>, clock: seq<Time>, last: Time, wall: Time)
      requires store.Valid() && |jobs| <= |clock| && forall now :: now in clock ==> now <= last
      requires forall r :: r in jobs ==> r in held && jobs[r] == held[r]
      modifies store
      ensures store.Valid()
      ensures forall at, r :: r in jobs && last <= at ==> !Owned(store.View(), jobs[r], at)
      ensures forall r, at :: r in held && !Owned(old(store.View()), held[r], at) ==> !Owned(store.View(), held[r], at)
    {
      hide PostgresRunStore.Valid, Owned;
      var rest := jobs;
      var k := 0;
      while rest != map[]
        invariant rest.Keys <= jobs.Keys && store.Valid()
        invariant k + |rest| == |jobs|
        invariant forall r :: r in rest ==> rest[r] == jobs[r]
        invariant forall at, r :: r in jobs && r !in rest && last <= at ==> !Owned(store.View(), jobs[r], at)
        invariant forall r, at :: r in held && !Owned(old(store.View()), held[r], at) ==> !Owned(store.View(), held[r], at)
        decreases |rest|
      {
        var r :| r in rest;
        assert clock[k] in clock;
        CloseOne(held, jobs[r], STOPPED, clock[k], wall);
        MapShrinks(rest, r);
        rest := rest - {r};
        k := k + 1;
      }
    }

    method CloseOne(ghost held: map<Uuid, ClaimedRun>, job: ClaimedRun, wanted: Ending, now: Time, wall: Time)
      requires store.Valid() && job in held.Values && Terminal(wanted.status) && (wanted.result.Some? ==> wanted.status == Completed)
      modifies store
      ensures store.Valid()
      ensures forall at :: now <= at ==> !Owned(store.View(), job, at)
      ensures forall q, at :: q in held && !Owned(old(store.View()), held[q], at) ==> !Owned(store.View(), held[q], at)
    {
      hide PostgresRunStore.Valid;
      Others(held.Values);
      ghost var before := store.View();
      var _ := FinishJob(job, wanted, now, wall);
      forall q, at | q in held && !Owned(before, held[q], at) ensures !Owned(store.View(), held[q], at) {
        FinishTakesNothing(before, job, wanted, now, wall, held[q], at);
      }
    }
  }

  lemma MapShrinks<K, V>(m: map<K, V>, k: K)
    requires k in m
    ensures |m - {k}| == |m| - 1
  {
    assert (m - {k}).Keys == m.Keys - {k};
  }

  // Finishing one job gives nobody ownership.
  lemma FinishTakesNothing(t: Tables, job: ClaimedRun, wanted: Ending, now: Time, wall: Time, other: ClaimedRun, at: Time)
    requires !Owned(t, other, at)
    ensures !Owned(Finish(t, job, wanted, now, wall).0, other, at)
  {
  }

  // The assumption about others is what the protocol guarantees: no action but this job's own
  // heartbeat can extend its lease, and no action gives a lost job back.
  lemma EverythingElseIsElsewhere(y: System, s: Settings, a: Action, job: ClaimedRun)
    requires Invariant(y, s) && Enabled(y, a) && job in y.jobs
    requires a.Beat? ==> a.job != job
    ensures Elsewhere(y.store, Next(y, s, a).store, {job})
  {
    hide Sound, StoreAfter, JobFrom, StepOk, Owned;
    InvariantStep(y, s, a);
    forall at | Owned(Next(y, s, a).store, job, at) ensures Owned(y.store, job, at) {
      LeaseExtendedOnlyByOwner(y, s, a, job, at);
    }
  }
}
