/**
 The single-process coordinator on one event loop. A coroutine runs without interruption between two
 awaits, so its life is a sequence of resumptions; what an await ends with is up to the environment.
 */
module RunCoordinators {
  import opened Runs
  import opened RunTables
  import opened SqliteRuns
  import opened RunStores

  // Where the coroutine of one run is suspended. A task that was never entered has run none of its body.
  datatype Phase = Created | Authorizing | Operating | Reauthorizing(result: Answer)

  // How an await ends.
  datatype Wakeup = Returned | Produced(result: Answer) | AgentFailure(code: nat) | Failure | Cancellation

  // How a coroutine goes on when an await ends: suspended in the next one, or over.
  datatype Course = Onward(phase: Phase) | Over(ending: Ending)

  const CANCELLED := Ending(Cancelled, None, None)

  function CourseOf(phase: Phase, wakeup: Wakeup, closing: bool): Course {
    match wakeup
    case Returned => if phase.Reauthorizing? then Over(Ending(Completed, Some(phase.result), None)) else Onward(Operating)
    case Produced(result) => Onward(Reauthorizing(result))
    case AgentFailure(code) => Over(Ending(Failed, None, Some(AgentCode(code))))
    case Failure => Over(Ending(Failed, None, Some(RunFailed)))
    case Cancellation => Over(if closing then Ending(Interrupted, None, Some(WorkerStopped)) else CANCELLED)
  }

  // Only the operation produces an answer, and it never merely returns.
  predicate Possible(phase: Phase, wakeup: Wakeup) {
    phase != Created && (wakeup.Produced? ==> phase.Operating?) && (wakeup.Returned? ==> !phase.Operating?)
  }

  function CourseThrough(phase: Phase, wakeups: seq<Wakeup>, closing: bool): Course
    decreases |wakeups|
  {
    if wakeups == [] then Onward(phase)
    else
      match CourseOf(phase, wakeups[0], closing)
      case Onward(next) => CourseThrough(next, wakeups[1..], closing)
      case Over(ending) => Over(ending)
  }

  ghost predicate AllPossible(phase: Phase, wakeups: seq<Wakeup>, closing: bool)
    decreases |wakeups|
  {
    wakeups == []
    || (Possible(phase, wakeups[0])
        && match CourseOf(phase, wakeups[0], closing)
           case Onward(next) => AllPossible(next, wakeups[1..], closing)
           case Over(_) => |wakeups| == 1)
  }

  // An answer is committed only if authority was granted, the operation produced exactly that answer,
  // and authority was granted once more; anything else ends without one.
  lemma AnswerNeedsBothChecks(wakeups: seq<Wakeup>, closing: bool)
    requires AllPossible(Authorizing, wakeups, closing) && CourseThrough(Authorizing, wakeups, closing).Over?
    ensures var ending := CourseThrough(Authorizing, wakeups, closing).ending;
            && Terminal(ending.status) && (ending.status == Completed <==> ending.result.Some?)
            && (ending.result.Some? <==> |wakeups| == 3 && wakeups[0] == Returned && wakeups[1].Produced? && wakeups[2] == Returned)
            && (ending.result.Some? ==> wakeups[1] == Produced(ending.result.value))
  {
    var rest := wakeups[1..];
    assert CourseThrough(Authorizing, wakeups, closing)
        == match CourseOf(Authorizing, wakeups[0], closing) case Onward(next) => CourseThrough(next, rest, closing) case Over(e) => Over(e);
    if wakeups[0] == Returned && rest != [] {
      var last := rest[1..];
      assert rest[0] == wakeups[1];
      assert CourseThrough(Operating, rest, closing)
          == match CourseOf(Operating, rest[0], closing) case Onward(next) => CourseThrough(next, last, closing) case Over(e) => Over(e);
      if rest[0].Produced? && last != [] {
        assert last[0] == wakeups[2];
        assert AllPossible(Operating, rest, closing) && AllPossible(Reauthorizing(rest[0].result), last, closing);
        assert |last| == 1;
        assert CourseThrough(Reauthorizing(rest[0].result), last, closing) == CourseOf(Reauthorizing(rest[0].result), last[0], closing);
      }
    }
  }

  // One call of a `released` callback, with what the journal said about the run at that moment.
  datatype Release = Release(run: Uuid, status: RunStatus)

  class RunCoordinator {
    const store: RunStore
    const maximumActive: nat
    var tasks: map<Uuid, Phase>
    var cleanup: set<Uuid>
    var closing: bool
    // History: every run ever accepted here, and every release so far.
    ghost var accepted: set<Uuid>
    ghost var releases: seq<Release>

    ghost predicate Valid()
      reads this, store
    {
      && store.Valid()
      && |tasks| <= maximumActive
      && Lifecycle(store.tables, tasks, cleanup, accepted, releases)
    }

    constructor (store: RunStore, maximumActive: nat)
      requires store.Valid()
      ensures Valid() && this.store == store && cleanup == {} && accepted == {} && !closing
    {
      this.store, this.maximumActive := store, maximumActive;
      tasks, cleanup, closing := map[], {}, false;
      accepted, releases := {}, [];
    }

    method Submit(owner: Owner, scope: Scope, request: RunRequest, binding: string, runId: Uuid, wall: Time) returns (outcome: Outcome<RunSnapshot>)
      requires Valid() && runId !in accepted
      modifies this, store`tables
      ensures Valid() && closing == old(closing) && releases == old(releases)
      ensures Untouched(old(store.tables), old(accepted), old(cleanup))
           || (!old(closing) && NewlyAccepted(old(store.tables), old(accepted), old(cleanup), Stamped(NewRun(request, binding, runId, wall), wall)))
      ensures cleanup != old(cleanup) ==> outcome == Ok(Stamped(NewRun(request, binding, runId, wall), wall))
      ensures (store.tables, outcome)
           == Submission(old(store.tables), old(!closing && |tasks| < maximumActive), owner, scope, request, binding, runId, wall)
    {
      hide Consistent, Step, HasActive, Lifecycle, Added, SqliteRuns.Enqueue, RunTables.Existing;
      var existing := store.Existing(owner, scope, request);
      if existing.Err? {
        return Err(existing.error);
      }
      if existing.value.Some? {
        return Ok(existing.value.value);
      }
      if closing || |tasks| >= maximumActive {
        return Err(CapacityOccupied);
      }
      outcome := Accept(owner, scope, request, binding, runId, wall);
    }

    ghost predicate Untouched(before: Tables, accepted': set<Uuid>, cleanup': set<Uuid>)
      reads this, store
    {
      cleanup == cleanup' && accepted == accepted' && store.tables == before
    }

    ghost predicate NewlyAccepted(before: Tables, accepted': set<Uuid>, cleanup': set<Uuid>, run: RunSnapshot)
      reads this, store
    {
      && cleanup == cleanup' + {run.runId}
      && accepted == accepted' + {run.runId}
      && Added(before, store.tables, run)
    }

    method Accept(owner: Owner, scope: Scope, request: RunRequest, binding: string, runId: Uuid, wall: Time) returns (outcome: Outcome<RunSnapshot>)
      requires Valid() && runId !in accepted && !closing && |tasks| < maximumActive
      modifies this, store`tables
      ensures Valid() && closing == old(closing) && releases == old(releases)
      ensures outcome.Err? ==> Untouched(old(store.tables), old(accepted), old(cleanup))
      ensures outcome.Ok? ==> NewlyAccepted(old(store.tables), old(accepted), old(cleanup), Stamped(NewRun(request, binding, runId, wall), wall))
      ensures outcome.Ok? ==> outcome == Ok(Stamped(NewRun(request, binding, runId, wall), wall))
      ensures (store.tables, outcome) == SqliteRuns.Enqueue(old(store.tables), owner, scope, request, binding, runId, wall)
    {
      hide Consistent, Step, Lifecycle, Added, SqliteRuns.Enqueue;
      ghost var before := store.tables;
      AcceptedRow(before, owner, scope, request, binding, runId, wall);
      outcome := store.Enqueue(owner, scope, request, binding, runId, wall);
      if outcome.Ok? {
        AcceptNext(before, store.tables, tasks, cleanup, accepted, releases, outcome.value);
        cleanup := cleanup + {runId};
        tasks := tasks[runId := Created];
        accepted := accepted + {runId};
      }
    }

    // The coroutine's body starts. A run cancelled while it was queued is concluded at once.
    method Enter(r: Uuid, wall: Time)
      requires Valid() && r in tasks && tasks[r] == Created
      modifies this, store`tables
      ensures Valid() && accepted == old(accepted) && closing == old(closing)
      ensures Advanced(old(store.tables), store.tables, r) && Bookkept(old(cleanup), old(releases), r)
      ensures r in old(store.tables).runs
      ensures if old(store.tables).runs[r].payload.status == Queued
              then store.tables == SqliteRuns.Start(old(store.tables), r, wall).0 && tasks == old(tasks)[r := Authorizing]
              else store.tables == SqliteRuns.Finish(old(store.tables), r, CANCELLED, wall).0 && tasks == old(tasks) - {r}
    {
      hide Consistent, Step, Lifecycle, Kept, SqliteRuns.Finish;
      ghost var before := store.tables;
      Filing(before, r);
      LifecycleFacts(before, tasks, cleanup, accepted, releases, r);
      StartedRow(before, r, wall);
      var started := store.Start(r, wall);
      if started == Ok(true) {
        Moves(before, store.tables, tasks, cleanup, accepted, releases, r, Authorizing);
        tasks := tasks[r := Authorizing];
      } else {
        Conclude(r, CANCELLED, wall);
      }
    }

    // Either nothing was released, or exactly `r` was, with the state its row has now.
    ghost predicate Bookkept(cleanup': set<Uuid>, releases': seq<Release>, r: Uuid)
      reads this, store
    {
      || (cleanup == cleanup' && releases == releases')
      || (cleanup == cleanup' - {r} && r in store.tables.runs && releases == releases' + [Release(r, store.tables.runs[r].payload.status)])
    }

    // The await the coroutine is suspended in ends.
    method Resume(r: Uuid, wakeup: Wakeup, wall: Time)
      requires Valid() && r in tasks && Possible(tasks[r], wakeup)
      // An operation is a closure over the source its run is bound to.
      requires wakeup.Produced? ==> Binds(store.tables, r, wakeup.result)
      modifies this, store`tables
      ensures Valid() && accepted == old(accepted) && closing == old(closing)
      ensures Advanced(old(store.tables), store.tables, r) && Bookkept(old(cleanup), old(releases), r)
      ensures match CourseOf(old(tasks)[r], wakeup, closing)
              case Onward(phase) => store.tables == old(store.tables) && tasks == old(tasks)[r := phase] && cleanup == old(cleanup)
              case Over(ending) =>
                && store.tables == SqliteRuns.Finish(old(store.tables), r, ending, wall).0
                && tasks == old(tasks) - {r} && cleanup == old(cleanup) - {r}
    {
      hide Consistent, Lifecycle, Advanced, SqliteRuns.Finish;
      LifecycleFacts(store.tables, tasks, cleanup, accepted, releases, r);
      SameRow(store.tables, r);
      var phase := tasks[r];
      match wakeup {
        case Returned =>
          if phase.Reauthorizing? {
            Conclude(r, Ending(Completed, Some(phase.result), None), wall);
          } else {
            Suspend(r, Operating);
          }
        case Produced(result) =>
          Suspend(r, Reauthorizing(result));
        case AgentFailure(code) =>
          Conclude(r, Ending(Failed, None, Some(AgentCode(code))), wall);
        case Failure =>
          Conclude(r, Ending(Failed, None, Some(RunFailed)), wall);
        case Cancellation =>
          Conclude(r, if closing then Ending(Interrupted, None, Some(WorkerStopped)) else CANCELLED, wall);
      }
    }

    method Suspend(r: Uuid, phase: Phase)
      requires Valid() && r in tasks && tasks[r] != Created && phase != Created
      requires phase.Reauthorizing? ==> Binds(store.tables, r, phase.result)
      modifies `tasks
      ensures Valid() && tasks == old(tasks)[r := phase]
    {
      hide Lifecycle, Consistent;
      LifecycleFacts(store.tables, tasks, cleanup, accepted, releases, r);
      Moves(store.tables, store.tables, tasks, cleanup, accepted, releases, r, phase);
      tasks := tasks[r := phase];
    }

    // The last synchronous stretch: the terminal write, then the callback, with no await in between.
    method Conclude(r: Uuid, wanted: Ending, wall: Time)
      requires Valid() && r in tasks && Terminal(wanted.status)
      requires wanted.result.Some? ==> wanted.status == Completed && Binds(store.tables, r, wanted.result.value)
      requires wanted.status == Completed ==> wanted.result.Some?
      modifies this, store`tables
      ensures Valid() && accepted == old(accepted) && closing == old(closing)
      ensures Advanced(old(store.tables), store.tables, r)
      ensures r in store.tables.runs && cleanup == old(cleanup) - {r}
      ensures releases == old(releases) + [Release(r, store.tables.runs[r].payload.status)]
      ensures store.tables == SqliteRuns.Finish(old(store.tables), r, wanted, wall).0 && tasks == old(tasks) - {r}
    {
      hide Consistent, Step, Lifecycle, Advanced, SqliteRuns.Finish;
      ghost var before := store.tables;
      Filing(before, r);
      LifecycleFacts(before, tasks, cleanup, accepted, releases, r);
      FinishedRow(before, r, wanted, wall);
      var _ := store.Finish(r, wanted, wall);
      Releases(before, store.tables, tasks, cleanup, accepted, releases, r);
      tasks := tasks - {r};
      cleanup := cleanup - {r};
      releases := releases + [Release(r, store.tables.runs[r].payload.status)];
    }

    // Agents report progress while the operation is awaited.
    method Observe(r: Uuid, report: Report, wall: Time) returns (outcome: Outcome<()>)
      requires Valid() && r in tasks && tasks[r].Operating?
      modifies store`tables
      ensures Valid() && Advanced(old(store.tables), store.tables, r)
      ensures (store.tables, outcome) == SqliteRuns.Progress(old(store.tables), r, report, wall)
    {
      hide Consistent, Step, Lifecycle, SqliteRuns.Progress;
      ghost var before := store.tables;
      Filing(before, r);
      LifecycleFacts(before, tasks, cleanup, accepted, releases, r);
      ProgressedRow(before, r, report, wall);
      outcome := store.Progress(r, report, wall);
      Moves(before, store.tables, tasks, cleanup, accepted, releases, r, Operating);
      assert tasks[r := Operating] == tasks;
    }

    // `interrupt` says that a running task is cancelled as well; that wakeup arrives later.
    method Cancel(owner: Owner, scope: Scope, r: Uuid, wall: Time) returns (outcome: Outcome<RunSnapshot>, interrupt: bool)
      requires Valid()
      modifies store`tables
      ensures Valid() && Advanced(old(store.tables), store.tables, r)
      ensures interrupt ==> r in tasks && !tasks[r].Created?
      ensures var (t, asked) := SqliteRuns.Cancel(old(store.tables), owner, scope, r, wall);
              && (store.tables, outcome) == (if asked.Ok? && r !in tasks then SqliteRuns.Finish(t, r, CANCELLED, wall) else (t, asked))
              && (interrupt <==> asked.Ok? && r in tasks && r in old(store.tables).runs && old(store.tables).runs[r].payload.status == Running)
      ensures outcome.Ok? && r !in tasks ==> Terminal(outcome.value.status)
    {
      hide Consistent, Step, Lifecycle, SqliteRuns.Cancel, SqliteRuns.Finish;
      ghost var before := store.tables;
      Filing(before, r);
      LifecycleFacts(before, tasks, cleanup, accepted, releases, r);
      CancelledRow(before, owner, scope, r, wall);
      interrupt := r in tasks && r in store.tables.runs && store.tables.runs[r].payload.status == Running;
      outcome := store.Cancel(owner, scope, r, wall);
      Stays(before, store.tables, tasks, cleanup, accepted, releases, r);
      if outcome.Err? {
        interrupt := false;
      } else if r !in tasks {
        outcome := FinishUnstarted(before, r, wall);
      }
    }

    method FinishUnstarted(ghost before: Tables, r: Uuid, wall: Time) returns (outcome: Outcome<RunSnapshot>)
      requires Valid() && r !in tasks && r in before.runs && r in store.tables.runs && Advanced(before, store.tables, r)
      modifies store`tables
      ensures Valid() && Advanced(before, store.tables, r)
      ensures outcome.Ok? && Terminal(outcome.value.status)
      ensures (store.tables, outcome) == SqliteRuns.Finish(old(store.tables), r, CANCELLED, wall)
    {
      hide Consistent, Step, Lifecycle, Kept, Advanced, SqliteRuns.Finish;
      ghost var between := store.tables;
      Filing(between, r);
      FinishedRow(between, r, CANCELLED, wall);
      outcome := store.Finish(r, CANCELLED, wall);
      Stays(between, store.tables, tasks, cleanup, accepted, releases, r);
      AdvancedOnward(before, between, store.tables, r);
    }

    // Deleting a conversation cannot take a running question with it.
    method Delete(owner: Owner, scope: Scope, c: Uuid) returns (outcome: Outcome<()>)
      requires Valid()
      modifies store`tables
      ensures Valid()
      ensures (store.tables, outcome) == SqliteRuns.Delete(old(store.tables), owner, scope, c)
    {
      hide Consistent, Step, Lifecycle, SqliteRuns.Delete;
      ghost var before := store.tables;
      SparesTasks(before, owner, scope, c, tasks, cleanup, accepted, releases);
      outcome := store.Delete(owner, scope, c);
    }

    // Shutdown, first half: no more admissions, and every task is asked to stop.
    method BeginClose()
      requires Valid()
      modifies `closing
      ensures Valid() && closing
    {
      hide Lifecycle, Consistent;
      closing := true;
    }

    // Shutdown, second half, once every entered task has ended. Tasks cancelled before they were
    // entered never ran their cleanup, so their runs are recovered here and released afterwards.
    method FinishClose(wall: Time)
      requires Valid() && closing
      requires forall r :: r in tasks ==> tasks[r] == Created
      modifies this, store`tables
      ensures Valid() && closing && tasks == map[] && cleanup == {} && accepted == old(accepted)
      ensures Unfinished(store.tables) == {}
      ensures ReleasedOnce(accepted, {}, releases) && old(releases) <= releases
      ensures store.tables.runs.Keys == old(store.tables.runs.Keys)
      ensures forall q :: q in old(store.tables.runs) ==> store.tables.runs[q] == Recovered(old(store.tables), q, wall)
    {
      hide Consistent, ReleasedOnce, Recovered;
      ghost var found := store.tables;
      RecoveredTerminal(found, wall);
      TasksAreRuns(found, tasks, cleanup, accepted, releases);
      store.Recover(wall);
      forall r | r in cleanup ensures Terminal(store.tables.runs[r].payload.status) {
        assert store.tables.runs[r] == Recovered(found, r, wall);
      }
      ReleaseRest();
      tasks, cleanup := map[], {};
    }

    // The whole of it: every task that was entered is driven to its end by what its awaits still end with,
    // the others are recovered, and in the end every run ever accepted has been released exactly once.
    method Close(wakeups: map<Uuid, seq<Wakeup>>, wall: Time)
      requires Valid()
      requires forall r :: r in tasks && tasks[r] != Created ==> r in wakeups && Ends(store.tables, r, tasks[r], wakeups[r])
      modifies this, store`tables
      ensures Valid() && closing && tasks == map[] && cleanup == {} && accepted == old(accepted)
      ensures Unfinished(store.tables) == {}
      ensures ReleasedOnce(accepted, {}, releases) && old(releases) <= releases
      ensures store.tables.runs.Keys == old(store.tables.runs.Keys)
      ensures forall q :: q in old(store.tables.runs) ==>
                store.tables.runs[q] == RowAfterClose(old(store.tables), old(tasks), wakeups, q, wall)
    {
      hide Consistent, ReleasedOnce, Recovered, Ends, Finished, Lifecycle;
      BeginClose();
      ghost var before, started := store.tables, tasks;
      forall q { Filing(before, q); }
      DriveAll(wakeups, wall);
      ghost var between := store.tables;
      FinishClose(wall);
      forall q | q in before.runs ensures store.tables.runs[q] == RowAfterClose(before, started, wakeups, q, wall) {
        ClosedRow(before, between, started, wakeups, q, wall);
      }
    }

    // Each entered task in turn.
    method DriveAll(wakeups: map<Uuid, seq<Wakeup>>, wall: Time)
      requires Valid() && closing
      requires forall r :: r in tasks && tasks[r] != Created ==> r in wakeups && Ends(store.tables, r, tasks[r], wakeups[r])
      modifies this, store`tables
      ensures Valid() && closing && accepted == old(accepted) && old(releases) <= releases
      ensures forall r :: r in tasks ==> tasks[r] == Created
      ensures store.tables.runs.Keys == old(store.tables.runs.Keys)
      ensures forall q :: q in old(store.tables.runs) ==>
                store.tables.runs[q] == RowAfterTasks(old(store.tables), old(tasks), wakeups, q, wall)
    {
      hide Consistent, Lifecycle, ReleasedOnce, Ends, Finished;
      ghost var before, started := store.tables, tasks;
      var rest := set r | r in tasks && tasks[r] != Created;
      while rest != {}
        invariant Valid() && closing && accepted == old(accepted) && old(releases) <= releases
        invariant rest <= tasks.Keys <= started.Keys && forall r :: r in tasks ==> tasks[r] == started[r]
        invariant forall r :: r in tasks ==> (r in rest <==> tasks[r] != Created)
        invariant store.tables.runs.Keys == before.runs.Keys
        invariant forall q :: q in before.runs ==>
          store.tables.runs[q] == if q in tasks then before.runs[q] else RowAfterTasks(before, started, wakeups, q, wall)
        decreases |rest|
      {
        var r :| r in rest;
        LifecycleFacts(store.tables, tasks, cleanup, accepted, releases, r);
        DriveOne(before, started, r, wakeups, wall);
        rest := rest - {r};
      }
    }

    method DriveOne(ghost before: Tables, ghost started: map<Uuid, Phase>, r: Uuid, wakeups: map<Uuid, seq<Wakeup>>, wall: Time)
      requires Valid() && closing && r in tasks && tasks[r] != Created && r in started && started[r] == tasks[r]
      requires r in wakeups && r in before.runs && Ends(before, r, tasks[r], wakeups[r])
      requires r in store.tables.runs && store.tables.runs[r] == before.runs[r]
      modifies this, store`tables
      ensures Valid() && closing && accepted == old(accepted) && old(releases) <= releases && tasks == old(tasks) - {r}
      ensures store.tables.runs.Keys == old(store.tables.runs.Keys)
      ensures store.tables.runs[r] == RowAfterTasks(before, started, wakeups, r, wall)
      ensures forall q :: q in old(store.tables.runs) && q != r ==> store.tables.runs[q] == old(store.tables.runs)[q]
    {
      hide Consistent, Lifecycle, ReleasedOnce, CourseThrough, AllPossible, SqliteRuns.Finish;
      ghost var found := store.tables;
      Filing(found, r);
      SameEnds(before, found, r, tasks[r], wakeups[r]);
      FinishesAlike(before, found, r, CourseThrough(tasks[r], wakeups[r], true).ending, wall);
      Drive(r, wakeups[r], wall);
    }

    // One entered task, to its end.
    method Drive(r: Uuid, wakeups: seq<Wakeup>, wall: Time)
      requires Valid() && closing && r in tasks && tasks[r] != Created && Ends(store.tables, r, tasks[r], wakeups)
      modifies this, store`tables
      ensures Valid() && closing && accepted == old(accepted) && old(releases) <= releases && tasks == old(tasks) - {r}
      ensures Kept(old(store.tables), store.tables, r)
      ensures store.tables == SqliteRuns.Finish(old(store.tables), r, CourseThrough(old(tasks)[r], wakeups, true).ending, wall).0
      decreases |wakeups|
    {
      hide Consistent, Lifecycle, ReleasedOnce, SqliteRuns.Finish, Ends, CourseThrough;
      EndsNext(store.tables, r, tasks[r], wakeups);
      Resume(r, wakeups[0], wall);
      if r in tasks {
        Drive(r, wakeups[1..], wall);
      }
    }

    method ReleaseRest()
      requires ReleasedOnce(accepted, cleanup, releases)
      requires forall r :: r in cleanup ==> r in store.tables.runs && Terminal(store.tables.runs[r].payload.status)
      modifies `releases
      ensures ReleasedOnce(accepted, {}, releases) && old(releases) <= releases
    {
      hide ReleasedOnce;
      var rest := cleanup;
      while rest != {}
        invariant rest <= cleanup && ReleasedOnce(accepted, rest, releases) && old(releases) <= releases
        decreases |rest|
      {
        var r :| r in rest;
        var status := store.tables.runs[r].payload.status;
        ReleaseNext(accepted, rest, releases, Release(r, status));
        releases := releases + [Release(r, status)];
        rest := rest - {r};
      }
    }
  }

  // What the awaits of an entered task end with leads it to its end; its operation is bound to the source.
  ghost predicate Ends(t: Tables, r: Uuid, phase: Phase, wakeups: seq<Wakeup>) {
    && AllPossible(phase, wakeups, true) && CourseThrough(phase, wakeups, true).Over?
    && forall i :: 0 <= i < |wakeups| && wakeups[i].Produced? ==> Binds(t, r, wakeups[i].result)
  }

  function Finished(t: Tables, r: Uuid, phase: Phase, wakeups: seq<Wakeup>, wall: Time): Row
    requires r in t.runs
  {
    var course := CourseThrough(phase, wakeups, true);
    var t' := if course.Over? then SqliteRuns.Finish(t, r, course.ending, wall).0 else t;
    if r in t'.runs then t'.runs[r] else t.runs[r]
  }

  // Its row once the entered tasks have ended, and once shutdown is complete.
  function RowAfterTasks(t: Tables, tasks: map<Uuid, Phase>, wakeups: map<Uuid, seq<Wakeup>>, r: Uuid, wall: Time): Row
    requires r in t.runs
  {
    if r in tasks && tasks[r] != Created && r in wakeups then Finished(t, r, tasks[r], wakeups[r], wall) else t.runs[r]
  }

  function RowAfterClose(t: Tables, tasks: map<Uuid, Phase>, wakeups: map<Uuid, seq<Wakeup>>, r: Uuid, wall: Time): Row
    requires r in t.runs
  {
    if r in tasks && tasks[r] != Created && r in wakeups then Finished(t, r, tasks[r], wakeups[r], wall) else Recovered(t, r, wall)
  }

  lemma SameEnds(t: Tables, t': Tables, r: Uuid, phase: Phase, wakeups: seq<Wakeup>)
    requires r in t.runs && r in t'.runs && t.runs[r] == t'.runs[r] && Ends(t, r, phase, wakeups)
    ensures Ends(t', r, phase, wakeups)
  {
  }

  // One await less.
  lemma EndsNext(t: Tables, r: Uuid, phase: Phase, wakeups: seq<Wakeup>)
    requires Ends(t, r, phase, wakeups)
    ensures wakeups != [] && Possible(phase, wakeups[0]) && (wakeups[0].Produced? ==> Binds(t, r, wakeups[0].result))
    ensures match CourseOf(phase, wakeups[0], true)
            case Over(ending) => CourseThrough(phase, wakeups, true) == Over(ending)
            case Onward(next) =>
              next != Created && Ends(t, r, next, wakeups[1..])
              && CourseThrough(phase, wakeups, true) == CourseThrough(next, wakeups[1..], true)
  {
  }

  lemma {:induction false} EndsTerminal(phase: Phase, wakeups: seq<Wakeup>)
    requires CourseThrough(phase, wakeups, true).Over?
    ensures Terminal(CourseThrough(phase, wakeups, true).ending.status)
    decreases |wakeups|
  {
    match CourseOf(phase, wakeups[0], true)
    case Over(_) =>
    case Onward(next) => EndsTerminal(next, wakeups[1..]);
  }

  // Recovery finds nothing left to do for a task that was driven to its end.
  lemma ClosedRow(t: Tables, between: Tables, tasks: map<Uuid, Phase>, wakeups: map<Uuid, seq<Wakeup>>, r: Uuid, wall: Time)
    requires r in t.runs && Filed(t, r) && r in between.runs && between.runs[r] == RowAfterTasks(t, tasks, wakeups, r, wall)
    requires r in tasks && tasks[r] != Created ==> r in wakeups && Ends(t, r, tasks[r], wakeups[r])
    ensures Recovered(between, r, wall) == RowAfterClose(t, tasks, wakeups, r, wall)
  {
    hide CourseThrough, AllPossible;
    if r in tasks && tasks[r] != Created {
      EndsTerminal(tasks[r], wakeups[r]);
    }
  }

  // A terminal write of one run depends on its own row only.
  lemma FinishesAlike(t: Tables, t': Tables, r: Uuid, wanted: Ending, wall: Time)
    requires r in t.runs && r in t'.runs && t.runs[r] == t'.runs[r] && t.runs[r].payload.runId == r
    ensures r in SqliteRuns.Finish(t, r, wanted, wall).0.runs && r in SqliteRuns.Finish(t', r, wanted, wall).0.runs
    ensures SqliteRuns.Finish(t, r, wanted, wall).0.runs[r] == SqliteRuns.Finish(t', r, wanted, wall).0.runs[r]
  {
  }

  // An identical request is answered from the journal even when no new run could be accepted.
  ghost function Submission(t: Tables, open: bool, owner: Owner, scope: Scope, request: RunRequest, binding: string, runId: Uuid, wall: Time): (Tables, Outcome<RunSnapshot>) {
    if !Owns(t, owner, scope, request.conversationId) then (t, Err(ConversationUnavailable))
    else
      match RunTables.Existing(t, request)
      case Err(error) => (t, Err(error))
      case Ok(Some(run)) => (t, Ok(run))
      case Ok(None) => if open then SqliteRuns.Enqueue(t, owner, scope, request, binding, runId, wall) else (t, Err(CapacityOccupied))
  }

  // ---------------------------------------------------------------- the life of a run

  // A started task's run has left the queue; no run is terminal while its task is alive.
  predicate Agrees(phase: Phase, run: RunSnapshot) {
    && !Terminal(run.status)
    && (phase.Created? ==> run.status != Running)
    && (!phase.Created? ==> run.status != Queued)
    && (phase.Reauthorizing? ==> phase.result.source == run.sourceBinding)
  }

  predicate Binds(t: Tables, r: Uuid, result: Answer) {
    r in t.runs && result.source == t.runs[r].payload.sourceBinding
  }

  // Accepted runs are either still to be released or were released exactly once, in a terminal state.
  ghost predicate ReleasedOnce(accepted: set<Uuid>, cleanup: set<Uuid>, releases: seq<Release>) {
    && (forall r :: r in accepted <==> r in cleanup || WasReleased(releases, r))
    && (forall i :: 0 <= i < |releases| ==> releases[i].run !in cleanup && Terminal(releases[i].status))
    && (forall i, j :: 0 <= i < j < |releases| ==> releases[i].run != releases[j].run)
  }

  ghost predicate WasReleased(releases: seq<Release>, r: Uuid) {
    exists i :: 0 <= i < |releases| && releases[i].run == r
  }

  ghost predicate Lifecycle(t: Tables, tasks: map<Uuid, Phase>, cleanup: set<Uuid>, accepted: set<Uuid>, releases: seq<Release>) {
    && tasks.Keys == cleanup
    && (forall r :: r in tasks ==> r in t.runs && Agrees(tasks[r], t.runs[r].payload))
    && ReleasedOnce(accepted, cleanup, releases)
  }

  // A transaction on one run leaves every other run and every conversation alone.
  ghost predicate Kept(t: Tables, t': Tables, r: Uuid) {
    && t'.convs == t.convs
    && t'.runs.Keys == t.runs.Keys
    && (forall q :: q in t.runs && q != r ==> t'.runs[q] == t.runs[q])
    && (r in t.runs ==>
          && t'.runs[r].payload.request == t.runs[r].payload.request
          && t'.runs[r].payload.sourceBinding == t.runs[r].payload.sourceBinding)
  }

  // Whoever completed the run, its answer was computed from the source it was bound to.
  ghost predicate Advanced(t: Tables, t': Tables, r: Uuid) {
    && Kept(t, t', r)
    && (r in t.runs && !Terminal(t.runs[r].payload.status) && t'.runs[r].payload.status == Completed ==>
          t'.runs[r].payload.result.Some? && Binds(t', r, t'.runs[r].payload.result.value))
  }

  // What a committed admission leaves behind.
  ghost predicate Added(t: Tables, t': Tables, run: RunSnapshot) {
    && run.runId !in t.runs
    && t'.runs.Keys == t.runs.Keys + {run.runId}
    && t'.runs[run.runId].payload == run
    && forall q :: q in t.runs ==> t'.runs[q] == t.runs[q]
  }

  lemma LifecycleFacts(t: Tables, tasks: map<Uuid, Phase>, cleanup: set<Uuid>, accepted: set<Uuid>, releases: seq<Release>, r: Uuid)
    requires Lifecycle(t, tasks, cleanup, accepted, releases)
    ensures r in tasks <==> r in cleanup
    ensures r in tasks ==> r in t.runs && Agrees(tasks[r], t.runs[r].payload)
  {
  }

  lemma SameRow(t: Tables, r: Uuid)
    requires r in t.runs && !Terminal(t.runs[r].payload.status)
    ensures Advanced(t, t, r)
  {
  }

  lemma AdvancedOnward(t: Tables, t': Tables, t'': Tables, r: Uuid)
    requires r in t.runs && Advanced(t, t', r) && Advanced(t', t'', r)
    requires Terminal(t'.runs[r].payload.status) ==> t'' == t'
    ensures Advanced(t, t'', r)
  {
  }

  lemma TasksAreRuns(t: Tables, tasks: map<Uuid, Phase>, cleanup: set<Uuid>, accepted: set<Uuid>, releases: seq<Release>)
    requires Lifecycle(t, tasks, cleanup, accepted, releases)
    ensures cleanup <= t.runs.Keys && ReleasedOnce(accepted, cleanup, releases)
  {
  }

  lemma AcceptNext(t: Tables, t': Tables, tasks: map<Uuid, Phase>, cleanup: set<Uuid>, accepted: set<Uuid>, releases: seq<Release>, run: RunSnapshot)
    requires Lifecycle(t, tasks, cleanup, accepted, releases)
    requires Added(t, t', run) && run.status == Queued && run.runId !in accepted
    ensures Lifecycle(t', tasks[run.runId := Created], cleanup + {run.runId}, accepted + {run.runId}, releases)
    ensures |tasks[run.runId := Created]| == |tasks| + 1
  {
    hide ReleasedOnce;
    assert tasks[run.runId := Created].Keys == tasks.Keys + {run.runId};
    StillToRelease(accepted, cleanup, releases, run.runId);
  }

  lemma StillToRelease(accepted: set<Uuid>, cleanup: set<Uuid>, releases: seq<Release>, r: Uuid)
    requires ReleasedOnce(accepted, cleanup, releases) && r !in accepted
    ensures ReleasedOnce(accepted + {r}, cleanup + {r}, releases)
  {
    if i :| 0 <= i < |releases| && releases[i].run == r {
      assert WasReleased(releases, r);
    }
  }

  lemma Moves(t: Tables, t': Tables, tasks: map<Uuid, Phase>, cleanup: set<Uuid>, accepted: set<Uuid>, releases: seq<Release>, r: Uuid, phase: Phase)
    requires Lifecycle(t, tasks, cleanup, accepted, releases) && r in tasks
    requires (t' == t || Kept(t, t', r)) && Agrees(phase, t'.runs[r].payload)
    ensures Lifecycle(t', tasks[r := phase], cleanup, accepted, releases)
    ensures |tasks[r := phase]| == |tasks|
  {
    hide ReleasedOnce;
    assert tasks[r := phase].Keys == tasks.Keys;
  }

  lemma Stays(t: Tables, t': Tables, tasks: map<Uuid, Phase>, cleanup: set<Uuid>, accepted: set<Uuid>, releases: seq<Release>, r: Uuid)
    requires Lifecycle(t, tasks, cleanup, accepted, releases)
    requires Kept(t, t', r) && (r in tasks ==> Agrees(tasks[r], t'.runs[r].payload))
    ensures Lifecycle(t', tasks, cleanup, accepted, releases)
  {
    hide ReleasedOnce;
  }

  lemma Releases(t: Tables, t': Tables, tasks: map<Uuid, Phase>, cleanup: set<Uuid>, accepted: set<Uuid>, releases: seq<Release>, r: Uuid)
    requires Lifecycle(t, tasks, cleanup, accepted, releases) && r in tasks
    requires Kept(t, t', r) && Terminal(t'.runs[r].payload.status)
    ensures Lifecycle(t', tasks - {r}, cleanup - {r}, accepted, releases + [Release(r, t'.runs[r].payload.status)])
    ensures |tasks - {r}| == |tasks| - 1
  {
    assert (tasks - {r}).Keys == tasks.Keys - {r};
    ReleaseNext(accepted, cleanup, releases, Release(r, t'.runs[r].payload.status));
    hide ReleasedOnce;
  }

  lemma ReleaseNext(accepted: set<Uuid>, cleanup: set<Uuid>, releases: seq<Release>, next: Release)
    requires ReleasedOnce(accepted, cleanup, releases) && next.run in cleanup && Terminal(next.status)
    ensures ReleasedOnce(accepted, cleanup - {next.run}, releases + [next])
  {
    var releases' := releases + [next];
    assert WasReleased(releases', next.run) by { assert releases'[|releases|] == next; }
    forall r ensures WasReleased(releases', r) <==> r == next.run || WasReleased(releases, r) {
      if WasReleased(releases, r) {
        var i :| 0 <= i < |releases| && releases[i].run == r;
        assert releases'[i].run == r;
      }
    }
  }

  lemma SparesTasks(t: Tables, owner: Owner, scope: Scope, c: Uuid, tasks: map<Uuid, Phase>, cleanup: set<Uuid>, accepted: set<Uuid>, releases: seq<Release>)
    requires Lifecycle(t, tasks, cleanup, accepted, releases) && Consistent(t)
    ensures Lifecycle(SqliteRuns.Delete(t, owner, scope, c).0, tasks, cleanup, accepted, releases)
  {
    hide Consistent, ReleasedOnce, Owns;
    var t' := SqliteRuns.Delete(t, owner, scope, c).0;
    forall r | r in tasks ensures r in t'.runs && t'.runs[r] == t.runs[r] {
      Filing(t, r);
      DeleteSpares(t, owner, scope, c, r);
    }
    hide SqliteRuns.Delete;
  }

  lemma DeleteSpares(t: Tables, owner: Owner, scope: Scope, c: Uuid, r: Uuid)
    requires r in t.runs && !Terminal(t.runs[r].status)
    ensures var t' := SqliteRuns.Delete(t, owner, scope, c).0; r in t'.runs && t'.runs[r] == t.runs[r]
  {
    hide Owns;
  }

  lemma RecoveredTerminal(t: Tables, wall: Time)
    requires Consistent(t)
    ensures forall r :: r in t.runs ==> Terminal(Recovered(t, r, wall).payload.status)
  {
    forall r | r in t.runs ensures Terminal(Recovered(t, r, wall).payload.status) { IdMatches(t, r); }
  }

  // ---------------------------------------------------------------- what one transaction does to its row

  lemma AcceptedRow(t: Tables, owner: Owner, scope: Scope, request: RunRequest, binding: string, runId: Uuid, wall: Time)
    ensures var (t', outcome) := SqliteRuns.Enqueue(t, owner, scope, request, binding, runId, wall);
            && (outcome.Err? ==> t' == t)
            && (outcome.Ok? ==>
                  && runId in t'.runs && Added(t, t', t'.runs[runId].payload)
                  && outcome.value == t'.runs[runId].payload
                  && outcome.value == Stamped(NewRun(request, binding, runId, wall), wall))
  {
    hide Count, HasActive, Owns, HasRequest;
  }

  // What the row's own columns say, so that a write finds it.
  predicate Filed(t: Tables, r: Uuid) {
    r in t.runs ==> t.runs[r].payload.runId == r && t.runs[r].payload.status == t.runs[r].status
  }

  lemma Filing(t: Tables, r: Uuid)
    requires Consistent(t)
    ensures Filed(t, r)
  {
    IdMatches(t, r);
  }

  lemma StartedRow(t: Tables, r: Uuid, wall: Time)
    requires Filed(t, r) && r in t.runs
    ensures var (t', outcome) := SqliteRuns.Start(t, r, wall);
            && Advanced(t, t', r) && outcome.Ok?
            && (outcome.value ==> t'.runs[r].payload.status == Running)
            && (!outcome.value ==> t' == t)
  {
  }

  lemma ProgressedRow(t: Tables, r: Uuid, report: Report, wall: Time)
    requires Filed(t, r) && r in t.runs
    ensures var t' := SqliteRuns.Progress(t, r, report, wall).0;
            Advanced(t, t', r) && t'.runs[r].payload.status == t.runs[r].payload.status
  {
  }

  lemma CancelledRow(t: Tables, owner: Owner, scope: Scope, r: Uuid, wall: Time)
    requires Filed(t, r)
    ensures var (t', outcome) := SqliteRuns.Cancel(t, owner, scope, r, wall);
            && Advanced(t, t', r)
            && (outcome.Ok? ==> r in t.runs)
            && (r in t.runs && t'.runs[r].payload.status != t.runs[r].payload.status ==>
                  !Terminal(t.runs[r].payload.status) && t'.runs[r].payload.status == CancellationRequested)
  {
    hide Owns;
  }

  lemma FinishedRow(t: Tables, r: Uuid, wanted: Ending, wall: Time)
    requires Filed(t, r) && r in t.runs && Terminal(wanted.status)
    requires wanted.result.Some? ==> wanted.status == Completed && Binds(t, r, wanted.result.value)
    requires wanted.status == Completed ==> wanted.result.Some?
    ensures var (t', outcome) := SqliteRuns.Finish(t, r, wanted, wall);
            && Advanced(t, t', r) && Terminal(t'.runs[r].payload.status)
            && outcome.Ok? && outcome.value == t'.runs[r].payload
            && (Terminal(t.runs[r].payload.status) ==> t' == t)
  {
  }
}
