/** A browser session over one selected CSV: uploads, direct answers and durable runs share its state. */
module CsvWorkspaces {
  import opened Runs
  import opened RunTables
  import opened SqliteRuns
  import opened RunStores
  import opened RunCoordinators
  import RunEffects
  import SqliteEffects
  import CoordinatorEffects

  // What `persist` writes; `source` is the fingerprint of the selected CSV, which identifies it.
  datatype Saved = Saved(source: Option<string>, lastResponse: Option<Answer>, history: seq<Uuid>)

  // The closure variables of an accepted run's callbacks.
  datatype Pending = Pending(run: Uuid, source: string, historyBefore: seq<Uuid>)

  // The last answer always belongs to the selected CSV.
  predicate Matches(saved: Saved) {
    && (saved.lastResponse.Some? ==> saved.source == Some(saved.lastResponse.value.source))
    && |saved.history| <= 4
  }

  ghost predicate Waiting(p: Pending, now: Saved, t: Tables, cleanup: set<Uuid>) {
    && p.run in cleanup && p.run in t.runs && t.runs[p.run].payload.sourceBinding == p.source
    && now.source == Some(p.source) && now.lastResponse == None && |p.historyBefore| <= 4
  }

  // At most four saved interpretations; the oldest goes first.
  function Remember(history: seq<Uuid>, key: Uuid): (kept: seq<Uuid>)
    ensures |kept| == (if |history| < 4 then |history| + 1 else 4) && kept[|kept| - 1] == key
    ensures forall i :: 0 <= i < |kept| - 1 ==> kept[i] == history[|history| - |kept| + 1 + i]
  {
    if |history| >= 4 then history[|history| - 3..] + [key] else history + [key]
  }

  class CsvSession {
    const runs: RunCoordinator
    const owner: Owner
    const scope: Scope
    const conversationId: Uuid
    var source: Option<string>
    var lastResponse: Option<Answer>
    var history: seq<Uuid>
    var busy: bool
    var pending: Option<Pending>
    // What the checkpoint table holds for this session.
    var saved: Saved
    ghost var leased: bool

    function Now(): Saved
      reads this
    {
      Saved(source, lastResponse, history)
    }

    ghost predicate Valid()
      reads this, runs, runs.store
    {
      && runs.Valid()
      && (busy <==> leased || pending.Some?)
      && !(leased && pending.Some?)
      && Matches(Now()) && Matches(saved)
      && (pending.Some? ==> Waiting(pending.value, Now(), runs.store.tables, runs.cleanup))
    }

    // A new session starts empty; a restarted process continues from the checkpoint.
    constructor (runs: RunCoordinator, owner: Owner, scope: Scope, conversationId: Uuid, checkpoint: Saved)
      requires runs.Valid() && Matches(checkpoint)
      ensures Valid() && this.runs == runs && Now() == checkpoint && !busy
    {
      hide RunCoordinator.Valid, Waiting;
      this.runs, this.owner, this.scope, this.conversationId := runs, owner, scope, conversationId;
      source, lastResponse, history := checkpoint.source, checkpoint.lastResponse, checkpoint.history;
      busy, pending, leased, saved := false, None, false, checkpoint;
    }

    method Lease() returns (granted: bool)
      requires Valid()
      modifies `busy, `leased
      ensures Valid() && granted == !old(busy) && busy
      ensures leased == (granted || old(leased))
    {
      hide RunCoordinator.Valid, Waiting;
      granted := !busy;
      if granted {
        busy, leased := true, true;
      }
    }

    method EndLease()
      requires Valid() && leased
      modifies `busy, `leased, `saved
      ensures Valid() && !busy && saved == Now()
    {
      hide RunCoordinator.Valid, Waiting;
      busy, leased := false, false;
      saved := Now();
    }

    // `parsed` is None when the upload is rejected; the previous source then stays untouched.
    method Upload(parsed: Option<string>)
      requires Valid() && leased
      modifies `source, `lastResponse
      ensures Valid()
      ensures Now() == if parsed.None? then old(Now()) else Saved(parsed, None, old(history))
    {
      hide RunCoordinator.Valid, Waiting;
      if parsed.Some? {
        source := parsed;
        lastResponse := None;
      }
    }

    // A direct answer, or the replay of a saved question against the CSV it was asked of.
    method Answered(answer: Answer, remembered: Option<Uuid>)
      requires Valid() && leased
      modifies `lastResponse, `history
      ensures Valid()
      ensures remembered.None? ==> history == old(history)
      ensures remembered.Some? ==> history == Remember(old(history), remembered.value)
      ensures lastResponse == if source == Some(answer.source) then Some(answer) else old(lastResponse)
    {
      hide RunCoordinator.Valid, Waiting;
      if remembered.Some? {
        history := Remember(history, remembered.value);
      }
      if source == Some(answer.source) {
        lastResponse := Some(answer);
      }
    }

    // The session is idle, the question is about the selected CSV and its own conversation, and neither the
    // coordinator nor the store has a reason to refuse it.
    ghost predicate Welcome(request: RunRequest, runId: Uuid)
      reads this, runs, runs.store
    {
      && request.conversationId == conversationId && !busy && source.Some? && request.sourceFingerprint == source
      && !runs.closing && |runs.tasks| < runs.maximumActive
      && SqliteEffects.Admits(runs.store.tables, owner, scope, request, runId)
    }

    lemma WelcomeIsAdmitted(request: RunRequest, runId: Uuid, wall: Time)
      requires Valid() && Welcome(request, runId)
      ensures EarlyAnswer(runs.store.tables, request, true, busy, source) == None
      ensures var (t', outcome) := Submission(runs.store.tables, true, owner, scope, request, source.value, runId, wall);
              && RunEffects.AfterAdmission(runs.store.tables, t', request, source.value, Local, runId, wall)
              && outcome == Ok(t'.runs[runId].payload) && t' != runs.store.tables
    {
      hide Consistent, Lifecycle, Waiting, Submission, RunTables.Existing, SqliteEffects.Admits, RunEffects.Unasked;
      CoordinatorEffects.SubmissionEffect(runs.store.tables, true, owner, scope, request, source.value, runId, wall);
      CoordinatorEffects.ExistingIsStored(runs.store.tables, request);
      CoordinatorEffects.AdmitsUnasked(runs.store.tables, owner, scope, request, runId);
    }

    // `resolves` says whether the requested definition snapshot can be used now.
    method SubmitRun(request: RunRequest, resolves: bool, runId: Uuid, wall: Time) returns (outcome: Outcome<RunSnapshot>)
      requires Valid() && runId !in runs.accepted
      modifies this, runs, runs.store`tables
      ensures Valid() && source == old(source) && history == old(history) && leased == old(leased)
      ensures pending == old(pending) ==> lastResponse == old(lastResponse) && runs.cleanup == old(runs.cleanup)
      ensures pending != old(pending) ==>
        && old(!busy) && outcome.Ok? && request.sourceFingerprint == old(source)
        && pending == Some(Pending(runId, outcome.value.sourceBinding, old(history)))
        && runs.cleanup == old(runs.cleanup) + {runId}
      ensures var early := EarlyAnswer(old(runs.store.tables), request, resolves, old(busy), old(source));
              if early.Some? then outcome == early.value && runs.store.tables == old(runs.store.tables) && pending == old(pending)
              else (runs.store.tables, outcome)
                   == Submission(old(runs.store.tables), old(!runs.closing && |runs.tasks| < runs.maximumActive), owner, scope, request, old(source).value, runId, wall)
      ensures old(Welcome(request, runId)) && resolves ==>
        && pending == Some(Pending(runId, old(source).value, old(history))) && busy && lastResponse == None && saved == Now()
        && RunEffects.AfterAdmission(old(runs.store.tables), runs.store.tables, request, old(source).value, Local, runId, wall)
        && outcome == Ok(runs.store.tables.runs[runId].payload)
    {
      hide Waiting, RunCoordinator.Valid, RunTables.Existing, RunStore.Valid, Added, Matches, Owns, SqliteRuns.Enqueue, Submission;
      hide Welcome, RunEffects.AfterAdmission;
      if Welcome(request, runId) { WelcomeIsAdmitted(request, runId, wall); WelcomeIs(request, runId); }
      if request.conversationId != conversationId {
        return Err(ConversationUnavailable);
      }
      var existing := FindExisting(request);
      if existing.Err? {
        return Err(existing.error);
      }
      if existing.value.Some? {
        return Ok(existing.value.value);
      }
      if busy {
        return Err(ActiveQuestion);
      }
      if source.None? || request.sourceFingerprint != source {
        return Err(ConversationChanged);
      }
      if !resolves {
        return Err(AuthorityInvalid);
      }
      outcome := SubmitFresh(request, runId, wall);
    }

    lemma WelcomeIs(request: RunRequest, runId: Uuid)
      requires Welcome(request, runId)
      ensures !busy && source.Some? && request.sourceFingerprint == source && !runs.closing && |runs.tasks| < runs.maximumActive
    {
    }

    // What is answered before the coordinator is asked, in the order of the checks.
    ghost function EarlyAnswer(t: Tables, request: RunRequest, resolves: bool, occupied: bool, selected: Option<string>): (early: Option<Outcome<RunSnapshot>>)
      ensures early.None? ==> selected.Some?
    {
      if request.conversationId != conversationId then Some(Err(ConversationUnavailable))
      else
        match StoredAnswer(t, request)
        case Err(error) => Some(Err(error))
        case Ok(Some(run)) => Some(Ok(run))
        case Ok(None) =>
          if occupied then Some(Err(ActiveQuestion))
          else if selected.None? || request.sourceFingerprint != selected then Some(Err(ConversationChanged))
          else if !resolves then Some(Err(AuthorityInvalid))
          else None
    }

    ghost function StoredAnswer(t: Tables, request: RunRequest): Outcome<Option<RunSnapshot>> {
      if Owns(t, owner, scope, request.conversationId) then RunTables.Existing(t, request) else Err(ConversationUnavailable)
    }

    method FindExisting(request: RunRequest) returns (found: Outcome<Option<RunSnapshot>>)
      requires runs.Valid()
      ensures found == StoredAnswer(runs.store.tables, request)
    {
      hide Lifecycle, Consistent, RunTables.Existing;
      found := runs.store.Existing(owner, scope, request);
    }

    method SubmitFresh(request: RunRequest, runId: Uuid, wall: Time) returns (outcome: Outcome<RunSnapshot>)
      requires Valid() && runId !in runs.accepted && !busy && source.Some? && request.sourceFingerprint == source
      modifies this, runs, runs.store`tables
      ensures Valid() && source == old(source) && history == old(history) && leased == old(leased)
      ensures pending == None ==> lastResponse == old(lastResponse) && runs.cleanup == old(runs.cleanup)
      ensures pending.Some? ==>
        && outcome.Ok? && pending == Some(Pending(runId, outcome.value.sourceBinding, old(history)))
        && pending == Some(Pending(runId, old(source).value, old(history))) && busy && lastResponse == None && saved == Now()
        && runs.cleanup == old(runs.cleanup) + {runId}
      ensures runs.store.tables != old(runs.store.tables) ==> pending.Some?
      ensures (runs.store.tables, outcome)
           == Submission(old(runs.store.tables), old(!runs.closing && |runs.tasks| < runs.maximumActive), owner, scope, request, old(source).value, runId, wall)
    {
      hide RunCoordinator.Valid, Waiting, Submission;
      NotWaiting(runId);
      outcome := runs.Submit(owner, scope, request, source.value, runId, wall);
      if runId in runs.cleanup {
        // accepted()
        pending := Some(Pending(runId, source.value, history));
        busy, lastResponse := true, None;
        saved := Now();
        NowWaiting(pending.value, wall);
      }
    }

    lemma Unfinished(r: Uuid)
      requires runs.Valid() && r in runs.tasks
      ensures r in runs.store.tables.runs && !Terminal(runs.store.tables.runs[r].payload.status)
    {
      hide Consistent;
    }

    lemma NotWaiting(r: Uuid)
      requires runs.Valid() && r !in runs.accepted
      ensures r !in runs.cleanup
    {
      hide Consistent;
    }

    lemma NowWaiting(p: Pending, wall: Time)
      requires source == Some(p.source) && lastResponse == None && |p.historyBefore| <= 4
      requires p.run in runs.cleanup && p.run in runs.store.tables.runs
      requires runs.store.tables.runs[p.run].payload.sourceBinding == p.source
      ensures Waiting(p, Now(), runs.store.tables, runs.cleanup)
    {
    }

    // One coroutine of the coordinator moves: its body starts (no wakeup) or its await ends. `remembered`
    // is what a finished operation adds to the history just before it returns.
    method Advance(r: Uuid, wakeup: Option<Wakeup>, remembered: Option<Uuid>, wall: Time)
      requires Valid() && r in runs.tasks && (wakeup.None? <==> runs.tasks[r] == Created)
      requires wakeup.Some? ==> Possible(runs.tasks[r], wakeup.value)
      requires wakeup.Some? && wakeup.value.Produced? ==> Binds(runs.store.tables, r, wakeup.value.result)
      modifies this, runs, runs.store`tables
      ensures Valid() && source == old(source) && leased == old(leased)
      ensures pending == old(pending) || Released(old(pending), r)
      ensures pending.Some? ==> pending.value.run in runs.cleanup
      ensures r in old(runs.store.tables).runs
      ensures match (if wakeup.None? then Onward(Authorizing) else CourseOf(old(runs.tasks)[r], wakeup.value, runs.closing))
              case Over(ending) =>
                runs.store.tables == SqliteRuns.Finish(old(runs.store.tables), r, ending, wall).0 && runs.tasks == old(runs.tasks) - {r}
              case Onward(phase) =>
                if wakeup.Some? then runs.store.tables == old(runs.store.tables) && runs.tasks == old(runs.tasks)[r := phase]
                else if old(runs.store.tables).runs[r].payload.status == Queued
                then runs.store.tables == SqliteRuns.Start(old(runs.store.tables), r, wall).0 && runs.tasks == old(runs.tasks)[r := phase]
                else runs.store.tables == SqliteRuns.Finish(old(runs.store.tables), r, CANCELLED, wall).0 && runs.tasks == old(runs.tasks) - {r}
      ensures pending == old(pending) ==> lastResponse == old(lastResponse) && busy == old(busy) && saved == old(saved)
      ensures pending == old(pending) ==>
                history == if pending.Some? && pending.value.run == r && wakeup.Some? && wakeup.value.Produced? && remembered.Some?
                           then Remember(old(history), remembered.value) else old(history)
    {
      hide RunCoordinator.Valid, Waiting, Advanced, Returning, Matches, SqliteRuns.Finish, SqliteRuns.Start;
      ghost var before, owed := runs.store.tables, runs.cleanup;
      Unfinished(r);
      if wakeup.None? {
        runs.Enter(r, wall);
      } else {
        runs.Resume(r, wakeup.value, wall);
        if pending.Some? && pending.value.run == r && wakeup.value.Produced? && remembered.Some? {
          Note(remembered.value, before, owed);
        }
      }
      if pending.Some? {
        Settle(before, owed, r);
      }
    }

    method Note(key: Uuid, ghost t: Tables, ghost cleanup: set<Uuid>)
      requires Matches(Now()) && pending.Some? && Waiting(pending.value, Now(), t, cleanup)
      modifies `history
      ensures history == Remember(old(history), key)
      ensures Matches(Now()) && Waiting(pending.value, Now(), t, cleanup)
    {
      hide RunCoordinator.Valid;
      history := Remember(history, key);
    }

    method Settle(ghost t: Tables, ghost owed: set<Uuid>, r: Uuid)
      requires runs.Valid() && Matches(Now()) && Matches(saved) && busy && !leased && pending.Some?
      requires Waiting(pending.value, Now(), t, owed) && Advanced(t, runs.store.tables, r)
      requires runs.cleanup == owed || runs.cleanup == owed - {r}
      requires r in t.runs && !Terminal(t.runs[r].payload.status)
      modifies this
      ensures Valid() && source == old(source) && !leased
      ensures pending == old(pending) || Released(old(pending), r)
      ensures pending == old(pending) ==> lastResponse == old(lastResponse) && busy == old(busy) && saved == old(saved) && history == old(history)
      ensures pending.Some? ==> pending.value.run in runs.cleanup
    {
      hide RunCoordinator.Valid, Matches;
      StillWaiting(pending.value, Now(), t, runs.store.tables, owed, runs.cleanup, r);
      hide Waiting, Advanced;
      if pending.value.run !in runs.cleanup {
        Release();
      }
    }

    // What the `released` callback of the pending run left behind.
    ghost predicate Released(before: Option<Pending>, r: Uuid)
      reads this, runs.store
    {
      && before.Some? && before.value.run == r && pending == None && !busy
      && r in runs.store.tables.runs && saved == Now()
      && var run := runs.store.tables.runs[r].payload;
         if run.status == Completed
         then lastResponse == run.result && run.result.Some? && source == Some(run.result.value.source)
         else lastResponse == None && history == before.value.historyBefore
    }

    method Release()
      requires runs.Valid() && Matches(Now()) && Matches(saved) && busy && !leased && pending.Some?
      requires Returning(pending.value, Now(), runs.store.tables)
      modifies this
      ensures Valid() && source == old(source) && !leased && Released(old(pending), old(pending).value.run)
    {
      hide RunCoordinator.Valid;
      busy := false;
      var run := runs.store.tables.runs[pending.value.run].payload;
      if run.status == Completed {
        lastResponse := run.result;
      } else {
        history := pending.value.historyBefore;
      }
      pending := None;
      saved := Now();
    }

    // Shutdown releases whatever is still pending; its run was interrupted.
    method Shutdown(wall: Time)
      requires Valid() && runs.closing
      requires forall r :: r in runs.tasks ==> runs.tasks[r] == Created
      modifies this, runs, runs.store`tables
      ensures Valid() && pending == None && source == old(source)
      ensures old(pending).Some? ==> Released(old(pending), old(pending).value.run)
      ensures runs.tasks == map[] && runs.cleanup == {} && runs.store.tables.runs.Keys == old(runs.store.tables).runs.Keys
      ensures forall q :: q in old(runs.store.tables).runs ==> runs.store.tables.runs[q] == Recovered(old(runs.store.tables), q, wall)
    {
      hide RunCoordinator.Valid, Waiting, ReleasedOnce, Recovered;
      ghost var before := runs.store.tables;
      if pending.Some? {
        StopsWaiting(pending.value, wall);
      }
      runs.FinishClose(wall);
      if pending.Some? {
        assert runs.store.tables.runs[pending.value.run] == Recovered(before, pending.value.run, wall);
        Release();
      }
    }

    lemma StopsWaiting(p: Pending, wall: Time)
      requires runs.Valid() && Waiting(p, Now(), runs.store.tables, runs.cleanup)
      ensures p.run in runs.store.tables.runs && Recovered(runs.store.tables, p.run, wall).payload.status == Interrupted
      ensures |p.historyBefore| <= 4 && source == Some(p.source) && lastResponse == None
    {
      Filing(runs.store.tables, p.run);
      hide Consistent;
    }
  }

  // The pending run has just been concluded.
  ghost predicate Returning(p: Pending, now: Saved, t: Tables) {
    && p.run in t.runs && now.lastResponse == None && |p.historyBefore| <= 4
    && (t.runs[p.run].payload.status == Completed ==>
          t.runs[p.run].payload.result.Some? && now.source == Some(t.runs[p.run].payload.result.value.source))
  }

  lemma StillWaiting(p: Pending, now: Saved, t: Tables, t': Tables, cleanup: set<Uuid>, cleanup': set<Uuid>, r: Uuid)
    requires Waiting(p, now, t, cleanup) && Advanced(t, t', r)
    requires cleanup' == cleanup || cleanup' == cleanup - {r}
    ensures p.run in cleanup' ==> Waiting(p, now, t', cleanup')
    ensures p.run !in cleanup' ==> p.run == r && (!Terminal(t.runs[r].payload.status) ==> Returning(p, now, t'))
  {
  }
}
