/** Offline retention of internal state: a reviewed preview, and an apply bound to the whole previewed state. */
module Retention {
  import opened Runs
  import opened RunTables
  import opened SqliteRuns

  datatype MaintenanceError = BadCutoff | InvalidState | NotInternal | StateChanged

  // Everything the plan hash covers; insertion order is not part of it.
  datatype Covered = Covered(
    cutoff: Time,
    convs: map<Uuid, ConvRow>,
    runs: map<Uuid, Row>,
    events: map<Uuid, Journal>,
    definitions: map<string, nat>)

  datatype Report = Report(cutoff: Time, conversations: nat, runs: nat, plan: Digest<Covered>)

  datatype Retained = Preview(report: Report) | Applied(report: Report) | Refused(error: MaintenanceError)

  function PlanOf(d: Database, before: Time): Digest<Covered> {
    Digest(Covered(before, d.tables.convs, d.tables.runs, d.tables.events, d.definitions))
  }

  function RunsIn(t: Tables, gone: set<Uuid>): set<Uuid> {
    set r | r in t.runs && t.runs[r].conversation in gone
  }

  predicate Internal(namespace: string) {
    "internal:" <= namespace
  }

  ghost function Refusal(d: Database, before: Time, now: Time): Option<MaintenanceError> {
    if before > now then Some(BadCutoff)
    else if !Validates(d.tables) then Some(InvalidState)
    else if d.checkpoints != map[] || exists n :: n in d.definitions && !Internal(n) then Some(NotInternal)
    else None
  }

  class StateFile {
    var database: Database
    var audit: seq<Report>

    // The maintenance check, conversation by conversation and run by run.
    method Validate() returns (ok: bool)
      ensures ok == Validates(database.tables)
    {
      hide ConversationValidates, RunValidates;
      var t := database.tables;
      if exists r :: r in t.runs && t.runs[r].conversation !in t.convs {
        return false;
      }
      if exists r :: r in t.events && t.events[r] != map[] && r !in t.runs {
        return false;
      }
      ok := ValidateConversations(t);
      if ok {
        ok := ValidateRuns(t);
      }
    }

    static method ValidateConversations(t: Tables) returns (ok: bool)
      ensures ok == forall c :: c in t.convs ==> ConversationValidates(t, c)
    {
      var rest := t.convs.Keys;
      while rest != {}
        invariant rest <= t.convs.Keys
        invariant forall c :: c in t.convs && c !in rest ==> ConversationValidates(t, c)
        decreases |rest|
      {
        var c :| c in rest;
        var conversation, ids := t.convs[c].payload, RunsOf(t.order, c);
        if || conversation.conversationId != c
           || conversation.revision != |ids|
           || (if ids != [] then conversation.latestRunId != Some(ids[|ids| - 1]) else conversation.latestRunId != None)
        {
          return false;
        }
        rest := rest - {c};
      }
      return true;
    }

    static method ValidateRuns(t: Tables) returns (ok: bool)
      ensures ok == forall r :: r in t.runs ==> RunValidates(t, r)
    {
      var rest := t.runs.Keys;
      while rest != {}
        invariant rest <= t.runs.Keys
        invariant forall r :: r in t.runs && r !in rest ==> RunValidates(t, r)
        decreases |rest|
      {
        var r :| r in rest;
        var valid := ValidateRun(t, r);
        if !valid {
          return false;
        }
        rest := rest - {r};
      }
      return true;
    }

    static method ValidateRun(t: Tables, r: Uuid) returns (ok: bool)
      requires r in t.runs
      ensures ok == RunValidates(t, r)
    {
      var row, run, journal := t.runs[r], t.runs[r].payload, JournalFor(t, r);
      if run.runId != r || run.status != row.status || run.request.conversationId != row.conversation {
        return false;
      }
      if (exists k :: k in journal && !(1 <= k <= run.sequence)) || exists k :: 1 <= k <= run.sequence && k !in journal {
        return false;
      }
      if exists k :: k in journal && (journal[k].runId != run.runId || journal[k].sequence != k) {
        return false;
      }
      return run.sequence >= 1 && journal[run.sequence].status == run.status;
    }

    method Select(before: Time, now: Time) returns (refusal: Option<MaintenanceError>, report: Report, candidates: set<Uuid>)
      ensures refusal == Refusal(database, before, now)
      ensures refusal.None? ==> candidates == Candidates(database.tables, before)
      ensures refusal.None? ==>
                report == Report(before, |candidates|, |RunsIn(database.tables, candidates)|, PlanOf(database, before))
    {
      hide Validates;
      report, candidates := Report(before, 0, 0, PlanOf(database, before)), {};
      if before > now {
        return Some(BadCutoff), report, candidates;
      }
      var ok := Validate();
      if !ok {
        return Some(InvalidState), report, candidates;
      }
      if database.checkpoints != map[] || exists n :: n in database.definitions && !Internal(n) {
        return Some(NotInternal), report, candidates;
      }
      var removed;
      candidates, removed := Scan(database.tables, before);
      return None, Report(before, |candidates|, removed, PlanOf(database, before)), candidates;
    }

    static method Scan(t: Tables, before: Time) returns (candidates: set<Uuid>, removed: nat)
      ensures candidates == Candidates(t, before) && removed == |RunsIn(t, candidates)|
    {
      hide Idle;
      candidates, removed := {}, 0;
      var rest := t.convs.Keys;
      assert RunsIn(t, {}) == {};
      while rest != {}
        invariant rest <= t.convs.Keys && candidates !! rest
        invariant candidates == Candidates(t, before) - rest
        invariant removed == |RunsIn(t, candidates)|
        decreases |rest|
      {
        var c :| c in rest;
        rest := rest - {c};
        var idle, runs := Judge(t, c, before);
        if idle {
          RunsInOneMore(t, candidates, c);
          candidates := candidates + {c};
          removed := removed + |runs|;
        }
      }
    }

    static method Judge(t: Tables, c: Uuid, before: Time) returns (idle: bool, runs: set<Uuid>)
      requires c in t.convs
      ensures idle == Idle(t, c, before) && runs == RunsIn(t, {c})
    {
      runs := RunsIn(t, {c});
      var latest, finished := Latest(t, c, runs);
      idle := finished && latest < before;
    }

    // max([conversation.created_at, *(run.updated_at for run in runs)]), and whether every run is terminal.
    static method Latest(t: Tables, c: Uuid, runs: set<Uuid>) returns (latest: Time, finished: bool)
      requires c in t.convs && runs <= t.runs.Keys
      ensures finished == forall r :: r in runs ==> Terminal(t.runs[r].payload.status)
      ensures latest >= t.convs[c].payload.createdAt && forall r :: r in runs ==> latest >= t.runs[r].payload.updatedAt
      ensures latest == t.convs[c].payload.createdAt || exists r :: r in runs && latest == t.runs[r].payload.updatedAt
    {
      latest, finished := t.convs[c].payload.createdAt, true;
      var rest := runs;
      while rest != {}
        invariant rest <= runs
        invariant finished == forall r :: r in runs - rest ==> Terminal(t.runs[r].payload.status)
        invariant latest >= t.convs[c].payload.createdAt && forall r :: r in runs - rest ==> latest >= t.runs[r].payload.updatedAt
        invariant latest == t.convs[c].payload.createdAt || exists r :: r in runs - rest && latest == t.runs[r].payload.updatedAt
        decreases |rest|
      {
        var r :| r in rest;
        finished := finished && Terminal(t.runs[r].payload.status);
        if latest < t.runs[r].payload.updatedAt {
          latest := t.runs[r].payload.updatedAt;
        }
        ghost var seen := runs - rest;
        rest := rest - {r};
        assert runs - rest == seen + {r};
      }
    }

    // Without an expected plan this is read-only; with one it deletes exactly the candidates, if nothing changed.
    method Retain(before: Time, expected: Option<Digest<Covered>>, now: Time) returns (outcome: Retained)
      modifies this
      ensures outcome.Refused? || outcome.Preview? ==> database == old(database) && audit == old(audit)
      ensures outcome.Refused? <==>
        || before > now || !Validates(old(database).tables) || old(database).checkpoints != map[]
        || (exists n :: n in old(database).definitions && !("internal:" <= n))
        || (expected.Some? && expected.value != PlanOf(old(database), before))
      ensures outcome.Preview? ==> expected == None && outcome.report.plan == PlanOf(old(database), before)
      ensures !outcome.Refused? ==>
                && outcome.report.conversations == |Candidates(old(database).tables, before)|
                && outcome.report.runs == |RunsIn(old(database).tables, Candidates(old(database).tables, before))|
      ensures outcome.Applied? ==>
                && expected == Some(PlanOf(old(database), before))
                && database == old(database).(tables := DropConversations(old(database).tables, Candidates(old(database).tables, before)))
                && database == Commit(old(database), Transaction.Retain(before))
                && audit == old(audit) + [outcome.report]
                && Validates(database.tables) && (Consistent(old(database.tables)) ==> Consistent(database.tables))
    {
      hide Validates, DropConversations, Consistent;
      var refusal, report, candidates := Select(before, now);
      if refusal.Some? {
        return Refused(refusal.value);
      }
      if expected.None? {
        return Preview(report);
      }
      if expected.value != report.plan {
        return Refused(StateChanged);
      }
      DropValidates(database.tables, candidates);
      if Consistent(database.tables) { DropKeeps(database.tables, candidates); }
      database := database.(tables := DropConversations(database.tables, candidates));
      audit := audit + [report];
      return Applied(report);
    }
  }

  lemma RunsInOneMore(t: Tables, candidates: set<Uuid>, c: Uuid)
    requires c !in candidates
    ensures |RunsIn(t, candidates + {c})| == |RunsIn(t, candidates)| + |RunsIn(t, {c})|
  {
    assert RunsIn(t, candidates + {c}) == RunsIn(t, candidates) + RunsIn(t, {c});
  }

  // Deleting any set of whole conversations leaves a file that still passes the check.
  lemma DropValidates(t: Tables, gone: set<Uuid>)
    requires Validates(t)
    ensures Validates(DropConversations(t, gone))
  {
    var t' := DropConversations(t, gone);
    forall c | c in t'.convs ensures ConversationValidates(t', c) {
      assert ConversationValidates(t, c);
      RunsOfSurviving(t.order, gone, c);
    }
    forall r | r in t'.runs ensures RunValidates(t', r) {
      assert RunValidates(t, r);
      assert JournalFor(t', r) == JournalFor(t, r);
    }
  }

  // A plan is accepted only over the state it was made for, and removes exactly what its preview showed.
  lemma ApplyIsThePreview(previewed: Database, before: Time, applied: Database, cutoff: Time)
    requires PlanOf(previewed, before) == PlanOf(applied, cutoff)
    ensures cutoff == before && applied.definitions == previewed.definitions
    ensures var t, t' := previewed.tables, applied.tables; t'.convs == t.convs && t'.runs == t.runs && t'.events == t.events
    ensures Candidates(applied.tables, cutoff) == Candidates(previewed.tables, before)
    ensures var after := DropConversations(applied.tables, Candidates(applied.tables, cutoff));
            var expected := DropConversations(previewed.tables, Candidates(previewed.tables, before));
            after.convs == expected.convs && after.runs == expected.runs && after.events == expected.events
  {
    forall c ensures Idle(applied.tables, c, cutoff) == Idle(previewed.tables, c, before) {}
  }

  // Nothing recent, nothing in progress and nothing of another conversation is ever removed.
  lemma RetentionSpares(t: Tables, before: Time, r: Uuid)
    requires r in t.runs && t.runs[r].conversation in t.convs
    requires var c := t.runs[r].conversation;
             || t.convs[c].payload.createdAt >= before
             || exists q :: q in t.runs && t.runs[q].conversation == c
                  && (!Terminal(t.runs[q].payload.status) || t.runs[q].payload.updatedAt >= before)
    ensures var t' := DropConversations(t, Candidates(t, before));
            && r in t'.runs && t'.runs[r] == t.runs[r]
            && JournalFor(t', r) == JournalFor(t, r)
            && t.runs[r].conversation in t'.convs
            && RunsOf(t'.order, t.runs[r].conversation) == RunsOf(t.order, t.runs[r].conversation)
  {
    var c := t.runs[r].conversation;
    assert c !in Candidates(t, before);
    RunsOfSurviving(t.order, Candidates(t, before), c);
  }
}
