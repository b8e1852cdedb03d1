/**
 The relational tables behind a run journal, as both stores declare them, with the four table
 changes every transaction is built from: add a conversation, admit a run, persist one change of a
 run together with its event, and delete conversations with everything that cascades from them.
 */
module RunTables {
  import opened Runs

  datatype ConvRow = ConvRow(owner: Owner, scope: Scope, payload: Conversation)

  datatype Row = Row(
    conversation: Uuid,
    requestId: Uuid,
    requestHash: Digest<RunRequest>,
    status: RunStatus,
    payload: RunSnapshot,
    extra: Extra)

  datatype Key = Key(run: Uuid, conversation: Uuid)

  // One run's rows in the event table, by sequence.
  type Journal = map<nat, RunEvent>

  // `order` is the insertion order of run rows (rowid, or created_at under the admission lock).
  datatype Tables = Tables(
    convs: map<Uuid, ConvRow>,
    runs: map<Uuid, Row>,
    order: seq<Key>,
    events: map<Uuid, Journal>)

  // ---------------------------------------------------------------- queries

  // SELECT id ... WHERE conversation=c ORDER BY insertion.
  function RunsOf(order: seq<Key>, c: Uuid): seq<Uuid> {
    if order == [] then []
    else
      var last := order[|order| - 1];
      RunsOf(order[..|order| - 1], c) + if last.conversation == c then [last.run] else []
  }

  predicate Owns(t: Tables, owner: Owner, scope: Scope, c: Uuid) {
    c in t.convs && t.convs[c].owner == owner && t.convs[c].scope == scope
  }

  function OwnedBy(t: Tables, owner: Owner): set<Uuid> {
    set c | c in t.convs && t.convs[c].owner == owner
  }

  predicate HasActive(t: Tables, c: Uuid) {
    exists r :: r in t.runs && t.runs[r].conversation == c && !Terminal(t.runs[r].status)
  }

  predicate IsRequest(t: Tables, r: Uuid, request: RunRequest) {
    r in t.runs && t.runs[r].conversation == request.conversationId && t.runs[r].requestId == request.clientRequestId
  }

  predicate HasRequest(t: Tables, request: RunRequest) {
    exists r :: r in t.runs && IsRequest(t, r, request)
  }

  // The row a (conversation, request id) pair already has, if any.
  ghost function Existing(t: Tables, request: RunRequest): Outcome<Option<RunSnapshot>> {
    if exists r :: IsRequest(t, r, request) then
      var r :| IsRequest(t, r, request);
      if t.runs[r].requestHash != Digest(request) then Err(RequestConflict)
      else Ok(Some(t.runs[r].payload))
    else Ok(None)
  }

  function JournalFor(t: Tables, r: Uuid): Journal {
    if r in t.events then t.events[r] else map[]
  }

  // The events with sequence in from+1..upto, ordered by sequence.
  function EventsBetween(journal: Journal, from: nat, upto: nat): seq<RunEvent> {
    if upto <= from then []
    else EventsBetween(journal, from, upto - 1) + if upto in journal then [journal[upto]] else []
  }

  function Selected(m: map<Uuid, Row>, p: Row -> bool): set<Uuid> {
    set k | k in m && p(m[k])
  }

  function Count(m: map<Uuid, Row>, p: Row -> bool): nat {
    |Selected(m, p)|
  }

  function InConversation(c: Uuid): Row -> bool {
    (row: Row) => row.conversation == c
  }

  // ---------------------------------------------------------------- changes

  function AddConversation(t: Tables, row: ConvRow): Tables {
    t.(convs := t.convs[row.payload.conversationId := row])
  }

  function Stamped(run: RunSnapshot, wall: Time): RunSnapshot {
    run.(sequence := run.sequence + 1, updatedAt := wall)
  }

  function EventFor(run: RunSnapshot, kind: EventKind): RunEvent {
    RunEvent(run.runId, run.sequence, kind, run.status, run.progress)
  }

  // One UPDATE of the run row and one INSERT into the event table; without the row the
  // INSERT violates its foreign key and the transaction leaves no trace.
  function Persist(t: Tables, run: RunSnapshot, kind: EventKind, wall: Time): Tables {
    if run.runId !in t.runs then t
    else
      var next := Stamped(run, wall);
      t.(runs := t.runs[run.runId := t.runs[run.runId].(payload := next, status := next.status)],
         events := t.events[run.runId := JournalFor(t, run.runId)[next.sequence := EventFor(next, kind)]])
  }

  function NewRun(request: RunRequest, binding: string, runId: Uuid, wall: Time): RunSnapshot {
    RunSnapshot(runId, request, binding, Queued, 0, wall, None, None, None)
  }

  function Prefix(text: string, n: nat): string {
    if |text| <= n then text else text[..n]
  }

  function Admitted(row: ConvRow, run: RunSnapshot): ConvRow {
    row.(payload := row.payload.(revision := row.payload.revision + 1,
                                 latestRunId := Some(run.runId),
                                 title := Prefix(run.request.question, 80)))
  }

  function NewRow(run: RunSnapshot, extra: Extra): Row {
    Row(run.request.conversationId, run.request.clientRequestId, Digest(run.request), run.status, run, extra)
  }

  function Insert(t: Tables, run: RunSnapshot, extra: Extra): Tables
    requires run.request.conversationId in t.convs
  {
    var c := run.request.conversationId;
    t.(convs := t.convs[c := Admitted(t.convs[c], run)],
       runs := t.runs[run.runId := NewRow(run, extra)],
       order := t.order + [Key(run.runId, c)])
  }

  function Admit(t: Tables, run: RunSnapshot, extra: Extra, wall: Time): Tables
    requires run.request.conversationId in t.convs
  {
    Persist(Insert(t, run, extra), run, Accepted, wall)
  }

  function Surviving(order: seq<Key>, gone: set<Uuid>): seq<Key> {
    if order == [] then []
    else
      var last := order[|order| - 1];
      Surviving(order[..|order| - 1], gone) + if last.conversation in gone then [] else [last]
  }

  // DELETE FROM conversations, with ON DELETE CASCADE to runs and on to events.
  function DropConversations(t: Tables, gone: set<Uuid>): Tables {
    Tables(
      map c | c in t.convs && c !in gone :: t.convs[c],
      map r | r in t.runs && t.runs[r].conversation !in gone :: t.runs[r],
      Surviving(t.order, gone),
      map r | r in t.events && r in t.runs && t.runs[r].conversation !in gone :: t.events[r])
  }

  // ---------------------------------------------------------------- invariant

  ghost predicate RowOk(convs: map<Uuid, ConvRow>, r: Uuid, row: Row) {
    && row.payload.runId == r
    && row.status == row.payload.status
    && row.conversation == row.payload.request.conversationId
    && row.requestId == row.payload.request.clientRequestId
    && row.requestHash == Digest(row.payload.request)
    && row.conversation in convs
    && SequenceInRange(row.status, row.payload.sequence)
  }

  ghost predicate RowsOk(t: Tables) {
    forall r :: r in t.runs ==> RowOk(t.convs, r, t.runs[r])
  }

  // The events of one run are exactly 1..sequence; the last one shows the row, and only it can be terminal.
  ghost predicate JournalOk(journal: Journal, run: RunSnapshot) {
    && (forall k: nat :: k in journal <==> 1 <= k <= run.sequence)
    && (forall k: nat :: k in journal ==>
          && journal[k].runId == run.runId
          && journal[k].sequence == k
          && (k < run.sequence ==> !Terminal(journal[k].status)))
    && 1 <= run.sequence
    && journal[run.sequence].status == run.status
    && journal[run.sequence].progress == run.progress
    && journal[1].kind == Accepted
  }

  ghost predicate JournalsOk(t: Tables) {
    && t.events.Keys == t.runs.Keys
    && forall r :: r in t.runs ==> JournalOk(t.events[r], t.runs[r].payload)
  }

  ghost predicate OrderOk(t: Tables) {
    && (forall i :: 0 <= i < |t.order| ==>
          t.order[i].run in t.runs && t.runs[t.order[i].run].conversation == t.order[i].conversation)
    && (forall i, j :: 0 <= i < j < |t.order| ==> t.order[i].run != t.order[j].run)
    && (forall r :: r in t.runs ==> Key(r, t.runs[r].conversation) in t.order)
  }

  ghost predicate Numbered(ids: seq<Uuid>, c: Uuid, conversation: Conversation) {
    && conversation.conversationId == c
    && conversation.revision == |ids| <= 64
    && conversation.latestRunId == if ids == [] then None else Some(ids[|ids| - 1])
  }

  // The k-th run of a conversation was submitted against revision k.
  ghost predicate Submitted(ids: seq<Uuid>, runs: map<Uuid, Row>) {
    forall k :: 0 <= k < |ids| ==> ids[k] in runs && runs[ids[k]].payload.request.expectedRevision == k
  }

  ghost predicate NumberingOk(t: Tables) {
    forall c :: c in t.convs ==>
      Numbered(RunsOf(t.order, c), c, t.convs[c].payload) && Submitted(RunsOf(t.order, c), t.runs)
  }

  predicate SameRequest(runs: map<Uuid, Row>, r: Uuid, q: Uuid) {
    && r in runs && q in runs
    && runs[r].conversation == runs[q].conversation && runs[r].requestId == runs[q].requestId
  }

  // UNIQUE(conversation, request_id).
  ghost predicate UniqueRequests(t: Tables) {
    forall r, q :: SameRequest(t.runs, r, q) ==> r == q
  }

  // Only the latest run of a conversation can still be active.
  ghost predicate OnlyLatestActive(t: Tables) {
    forall r :: r in t.runs && !Terminal(t.runs[r].status) ==>
      t.runs[r].conversation in t.convs && t.convs[t.runs[r].conversation].payload.latestRunId == Some(r)
  }

  ghost predicate Consistent(t: Tables) {
    RowsOk(t) && JournalsOk(t) && OrderOk(t) && NumberingOk(t) && UniqueRequests(t) && OnlyLatestActive(t)
  }

  // ---------------------------------------------------------------- facts about the queries

  lemma RunsOfMembers(order: seq<Key>, c: Uuid, r: Uuid)
    ensures r in RunsOf(order, c) <==> Key(r, c) in order
  {
    if order != [] {
      var n := |order| - 1;
      RunsOfMembers(order[..n], c, r);
      assert order == order[..n] + [order[n]];
    }
  }

  lemma RunsOfSnoc(order: seq<Key>, key: Key, c: Uuid)
    ensures RunsOf(order + [key], c) == RunsOf(order, c) + if key.conversation == c then [key.run] else []
  {
    assert (order + [key])[..|order|] == order;
  }

  lemma RunsOfSurviving(order: seq<Key>, gone: set<Uuid>, c: Uuid)
    ensures RunsOf(Surviving(order, gone), c) == if c in gone then [] else RunsOf(order, c)
  {
    if order != [] {
      var n := |order| - 1;
      RunsOfSurviving(order[..n], gone, c);
      if order[n].conversation in gone {
        assert Surviving(order, gone) == Surviving(order[..n], gone);
        assert order[n].conversation != c ==> RunsOf(order, c) == RunsOf(order[..n], c);
      } else {
        RunsOfSnoc(Surviving(order[..n], gone), order[n], c);
        assert RunsOf(order, c) == RunsOf(order[..n], c) + if order[n].conversation == c then [order[n].run] else [];
      }
    }
  }

  lemma SurvivingKeeps(order: seq<Key>, gone: set<Uuid>, key: Key)
    ensures key in Surviving(order, gone) <==> key in order && key.conversation !in gone
  {
    if order != [] {
      var n := |order| - 1;
      SurvivingKeeps(order[..n], gone, key);
      assert order == order[..n] + [order[n]];
    }
  }

  lemma SurvivingDistinct(order: seq<Key>, gone: set<Uuid>)
    requires forall i, j :: 0 <= i < j < |order| ==> order[i].run != order[j].run
    ensures forall i, j :: 0 <= i < j < |Surviving(order, gone)| ==>
              Surviving(order, gone)[i].run != Surviving(order, gone)[j].run
  {
    if order != [] {
      var n := |order| - 1;
      SurvivingDistinct(order[..n], gone);
      var rest := Surviving(order[..n], gone);
      forall i | 0 <= i < |rest| ensures rest[i].run != order[n].run {
        SurvivingKeeps(order[..n], gone, rest[i]);
      }
    }
  }

  lemma {:induction false} RunsOfDistinct(order: seq<Key>, c: Uuid)
    requires forall i, j :: 0 <= i < j < |order| ==> order[i].run != order[j].run
    ensures var ids := RunsOf(order, c); |set i | 0 <= i < |ids| :: ids[i]| == |ids|
  {
    var ids := RunsOf(order, c);
    if order != [] {
      var n := |order| - 1;
      RunsOfDistinct(order[..n], c);
      var rest := RunsOf(order[..n], c);
      var before := set i | 0 <= i < |rest| :: rest[i];
      if order[n].conversation == c {
        assert (set i | 0 <= i < |ids| :: ids[i]) == before + {order[n].run} by {
          assert ids == rest + [order[n].run];
          assert ids[|rest|] == order[n].run;
          forall i | 0 <= i < |rest| ensures ids[i] == rest[i] {}
        }
        assert order[n].run !in before by {
          if order[n].run in before {
            RunsOfMembers(order[..n], c, order[n].run);
            assert false;
          }
        }
      } else {
        assert ids == rest;
      }
    }
  }

  // The 64-run limit counted over rows is the same limit on the revision.
  lemma RevisionCounts(t: Tables, c: Uuid)
    requires OrderOk(t) && NumberingOk(t) && c in t.convs
    ensures t.convs[c].payload.revision == Count(t.runs, InConversation(c))
  {
    var ids := RunsOf(t.order, c);
    RunsOfDistinct(t.order, c);
    var drawn := set i | 0 <= i < |ids| :: ids[i];
    forall r ensures r in drawn <==> r in Selected(t.runs, InConversation(c)) {
      RunsOfMembers(t.order, c, r);
    }
    assert drawn == Selected(t.runs, InConversation(c));
    assert Numbered(ids, c, t.convs[c].payload);
  }

  // Existing finds the one row the pair can have.
  lemma ExistingIs(t: Tables, r: Uuid, request: RunRequest)
    requires UniqueRequests(t) && IsRequest(t, r, request)
    ensures Existing(t, request) == if t.runs[r].requestHash != Digest(request) then Err(RequestConflict)
                                    else Ok(Some(t.runs[r].payload))
  {
    forall q | IsRequest(t, q, request) ensures q == r { assert SameRequest(t.runs, q, r); }
  }

  // A conversation never has two questions in progress.
  lemma OneActive(t: Tables, r: Uuid, q: Uuid)
    requires OnlyLatestActive(t)
    requires r in t.runs && q in t.runs && t.runs[r].conversation == t.runs[q].conversation
    requires !Terminal(t.runs[r].status) && !Terminal(t.runs[q].status)
    ensures r == q
  {
  }

  lemma SubsetCardinality<T>(a: set<T>, b: set<T>)
    requires a <= b
    ensures |a| <= |b|
  {
    assert b == a + (b - a);
  }

  lemma CountNoMore(m: map<Uuid, Row>, m': map<Uuid, Row>, p: Row -> bool)
    requires forall k :: k in m' && p(m'[k]) ==> k in m && p(m[k])
    ensures Count(m', p) <= Count(m, p)
  {
    SubsetCardinality(Selected(m', p), Selected(m, p));
  }

  lemma CountOneMore(m: map<Uuid, Row>, m': map<Uuid, Row>, r: Uuid, p: Row -> bool)
    requires forall k :: k in m' && p(m'[k]) && k != r ==> k in m && p(m[k])
    ensures Count(m', p) <= Count(m, p) + 1
  {
    var after := Selected(m', p);
    SubsetCardinality(after - {r}, Selected(m, p));
    SubsetCardinality(after * {r}, {r});
    assert |after - {r}| + |after * {r}| == |after|;
  }

  // ---------------------------------------------------------------- preservation

  lemma NoRunsYet(t: Tables, c: Uuid)
    requires RowsOk(t) && OrderOk(t) && c !in t.convs
    ensures RunsOf(t.order, c) == []
  {
    if RunsOf(t.order, c) != [] {
      var r := RunsOf(t.order, c)[0];
      RunsOfMembers(t.order, c, r);
      assert false;
    }
  }

  lemma AddConversationKeepsNumbering(t: Tables, row: ConvRow)
    requires RowsOk(t) && OrderOk(t) && NumberingOk(t)
    requires row.payload.conversationId !in t.convs
    requires row.payload.revision == 0 && row.payload.latestRunId == None
    ensures NumberingOk(AddConversation(t, row))
  {
    NoRunsYet(t, row.payload.conversationId);
    var t' := AddConversation(t, row);
    forall c | c in t'.convs
      ensures Numbered(RunsOf(t'.order, c), c, t'.convs[c].payload) && Submitted(RunsOf(t'.order, c), t'.runs)
    {
      if c in t.convs {
        assert Numbered(RunsOf(t.order, c), c, t.convs[c].payload) && Submitted(RunsOf(t.order, c), t.runs);
      }
    }
  }

  lemma AddConversationKeepsKeys(t: Tables, row: ConvRow)
    requires RowsOk(t) && OnlyLatestActive(t)
    requires row.payload.conversationId !in t.convs
    ensures RowsOk(AddConversation(t, row)) && OnlyLatestActive(AddConversation(t, row))
  {
  }

  lemma AddConversationKeeps(t: Tables, row: ConvRow)
    requires Consistent(t)
    requires row.payload.conversationId !in t.convs
    requires row.payload.revision == 0 && row.payload.latestRunId == None
    ensures Consistent(AddConversation(t, row))
  {
    AddConversationKeepsNumbering(t, row);
    AddConversationKeepsKeys(t, row);
  }

  // What a committed write of one run keeps, table by table.
  lemma PersistKeepsRows(t: Tables, run: RunSnapshot, kind: EventKind, wall: Time)
    requires RowsOk(t) && run.runId in t.runs
    requires LegalChange(t.runs[run.runId].payload, Stamped(run, wall))
    ensures RowsOk(Persist(t, run, kind, wall))
  {
    LegalChangeKeepsRange(t.runs[run.runId].payload, Stamped(run, wall));
  }

  lemma PersistKeepsJournals(t: Tables, run: RunSnapshot, kind: EventKind, wall: Time)
    requires RowsOk(t) && JournalsOk(t) && run.runId in t.runs
    requires LegalChange(t.runs[run.runId].payload, Stamped(run, wall))
    ensures run.sequence + 1 !in t.events[run.runId]
    ensures JournalsOk(Persist(t, run, kind, wall))
  {
    var t' := Persist(t, run, kind, wall);
    var r := run.runId;
    assert JournalOk(t.events[r], t.runs[r].payload);
    LegalChangeKeepsRange(t.runs[r].payload, Stamped(run, wall));
    assert JournalOk(t'.events[r], t'.runs[r].payload);
  }

  lemma PersistKeepsNumbering(t: Tables, run: RunSnapshot, kind: EventKind, wall: Time)
    requires NumberingOk(t) && run.runId in t.runs && t.runs[run.runId].payload.request == run.request
    ensures NumberingOk(Persist(t, run, kind, wall))
  {
    var t' := Persist(t, run, kind, wall);
    forall c | c in t'.convs ensures Submitted(RunsOf(t.order, c), t'.runs) {
      assert Submitted(RunsOf(t.order, c), t.runs);
    }
  }

  lemma PersistKeepsKeys(t: Tables, run: RunSnapshot, kind: EventKind, wall: Time)
    requires RowsOk(t) && OrderOk(t) && UniqueRequests(t) && OnlyLatestActive(t) && run.runId in t.runs
    requires LegalChange(t.runs[run.runId].payload, Stamped(run, wall))
    ensures var t' := Persist(t, run, kind, wall); OrderOk(t') && UniqueRequests(t') && OnlyLatestActive(t')
  {
    var t' := Persist(t, run, kind, wall);
    assert RowOk(t.convs, run.runId, t.runs[run.runId]);
    forall r, q | SameRequest(t'.runs, r, q) ensures r == q { assert SameRequest(t.runs, r, q); }
  }

  lemma PersistKeeps(t: Tables, run: RunSnapshot, kind: EventKind, wall: Time)
    requires Consistent(t)
    requires run.runId in t.runs
    requires LegalChange(t.runs[run.runId].payload, Stamped(run, wall))
    ensures Consistent(Persist(t, run, kind, wall))
    ensures run.sequence + 1 !in t.events[run.runId]
  {
    PersistKeepsRows(t, run, kind, wall);
    PersistKeepsJournals(t, run, kind, wall);
    PersistKeepsNumbering(t, run, kind, wall);
    PersistKeepsKeys(t, run, kind, wall);
  }

  ghost predicate Admissible(t: Tables, run: RunSnapshot) {
    && run.request.conversationId in t.convs
    && run.runId !in t.runs && run.status == Queued && run.sequence == 0
    && t.convs[run.request.conversationId].payload.revision == run.request.expectedRevision < 64
    && !HasActive(t, run.request.conversationId)
    && forall r :: !IsRequest(t, r, run.request)
  }

  lemma AdmitKeepsNumbering(t: Tables, run: RunSnapshot, extra: Extra, wall: Time)
    requires OrderOk(t) && NumberingOk(t) && Admissible(t, run)
    ensures NumberingOk(Admit(t, run, extra, wall))
  {
    hide Numbered, Submitted, OrderOk;
    var t' := Admit(t, run, extra, wall);
    forall d | d in t'.convs
      ensures Numbered(RunsOf(t'.order, d), d, t'.convs[d].payload) && Submitted(RunsOf(t'.order, d), t'.runs)
    {
      assert Numbered(RunsOf(t.order, d), d, t.convs[d].payload) && Submitted(RunsOf(t.order, d), t.runs);
      AdmitNumbers(t, run, extra, wall, d);
    }
  }

  lemma AdmitNumbers(t: Tables, run: RunSnapshot, extra: Extra, wall: Time, d: Uuid)
    requires Admissible(t, run) && d in t.convs
    requires Numbered(RunsOf(t.order, d), d, t.convs[d].payload) && Submitted(RunsOf(t.order, d), t.runs)
    ensures var t' := Admit(t, run, extra, wall);
            Numbered(RunsOf(t'.order, d), d, t'.convs[d].payload) && Submitted(RunsOf(t'.order, d), t'.runs)
  {
    RunsOfSnoc(t.order, Key(run.runId, run.request.conversationId), d);
  }

  lemma AdmitKeepsOrder(t: Tables, run: RunSnapshot, extra: Extra, wall: Time)
    requires OrderOk(t) && Admissible(t, run)
    ensures OrderOk(Admit(t, run, extra, wall))
  {
    var t' := Admit(t, run, extra, wall);
    forall r | r in t'.runs ensures Key(r, t'.runs[r].conversation) in t'.order {
      if r == run.runId { assert t'.order[|t.order|] == Key(r, t'.runs[r].conversation); }
    }
  }

  lemma AdmitKeepsJournals(t: Tables, run: RunSnapshot, extra: Extra, wall: Time)
    requires JournalsOk(t) && Admissible(t, run)
    ensures JournalsOk(Admit(t, run, extra, wall))
  {
    var t' := Admit(t, run, extra, wall);
    assert JournalFor(t, run.runId) == map[];
    assert JournalOk(t'.events[run.runId], t'.runs[run.runId].payload);
  }

  lemma AdmitKeepsKeys(t: Tables, run: RunSnapshot, extra: Extra, wall: Time)
    requires RowsOk(t) && UniqueRequests(t) && OnlyLatestActive(t) && Admissible(t, run)
    ensures var t' := Admit(t, run, extra, wall); RowsOk(t') && UniqueRequests(t') && OnlyLatestActive(t')
  {
    var t' := Admit(t, run, extra, wall);
    forall r, q | SameRequest(t'.runs, r, q) ensures r == q {
      if r != run.runId && q != run.runId {
        assert SameRequest(t.runs, r, q);
      } else if r != q {
        var other := if r == run.runId then q else r;
        assert IsRequest(t, other, run.request);
      }
    }
  }

  lemma AdmitKeeps(t: Tables, run: RunSnapshot, extra: Extra, wall: Time)
    requires Consistent(t) && Admissible(t, run)
    ensures Consistent(Admit(t, run, extra, wall))
  {
    AdmitKeepsNumbering(t, run, extra, wall);
    AdmitKeepsOrder(t, run, extra, wall);
    AdmitKeepsJournals(t, run, extra, wall);
    AdmitKeepsKeys(t, run, extra, wall);
  }

  lemma DropKeepsNumbering(t: Tables, gone: set<Uuid>)
    requires OrderOk(t) && NumberingOk(t)
    ensures NumberingOk(DropConversations(t, gone))
  {
    var t' := DropConversations(t, gone);
    forall c | c in t'.convs
      ensures Numbered(RunsOf(t'.order, c), c, t'.convs[c].payload) && Submitted(RunsOf(t'.order, c), t'.runs)
    {
      RunsOfSurviving(t.order, gone, c);
      var ids := RunsOf(t.order, c);
      assert Submitted(ids, t.runs);
      forall k | 0 <= k < |ids| ensures ids[k] in t'.runs {
        RunsOfMembers(t.order, c, ids[k]);
      }
    }
  }

  lemma DropKeepsOrder(t: Tables, gone: set<Uuid>)
    requires OrderOk(t)
    ensures OrderOk(DropConversations(t, gone))
  {
    var t' := DropConversations(t, gone);
    SurvivingDistinct(t.order, gone);
    forall i | 0 <= i < |t'.order|
      ensures t'.order[i].run in t'.runs && t'.runs[t'.order[i].run].conversation == t'.order[i].conversation
    {
      SurvivingKeeps(t.order, gone, t'.order[i]);
    }
    forall r | r in t'.runs ensures Key(r, t'.runs[r].conversation) in t'.order {
      SurvivingKeeps(t.order, gone, Key(r, t.runs[r].conversation));
    }
  }

  lemma DropKeepsKeys(t: Tables, gone: set<Uuid>)
    requires RowsOk(t) && JournalsOk(t) && UniqueRequests(t) && OnlyLatestActive(t)
    ensures var t' := DropConversations(t, gone); RowsOk(t') && JournalsOk(t') && UniqueRequests(t') && OnlyLatestActive(t')
  {
    var t' := DropConversations(t, gone);
    assert t'.events.Keys == t'.runs.Keys;
    forall r, q | SameRequest(t'.runs, r, q) ensures r == q { assert SameRequest(t.runs, r, q); }
  }

  lemma DropKeeps(t: Tables, gone: set<Uuid>)
    requires Consistent(t)
    ensures Consistent(DropConversations(t, gone))
  {
    DropKeepsNumbering(t, gone);
    DropKeepsOrder(t, gone);
    DropKeepsKeys(t, gone);
  }

  // ---------------------------------------------------------------- what a later state keeps of a run

  // A run present in both states only moved forward: its identity is fixed, its old events are
  // untouched, a terminal run is frozen, and without a new event nothing visible changed.
  ghost predicate Forward(t: Tables, t': Tables, r: Uuid)
    requires r in t.runs && r in t'.runs
  {
    var before, after := t.runs[r].payload, t'.runs[r].payload;
    && before.request == after.request
    && before.sourceBinding == after.sourceBinding
    && before.sequence <= after.sequence
    && (before.sequence == after.sequence || Terminal(before.status) ==> before == after)
    && Rank(after.status) <= Rank(before.status)
    && (forall k: nat :: k <= before.sequence && k in JournalFor(t, r) ==>
          k in JournalFor(t', r) && JournalFor(t', r)[k] == JournalFor(t, r)[k])
  }

  // One transaction changes each surviving run by at most one legal, measure-decreasing write.
  ghost predicate Step(t: Tables, t': Tables) {
    forall r :: r in t.runs && r in t'.runs ==>
      && Forward(t, t', r)
      && (t'.runs[r].payload != t.runs[r].payload ==> LegalChange(t.runs[r].payload, t'.runs[r].payload))
  }

  lemma PersistForward(t: Tables, run: RunSnapshot, kind: EventKind, wall: Time)
    requires Consistent(t)
    requires run.runId in t.runs
    requires LegalChange(t.runs[run.runId].payload, Stamped(run, wall))
    ensures Step(t, Persist(t, run, kind, wall))
  {
    hide Consistent;
    RunFacts(t, run.runId);
    LegalChangeKeepsRange(t.runs[run.runId].payload, Stamped(run, wall));
  }

  lemma RunFacts(t: Tables, r: Uuid)
    requires Consistent(t) && r in t.runs
    ensures RowOk(t.convs, r, t.runs[r])
    ensures r in t.events && JournalOk(t.events[r], t.runs[r].payload)
  {
    hide OrderOk, NumberingOk, UniqueRequests, OnlyLatestActive;
  }

  // The replay a client asks for is complete and in order.
  lemma {:induction false} ReplayIs(journal: Journal, run: RunSnapshot, from: nat, upto: nat)
    requires JournalOk(journal, run) && from <= upto <= run.sequence
    ensures |EventsBetween(journal, from, upto)| == upto - from
    ensures forall i :: 0 <= i < upto - from ==> EventsBetween(journal, from, upto)[i] == journal[from + 1 + i]
    decreases upto
  {
    if from < upto {
      ReplayIs(journal, run, from, upto - 1);
    }
  }

  // Journal refinement: folding events 1..k shows what was persisted at sequence k, for every k the
  // run ever passed through, seen from any later state.
  lemma FoldShowsPast(t: Tables, t': Tables, r: Uuid, start: Visible)
    requires JournalsOk(t) && JournalsOk(t')
    requires r in t.runs && r in t'.runs && Forward(t, t', r)
    ensures var k := t.runs[r].payload.sequence;
            Fold(start, EventsBetween(t'.events[r], 0, k)) == Shown(t.runs[r].payload)
  {
    var before, after, k := t.runs[r].payload, t'.runs[r].payload, t.runs[r].payload.sequence;
    assert JournalOk(t.events[r], before) && JournalOk(t'.events[r], after);
    ReplayIs(t'.events[r], after, 0, k);
    LastEventKept(t, t', r);
    hide JournalOk, JournalsOk, Forward;
    var replay := EventsBetween(t'.events[r], 0, k);
    assert replay[k - 1] == t'.events[r][k];
  }

  lemma LastEventKept(t: Tables, t': Tables, r: Uuid)
    requires r in t.runs && r in t'.runs && Forward(t, t', r)
    requires r in t.events && r in t'.events && JournalOk(t.events[r], t.runs[r].payload)
    ensures var run, k := t.runs[r].payload, t.runs[r].payload.sequence;
            && 1 <= k && k in t.events[r] && k in t'.events[r]
            && t'.events[r][k].sequence == k && t'.events[r][k].status == run.status && t'.events[r][k].progress == run.progress
  {
    assert t.runs[r].payload.sequence in JournalFor(t, r);
  }

  lemma ForwardTrans(a: Tables, b: Tables, c: Tables, r: Uuid)
    requires r in a.runs && r in b.runs && r in c.runs && Forward(a, b, r) && Forward(b, c, r)
    ensures Forward(a, c, r)
  {
  }

  lemma DropForward(t: Tables, gone: set<Uuid>)
    requires t.events.Keys == t.runs.Keys
    ensures Step(t, DropConversations(t, gone))
  {
  }

  lemma AdmitForward(t: Tables, run: RunSnapshot, extra: Extra, wall: Time)
    requires run.request.conversationId in t.convs && run.runId !in t.runs
    ensures Step(t, Admit(t, run, extra, wall))
  {
  }

  // Deleting in two batches is deleting once.
  lemma DropTwice(t: Tables, a: set<Uuid>, b: set<Uuid>)
    requires t.events.Keys == t.runs.Keys
    ensures DropConversations(DropConversations(t, a), b) == DropConversations(t, a + b)
  {
    var once, twice := DropConversations(t, a + b), DropConversations(DropConversations(t, a), b);
    SurvivingTwice(t.order, a, b);
    assert once.convs == twice.convs && once.runs == twice.runs && once.events == twice.events;
  }

  lemma SurvivingTwice(order: seq<Key>, a: set<Uuid>, b: set<Uuid>)
    ensures Surviving(Surviving(order, a), b) == Surviving(order, a + b)
  {
    if order != [] {
      var n := |order| - 1;
      SurvivingTwice(order[..n], a, b);
      var rest := Surviving(order[..n], a);
      if order[n].conversation in a {
        assert Surviving(order, a) == rest;
        assert Surviving(order, a + b) == Surviving(order[..n], a + b);
      } else {
        assert (rest + [order[n]])[..|rest|] == rest;
      }
    }
  }

  lemma DropNone(t: Tables)
    requires t.events.Keys == t.runs.Keys
    ensures DropConversations(t, {}) == t
  {
    SurvivingAll(t.order);
    var t' := DropConversations(t, {});
    assert t'.convs == t.convs && t'.runs == t.runs && t'.events == t.events;
  }

  lemma SurvivingAll(order: seq<Key>)
    ensures Surviving(order, {}) == order
  {
    if order != [] {
      SurvivingAll(order[..|order| - 1]);
    }
  }
}
