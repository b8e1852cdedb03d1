/**
 A watch over a run of either store, from the transactions the server reads in to what the caller is
 shown. Left to the environment are refusals, disconnections, the cutting into chunks, deletion of the
 run, and every other transaction in between.
 */
module WatchedStores {
  import opened Runs
  import opened RunTables
  import opened EventReplay
  import opened RunWatch
  import PostgresRuns
  import RunProtocol
  import SqliteRuns

  // The committed states of a store, as far as one run is concerned: consistent, and while the run
  // exists it only moves forward.
  ghost predicate Chronicle(states: seq<Tables>, r: Uuid) {
    && (forall i :: 0 <= i < |states| ==> Consistent(states[i]))
    && (forall i, j :: 0 <= i <= j < |states| && r in states[i].runs && r in states[j].runs ==> Forward(states[i], states[j], r))
  }

  predicate HasRun(states: seq<Tables>, r: Uuid, i: nat) {
    i < |states| && r in states[i].runs
  }

  // The last state that still has the run.
  ghost predicate LastSeen(states: seq<Tables>, r: Uuid, last: nat) {
    HasRun(states, r, last) && forall i :: 0 <= i < |states| && HasRun(states, r, i) ==> i <= last
  }

  function Stored(states: seq<Tables>, r: Uuid, i: nat): RunSnapshot
    requires HasRun(states, r, i)
  {
    states[i].runs[r].payload
  }

  // The events table of the run, read in one state.
  function JournalAt(states: seq<Tables>, r: Uuid, i: nat): seq<RunEvent>
    requires HasRun(states, r, i)
  {
    EventsBetween(JournalFor(states[i], r), 0, Stored(states, r, i).sequence)
  }

  // ---------------------------------------------------------------- what the server reads

  // One turn of the server's loop: it reads the run's row in one state and selects its events in a later
  // one; authority is tested after the first read and before each event.
  datatype Sight = Sight(row: nat, events: nat, allowed: bool, authorized: nat)

  // The turns of a response, in order, between two states. (Between its two reads a turn reads the row
  // once more; if the run is gone by then the response ends, one more place where it can be cut.)
  ghost predicate InOrder(sights: seq<Sight>, from: nat, upto: nat)
    decreases |sights|
  {
    sights == []
    || (from <= sights[0].row <= sights[0].events <= upto && InOrder(sights[1..], sights[0].events, upto))
  }

  // The events with a sequence above the cursor; none if the run has been deleted.
  function SelectAt(states: seq<Tables>, r: Uuid, i: nat, after: nat): seq<RunEvent> {
    if HasRun(states, r, i) then EventsBetween(JournalFor(states[i], r), after, Stored(states, r, i).sequence) else []
  }

  function TurnAt(states: seq<Tables>, r: Uuid, s: Sight, after: nat): Turn {
    if HasRun(states, r, s.row) && s.allowed then
      var run := Stored(states, r, s.row);
      Turn(true, run.sequence, Terminal(run.status), SelectAt(states, r, s.events, after), s.authorized)
    else Turn(false, 0, false, [], 0)
  }

  function Turns(states: seq<Tables>, r: Uuid, sights: seq<Sight>, after: nat): seq<Turn>
    decreases |sights|
  {
    if sights == [] then []
    else
      var turn := TurnAt(states, r, sights[0], after);
      [turn] + Turns(states, r, sights[1..], after + |turn.events|)
  }

  // What the server did for one attempt: the turns it took before the client asked for its snapshot, and
  // the state that snapshot was read in.
  datatype Visit = Visit(sights: seq<Sight>, snapshot: nat)

  // JSON and cursor lines of the run's events are legible and read back as the event.
  ghost predicate Printable(printer: Printer, codec: Codec, journal: seq<RunEvent>) {
    forall event :: event in journal ==> Legible(codec, Sent(printer, event))
  }

  // What arrives of the response: a beginning of it, in chunks that stay within the buffer limit.
  ghost predicate Answers(states: seq<Tables>, r: Uuid, printer: Printer, codec: Codec, current: RunSnapshot, reply: Reply, sights: seq<Sight>) {
    reply.Streamed? ==>
      && reply.items == StreamItems(printer, Turns(states, r, sights, current.sequence), current.sequence)
      && Concat(reply.chunks) <= Render(reply.items)
      && Fits(Reader(current.sequence, [], None), current.runId, codec, "", reply.chunks)
  }

  // The client holds the run as stored in state `at`; each attempt reads later states only.
  ghost predicate Served(states: seq<Tables>, r: Uuid, printer: Printer, codec: Codec, at: nat, attempts: seq<Attempt>, visits: seq<Visit>)
    decreases |attempts|
  {
    && HasRun(states, r, at)
    && (attempts == []
        || (&& visits != [] && at <= visits[0].snapshot < |states|
            && InOrder(visits[0].sights, at, visits[0].snapshot)
            && Answers(states, r, printer, codec, Stored(states, r, at), attempts[0].reply, visits[0].sights)
            && (attempts[0].next.Fetched? ==>
                  && HasRun(states, r, visits[0].snapshot)
                  && attempts[0].next.run == Stored(states, r, visits[0].snapshot)
                  && Served(states, r, printer, codec, visits[0].snapshot, attempts[1..], visits[1..]))))
  }

  // ---------------------------------------------------------------- the journal of a later state continues that of an earlier one

  lemma JournalFacts(states: seq<Tables>, r: Uuid, i: nat)
    requires Chronicle(states, r) && HasRun(states, r, i)
    ensures var run, journal := Stored(states, r, i), JournalAt(states, r, i);
            && run.runId == r && EventReplay.Journal(journal, r) && |journal| == run.sequence && Agrees(run, journal)
            && forall k :: 0 <= k < |journal| ==> k + 1 in JournalFor(states[i], r) && journal[k] == JournalFor(states[i], r)[k + 1]
  {
    hide Consistent;
    RunFacts(states[i], r);
    var run, stored := Stored(states, r, i), JournalFor(states[i], r);
    ReplayIs(stored, run, 0, run.sequence);
    hide Forward, EventsBetween;
    var journal := JournalAt(states, r, i);
    forall k | 0 <= k < |journal| ensures k + 1 in stored && journal[k] == stored[k + 1] {}
  }

  lemma JournalGrows(states: seq<Tables>, r: Uuid, i: nat, j: nat)
    requires Chronicle(states, r) && i <= j && HasRun(states, r, i) && HasRun(states, r, j)
    ensures JournalAt(states, r, i) <= JournalAt(states, r, j)
  {
    hide Chronicle, JournalAt, Stored, Agrees, EventReplay.Journal, Forward, JournalFor;
    JournalFacts(states, r, i);
    JournalFacts(states, r, j);
    MovedForward(states, r, i, j);
    var early, late := JournalAt(states, r, i), JournalAt(states, r, j);
    forall k | 0 <= k < |early| ensures early[k] == late[k] {
      var event := early[k];
      KeptEvent(states, r, i, j, k + 1);
    }
  }

  lemma MovedForward(states: seq<Tables>, r: Uuid, i: nat, j: nat)
    requires Chronicle(states, r) && i <= j && HasRun(states, r, i) && HasRun(states, r, j)
    ensures Forward(states[i], states[j], r) && Stored(states, r, i).sequence <= Stored(states, r, j).sequence
  {
    hide Consistent;
  }

  lemma KeptEvent(states: seq<Tables>, r: Uuid, i: nat, j: nat, k: nat)
    requires HasRun(states, r, i) && HasRun(states, r, j) && Forward(states[i], states[j], r)
    requires k <= Stored(states, r, i).sequence && k in JournalFor(states[i], r)
    ensures k in JournalFor(states[j], r) && JournalFor(states[j], r)[k] == JournalFor(states[i], r)[k]
  {
  }

  // A run agrees with every later journal.
  lemma StoredRunAgrees(states: seq<Tables>, r: Uuid, i: nat, j: nat)
    requires Chronicle(states, r) && i <= j && HasRun(states, r, i) && HasRun(states, r, j)
    ensures Agrees(Stored(states, r, i), JournalAt(states, r, j)) && EventReplay.Journal(JournalAt(states, r, j), r)
    ensures Stored(states, r, i).sequence <= |JournalAt(states, r, j)| == Stored(states, r, j).sequence
  {
    JournalFacts(states, r, i);
    JournalFacts(states, r, j);
    JournalGrows(states, r, i, j);
  }

  lemma AgreesLater(run: RunSnapshot, early: seq<RunEvent>, late: seq<RunEvent>)
    requires Agrees(run, early) && early <= late
    ensures Agrees(run, late)
  {
  }

  // What is selected after a cursor is the next part of the journal of any later state.
  lemma SelectsNext(states: seq<Tables>, r: Uuid, i: nat, after: nat, m: nat)
    requires Chronicle(states, r) && i <= m && HasRun(states, r, i) && HasRun(states, r, m) && after <= Stored(states, r, i).sequence
    ensures var upto, journal := Stored(states, r, i).sequence, JournalAt(states, r, m);
            upto <= |journal| && SelectAt(states, r, i, after) == journal[after..upto]
  {
    hide Chronicle, Stored, JournalAt, SelectAt;
    JournalGrows(states, r, i, m);
    SelectsRest(states, r, i, after);
    PrefixSlice(JournalAt(states, r, i), JournalAt(states, r, m), after);
  }

  lemma PrefixSlice<T>(early: seq<T>, late: seq<T>, k: nat)
    requires early <= late && k <= |early|
    ensures early[k..] == late[k..|early|]
  {
  }

  lemma SelectsRest(states: seq<Tables>, r: Uuid, i: nat, after: nat)
    requires Chronicle(states, r) && HasRun(states, r, i) && after <= Stored(states, r, i).sequence
    ensures |JournalAt(states, r, i)| == Stored(states, r, i).sequence
    ensures SelectAt(states, r, i, after) == JournalAt(states, r, i)[after..]
  {
    hide Consistent;
    RunFacts(states[i], r);
    var run, stored := Stored(states, r, i), JournalFor(states[i], r);
    ReplayIs(stored, run, 0, run.sequence);
    ReplayIs(stored, run, after, run.sequence);
    hide Forward, EventsBetween, JournalOk;
    assert SelectAt(states, r, i, after) == JournalAt(states, r, i)[after..];
  }

  // The turns of a response continue one another towards the journal of any state from its end on: the
  // cursor stands at the run's sequence in some earlier state `from`.
  lemma {:induction false} TurnsGrow(states: seq<Tables>, r: Uuid, sights: seq<Sight>, from: nat, next: nat, upto: nat, m: nat)
    requires Chronicle(states, r) && InOrder(sights, next, upto) && from <= next && HasRun(states, r, from) && HasRun(states, r, m)
    requires upto <= m || LastSeen(states, r, m)
    requires from <= m
    ensures var after := Stored(states, r, from).sequence;
            Growing(Turns(states, r, sights, after), JournalAt(states, r, m), after)
    decreases |sights|
  {
    hide Chronicle, Stored, JournalAt, SelectAt, Agrees, EventReplay.Journal;
    if sights != [] {
      var s, after := sights[0], Stored(states, r, from).sequence;
      var turn := TurnAt(states, r, s, after);
      assert Turns(states, r, sights, after)[1..] == Turns(states, r, sights[1..], after + |turn.events|);
      StoredRunAgrees(states, r, from, m);
      if HasRun(states, r, s.row) && s.allowed {
        assert turn.events == SelectAt(states, r, s.events, after);
        if HasRun(states, r, s.events) {
          StoredRunAgrees(states, r, from, s.events);
          SelectsNext(states, r, s.events, after, m);
          TurnsGrow(states, r, sights[1..], s.events, s.events, upto, m);
        } else {
          NothingSelected(states, r, s.events, after);
          TurnsGrow(states, r, sights[1..], from, s.events, upto, m);
        }
      }
    }
  }

  lemma NothingSelected(states: seq<Tables>, r: Uuid, i: nat, after: nat)
    requires !HasRun(states, r, i)
    ensures SelectAt(states, r, i, after) == []
  {
  }

  lemma {:induction false} ItemsLegible(printer: Printer, codec: Codec, turns: seq<Turn>, journal: seq<RunEvent>, after: nat)
    requires Printable(printer, codec, journal) && Growing(turns, journal, after)
    ensures forall item :: item in StreamItems(printer, turns, after) ==> Legible(codec, item)
    decreases |turns|
  {
    hide Legible, TurnItems, Printable, Continuing;
    if turns != [] {
      var turn := turns[0];
      TurnLegible(printer, codec, turn, journal, after);
      if Continues(turn, after) {
        ItemsLegible(printer, codec, turns[1..], journal, after + |turn.events|);
      }
    }
  }

  lemma TurnLegible(printer: Printer, codec: Codec, turn: Turn, journal: seq<RunEvent>, after: nat)
    requires Printable(printer, codec, journal) && Continuing(turn, journal, after)
    ensures forall item :: item in TurnItems(printer, turn, after) ==> Legible(codec, item)
  {
    hide Legible;
    OthersLegible(codec);
    if turn.readable {
      forall event | event in turn.events ensures event in journal {}
      ProgressLegible(printer, codec, turn.events, if turn.authorized < |turn.events| then turn.authorized else |turn.events|);
    }
  }

  lemma OthersLegible(codec: Codec)
    ensures Legible(codec, Beat) && Legible(codec, Lost)
  {
  }

  lemma {:induction false} ProgressLegible(printer: Printer, codec: Codec, events: seq<RunEvent>, upto: nat)
    requires Printable(printer, codec, events) && upto <= |events|
    ensures forall item :: item in ProgressItems(printer, events, upto) ==> Legible(codec, item)
    decreases upto
  {
    hide Legible;
    if 0 < upto {
      ProgressLegible(printer, codec, events, upto - 1);
    }
  }

  // A response read from the store replays the journal of any state from its end on.
  lemma AnswerReplays(states: seq<Tables>, r: Uuid, printer: Printer, codec: Codec, reply: Reply, sights: seq<Sight>, at: nat, upto: nat, m: nat)
    requires Chronicle(states, r) && InOrder(sights, at, upto) && HasRun(states, r, at) && HasRun(states, r, m) && at <= m
    requires upto <= m || LastSeen(states, r, m)
    requires Answers(states, r, printer, codec, Stored(states, r, at), reply, sights)
    requires Printable(printer, codec, JournalAt(states, r, m))
    ensures Replays(Stored(states, r, at), codec, reply, JournalAt(states, r, m))
  {
    hide Chronicle, Stored, JournalAt, Growing, Printable, Follows, Legible, StreamItems, Render, Fits, Concat;
    if reply.Streamed? {
      var turns := Turns(states, r, sights, Stored(states, r, at).sequence);
      TurnsGrow(states, r, sights, at, at, upto, m);
      StreamFollows(printer, turns, JournalAt(states, r, m), Stored(states, r, at).sequence);
      ItemsLegible(printer, codec, turns, JournalAt(states, r, m), Stored(states, r, at).sequence);
    }
  }

  // A snapshot read later passes the client's test.
  lemma SnapshotIsSame(states: seq<Tables>, r: Uuid, start: nat, at: nat, next: nat, latest: RunSnapshot)
    requires Chronicle(states, r) && start <= at <= next
    requires HasRun(states, r, start) && HasRun(states, r, at) && HasRun(states, r, next)
    requires latest.runId == r && Agrees(latest, JournalAt(states, r, next))
    ensures SameRun(Stored(states, r, start), latest, Stored(states, r, next))
  {
    hide Consistent, EventsBetween;
    JournalFacts(states, r, next);
    assert Forward(states[start], states[next], r);
  }

  // ---------------------------------------------------------------- the watch shows the record

  // Whatever happens on the way, every run the caller is shown is the record's at its sequence, the
  // sequence never decreases, the client never mistrusts the server, and the run it returns in the end,
  // answer included, is the run as it is stored for good.
  lemma {:induction false} WatchShowsTheRecord(states: seq<Tables>, r: Uuid, last: nat, printer: Printer, codec: Codec,
                                               start: nat, at: nat, attempts: seq<Attempt>, visits: seq<Visit>)
    requires Chronicle(states, r) && LastSeen(states, r, last) && HasRun(states, r, start) && start <= at
    requires Served(states, r, printer, codec, at, attempts, visits)
    requires Printable(printer, codec, JournalAt(states, r, last))
    ensures var record := JournalAt(states, r, last);
            var (shown, watched) := WatchFrom(Stored(states, r, start), Stored(states, r, at), codec, attempts);
            && Agrees(Stored(states, r, at), record)
            && (forall run :: run in shown ==> Agrees(run, record)) && Ascending(Stored(states, r, at).sequence, shown)
            && watched != Mistrusted
            && (watched.Finished? ==> Terminal(watched.run.status) && watched.run == Stored(states, r, last))
    decreases |attempts|
  {
    hide Chronicle, Stored, JournalAt, Agrees, Printable, Answers, InOrder, Streaming;
    var initial, current, record := Stored(states, r, start), Stored(states, r, at), JournalAt(states, r, last);
    StoredRunAgrees(states, r, at, last);
    if Terminal(current.status) {
      TerminalIsLast(states, r, at, last);
    } else if attempts != [] && !attempts[0].aborted {
      var v, a := visits[0], attempts[0];
      var m := if a.next.Fetched? then v.snapshot else last;
      Attempted(states, r, printer, codec, at, m, a, v, last);
      var (events, fatal) := Streaming(current, codec, a.reply);
      if fatal.None? && !a.interrupted && a.next.Fetched? {
        SnapshotIsSame(states, r, start, at, m, Latest(current, events));
        WatchShowsTheRecord(states, r, last, printer, codec, start, m, attempts[1..], visits[1..]);
        var (rest, watched) := WatchFrom(initial, a.next.run, codec, attempts[1..]);
        InAscent(current.sequence, Updates(current, events), a.next.run, rest);
      }
    }
  }

  lemma TerminalIsLast(states: seq<Tables>, r: Uuid, at: nat, last: nat)
    requires Chronicle(states, r) && LastSeen(states, r, last) && HasRun(states, r, at) && Terminal(Stored(states, r, at).status)
    ensures Stored(states, r, at) == Stored(states, r, last)
  {
    hide Consistent;
    assert Forward(states[at], states[last], r);
  }

  // One attempt: what it shows before its snapshot.
  lemma Attempted(states: seq<Tables>, r: Uuid, printer: Printer, codec: Codec, at: nat, m: nat, a: Attempt, v: Visit, last: nat)
    requires Chronicle(states, r) && LastSeen(states, r, last) && HasRun(states, r, at) && HasRun(states, r, m)
    requires at <= m && (v.snapshot <= m || m == last) && InOrder(v.sights, at, v.snapshot)
    requires Answers(states, r, printer, codec, Stored(states, r, at), a.reply, v.sights)
    requires Printable(printer, codec, JournalAt(states, r, last))
    ensures var current := Stored(states, r, at);
            var (events, fatal) := Streaming(current, codec, a.reply);
            && (forall run :: run in Updates(current, events) ==> Agrees(run, JournalAt(states, r, last)))
            && Ascending(current.sequence, Updates(current, events))
            && (forall run :: run in Updates(current, events) ==> run.sequence <= Latest(current, events).sequence)
            && Latest(current, events).runId == r && Agrees(Latest(current, events), JournalAt(states, r, m))
            && current.sequence <= Latest(current, events).sequence
            && fatal != Some(Mistrusted) && (fatal.Some? ==> fatal.value.Threw?)
            && (GoesOn(a.reply) ==> fatal.None?)
  {
    hide Chronicle, Stored, JournalAt, Printable, Answers, InOrder, Streaming, Replays;
    var current, journal, record := Stored(states, r, at), JournalAt(states, r, m), JournalAt(states, r, last);
    JournalFacts(states, r, at);
    StoredRunAgrees(states, r, at, m);
    JournalGrows(states, r, m, last);
    PrintableBefore(printer, codec, journal, record);
    AnswerReplays(states, r, printer, codec, a.reply, v.sights, at, v.snapshot, m);
    StreamShows(current, codec, a.reply, journal);
    var (events, fatal) := Streaming(current, codec, a.reply);
    forall run | run in Updates(current, events) ensures Agrees(run, record) && run.sequence <= Latest(current, events).sequence {
      AgreesLater(run, journal, record);
    }
  }

  lemma PrintableBefore(printer: Printer, codec: Codec, early: seq<RunEvent>, late: seq<RunEvent>)
    requires Printable(printer, codec, late) && early <= late
    ensures Printable(printer, codec, early)
  {
    hide Legible;
    forall event | event in early ensures event in late {}
  }

  // An attempt that gets as far as its snapshot, whatever became of its stream.
  predicate Lively(a: Attempt) {
    !a.aborted && !a.interrupted && GoesOn(a.reply) && a.next.Fetched?
  }

  // Every attempt up to the n-th gets there, and the n-th snapshot shows the run finished.
  predicate FinishedAt(attempts: seq<Attempt>, n: nat) {
    n < |attempts| && (forall i :: 0 <= i <= n ==> Lively(attempts[i])) && Terminal(attempts[n].next.run.status)
  }

  lemma FinishedOnward(attempts: seq<Attempt>, n: nat)
    requires FinishedAt(attempts, n) && n > 0
    ensures FinishedAt(attempts[1..], n - 1)
  {
    forall i | 0 <= i <= n - 1 ensures Lively(attempts[1..][i]) { assert attempts[1..][i] == attempts[i + 1]; }
    assert attempts[1..][n - 1] == attempts[n];
  }

  // With a server that answers, the watch goes on from one connection to the next, through lost streams,
  // and once a snapshot shows the run finished it returns that run, as it is stored for good.
  lemma {:induction false} WatchEnds(states: seq<Tables>, r: Uuid, last: nat, printer: Printer, codec: Codec,
                                     start: nat, at: nat, attempts: seq<Attempt>, visits: seq<Visit>, n: nat)
    requires Chronicle(states, r) && LastSeen(states, r, last) && HasRun(states, r, start) && start <= at
    requires Served(states, r, printer, codec, at, attempts, visits) && Printable(printer, codec, JournalAt(states, r, last))
    requires FinishedAt(attempts, n)
    ensures WatchFrom(Stored(states, r, start), Stored(states, r, at), codec, attempts).1 == Finished(Stored(states, r, last))
    decreases |attempts|
  {
    hide Chronicle, Stored, JournalAt, Agrees, Printable, Answers, InOrder, WatchFrom;
    var current := Stored(states, r, at);
    if Terminal(current.status) {
      TerminalIsLast(states, r, at, last);
      WatchOver(Stored(states, r, start), current, codec, attempts);
    } else {
      var v := visits[0];
      assert Lively(attempts[0]);
      GoesOnward(states, r, last, printer, codec, start, at, attempts, v);
      if n == 0 {
        TerminalIsLast(states, r, v.snapshot, last);
        WatchOver(Stored(states, r, start), attempts[0].next.run, codec, attempts[1..]);
      } else {
        FinishedOnward(attempts, n);
        WatchEnds(states, r, last, printer, codec, start, v.snapshot, attempts[1..], visits[1..], n - 1);
      }
    }
  }

  lemma WatchOver(initial: RunSnapshot, current: RunSnapshot, codec: Codec, attempts: seq<Attempt>)
    requires Terminal(current.status)
    ensures WatchFrom(initial, current, codec, attempts).1 == Finished(current)
  {
  }

  lemma WatchNext(initial: RunSnapshot, current: RunSnapshot, codec: Codec, attempts: seq<Attempt>)
    requires !Terminal(current.status) && attempts != [] && Lively(attempts[0])
    requires var (events, fatal) := Streaming(current, codec, attempts[0].reply);
             fatal.None? && SameRun(initial, Latest(current, events), attempts[0].next.run)
    ensures WatchFrom(initial, current, codec, attempts).1 == WatchFrom(initial, attempts[0].next.run, codec, attempts[1..]).1
  {
    hide Streaming, SameRun, Latest, Updates;
  }

  // A lively attempt ends with a snapshot the client accepts, and the next connection starts from it.
  lemma GoesOnward(states: seq<Tables>, r: Uuid, last: nat, printer: Printer, codec: Codec, start: nat, at: nat, attempts: seq<Attempt>, v: Visit)
    requires Chronicle(states, r) && LastSeen(states, r, last) && HasRun(states, r, start) && start <= at && HasRun(states, r, at)
    requires attempts != [] && Lively(attempts[0]) && at <= v.snapshot && InOrder(v.sights, at, v.snapshot)
    requires Answers(states, r, printer, codec, Stored(states, r, at), attempts[0].reply, v.sights)
    requires HasRun(states, r, v.snapshot) && attempts[0].next.run == Stored(states, r, v.snapshot)
    requires Printable(printer, codec, JournalAt(states, r, last)) && !Terminal(Stored(states, r, at).status)
    ensures var initial, current := Stored(states, r, start), Stored(states, r, at);
            WatchFrom(initial, current, codec, attempts).1 == WatchFrom(initial, attempts[0].next.run, codec, attempts[1..]).1
  {
    hide Chronicle, Stored, JournalAt, Agrees, Printable, Answers, InOrder, Streaming, WatchFrom, SameRun, Latest, Updates, GoesOn;
    var current := Stored(states, r, at);
    Attempted(states, r, printer, codec, at, v.snapshot, attempts[0], v, last);
    SnapshotIsSame(states, r, start, at, v.snapshot, Latest(current, Streaming(current, codec, attempts[0].reply).0));
    WatchNext(Stored(states, r, start), current, codec, attempts);
  }

  // ---------------------------------------------------------------- both stores keep such chronicles

  function SharedStates(states: seq<RunProtocol.System>): (stores: seq<Tables>)
    ensures |stores| == |states| && forall i :: 0 <= i < |states| ==> stores[i] == states[i].store
  {
    seq(|states|, i requires 0 <= i < |states| => states[i].store)
  }

  function LocalStates(states: seq<SqliteRuns.Database>): (stores: seq<Tables>)
    ensures |stores| == |states| && forall i :: 0 <= i < |states| ==> stores[i] == states[i].tables
  {
    seq(|states|, i requires 0 <= i < |states| => states[i].tables)
  }

  lemma SharedStoreChronicles(states: seq<RunProtocol.System>, acts: seq<RunProtocol.Action>, s: PostgresRuns.Settings, r: Uuid)
    requires RunProtocol.Trace(states, acts, s)
    ensures Chronicle(SharedStates(states), r)
  {
    hide Consistent, Forward, RunProtocol.Trace;
    var stores := SharedStates(states);
    forall i | 0 <= i < |stores| ensures Consistent(stores[i]) { RunProtocol.Reachable(states, acts, s, i); }
    forall i, j | 0 <= i <= j < |stores| && r in stores[i].runs && r in stores[j].runs ensures Forward(stores[i], stores[j], r) {
      RunProtocol.History(states, acts, s, i, j, r);
    }
  }

  lemma LocalStoreChronicles(states: seq<SqliteRuns.Database>, log: seq<SqliteRuns.Transaction>, r: Uuid)
    requires SqliteRuns.History(states, log) && SqliteRuns.FreshIds(log)
    ensures Chronicle(LocalStates(states), r)
  {
    hide Consistent, Forward, SqliteRuns.Commit, SqliteRuns.FreshIds;
    var stores := LocalStates(states);
    forall i | 0 <= i < |stores| ensures Consistent(stores[i]) { SqliteRuns.ReachableValidates(states, log, i); }
    forall i, j | 0 <= i <= j < |stores| && r in stores[i].runs && r in stores[j].runs ensures Forward(stores[i], stores[j], r) {
      SqliteRuns.RunsOnlyMoveForward(states, log, i, j, r);
    }
  }
}
