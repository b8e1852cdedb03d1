/** The client's watch over one run: reconnect, fold the events, and confirm with a snapshot. */
module RunWatch {
  import opened Runs
  import opened EventReplay

  // How one connection answers, and how the snapshot request after it ends. `aborted` is the caller's
  // signal before the connection; `interrupted` the same while the stream was read, which then failed.
  datatype Reply = Refused(status: nat) | Unreachable | Streamed(items: seq<Item>, chunks: seq<string>)
  datatype Fetch = Failed(status: nat) | Fetched(run: RunSnapshot)
  datatype Attempt = Attempt(aborted: bool, reply: Reply, interrupted: bool, next: Fetch)

  // `Mistrusted` is the error the client raises itself when what it received cannot be one run: an event
  // of another run, a gap, or a snapshot that changed identity, source, definition or order.
  datatype Watched = Finished(run: RunSnapshot) | Aborted | Threw(status: nat) | Mistrusted

  const CONNECTIONS := 12

  function Updated(run: RunSnapshot, event: RunEvent): RunSnapshot {
    run.(status := event.status, sequence := event.sequence, progress := event.progress)
  }

  // Every run the caller is shown while `events` arrive.
  function Updates(run: RunSnapshot, events: seq<RunEvent>): (runs: seq<RunSnapshot>)
    ensures |runs| == |events|
    ensures forall i :: 0 <= i < |events| ==> runs[i] == Updated(run, events[i])
  {
    seq(|events|, i requires 0 <= i < |events| => Updated(run, events[i]))
  }

  function Latest(run: RunSnapshot, events: seq<RunEvent>): RunSnapshot {
    if events == [] then run else Updated(run, events[|events| - 1])
  }

  function Read(run: RunSnapshot, codec: Codec, chunks: seq<string>): Reader {
    Feed(Reader(run.sequence, [], None), run.runId, codec, "", chunks)
  }

  // Statuses below 500 end the watch; anything else is left to the snapshot.
  function Fatal(failed: Option<Failure>): Option<Watched> {
    match failed
    case Some(AccessLost) => Some(Threw(401))
    case Some(Mismatch) => Some(Mistrusted)
    case Some(Gap) => Some(Mistrusted)
    case _ => None
  }

  function Streaming(run: RunSnapshot, codec: Codec, reply: Reply): (seq<RunEvent>, Option<Watched>) {
    match reply
    case Refused(status) => ([], if status < 500 then Some(Threw(status)) else None)
    case Unreachable => ([], None)
    case Streamed(_, chunks) => (Read(run, codec, chunks).received, Fatal(Read(run, codec, chunks).failed))
  }

  predicate SameRun(initial: RunSnapshot, current: RunSnapshot, next: RunSnapshot) {
    && next.runId == current.runId && current.sequence <= next.sequence
    && next.sourceBinding == initial.sourceBinding
    && next.request.definitionSnapshotId == initial.request.definitionSnapshotId
  }

  function WatchFrom(initial: RunSnapshot, current: RunSnapshot, codec: Codec, attempts: seq<Attempt>): (seq<RunSnapshot>, Watched)
    decreases |attempts|
  {
    if Terminal(current.status) then ([], Finished(current))
    else if attempts == [] then ([], Threw(503))
    else if attempts[0].aborted then ([], Aborted)
    else
      var (events, fatal) := Streaming(current, codec, attempts[0].reply);
      var shown, latest := Updates(current, events), Latest(current, events);
      if fatal.Some? then (shown, fatal.value)
      else if attempts[0].interrupted then (shown, Aborted)
      else if attempts[0].next.Failed? then (shown, Threw(attempts[0].next.status))
      else
        var next := attempts[0].next.run;
        if !SameRun(initial, latest, next) then (shown, Mistrusted)
        else
          var (rest, watched) := WatchFrom(initial, next, codec, attempts[1..]);
          (shown + [next] + rest, watched)
  }

  method Watch(initial: RunSnapshot, codec: Codec, attempts: seq<Attempt>) returns (received: seq<RunSnapshot>, watched: Watched)
    requires |attempts| == 12
    ensures received == [initial] + WatchFrom(initial, initial, codec, attempts).0
    ensures watched == WatchFrom(initial, initial, codec, attempts).1
  {
    hide Feed, SameRun, Streaming, Updates, Latest;
    var current := initial;
    received := [current];
    var connection := 0;
    ghost var whole := WatchFrom(initial, initial, codec, attempts);
    assert attempts[0..] == attempts;
    while connection < CONNECTIONS && !Terminal(current.status)
      invariant connection <= CONNECTIONS
      invariant whole.1 == WatchFrom(initial, current, codec, attempts[connection..]).1
      invariant [initial] + whole.0 == received + WatchFrom(initial, current, codec, attempts[connection..]).0
    {
      var attempt := attempts[connection];
      assert attempts[connection..][1..] == attempts[connection + 1..];
      if attempt.aborted {
        return received, Aborted;
      }
      var (events, fatal) := Streaming(current, codec, attempt.reply);
      received := received + Updates(current, events);
      current := Latest(current, events);
      if fatal.Some? {
        return received, fatal.value;
      }
      if attempt.interrupted {
        return received, Aborted;
      }
      if attempt.next.Failed? {
        return received, Threw(attempt.next.status);
      }
      var next := attempt.next.run;
      if !SameRun(initial, current, next) {
        return received, Mistrusted;
      }
      current := next;
      received := received + [current];
      connection := connection + 1;
    }
    watched := if Terminal(current.status) then Finished(current) else Threw(503);
  }

  // ---------------------------------------------------------------- what a stream of the run's journal shows

  // A run shows what the journal recorded at its sequence.
  ghost predicate Agrees(run: RunSnapshot, journal: seq<RunEvent>) {
    && 1 <= run.sequence <= |journal|
    && run.status == journal[run.sequence - 1].status && run.progress == journal[run.sequence - 1].progress
  }

  // A stream of the journal from the client's cursor, cut off anywhere and arriving in any chunks that
  // stay within the client's buffer limit.
  ghost predicate Replays(current: RunSnapshot, codec: Codec, reply: Reply, journal: seq<RunEvent>) {
    reply.Streamed? ==>
      && Follows(reply.items, journal, current.sequence) && (forall item :: item in reply.items ==> Legible(codec, item))
      && Concat(reply.chunks) <= Render(reply.items)
      && Fits(Reader(current.sequence, [], None), current.runId, codec, "", reply.chunks)
  }

  ghost predicate Ascending(from: nat, runs: seq<RunSnapshot>) {
    && (forall i :: 0 <= i < |runs| ==> from <= runs[i].sequence)
    && (forall i, j :: 0 <= i < j < |runs| ==> runs[i].sequence <= runs[j].sequence)
  }

  // A response that neither refuses for good nor reports the loss of access; it may fail to come at all.
  predicate GoesOn(reply: Reply) {
    match reply
    case Refused(status) => status >= 500
    case Unreachable => true
    case Streamed(items, _) => Lost !in items
  }

  lemma StreamShows(current: RunSnapshot, codec: Codec, reply: Reply, journal: seq<RunEvent>)
    requires Agrees(current, journal) && Journal(journal, current.runId) && Replays(current, codec, reply, journal)
    ensures var (events, fatal) := Streaming(current, codec, reply);
            && (forall i :: 0 <= i < |events| ==> Agrees(Updated(current, events[i]), journal) && events[i].sequence == current.sequence + i + 1)
            && Agrees(Latest(current, events), journal) && current.sequence <= Latest(current, events).sequence
            && fatal != Some(Mistrusted) && (fatal.Some? ==> fatal.value.Threw?)
            && (GoesOn(reply) ==> fatal.None?)
  {
    hide Feed, Follows, Fits, Legible, Render;
    if reply.Streamed? {
      ReplayDelivers(current.runId, codec, current.sequence, reply.items, journal, reply.chunks);
    }
  }

  // ---------------------------------------------------------------- whatever the server sends

  predicate OneRun(initial: RunSnapshot, run: RunSnapshot) {
    && run.runId == initial.runId && run.sourceBinding == initial.sourceBinding
    && run.request.definitionSnapshotId == initial.request.definitionSnapshotId
  }

  lemma StreamedRun(initial: RunSnapshot, current: RunSnapshot, codec: Codec, reply: Reply)
    requires OneRun(initial, current)
    ensures var (events, fatal) := Streaming(current, codec, reply);
            && (fatal.Some? ==> !fatal.value.Finished?)
            && (forall run :: run in Updates(current, events) ==> OneRun(initial, run)) && Ascending(current.sequence, Updates(current, events))
            && OneRun(initial, Latest(current, events)) && current.sequence <= Latest(current, events).sequence
            && forall run :: run in Updates(current, events) ==> run.sequence <= Latest(current, events).sequence
  {
    hide Feed;
    if reply.Streamed? {
      NeverSkips(Reader(current.sequence, [], None), current.runId, codec, "", reply.chunks);
    }
  }

  // Even a server that sends anything at all cannot make the caller see another run, another source, other
  // definitions, or the run's history going back.
  lemma {:induction false} ShownIsOneRun(initial: RunSnapshot, current: RunSnapshot, codec: Codec, attempts: seq<Attempt>)
    requires OneRun(initial, current)
    ensures var (shown, watched) := WatchFrom(initial, current, codec, attempts);
            && (forall run :: run in shown ==> OneRun(initial, run)) && Ascending(current.sequence, shown)
            && (watched.Finished? ==> OneRun(initial, watched.run) && watched.run in [current] + shown && Terminal(watched.run.status))
    decreases |attempts|
  {
    hide Streaming, Updates, Latest;
    if !Terminal(current.status) && attempts != [] && !attempts[0].aborted {
      StreamedRun(initial, current, codec, attempts[0].reply);
      var (events, fatal) := Streaming(current, codec, attempts[0].reply);
      if fatal.None? && !attempts[0].interrupted && attempts[0].next.Fetched? && SameRun(initial, Latest(current, events), attempts[0].next.run) {
        var next := attempts[0].next.run;
        ShownIsOneRun(initial, next, codec, attempts[1..]);
        InAscent(current.sequence, Updates(current, events), next, WatchFrom(initial, next, codec, attempts[1..]).0);
      }
    }
  }

  lemma InAscent(from: nat, shown: seq<RunSnapshot>, next: RunSnapshot, rest: seq<RunSnapshot>)
    requires Ascending(from, shown) && from <= next.sequence && Ascending(next.sequence, rest)
    requires forall run :: run in shown ==> run.sequence <= next.sequence
    ensures Ascending(from, shown + [next] + rest)
  {
  }
}
