/**
 A run's progress across the wire: the server's event stream from a cursor, and the client's parser of
 its chunks. Frames follow the event stream format of the WHATWG HTML Standard, section 9.2.
 */
module EventReplay {
  import opened LineEndings
  import opened Runs

  const BLANK := "\n\n"
  const DATA := "data: "
  const ACCESS_LOST := "event: access_lost"
  const LIMIT := 131072

  // ---------------------------------------------------------------- text

  predicate At(s: string, i: nat, needle: string) {
    i + |needle| <= |s| && s[i..i + |needle|] == needle
  }

  predicate Contains(s: string, needle: string) {
    exists i :: 0 <= i <= |s| && At(s, i, needle)
  }

  // s.indexOf(needle), with |s| for "not found".
  function IndexOf(s: string, needle: string, from: nat): (i: nat)
    requires from <= |s| && needle != ""
    ensures from <= i <= |s| && (i < |s| ==> At(s, i, needle)) && forall k :: from <= k < i ==> !At(s, k, needle)
    decreases |s| - from
  {
    if from == |s| then from else if At(s, from, needle) then from else IndexOf(s, needle, from + 1)
  }

  function Lines(s: string): (lines: seq<string>)
    ensures |lines| > 0
    decreases |s|
  {
    var i := IndexOf(s, "\n", 0);
    if i == |s| then [s] else [s[..i]] + Lines(s[i + 1..])
  }

  // The payload of a frame: its data lines, joined again by line breaks.
  function Joined(lines: seq<string>): string {
    if lines == [] then ""
    else
      var rest := Joined(lines[1..]);
      if DATA <= lines[0] then
        var text := lines[0][|DATA|..];
        if DataLines(lines[1..]) == 0 then text else text + "\n" + rest
      else rest
  }

  function DataLines(lines: seq<string>): nat {
    if lines == [] then 0 else DataLines(lines[1..]) + if DATA <= lines[0] then 1 else 0
  }

  // ---------------------------------------------------------------- the client's reader

  // Why reading stops: an HTTP-like status, or a payload that is not an event at all.
  datatype Failure = AccessLost | Mismatch | Gap | TooLarge | Unreadable

  datatype Reader = Reader(after: nat, received: seq<RunEvent>, failed: Option<Failure>)

  // `codec` is JSON.parse restricted to the texts that are events.
  type Codec = map<string, RunEvent>

  function Handle(r: Reader, runId: Uuid, codec: Codec, frame: string): Reader {
    if Contains(frame, ACCESS_LOST) then r.(failed := Some(AccessLost))
    else
      var data := Joined(Lines(frame));
      if data == "" then r
      else if data !in codec then r.(failed := Some(Unreadable))
      else
        var event := codec[data];
        if event.runId != runId || event.sequence < 1 then r.(failed := Some(Mismatch))
        else if event.sequence <= r.after then r
        else if event.sequence != r.after + 1 then r.(failed := Some(Gap))
        else r.(received := r.received + [event], after := event.sequence)
  }

  // All complete frames of a text, in order, until one fails; what is left over stays buffered.
  function Drain(r: Reader, runId: Uuid, codec: Codec, text: string): (Reader, string)
    decreases |text|
  {
    if r.failed.Some? then (r, text)
    else
      var i := IndexOf(text, BLANK, 0);
      if i == |text| then (r, text) else Drain(Handle(r, runId, codec, text[..i]), runId, codec, text[i + 2..])
  }

  // The same over arriving chunks, with the buffer limit.
  function Feed(r: Reader, runId: Uuid, codec: Codec, buffer: string, chunks: seq<string>): Reader
    decreases |chunks|
  {
    if chunks == [] || r.failed.Some? then r
    else
      var text := Normalised(buffer + chunks[0]);
      if |text| > LIMIT then r.(failed := Some(TooLarge))
      else
        var (next, rest) := Drain(r, runId, codec, text);
        Feed(next, runId, codec, rest, chunks[1..])
  }

  method ReadEvents(runId: Uuid, codec: Codec, from: nat, chunks: seq<string>) returns (r: Reader)
    ensures r == Feed(Reader(from, [], None), runId, codec, "", chunks)
    ensures |chunks| > 0 && |Normalised(chunks[0])| > 131_072 ==> r == Reader(from, [], Some(TooLarge))
  {
    hide Handle, Normalised;
    assert |chunks| > 0 ==> "" + chunks[0] == chunks[0];
    r := Reader(from, [], None);
    var buffer := "";
    var next := 0;
    while next < |chunks| && r.failed.None?
      invariant next <= |chunks|
      invariant Feed(Reader(from, [], None), runId, codec, "", chunks) == Feed(r, runId, codec, buffer, chunks[next..])
    {
      buffer := Normalised(buffer + chunks[next]);
      assert chunks[next..][1..] == chunks[next + 1..];
      next := next + 1;
      if |buffer| > LIMIT {
        r := r.(failed := Some(TooLarge));
        return;
      }
      ghost var before, text := r, buffer;
      var boundary := IndexOf(buffer, BLANK, 0);
      while boundary < |buffer| && r.failed.None?
        invariant boundary == IndexOf(buffer, BLANK, 0)
        invariant Drain(before, runId, codec, text) == Drain(r, runId, codec, buffer)
        decreases |buffer|
      {
        var frame := buffer[..boundary];
        buffer := buffer[boundary + 2..];
        r := Handle(r, runId, codec, frame);
        boundary := IndexOf(buffer, BLANK, 0);
      }
    }
  }

  // ---------------------------------------------------------------- whatever arrives

  // What was received goes on from the cursor without a gap and belongs to the run.
  ghost predicate Gapless(r: Reader, r': Reader, runId: Uuid) {
    && r.received <= r'.received && r'.after == r.after + |r'.received| - |r.received|
    && forall i :: |r.received| <= i < |r'.received| ==>
         r'.received[i].runId == runId && r'.received[i].sequence == r.after + 1 + i - |r.received|
  }

  lemma HandleGapless(r: Reader, runId: Uuid, codec: Codec, frame: string)
    ensures Gapless(r, Handle(r, runId, codec, frame), runId)
  {
    hide Contains, Joined, Lines;
  }

  lemma GaplessOnward(a: Reader, b: Reader, c: Reader, runId: Uuid)
    requires Gapless(a, b, runId) && Gapless(b, c, runId)
    ensures Gapless(a, c, runId)
  {
  }

  lemma {:induction false} DrainGapless(r: Reader, runId: Uuid, codec: Codec, text: string)
    ensures Gapless(r, Drain(r, runId, codec, text).0, runId)
    decreases |text|
  {
    hide Handle, Gapless, IndexOf;
    if r.failed.None? && IndexOf(text, BLANK, 0) < |text| {
      var i := IndexOf(text, BLANK, 0);
      HandleGapless(r, runId, codec, text[..i]);
      DrainGapless(Handle(r, runId, codec, text[..i]), runId, codec, text[i + 2..]);
      GaplessOnward(r, Handle(r, runId, codec, text[..i]), Drain(r, runId, codec, text).0, runId);
    } else {
      assert Gapless(r, r, runId) by { NothingGapless(r, runId); }
    }
  }

  lemma NothingGapless(r: Reader, runId: Uuid)
    ensures Gapless(r, r, runId)
  {
  }

  // However a response is garbled, cut or forged, the events the client takes are of its run and follow its
  // cursor one by one.
  lemma {:induction false} NeverSkips(r: Reader, runId: Uuid, codec: Codec, buffer: string, chunks: seq<string>)
    ensures Gapless(r, Feed(r, runId, codec, buffer, chunks), runId)
    decreases |chunks|
  {
    hide Drain, Gapless, Normalised;
    NothingGapless(r, runId);
    SameButFailed(r, runId);
    if chunks != [] && r.failed.None? && |Normalised(buffer + chunks[0])| <= LIMIT {
      var (next, rest) := Drain(r, runId, codec, Normalised(buffer + chunks[0]));
      DrainGapless(r, runId, codec, Normalised(buffer + chunks[0]));
      NeverSkips(next, runId, codec, rest, chunks[1..]);
      GaplessOnward(r, next, Feed(r, runId, codec, buffer, chunks), runId);
    }
  }

  lemma SameButFailed(r: Reader, runId: Uuid)
    ensures Gapless(r, r.(failed := Some(TooLarge)), runId)
  {
  }

  // How one event is taken: the next one is received, an earlier one is ignored, and one of another run or
  // further ahead ends the reading.
  lemma EventTaken(r: Reader, runId: Uuid, codec: Codec, frame: string)
    requires !Contains(frame, ACCESS_LOST) && Joined(Lines(frame)) != "" && Joined(Lines(frame)) in codec
    ensures var event, r' := codec[Joined(Lines(frame))], Handle(r, runId, codec, frame);
            && (event.runId == runId && event.sequence == r.after + 1 ==> r' == Reader(r.after + 1, r.received + [event], r.failed))
            && (event.runId == runId && 1 <= event.sequence <= r.after ==> r' == r)
            && (event.runId == runId && event.sequence > r.after + 1 ==> r' == Reader(r.after, r.received, Some(Gap)))
            && (event.runId != runId || event.sequence == 0 ==> r' == Reader(r.after, r.received, Some(Mismatch)))
  {
    hide Contains, Joined, Lines;
  }

  // ---------------------------------------------------------------- chunking does not matter

  function Concat(chunks: seq<string>): string {
    if chunks == [] then "" else chunks[0] + Concat(chunks[1..])
  }

  // Every buffer on the way stays within the limit.
  predicate Fits(r: Reader, runId: Uuid, codec: Codec, buffer: string, chunks: seq<string>)
    decreases |chunks|
  {
    chunks == [] || r.failed.Some?
    || (|Normalised(buffer + chunks[0])| <= LIMIT
        && var (next, rest) := Drain(r, runId, codec, Normalised(buffer + chunks[0]));
           Fits(next, runId, codec, rest, chunks[1..]))
  }

  lemma SameBoundary(a: string, b: string)
    requires IndexOf(a, BLANK, 0) < |a|
    ensures IndexOf(a + b, BLANK, 0) == IndexOf(a, BLANK, 0)
  {
    var i := IndexOf(a, BLANK, 0);
    assert (a + b)[i..i + 2] == a[i..i + 2];
    assert At(a + b, i, BLANK);
    forall k | 0 <= k < i ensures !At(a + b, k, BLANK) {
      assert (a + b)[k..k + 2] == a[k..k + 2] && !At(a, k, BLANK);
    }
  }

  // The part of a text whose frames have been delivered.
  function Done(r: Reader, runId: Uuid, codec: Codec, text: string): (done: string)
    decreases |text|
  {
    if r.failed.Some? then ""
    else
      var i := IndexOf(text, BLANK, 0);
      if i == |text| then "" else text[..i + 2] + Done(Handle(r, runId, codec, text[..i]), runId, codec, text[i + 2..])
  }

  lemma {:induction false} DoneAndRest(r: Reader, runId: Uuid, codec: Codec, text: string)
    ensures text == Done(r, runId, codec, text) + Drain(r, runId, codec, text).1
    decreases |text|
  {
    hide Handle, Drain, IndexOf, Done;
    if r.failed.Some? || IndexOf(text, BLANK, 0) == |text| {
      NothingDone(r, runId, codec, text);
      NothingDrained(r, runId, codec, text);
    } else {
      var i := IndexOf(text, BLANK, 0);
      OneFrame(r, runId, codec, text, i);
      DoneStep(r, runId, codec, text, i);
      DoneAndRest(Handle(r, runId, codec, text[..i]), runId, codec, text[i + 2..]);
      assert text == text[..i + 2] + text[i + 2..];
    }
  }

  lemma {:induction false} DoneEndsLine(r: Reader, runId: Uuid, codec: Codec, text: string)
    ensures var done := Done(r, runId, codec, text); done != "" ==> done[|done| - 1] == LF
    decreases |text|
  {
    hide Handle, Drain, IndexOf, Done;
    if r.failed.Some? || IndexOf(text, BLANK, 0) == |text| {
      NothingDone(r, runId, codec, text);
    } else {
      var i := IndexOf(text, BLANK, 0);
      DoneStep(r, runId, codec, text, i);
      DoneEndsLine(Handle(r, runId, codec, text[..i]), runId, codec, text[i + 2..]);
    }
  }

  lemma {:induction false} RestIsDrained(r: Reader, runId: Uuid, codec: Codec, text: string)
    ensures var (next, rest) := Drain(r, runId, codec, text); Drain(next, runId, codec, rest) == (next, rest)
    decreases |text|
  {
    hide Handle, Drain, IndexOf;
    if r.failed.Some? || IndexOf(text, BLANK, 0) == |text| {
      NothingDrained(r, runId, codec, text);
    } else {
      var i := IndexOf(text, BLANK, 0);
      OneFrame(r, runId, codec, text, i);
      RestIsDrained(Handle(r, runId, codec, text[..i]), runId, codec, text[i + 2..]);
    }
  }

  lemma NothingDrained(r: Reader, runId: Uuid, codec: Codec, text: string)
    requires r.failed.Some? || IndexOf(text, BLANK, 0) == |text|
    ensures Drain(r, runId, codec, text) == (r, text)
  {
  }

  // Whatever follows the delivered part is read as if it came first.
  lemma {:induction false} DoneOnward(r: Reader, runId: Uuid, codec: Codec, text: string, more: string)
    ensures Drain(r, runId, codec, Done(r, runId, codec, text) + more).0 == Drain(Drain(r, runId, codec, text).0, runId, codec, more).0
    decreases |text|
  {
    hide Handle, Drain, IndexOf, Done;
    if r.failed.Some? || IndexOf(text, BLANK, 0) == |text| {
      NothingDone(r, runId, codec, text);
      NothingDrained(r, runId, codec, text);
      assert "" + more == more;
    } else {
      var i := IndexOf(text, BLANK, 0);
      OneFrame(r, runId, codec, text, i);
      DoneStep(r, runId, codec, text, i);
      var after, frame, tail := Handle(r, runId, codec, text[..i]), text[..i + 2], text[i + 2..];
      DoneOnward(after, runId, codec, tail, more);
      var done := Done(after, runId, codec, tail);
      FirstFrame(text, frame, i);
      SameBoundary(frame, done + more);
      var whole := frame + (done + more);
      assert frame + done + more == whole;
      FrameBefore(frame, done + more, i);
      assert frame[..i] == text[..i];
      OneFrame(r, runId, codec, whole, i);
    }
  }

  lemma FrameBefore(frame: string, rest: string, i: nat)
    requires i + 2 == |frame|
    ensures (frame + rest)[..i] == frame[..i] && (frame + rest)[i + 2..] == rest
  {
  }

  lemma NothingDone(r: Reader, runId: Uuid, codec: Codec, text: string)
    requires r.failed.Some? || IndexOf(text, BLANK, 0) == |text|
    ensures Done(r, runId, codec, text) == ""
  {
  }

  lemma DoneStep(r: Reader, runId: Uuid, codec: Codec, text: string, i: nat)
    requires r.failed.None? && IndexOf(text, BLANK, 0) == i < |text|
    ensures i + 2 <= |text| && text[i + 1] == LF
    ensures Done(r, runId, codec, text) == text[..i + 2] + Done(Handle(r, runId, codec, text[..i]), runId, codec, text[i + 2..])
  {
    hide Handle;
    assert At(text, i, BLANK);
    assert text[i + 1] == text[i..i + 2][1];
  }

  lemma FirstFrame(text: string, frame: string, i: nat)
    requires i == IndexOf(text, BLANK, 0) < |text| && i + 2 <= |text| && frame == text[..i + 2]
    ensures IndexOf(frame, BLANK, 0) == i < |frame|
  {
    hide IndexOf, At;
    forall k | 0 <= k <= i ensures At(frame, k, BLANK) <==> At(text, k, BLANK) { SamePlace(text, frame, i + 2, k); }
    assert At(frame, i, BLANK);
    FirstIs(frame, i);
  }

  lemma SamePlace(text: string, frame: string, n: nat, k: nat)
    requires n <= |text| && frame == text[..n] && k + 2 <= n
    ensures At(frame, k, BLANK) <==> At(text, k, BLANK)
  {
    assert frame[k..k + 2] == text[k..k + 2];
  }

  lemma FirstIs(s: string, i: nat)
    requires i < |s| && At(s, i, BLANK) && forall k :: 0 <= k < i ==> !At(s, k, BLANK)
    ensures IndexOf(s, BLANK, 0) == i
  {
    hide At;
  }

  lemma FailedDrain(r: Reader, runId: Uuid, codec: Codec, text: string)
    requires r.failed.Some?
    ensures Drain(r, runId, codec, text) == (r, text)
  {
  }

  // What is left in the buffer, with the chunks to come, is as stable as the stream was.
  lemma StableRest(raw: string, done: string, rest: string, more: string)
    requires Stable(raw + more) && Normalised(raw) == done + rest
    ensures Stable(rest + more)
  {
    assert raw == (raw + more)[..|raw|];
    Head(raw + more, |raw|);
    StableSettles(raw);
    forall i | 0 <= i < |rest + more| ensures !TroubleAt(rest + more, i) {
      if TroubleAt(rest + more, i) { StraddlesOnly(raw, done + rest, done, rest, more, i); }
    }
  }

  // A pattern in the rest and what follows would have been one in the stream.
  lemma StraddlesOnly(raw: string, n: string, done: string, rest: string, more: string, i: nat)
    requires n == Normalised(raw) == done + rest && !HasPair(n) && TroubleAt(rest + more, i)
    ensures !Stable(raw + more)
  {
    var text, d := rest + more, |done|;
    NormalisedEnds(raw);
    assert d + i + 1 < |n| ==> !PairAt(n, d + i + 1);
    assert i + 2 >= |rest|;
    // In the raw stream the pattern starts as far from the end of what was read.
    var j := |raw| - |rest| + i;
    if i + 2 == |rest| {
      assert n[|n| - 2] == rest[i] && n[|n| - 1] == rest[i + 1];
      assert raw[|raw| - 1] == CR && raw[|raw| - 2] == CR;
    } else if i + 1 == |rest| {
      assert n[|n| - 1] == rest[i];
    }
    assert text[i + 2] == more[i + 2 - |rest|] == (raw + more)[j + 2];
    assert TroubleAt(raw + more, j);
  }

  // A response of at most 131072 characters stays within the limit, however it is cut.
  lemma {:induction false} ShortStreamsFit(r: Reader, runId: Uuid, codec: Codec, buffer: string, chunks: seq<string>)
    requires |buffer| + |Concat(chunks)| <= 131_072
    ensures Fits(r, runId, codec, buffer, chunks)
    decreases |chunks|
  {
    hide Drain, Normalised;
    if chunks != [] && r.failed.None? {
      var text := Normalised(buffer + chunks[0]);
      NormalisedEnds(buffer + chunks[0]);
      var (next, rest) := Drain(r, runId, codec, text);
      DoneAndRest(r, runId, codec, text);
      ShortStreamsFit(next, runId, codec, rest, chunks[1..]);
    }
  }

  // Reading chunk by chunk is draining the whole stream, normalised at once.
  lemma {:induction false} FeedIsDrain(r: Reader, runId: Uuid, codec: Codec, buffer: string, chunks: seq<string>)
    requires Stable(buffer + Concat(chunks)) && Fits(r, runId, codec, buffer, chunks) && !HasPair(buffer)
    requires r.failed.None? ==> Drain(r, runId, codec, buffer) == (r, buffer)
    ensures Feed(r, runId, codec, buffer, chunks) == Drain(r, runId, codec, Normalised(buffer + Concat(chunks))).0
    decreases |chunks|
  {
    hide Drain, Done, Handle, Normalised, HasPair, Stable;
    if r.failed.Some? {
      FailedDrain(r, runId, codec, Normalised(buffer + Concat(chunks)));
    } else if chunks == [] {
      assert buffer + Concat(chunks) == buffer;
      NoPairIs(buffer);
    } else {
      var raw, more := buffer + chunks[0], Concat(chunks[1..]);
      assert buffer + Concat(chunks) == raw + more;
      var text := Normalised(raw);
      var (next, rest) := Drain(r, runId, codec, text);
      var done := Done(r, runId, codec, text);
      DoneAndRest(r, runId, codec, text);
      DoneEndsLine(r, runId, codec, text);
      RestIsDrained(r, runId, codec, text);
      DoneOnward(r, runId, codec, text, Normalised(rest + more));
      StableRest(raw, done, rest, more);
      Settled(raw, more, done, rest);
      FeedIsDrain(next, runId, codec, rest, chunks[1..]);
    }
  }

  // The delivered part is final, and normalising goes on with the rest alone.
  lemma Settled(raw: string, more: string, done: string, rest: string)
    requires Stable(raw + more) && Normalised(raw) == done + rest && (done != "" ==> done[|done| - 1] == LF)
    ensures Normalised(raw + more) == done + Normalised(rest + more) && !HasPair(rest)
  {
    hide Normalised, Stable;
    assert raw == (raw + more)[..|raw|];
    Head(raw + more, |raw|);
    StableSettles(raw);
    StableSteps(raw, more);
    PartsHaveNoPair(done, rest);
    NoPairIs(done);
    assert (done + rest) + more == done + (rest + more);
    NormalisedJoins(done, rest + more);
  }

  lemma PartsHaveNoPair(done: string, rest: string)
    requires !HasPair(done + rest)
    ensures !HasPair(done) && !HasPair(rest)
  {
    forall i | 0 <= i < |done| ensures !PairAt(done, i) { assert !PairAt(done + rest, i); }
    forall i | 0 <= i < |rest| ensures !PairAt(rest, i) { assert !PairAt(done + rest, |done| + i); }
  }

  // However a stable stream is cut into chunks, the events received are the same.
  lemma ChunkingDoesNotMatter(runId: Uuid, codec: Codec, from: nat, chunks: seq<string>, chunks': seq<string>)
    requires Concat(chunks) == Concat(chunks') && Stable(Concat(chunks))
    requires Fits(Reader(from, [], None), runId, codec, "", chunks) && Fits(Reader(from, [], None), runId, codec, "", chunks')
    ensures Feed(Reader(from, [], None), runId, codec, "", chunks) == Feed(Reader(from, [], None), runId, codec, "", chunks')
    ensures Feed(Reader(from, [], None), runId, codec, "", chunks)
         == Drain(Reader(from, [], None), runId, codec, Normalised(Concat(chunks))).0
  {
    hide Drain, Feed, Fits, Normalised, Stable;
    EmptyDrain(Reader(from, [], None), runId, codec);
    assert "" + Concat(chunks) == Concat(chunks);
    FeedIsDrain(Reader(from, [], None), runId, codec, "", chunks);
    FeedIsDrain(Reader(from, [], None), runId, codec, "", chunks');
  }

  lemma EmptyDrain(r: Reader, runId: Uuid, codec: Codec)
    ensures Drain(r, runId, codec, "") == (r, "")
  {
  }

  // ---------------------------------------------------------------- the server's stream

  // What `stream_events` yields; a progress item carries its cursor line and its JSON text.
  datatype Item = Beat | Progress(event: RunEvent, id: string, text: string) | Lost

  function Body(item: Item): string {
    match item
    case Beat => ": heartbeat"
    case Lost => ACCESS_LOST + "\ndata: {}"
    case Progress(_, id, text) => "id: " + id + "\nevent: progress\ndata: " + text
  }

  function Render(items: seq<Item>): string {
    if items == [] then "" else Body(items[0]) + BLANK + Render(items[1..])
  }

  // JSON text is one line, control characters being escaped, and reads back as the event.
  predicate Printed(codec: Codec, item: Item)
    requires item.Progress?
  {
    && '\n' !in item.id && '\n' !in item.text && item.text != ""
    && '\r' !in item.id && '\r' !in item.text
    && item.text in codec && codec[item.text] == item.event
  }

  // The client looks for the loss of access anywhere in a frame, so a line that spells it counts as one.
  predicate Spells(item: Item)
    requires item.Progress?
  {
    Contains("id: " + item.id, ACCESS_LOST) || Contains(DATA + item.text, ACCESS_LOST)
  }

  predicate Legible(codec: Codec, item: Item) {
    item.Progress? ==> Printed(codec, item) && !Spells(item)
  }

  // The journal's events after a cursor, in order and without a gap, between heartbeats; once access is
  // lost nothing follows.
  ghost predicate Follows(items: seq<Item>, journal: seq<RunEvent>, after: nat)
    decreases |items|
  {
    items == []
    || (match items[0]
        case Beat => Follows(items[1..], journal, after)
        case Lost => |items| == 1
        case Progress(event, _, _) => after < |journal| && event == journal[after] && Follows(items[1..], journal, after + 1))
  }

  // The run's journal as both stores keep it: the k-th event has sequence k.
  ghost predicate Journal(journal: seq<RunEvent>, runId: Uuid) {
    forall k :: 0 <= k < |journal| ==> journal[k].runId == runId && journal[k].sequence == k + 1
  }

  // One turn of the server's loop: the run row as read (its sequence and whether it is terminal), the
  // events selected afterwards, and how many of them authority allowed.
  datatype Turn = Turn(readable: bool, sequence: nat, ended: bool, events: seq<RunEvent>, authorized: nat)

  // The cursor line and the JSON text of an event.
  datatype Printer = Printer(id: RunEvent -> string, text: RunEvent -> string)

  function Sent(printer: Printer, event: RunEvent): Item {
    Progress(event, printer.id(event), printer.text(event))
  }

  // The events of a turn are those the journal has next.
  ghost predicate Continuing(turn: Turn, journal: seq<RunEvent>, after: nat) {
    turn.readable ==> after + |turn.events| <= |journal| && turn.events == journal[after..after + |turn.events|]
  }

  ghost predicate Growing(turns: seq<Turn>, journal: seq<RunEvent>, after: nat)
    decreases |turns|
  {
    turns == []
    || (Continuing(turns[0], journal, after)
        && (turns[0].readable ==> Growing(turns[1..], journal, after + |turns[0].events|)))
  }

  class EventStream {
    ghost const from: nat
    var after: nat
    var sent: seq<Item>

    // Everything sent so far continues the journal from the cursor the client came with.
    ghost predicate Open(journal: seq<RunEvent>)
      reads this
    {
      Follows(sent, journal, from) && LostAt(sent) == |sent| && after == Cursor(sent, from) <= |journal|
    }

    constructor (from: nat)
      ensures this.from == after == from && sent == []
    {
      this.from, after, sent := from, from, [];
    }

    // `journal` is the run's journal, now or at any later time.
    method Take(ghost journal: seq<RunEvent>, printer: Printer, turn: Turn) returns (open: bool)
      requires Open(journal) && Continuing(turn, journal, after)
      modifies this`after, this`sent
      ensures sent == old(sent) + TurnItems(printer, turn, old(after))
      ensures Follows(sent, journal, from) && after == Cursor(sent, from)
      ensures open == Continues(turn, old(after)) && (open ==> Open(journal) && after == old(after) + |turn.events|)
    {
      hide Follows, LostAt, Cursor;
      ghost var start, before := after, sent;
      TurnFollows(printer, turn, journal, start);
      FollowsJoin(before, TurnItems(printer, turn, start), journal, from);
      if !turn.readable {
        sent := sent + [Lost];
        return false;
      }
      var k := 0;
      while k < |turn.events|
        invariant k <= |turn.events| && k <= turn.authorized && after == start + k
        invariant sent == before + ProgressItems(printer, turn.events, k)
      {
        if k == turn.authorized {
          sent := sent + [Lost];
          return false;
        }
        sent := sent + [Sent(printer, turn.events[k])];
        after := after + 1;
        k := k + 1;
      }
      if turn.ended && after == turn.sequence {
        return false;
      }
      sent := sent + [Beat];
      return true;
    }

    // The whole response: turn after turn until one of them ends it, the time is up or the client is gone.
    method Stream(ghost journal: seq<RunEvent>, printer: Printer, turns: seq<Turn>)
      requires Open(journal) && Growing(turns, journal, after)
      modifies this`after, this`sent
      ensures sent == old(sent) + StreamItems(printer, turns, old(after))
      ensures Follows(sent, journal, from) && after == Cursor(sent, from)
    {
      hide Follows, LostAt, Cursor, TurnItems;
      var next, open := 0, true;
      ghost var start, before := after, sent;
      assert turns[0..] == turns;
      while next < |turns| && open
        invariant next <= |turns|
        invariant Follows(sent, journal, from) && after == Cursor(sent, from)
        invariant open ==> Open(journal) && Growing(turns[next..], journal, after)
        invariant before + StreamItems(printer, turns, start) == sent + if open then StreamItems(printer, turns[next..], after) else []
      {
        assert turns[next..][1..] == turns[next + 1..];
        open := Take(journal, printer, turns[next]);
        next := next + 1;
      }
    }
  }

  function ProgressItems(printer: Printer, events: seq<RunEvent>, upto: nat): (items: seq<Item>)
    requires upto <= |events|
    ensures |items| == upto
  {
    if upto == 0 then [] else ProgressItems(printer, events, upto - 1) + [Sent(printer, events[upto - 1])]
  }

  predicate Continues(turn: Turn, after: nat) {
    turn.readable && |turn.events| <= turn.authorized && !(turn.ended && after + |turn.events| == turn.sequence)
  }

  function TurnItems(printer: Printer, turn: Turn, after: nat): seq<Item> {
    if !turn.readable then [Lost]
    else if turn.authorized < |turn.events| then ProgressItems(printer, turn.events, turn.authorized) + [Lost]
    else ProgressItems(printer, turn.events, |turn.events|) + if Continues(turn, after) then [Beat] else []
  }

  function StreamItems(printer: Printer, turns: seq<Turn>, after: nat): seq<Item>
    decreases |turns|
  {
    if turns == [] then []
    else
      TurnItems(printer, turns[0], after)
      + if Continues(turns[0], after) then StreamItems(printer, turns[1..], after + |turns[0].events|) else []
  }

  lemma {:induction false} ProgressFollows(printer: Printer, events: seq<RunEvent>, journal: seq<RunEvent>, after: nat, upto: nat)
    requires upto <= |events| && after + |events| <= |journal| && events == journal[after..after + |events|]
    ensures var items := ProgressItems(printer, events, upto);
            Follows(items, journal, after) && LostAt(items) == |items| && Cursor(items, after) == after + upto
    decreases upto
  {
    if 0 < upto {
      ProgressFollows(printer, events, journal, after, upto - 1);
      FollowsMore(ProgressItems(printer, events, upto - 1), journal, after, Sent(printer, events[upto - 1]));
    }
  }

  // One turn sends the next events without a gap, then a heartbeat or nothing, or the loss of access.
  lemma TurnFollows(printer: Printer, turn: Turn, journal: seq<RunEvent>, after: nat)
    requires Continuing(turn, journal, after)
    ensures var items := TurnItems(printer, turn, after);
            && Follows(items, journal, after)
            && Cursor(items, after)
               == (if !turn.readable then after
                   else if turn.authorized < |turn.events| then after + turn.authorized else after + |turn.events|)
            && (Continues(turn, after) ==> LostAt(items) == |items|)
  {
    if turn.readable {
      var upto := if turn.authorized < |turn.events| then turn.authorized else |turn.events|;
      ProgressFollows(printer, turn.events, journal, after, upto);
      var items := ProgressItems(printer, turn.events, upto);
      FollowsMore(items, journal, after, Lost);
      FollowsMore(items, journal, after, Beat);
      assert items + [] == items;
    }
  }

  // A whole response continues the journal from the client's cursor, however the journal grew meanwhile.
  lemma {:induction false} StreamFollows(printer: Printer, turns: seq<Turn>, journal: seq<RunEvent>, after: nat)
    requires Growing(turns, journal, after)
    ensures Follows(StreamItems(printer, turns, after), journal, after)
    decreases |turns|
  {
    hide Follows, LostAt, Cursor, TurnItems;
    if turns == [] {
      assert Follows([], journal, after) by { NothingFollows(journal, after); }
    } else {
      var items, next := TurnItems(printer, turns[0], after), after + |turns[0].events|;
      TurnFollows(printer, turns[0], journal, after);
      if Continues(turns[0], after) {
        StreamFollows(printer, turns[1..], journal, next);
        FollowsJoin(items, StreamItems(printer, turns[1..], next), journal, after);
      } else {
        assert items + [] == items;
      }
    }
  }

  lemma NothingFollows(journal: seq<RunEvent>, after: nat)
    ensures Follows([], journal, after)
  {
  }

  lemma {:induction false} FollowsJoin(a: seq<Item>, b: seq<Item>, journal: seq<RunEvent>, after: nat)
    requires Follows(a, journal, after) && LostAt(a) == |a| && Follows(b, journal, Cursor(a, after))
    ensures Follows(a + b, journal, after) && Cursor(a + b, after) == Cursor(b, Cursor(a, after))
    ensures LostAt(b) == |b| ==> LostAt(a + b) == |a + b|
    decreases |a|
  {
    if a == [] {
      assert a + b == b;
    } else {
      assert (a + b)[1..] == a[1..] + b;
      FollowsJoin(a[1..], b, journal, if a[0].Progress? then after + 1 else after);
    }
  }

  // How many items come before access is lost, and where the cursor stands after all of them.
  function LostAt(items: seq<Item>): nat {
    if items == [] || items[0] == Lost then 0 else 1 + LostAt(items[1..])
  }

  function Cursor(items: seq<Item>, after: nat): nat
    decreases |items|
  {
    if items == [] then after else Cursor(items[1..], if items[0].Progress? then after + 1 else after)
  }

  lemma {:induction false} FollowsMore(items: seq<Item>, journal: seq<RunEvent>, after: nat, item: Item)
    requires Follows(items, journal, after) && LostAt(items) == |items|
    requires item.Progress? ==> Cursor(items, after) < |journal| && item.event == journal[Cursor(items, after)]
    ensures Follows(items + [item], journal, after)
    ensures Cursor(items + [item], after) == Cursor(items, after) + if item.Progress? then 1 else 0
    ensures item != Lost ==> LostAt(items + [item]) == |items| + 1
    decreases |items|
  {
    if items != [] {
      assert (items + [item])[1..] == items[1..] + [item];
      FollowsMore(items[1..], journal, if items[0].Progress? then after + 1 else after, item);
    }
  }

  // ---------------------------------------------------------------- the stream read back

  predicate OneLine(s: string) { '\n' !in s }

  lemma LineFirst(line: string, rest: string)
    requires OneLine(line)
    ensures Lines(line + "\n" + rest) == [line] + Lines(rest)
    ensures Lines(line) == [line]
  {
    var s := line + "\n" + rest;
    assert s[|line|] == '\n' && s[..|line|] == line && s[|line| + 1..] == rest;
    assert At(s, |line|, "\n") by { assert s[|line|..|line| + 1] == "\n"; }
    forall k | 0 <= k < |line| ensures !At(s, k, "\n") && !At(line, k, "\n") {
      assert s[k] == line[k] && line[k] in line;
      assert s[k..k + 1][0] == line[k] && line[k..k + 1][0] == line[k];
    }
  }

  // A marker without a line break sits inside one line.
  lemma ContainsByLine(line: string, rest: string, needle: string)
    requires OneLine(needle) && needle != ""
    ensures Contains(line + "\n" + rest, needle) ==> Contains(line, needle) || Contains(rest, needle)
  {
    var s, n := line + "\n" + rest, |needle|;
    assert s[|line|] == '\n';
    if Contains(s, needle) {
      var i :| 0 <= i <= |s| && At(s, i, needle);
      forall k | i <= k < i + n ensures s[k] != '\n' {
        assert s[k] == s[i..i + n][k - i] == needle[k - i] && needle[k - i] in needle;
      }
      if i + n <= |line| {
        assert line[i..i + n] == s[i..i + n];
        assert At(line, i, needle);
      } else if |line| < i {
        assert rest[i - |line| - 1..i - |line| - 1 + n] == s[i..i + n];
        assert At(rest, i - |line| - 1, needle);
      }
    }
  }

  lemma ShortContains(s: string, needle: string)
    requires |s| < |needle|
    ensures !Contains(s, needle)
  {
  }

  lemma ContainsMore(before: string, part: string, behind: string, needle: string)
    requires Contains(part, needle)
    ensures Contains(before + part + behind, needle)
  {
    var s := before + part + behind;
    var i :| 0 <= i <= |part| && At(part, i, needle);
    assert s[|before| + i..|before| + i + |needle|] == part[i..i + |needle|];
    assert At(s, |before| + i, needle);
  }

  // A progress frame ends the watch as a loss of access exactly when one of its lines spells it.
  lemma LossIsSpelled(r: Reader, runId: Uuid, codec: Codec, item: Item)
    requires r.failed.None? && item.Progress? && Printed(codec, item)
    ensures Handle(r, runId, codec, Body(item)).failed == Some(AccessLost) <==> Spells(item)
  {
    hide Lines, Contains, Joined;
    var first, middle, last := "id: " + item.id, "event: progress", DATA + item.text;
    assert Body(item) == first + "\n" + (middle + "\n" + last);
    hide Body;
    SpelledShows(first, middle, last);
    if !Contains(first, ACCESS_LOST) && !Contains(last, ACCESS_LOST) {
      assert OneLine(first);
      ContainsByLine(first, middle + "\n" + last, ACCESS_LOST);
      ContainsByLine(middle, last, ACCESS_LOST);
      ShortContains(middle, ACCESS_LOST);
    }
  }

  lemma SpelledShows(first: string, middle: string, last: string)
    ensures Contains(first, ACCESS_LOST) || Contains(last, ACCESS_LOST) ==> Contains(first + "\n" + (middle + "\n" + last), ACCESS_LOST)
  {
    hide Contains;
    var body := first + "\n" + (middle + "\n" + last);
    assert "" + first + ("\n" + (middle + "\n" + last)) == body && first + "\n" + middle + "\n" + last + "" == body;
    if Contains(first, ACCESS_LOST) { ContainsMore("", first, "\n" + (middle + "\n" + last), ACCESS_LOST); }
    if Contains(last, ACCESS_LOST) { ContainsMore(first + "\n" + middle + "\n", last, "", ACCESS_LOST); }
  }

  // What each kind of frame is to the client.
  lemma ProgressReads(codec: Codec, item: Item)
    requires item.Progress? && Legible(codec, item)
    ensures !Contains(Body(item), ACCESS_LOST) && Joined(Lines(Body(item))) == item.text
  {
    hide Lines, Contains, Joined;
    var first, last := "id: " + item.id, DATA + item.text;
    var middle := "event: progress";
    assert OneLine(first) && OneLine(middle) && OneLine(last);
    assert Body(item) == first + "\n" + (middle + "\n" + last);
    LineFirst(first, middle + "\n" + last);
    LineFirst(middle, last);
    LineFirst(last, "");
    ContainsByLine(first, middle + "\n" + last, ACCESS_LOST);
    ContainsByLine(middle, last, ACCESS_LOST);
    ShortContains(middle, ACCESS_LOST);
    assert Lines(Body(item)) == [first, middle, last];
    DataIsLast(first, middle, last, item.text);
  }

  lemma DataIsLast(first: string, middle: string, last: string, text: string)
    requires |first| > 0 && first[0] == 'i' && |middle| > 0 && middle[0] == 'e' && last == DATA + text
    ensures Joined([first, middle, last]) == text
  {
    assert last[|DATA|..] == text && DATA <= last;
    assert [first, middle, last][1..] == [middle, last] && [middle, last][1..] == [last] && [last][1..] == [];
    assert Joined([last]) == text;
    assert Joined([middle, last]) == Joined([last]);
  }

  lemma BeatReads()
    ensures !Contains(Body(Beat), ACCESS_LOST) && Joined(Lines(Body(Beat))) == ""
  {
    ShortContains(Body(Beat), ACCESS_LOST);
    LineFirst(Body(Beat), "");
    assert [Body(Beat)][1..] == [];
  }

  lemma LostReads()
    ensures Contains(Body(Lost), ACCESS_LOST)
  {
    assert At(Body(Lost), 0, ACCESS_LOST);
  }

  // No frame contains a blank line, so each ends exactly where the next begins.
  lemma BodyUnbroken(codec: Codec, item: Item)
    requires Legible(codec, item)
    ensures forall k :: 0 <= k < |Body(item)| ==> !At(Body(item) + "\n", k, BLANK)
  {
    hide Contains;
    var body := Body(item);
    forall k | 0 <= k < |body| ensures !At(body + "\n", k, BLANK) {
      if At(body + "\n", k, BLANK) {
        assert (body + "\n")[k..k + 2][0] == '\n' && (body + "\n")[k..k + 2][1] == '\n';
        BreakPlaces(item, k);
      }
    }
  }

  const BETWEEN := "\nevent: progress\ndata: "

  lemma BetweenBreaks(j: nat)
    requires j < |BETWEEN| && BETWEEN[j] == '\n'
    ensures j + 1 < |BETWEEN| && BETWEEN[j + 1] != '\n'
  {
  }

  lemma BreakPlaces(item: Item, k: nat)
    requires item.Progress? ==> '\n' !in item.id && '\n' !in item.text && item.text != ""
    requires k < |Body(item)| && Body(item)[k] == '\n'
    ensures k + 1 < |Body(item)| && Body(item)[k + 1] != '\n'
  {
    if item.Progress? {
      var first := "id: " + item.id;
      assert Body(item) == first + BETWEEN + item.text;
      InThree(first, BETWEEN, item.text, k);
      BetweenBreaks(k - |first|);
    }
  }

  // A line break between two unbroken texts lies in what joins them.
  lemma InThree(a: string, b: string, c: string, k: nat)
    requires '\n' !in a && '\n' !in c && k < |a + b + c| && (a + b + c)[k] == '\n'
    ensures |a| <= k < |a| + |b| && b[k - |a|] == '\n'
    ensures k + 1 < |a| + |b| ==> (a + b + c)[k + 1] == b[k + 1 - |a|]
  {
    assert forall j :: 0 <= j < |a| ==> a[j] in a;
    assert forall j :: 0 <= j < |c| ==> c[j] in c;
  }

  lemma FrameEnds(codec: Codec, item: Item, p: string)
    requires Legible(codec, item)
    ensures p <= Body(item) + "\n" ==> IndexOf(p, BLANK, 0) == |p|
    ensures Body(item) + BLANK <= p ==> IndexOf(p, BLANK, 0) == |Body(item)| < |p|
  {
    hide Body, Legible, At, IndexOf;
    BodyUnbroken(codec, item);
    if p <= Body(item) + "\n" { FrameOpen(Body(item), p); }
    if Body(item) + BLANK <= p { FrameComplete(Body(item), p); }
  }

  lemma FrameOpen(body: string, p: string)
    requires (forall k :: 0 <= k < |body| ==> !At(body + "\n", k, BLANK)) && p <= body + "\n"
    ensures IndexOf(p, BLANK, 0) == |p|
  {
    hide IndexOf;
    forall k | 0 <= k < |p| ensures !At(p, k, BLANK) {
      if k + 2 <= |p| { assert p[k..k + 2] == (body + "\n")[k..k + 2] && !At(body + "\n", k, BLANK); }
    }
  }

  lemma FrameComplete(body: string, p: string)
    requires (forall k :: 0 <= k < |body| ==> !At(body + "\n", k, BLANK)) && body + BLANK <= p
    ensures IndexOf(p, BLANK, 0) == |body| < |p|
  {
    hide IndexOf;
    assert p[|body|..|body| + 2] == (body + BLANK)[|body|..|body| + 2] == BLANK;
    forall k | 0 <= k < |body| ensures !At(p, k, BLANK) {
      assert p[k..k + 2] == (body + "\n")[k..k + 2] && !At(body + "\n", k, BLANK);
    }
    FirstIs(p, |body|);
  }

  // What reading one item does, when it is the one the cursor expects.
  lemma HandleItem(r: Reader, runId: Uuid, codec: Codec, item: Item, journal: seq<RunEvent>)
    requires r.failed.None? && Legible(codec, item) && Journal(journal, runId)
    requires item.Progress? ==> r.after < |journal| && item.event == journal[r.after]
    ensures Handle(r, runId, codec, Body(item))
         == match item
            case Beat => r
            case Lost => r.(failed := Some(AccessLost))
            case Progress(event, _, _) => r.(received := r.received + [event], after := r.after + 1)
  {
    hide Contains, Lines, Joined, Body;
    match item
    case Beat => BeatReads();
    case Lost => LostReads();
    case Progress(_, _, _) => ProgressReads(codec, item);
  }

  // The client received exactly the journal's events from its cursor on, up to its new cursor.
  ghost predicate Delivered(r: Reader, r': Reader, journal: seq<RunEvent>) {
    && r.after <= r'.after <= |journal|
    && r'.received == r.received + journal[r.after..r'.after]
    && (r'.failed.None? || r'.failed == Some(AccessLost))
  }

  // Wherever the stream is cut off, no gap is ever reported, and nothing is skipped or repeated.
  lemma {:induction false} CutStreamDelivers(r: Reader, runId: Uuid, codec: Codec, items: seq<Item>, journal: seq<RunEvent>, p: string)
    requires r.failed.None? && r.after <= |journal| && Journal(journal, runId)
    requires Follows(items, journal, r.after) && (forall item :: item in items ==> Legible(codec, item)) && p <= Render(items)
    ensures Delivered(r, Drain(r, runId, codec, p).0, journal)
    ensures p == Render(items) ==> Drain(r, runId, codec, p).0.after == Cursor(items, r.after)
    ensures Lost !in items ==> Drain(r, runId, codec, p).0.failed.None?
    decreases |items|
  {
    hide Handle, Legible, Body, Drain, Journal;
    if items == [] {
      EmptyDrain(r, runId, codec);
    } else {
      var item, rest := items[0], Render(items[1..]);
      var body, frame := Body(item), Body(item) + BLANK;
      assert Render(items) == frame + rest;
      FrameEnds(codec, item, p);
      if |p| < |frame| {
        CutShort(body, rest, p);
        Unfinished(r, runId, codec, p);
      } else {
        assert p[..|frame|] == frame && p[..|body|] == body && p[|body| + 2..] <= rest;
        HandleItem(r, runId, codec, item, journal);
        OneFrame(r, runId, codec, p, |body|);
        var next := Handle(r, runId, codec, body);
        if item == Lost {
          FailedDrain(next, runId, codec, p[|body| + 2..]);
        } else {
          CutStreamDelivers(next, runId, codec, items[1..], journal, p[|body| + 2..]);
        }
      }
    }
  }

  lemma Unfinished(r: Reader, runId: Uuid, codec: Codec, p: string)
    requires IndexOf(p, BLANK, 0) == |p|
    ensures Drain(r, runId, codec, p) == (r, p)
  {
  }

  lemma OneFrame(r: Reader, runId: Uuid, codec: Codec, p: string, i: nat)
    requires r.failed.None? && IndexOf(p, BLANK, 0) == i < |p|
    ensures i + 2 <= |p| && Drain(r, runId, codec, p) == Drain(Handle(r, runId, codec, p[..i]), runId, codec, p[i + 2..])
  {
  }

  lemma CutShort(body: string, rest: string, p: string)
    requires p <= body + BLANK + rest && |p| < |body + BLANK|
    ensures p <= body + "\n"
  {
    assert body + BLANK == body + "\n" + "\n";
    assert p == (body + BLANK + rest)[..|p|];
    assert (body + "\n")[..|p|] == p;
  }

  // The same for what actually arrives: any chunks that add up to a beginning of the stream.
  lemma ReplayDelivers(runId: Uuid, codec: Codec, from: nat, items: seq<Item>, journal: seq<RunEvent>, chunks: seq<string>)
    requires from <= |journal| && Journal(journal, runId) && Follows(items, journal, from)
    requires (forall item :: item in items ==> Legible(codec, item)) && Concat(chunks) <= Render(items)
    requires Fits(Reader(from, [], None), runId, codec, "", chunks)
    ensures Delivered(Reader(from, [], None), Feed(Reader(from, [], None), runId, codec, "", chunks), journal)
    ensures Lost !in items ==> Feed(Reader(from, [], None), runId, codec, "", chunks).failed.None?
  {
    hide Drain, Feed, Fits, Follows, Legible, Render, Journal, Delivered, Normalised, Stable, HasPair;
    var r, text := Reader(from, [], None), Concat(chunks);
    EmptyDrain(r, runId, codec);
    assert "" + text == text;
    RenderPlain(codec, items);
    forall c | c in text ensures c != CR { assert c in Render(items); }
    PlainIs(text);
    PlainIs("");
    FeedIsDrain(r, runId, codec, "", chunks);
    CutStreamDelivers(r, runId, codec, items, journal, text);
  }

  lemma {:induction false} RenderPlain(codec: Codec, items: seq<Item>)
    requires forall item :: item in items ==> Legible(codec, item)
    ensures CR !in Render(items)
  {
    hide Contains;
    if items != [] {
      BodyPlain(codec, items[0]);
      RenderPlain(codec, items[1..]);
    }
  }

  lemma BodyPlain(codec: Codec, item: Item)
    requires Legible(codec, item)
    ensures CR !in Body(item)
  {
    hide Contains;
    if item.Progress? {
      assert Body(item) == "id: " + item.id + BETWEEN + item.text;
      assert CR !in BETWEEN && CR !in "id: ";
    }
  }

  // ---------------------------------------------------------------- where chunking does matter

  const LINE := "data: A\n"
  const NEXT := "data: B\n\n"
  const BOTH := "data: A\n\r\ndata: B"

  lemma HandleBoth(r: Reader, runId: Uuid, codec: Codec)
    requires "A\nB" !in codec
    ensures Handle(r, runId, codec, "data: A\n\r\ndata: B") == r.(failed := Some(Unreadable))
  {
    hide Lines, Contains, Joined;
    var a, b, c := "data: A", "\r", "data: B";
    assert "data: A\n\r\ndata: B" == a + "\n" + (b + "\n" + c);
    LineFirst(a, b + "\n" + c);
    LineFirst(b, c);
    LineFirst(c, "");
    ContainsByLine(a, b + "\n" + c, ACCESS_LOST);
    ContainsByLine(b, c, ACCESS_LOST);
    ShortContains(a, ACCESS_LOST);
    ShortContains(b, ACCESS_LOST);
    ShortContains(c, ACCESS_LOST);
    assert Lines(a + "\n" + (b + "\n" + c)) == [a, b, c];
    JoinBoth();
  }

  lemma JoinBoth()
    ensures Joined(["data: A", "\r", "data: B"]) == "A\nB"
  {
    var l := ["data: A", "\r", "data: B"];
    assert l[1..] == ["\r", "data: B"] && l[1..][1..] == ["data: B"] && l[2..] == ["data: B"];
    assert DataLines(["data: B"]) == 1 by { assert ["data: B"][1..] == []; }
    assert DATA <= "data: B" && !(DATA <= "\r") && DATA <= "data: A";
    assert "data: A"[6..] == "A" && "data: B"[6..] == "B";
    assert ["data: B"][1..] == [];
    assert Joined(["data: B"]) == "B";
    assert Joined(["\r", "data: B"]) == "B";
    assert "A" + "\n" + "B" == "A\nB";
  }

  lemma HandleOne(r: Reader, runId: Uuid, codec: Codec, c: char, event: RunEvent)
    requires [c] in codec && codec[[c]] == event && event.runId == runId && event.sequence == r.after + 1 && c != '\n'
    ensures Handle(r, runId, codec, DATA + [c]) == r.(received := r.received + [event], after := r.after + 1)
  {
    hide Lines, Contains;
    LineFirst(DATA + [c], "");
    ShortContains(DATA + [c], ACCESS_LOST);
    assert [DATA + [c]][1..] == [];
    assert (DATA + [c])[6..] == [c];
  }

  predicate Broken(s: string, k: nat) {
    k + 1 < |s| && s[k] == LF && s[k + 1] == LF
  }

  lemma NoBreakYet(s: string)
    requires forall k :: 0 <= k < |s| ==> !Broken(s, k)
    ensures IndexOf(s, BLANK, 0) == |s|
  {
    forall k | 0 <= k < |s| ensures !At(s, k, BLANK) {
      assert !Broken(s, k);
      if k + 2 <= |s| { assert s[k..k + 2][0] == s[k] && s[k..k + 2][1] == s[k + 1]; }
    }
  }

  // A frame with no blank line inside it ends at the first blank line.
  lemma FrameThen(r: Reader, runId: Uuid, codec: Codec, frame: string, more: string)
    requires r.failed.None? && frame != "" && frame[|frame| - 1] != LF && forall k :: 0 <= k < |frame| ==> !Broken(frame, k)
    ensures Drain(r, runId, codec, frame + BLANK + more) == Drain(Handle(r, runId, codec, frame), runId, codec, more)
  {
    hide Handle;
    var s := frame + BLANK + more;
    forall k | 0 <= k < |frame| ensures !At(s, k, BLANK) {
      assert !Broken(frame, k);
      assert s[k..k + 2][0] == s[k] && s[k..k + 2][1] == s[k + 1];
    }
    assert s[|frame|..|frame| + 2] == BLANK;
    FirstIs(s, |frame|);
    assert s[..|frame|] == frame && s[|frame| + 2..] == more;
    OneFrame(r, runId, codec, s, |frame|);
  }

  lemma FeedOne(r: Reader, runId: Uuid, codec: Codec, buffer: string, chunk: string, rest: seq<string>)
    requires r.failed.None? && |Normalised(buffer + chunk)| <= LIMIT
    ensures var (next, left) := Drain(r, runId, codec, Normalised(buffer + chunk));
            Feed(r, runId, codec, buffer, [chunk] + rest) == Feed(next, runId, codec, left, rest)
  {
    hide Drain, Normalised;
    assert ([chunk] + rest)[1..] == rest;
  }

  lemma ReadAtOnce(r: Reader, runId: Uuid, codec: Codec)
    requires r.failed.None? && "A\nB" !in codec
    ensures Drain(r, runId, codec, LINE + "\r\n" + NEXT).0 == r.(failed := Some(Unreadable))
  {
    hide Handle, Drain;
    assert LINE + "\r\n" + NEXT == BOTH + BLANK + "";
    forall k | 0 <= k < |BOTH| ensures !Broken(BOTH, k) {}
    FrameThen(r, runId, codec, BOTH, "");
    HandleBoth(r, runId, codec);
    FailedDrain(Handle(r, runId, codec, BOTH), runId, codec, "");
  }

  lemma ReadHalf(r: Reader, runId: Uuid, codec: Codec)
    ensures Drain(r, runId, codec, LINE + "\r\n") == (r, LINE + "\r\n")
  {
    hide Drain;
    var kept := LINE + "\r\n";
    forall k | 0 <= k < |kept| ensures !Broken(kept, k) {}
    NoBreakYet(kept);
    NothingDrained(r, runId, codec, kept);
  }

  lemma ReadCut(r: Reader, runId: Uuid, codec: Codec, first: RunEvent, second: RunEvent)
    requires r.failed.None? && first.runId == second.runId == runId && first.sequence == r.after + 1 && second.sequence == r.after + 2
    requires codec == map["A" := first, "B" := second]
    ensures Drain(r, runId, codec, LINE + "\n" + NEXT).0 == r.(received := r.received + [first] + [second], after := r.after + 2)
  {
    hide Handle, Drain;
    var a, b := DATA + ['A'], DATA + ['B'];
    assert LINE + "\n" + NEXT == a + BLANK + (b + BLANK + "");
    HandleOne(r, runId, codec, 'A', first);
    var next := Handle(r, runId, codec, a);
    HandleOne(next, runId, codec, 'B', second);
    FrameThen(r, runId, codec, a, b + BLANK + "");
    FrameThen(next, runId, codec, b, "");
    EmptyDrain(Handle(next, runId, codec, b), runId, codec);
  }

  // The premise is needed: a stream with the pattern, read at once and cut behind it. At once it is a
  // single frame whose two data lines are no event; cut, it is two frames with an event each.
  lemma ReturnsBreakChunking(runId: Uuid, from: nat, first: RunEvent, second: RunEvent)
    requires first.runId == second.runId == runId && first.sequence == from + 1 && second.sequence == from + 2
    ensures var codec, r := map["A" := first, "B" := second], Reader(from, [], None);
            && Concat([LINE + TROUBLE + NEXT]) == Concat([LINE + TROUBLE, NEXT])
            && Feed(r, runId, codec, "", [LINE + TROUBLE + NEXT]) == Reader(from, [], Some(Unreadable))
            && Feed(r, runId, codec, "", [LINE + TROUBLE, NEXT]) == Reader(from + 2, [first, second], None)
  {
    hide Handle, Drain, Normalised;
    var codec, r := map["A" := first, "B" := second], Reader(from, [], None);
    TroubleReads(LINE, NEXT);
    TroubleReads(LINE, "");
    PairReads(LINE, NEXT);
    assert LINE + TROUBLE + "" == "" + (LINE + TROUBLE) && LINE + "\r\n" + "" == LINE + "\r\n";
    assert "" + (LINE + TROUBLE + NEXT) == LINE + TROUBLE + NEXT;
    ReadAtOnce(r, runId, codec);
    FeedOne(r, runId, codec, "", LINE + TROUBLE + NEXT, []);
    ReadHalf(r, runId, codec);
    FeedOne(r, runId, codec, "", LINE + TROUBLE, [NEXT]);
    ReadCut(r, runId, codec, first, second);
    FeedOne(r, runId, codec, LINE + "\r\n", NEXT, []);
    assert [LINE + TROUBLE, NEXT] == [LINE + TROUBLE] + [NEXT] && [NEXT] + [] == [NEXT];
  }
}
