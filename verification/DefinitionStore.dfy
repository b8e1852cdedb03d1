/** The compare-and-swap table of definition streams, and every interleaving of clients over it. */
module DefinitionStores {
  import opened Runs
  import opened Governance

  datatype Stream = Stream(revision: nat, payload: State)

  // The row's integrity as `read` checks it.
  predicate Intact(stream: Stream) {
    && stream.payload.revision == stream.revision
    && stream.payload.snapshots != []
    && forall snapshot :: snapshot in stream.payload.snapshots ==> snapshot.id == Digest(snapshot.pack)
  }

  function ReadFrom(streams: map<string, Stream>, namespace: string): Verdict<State> {
    if namespace !in streams || !Intact(streams[namespace]) then Refused(Unavailable)
    else Granted(streams[namespace].payload)
  }

  lemma ReadMeans(streams: map<string, Stream>, namespace: string)
    ensures var state := ReadFrom(streams, namespace);
            state.Granted? ==>
              && namespace in streams && streams[namespace] == Stream(state.value.revision, state.value)
              && state.value.snapshots != []
  {
  }

  // UPDATE ... WHERE namespace AND revision: the row count says whether anything was replaced.
  function SaveTo(streams: map<string, Stream>, namespace: string, state: State, expected: nat): (map<string, Stream>, Verdict<()>) {
    if namespace in streams && streams[namespace].revision == expected
    then (streams[namespace := Stream(expected + 1, state.(revision := expected + 1))], Granted(()))
    else (streams, Refused(Conflict))
  }

  class DefinitionStore {
    var streams: map<string, Stream>

    constructor ()
      ensures streams == map[]
    {
      streams := map[];
    }

    // INSERT OR IGNORE.
    method Seed(namespace: string, state: State)
      modifies this
      ensures namespace in old(streams) ==> streams == old(streams)
      ensures namespace !in old(streams) ==> streams == old(streams)[namespace := Stream(state.revision, state)]
    {
      if namespace !in streams {
        streams := streams[namespace := Stream(state.revision, state)];
      }
    }

    method Read(namespace: string) returns (state: Verdict<State>)
      ensures state == ReadFrom(streams, namespace)
      ensures state == if namespace in streams && streams[namespace].payload.revision == streams[namespace].revision
                          && streams[namespace].payload.snapshots != []
                          && (forall snapshot :: snapshot in streams[namespace].payload.snapshots ==> snapshot.id == Digest(snapshot.pack))
                       then Granted(streams[namespace].payload) else Refused(Unavailable)
    {
      if namespace !in streams {
        return Refused(Unavailable);
      }
      var row := streams[namespace];
      if row.payload.revision != row.revision || row.payload.snapshots == [] {
        return Refused(Unavailable);
      }
      for k := 0 to |row.payload.snapshots|
        invariant forall i :: 0 <= i < k ==> row.payload.snapshots[i].id == Digest(row.payload.snapshots[i].pack)
      {
        if row.payload.snapshots[k].id != Digest(row.payload.snapshots[k].pack) {
          return Refused(Unavailable);
        }
      }
      return Granted(row.payload);
    }

    method Save(namespace: string, state: State, expected: nat) returns (saved: Verdict<()>)
      modifies this
      ensures (streams, saved) == SaveTo(old(streams), namespace, state, expected)
      ensures saved == if namespace in old(streams) && old(streams)[namespace].revision == expected then Granted(()) else Refused(Conflict)
      ensures streams == if saved.Granted? then old(streams)[namespace := Stream(expected + 1, state.(revision := expected + 1))] else old(streams)
    {
      var next := state.(revision := expected + 1);
      if namespace !in streams || streams[namespace].revision != expected {
        return Refused(Conflict);
      }
      streams := streams[namespace := Stream(next.revision, next)];
      return Granted(());
    }

    method Delete(namespace: string)
      modifies this
      ensures streams == old(streams) - {namespace}
    {
      streams := streams - {namespace};
    }
  }

  // One request, when nothing comes between its read and its save.
  function Requested(streams: map<string, Stream>, namespace: string, w: Workspace, reader: Reader, change: Change, now: Time): map<string, Stream> {
    var state := ReadFrom(streams, namespace);
    if state.Refused? then streams
    else
      var changed := Mutate(state.value, w, reader, change, now);
      if changed.Refused? then streams else SaveTo(streams, namespace, changed.value, state.value.revision).0
  }

  // Why such a request is refused, if it is.
  function RequestRefusal(streams: map<string, Stream>, namespace: string, w: Workspace, reader: Reader, change: Change, now: Time): Option<Refusal> {
    var state := ReadFrom(streams, namespace);
    if state.Refused? then Some(state.reason)
    else
      var changed := Mutate(state.value, w, reader, change, now);
      if changed.Refused? then Some(changed.reason) else None
  }

  function ReasonOf<T>(verdict: Verdict<T>): Option<Refusal> {
    if verdict.Refused? then Some(verdict.reason) else None
  }

  class DefinitionGovernance {
    const store: DefinitionStore
    const namespace: string
    const workspace: Workspace

    constructor (store: DefinitionStore, namespace: string, workspace: Workspace)
      ensures this.store == store && this.namespace == namespace && this.workspace == workspace
    {
      this.store, this.namespace, this.workspace := store, namespace, workspace;
    }

    // Start-up: the bootstrap must be effective already and must be the one the stream began with.
    method Open(pack: Pack, now: Time) returns (started: Verdict<()>)
      modifies store
      ensures pack.effectiveFrom > now ==> started.Refused? && store.streams == old(store.streams)
      ensures started.Granted? ==> namespace in store.streams && Intact(store.streams[namespace])
      ensures started.Granted? ==> store.streams[namespace].payload.snapshots[0].id == Digest(pack)
      ensures namespace in old(store.streams) ==> store.streams == old(store.streams)
    {
      if pack.effectiveFrom > now {
        return Refused(Unavailable);
      }
      store.Seed(namespace, Governance.Seed(workspace.tenant, pack));
      var state := store.Read(namespace);
      if state.Refused? {
        return Refused(state.reason);
      }
      if state.value.tenant != workspace.tenant || state.value.snapshots[0].id != Digest(pack) {
        return Refused(Unavailable);
      }
      return Granted(());
    }

    method CreateDraft(reader: Reader, edit: Edit, draftId: Uuid, now: Time) returns (made: Verdict<Draft>)
      modifies store
      ensures store.streams == Requested(old(store.streams), namespace, workspace, reader, Change.CreateDraft(edit, draftId), now)
      ensures ReasonOf(made) == RequestRefusal(old(store.streams), namespace, workspace, reader, Change.CreateDraft(edit, draftId), now)
      ensures made.Granted? ==> namespace in store.streams && made.value in store.streams[namespace].payload.drafts
      ensures made.Refused? ==> store.streams == old(store.streams)
    {
      hide Apply, Manages, Authorized;
      var read := store.Read(namespace);
      if read.Refused? {
        return Refused(read.reason);
      }
      var state := read.value;
      if !Manages(workspace, reader, EDIT, state) {
        return Refused(Denied);
      }
      if |state.drafts| >= 64 {
        return Refused(Conflict);
      }
      var head := state.snapshots[|state.snapshots| - 1];
      if edit.base != head.id {
        return Refused(Conflict);
      }
      var applied := Apply(head.pack, edit);
      if applied.Refused? {
        return Refused(applied.reason);
      }
      var draft := Draft(draftId, 1, Drafted, edit, reader.access.user, None, now, None);
      state := state.(drafts := state.drafts + [draft]);
      var _ := store.Save(namespace, state, state.revision);
      return Granted(draft);
    }

    method Transition(reader: Reader, id: Uuid, action: Action, expectedRevision: nat, now: Time) returns (moved: Verdict<Draft>)
      modifies store
      ensures store.streams == Requested(old(store.streams), namespace, workspace, reader, Change.Transition(id, action, expectedRevision), now)
      ensures ReasonOf(moved) == RequestRefusal(old(store.streams), namespace, workspace, reader, Change.Transition(id, action, expectedRevision), now)
      ensures moved.Granted? ==> namespace in store.streams && moved.value in store.streams[namespace].payload.drafts
      ensures moved.Refused? ==> store.streams == old(store.streams)
    {
      hide Apply, Manages, Authorized, PublishedPack, Release, ReadFrom;
      ReadMeans(store.streams, namespace);
      var read := store.Read(namespace);
      if read.Refused? {
        return Refused(read.reason);
      }
      var state := read.value;
      var denied := CannotMove(state, reader, id, action, expectedRevision);
      if denied.Some? {
        return Refused(denied.value);
      }
      var k := DraftAt(state.drafts, id);
      var draft := state.drafts[k];
      match action {
        case Submit =>
          draft := draft.(status := InReview);
        case Publish =>
          var published := Append(state, reader.access.user, k, now);
          if published.Refused? {
            return Refused(published.reason);
          }
          state := published.value;
          draft := state.drafts[k];
        case _ =>
          draft := draft.(reviewer := Some(reader.access.user));
          draft := draft.(status := if action == Approve then Approved else Rejected);
      }
      draft := draft.(revision := draft.revision + 1);
      state := state.(drafts := state.drafts[k := draft]);
      assert state.drafts[k] == draft;
      assert Move(read.value, workspace, reader, id, action, expectedRevision, now) == Granted(state);
      hide Move;
      var _ := store.Save(namespace, state, state.revision);
      return Granted(draft);
    }

    method CannotMove(state: State, reader: Reader, id: Uuid, action: Action, expectedRevision: nat) returns (refusal: Option<Refusal>)
      requires state.snapshots != []
      ensures refusal.None? <==>
        && Manages(workspace, reader, Permission(action), state)
        && DraftAt(state.drafts, id) < |state.drafts|
        && var draft := state.drafts[DraftAt(state.drafts, id)];
        && draft.revision == expectedRevision && draft.status == Required(action)
        && (action == Submit ==> draft.author == reader.access.user)
        && (action in {Approve, Reject} && workspace.separateReviewer ==> draft.author != reader.access.user)
      ensures refusal.Some? ==> forall now :: Move(state, workspace, reader, id, action, expectedRevision, now) == Refused(refusal.value)
    {
      hide Manages;
      if !Manages(workspace, reader, Permission(action), state) {
        return Some(Denied);
      }
      var k := DraftAt(state.drafts, id);
      if k == |state.drafts| {
        return Some(NotFound);
      }
      var draft := state.drafts[k];
      if draft.revision != expectedRevision || draft.status != Required(action) {
        return Some(Conflict);
      }
      if action == Submit && draft.author != reader.access.user {
        return Some(Denied);
      }
      if action in {Approve, Reject} && workspace.separateReviewer && draft.author == reader.access.user {
        return Some(Denied);
      }
      return None;
    }

    // Everything a publication appends, before the draft's revision is counted.
    method Append(state: State, user: string, k: nat, now: Time) returns (published: Verdict<State>)
      requires state.snapshots != [] && k < |state.drafts|
      ensures published.Granted? <==> Release(state, user, k, now).Granted?
      ensures published.Refused? ==> published.reason == Release(state, user, k, now).reason
      ensures published.Granted? ==>
        && |published.value.drafts| == |state.drafts| && published.value.revision == state.revision
        && var draft := published.value.drafts[k];
           Release(state, user, k, now).value == published.value.(drafts := published.value.drafts[k := draft.(revision := draft.revision + 1)])
    {
      hide Apply, PublishedPack;
      var head, draft := state.snapshots[|state.snapshots| - 1], state.drafts[k];
      if draft.edit.base != head.id || |state.snapshots| >= 64 {
        return Refused(Conflict);
      }
      var applied := Apply(head.pack, draft.edit);
      if applied.Refused? {
        return Refused(applied.reason);
      }
      var pack := PublishedPack(head, draft.edit, |state.snapshots|, now);
      var snapshot := Snapshot(Digest(pack), |state.events| + 1, pack, user);
      var event := Event(|state.events| + 1, Publishing, snapshot.id, now, pack.effectiveFrom, user);
      draft := draft.(status := Published, published := Some(snapshot.id));
      var after := state.(snapshots := state.snapshots + [snapshot], events := state.events + [event], drafts := state.drafts[k := draft]);
      return Granted(after);
    }

    method Revoke(reader: Reader, id: SnapshotId, expectedRevision: nat, now: Time) returns (revoked: Verdict<()>)
      modifies store
      ensures store.streams == Requested(old(store.streams), namespace, workspace, reader, Change.Revoke(id, expectedRevision), now)
      ensures ReasonOf(revoked) == RequestRefusal(old(store.streams), namespace, workspace, reader, Change.Revoke(id, expectedRevision), now)
      ensures revoked.Refused? ==> store.streams == old(store.streams)
    {
      hide Manages, Authorized;
      var read := store.Read(namespace);
      if read.Refused? {
        return Refused(read.reason);
      }
      var state := read.value;
      if !Manages(workspace, reader, REVOKE, state) {
        return Refused(Denied);
      }
      if expectedRevision != state.revision || id in state.revoked {
        return Refused(Conflict);
      }
      if SnapshotAt(state.snapshots, id) == |state.snapshots| {
        return Refused(NotFound);
      }
      state := state.(revoked := state.revoked + {id});
      state := state.(events := state.events + [Event(|state.events| + 1, Revoking, id, now, now, reader.access.user)]);
      revoked := store.Save(namespace, state, state.revision);
    }
  }

  // ---------------------------------------------------------------- clients interleaved between read and save

  type Client = nat

  // The copy a client works on, and the generation of the stream it was read from. A stream starts a
  // new generation when it is deleted, and when a copy from an earlier generation is saved over it.
  datatype Held = Held(state: State, generation: nat)

  datatype System = System(stream: Option<Stream>, held: map<Client, Held>, generation: nat)

  datatype Step =
    | Bootstrap(pack: Pack)
    | ReadBy(client: Client)
    | SaveBy(client: Client, reader: Reader, change: Change, now: Time)
    | Delete

  function Proposed(sys: System, w: Workspace, step: Step): Verdict<State>
    requires step.SaveBy? && step.client in sys.held
  {
    var state := sys.held[step.client].state;
    if state.snapshots == [] then Refused(Unavailable) else Mutate(state, w, step.reader, step.change, step.now)
  }

  predicate Commits(sys: System, w: Workspace, step: Step) {
    && step.SaveBy? && step.client in sys.held && sys.stream.Some?
    && sys.stream.value.revision == sys.held[step.client].state.revision
    && Proposed(sys, w, step).Granted?
  }

  function Next(sys: System, w: Workspace, step: Step): System {
    match step
    case Bootstrap(pack) =>
      if sys.stream.Some? then sys else sys.(stream := Some(Stream(1, Seed(w.tenant, pack))))
    case ReadBy(client) =>
      if sys.stream.Some? && Intact(sys.stream.value) then sys.(held := sys.held[client := Held(sys.stream.value.payload, sys.generation)]) else sys
    case SaveBy(client, _, _, _) =>
      if Commits(sys, w, step) then
        var revision := sys.stream.value.revision + 1;
        sys.(stream := Some(Stream(revision, Proposed(sys, w, step).value.(revision := revision))),
             generation := if sys.held[client].generation == sys.generation then sys.generation else sys.generation + 1)
      else sys
    case Delete => sys.(stream := None, generation := sys.generation + 1)
  }

  ghost predicate HeldOk(sys: System, w: Workspace, h: Held) {
    && Chain(h.state, w) && h.generation <= sys.generation
    && (h.generation == sys.generation ==>
          && sys.stream.Some? && h.state.revision <= sys.stream.value.revision && Extends(h.state, sys.stream.value.payload)
          && (h.state.revision == sys.stream.value.revision ==> h.state == sys.stream.value.payload))
  }

  ghost predicate Invariant(sys: System, w: Workspace) {
    && (sys.stream.Some? ==> Chain(sys.stream.value.payload, w) && sys.stream.value.payload.revision == sys.stream.value.revision)
    && (forall c :: c in sys.held ==> HeldOk(sys, w, sys.held[c]))
  }

  lemma RevisionAside(s0: State, s: State, w: Workspace, revision: nat)
    requires Chain(s, w) && Extends(s0, s)
    ensures Chain(s.(revision := revision), w) && Extends(s0, s.(revision := revision))
  {
    hide Link, DraftOk, TotalVersions, Extends;
    var s' := s.(revision := revision);
    forall k | 0 < k < |s.snapshots| ensures Linked(s', k) {
      assert Linked(s, k);
      var j :| 0 <= j < |s.drafts| && Link(s, k, j);
      LinkAside(s, revision, k, j);
    }
    forall j | 0 <= j < |s.drafts| && s.drafts[j].status == Published ensures Accounted(s', j) {
      assert Accounted(s, j);
      var k :| 0 < k < |s.snapshots| && Link(s, k, j);
      LinkAside(s, revision, k, j);
    }
    hide Chain;
    HistoryAside(s0, s, revision);
  }

  lemma LinkAside(s: State, revision: nat, k: nat, j: nat)
    requires 0 < k < |s.snapshots| && j < |s.drafts| && Link(s, k, j)
    ensures Link(s.(revision := revision), k, j)
  {
    hide Apply, PublishedPack;
  }

  lemma HistoryAside(s0: State, s: State, revision: nat)
    requires Extends(s0, s)
    ensures Extends(s0, s.(revision := revision))
  {
  }

  lemma ExtendsSelf(s: State)
    ensures Extends(s, s)
  {
  }

  lemma ExtendsOnward(a: State, b: State, c: State)
    requires Extends(a, b) && Extends(b, c)
    ensures Extends(a, c)
  {
  }

  lemma CommitKeeps(sys: System, w: Workspace, step: Step)
    requires Invariant(sys, w) && Commits(sys, w, step)
    ensures Invariant(Next(sys, w, step), w)
    ensures var before, after := sys.held[step.client], Next(sys, w, step).stream.value.payload;
            Extends(before.state, after) && (before.generation == sys.generation ==> before.state == sys.stream.value.payload)
  {
    hide Chain, Extends, Mutate;
    var next := Next(sys, w, step);
    var held := sys.held[step.client];
    var payload := next.stream.value.payload;
    assert HeldOk(sys, w, held);
    MutateKeeps(held.state, w, step.reader, step.change, step.now);
    RevisionAside(held.state, Proposed(sys, w, step).value, w, payload.revision);
    forall c | c in next.held ensures HeldOk(next, w, next.held[c]) {
      var h := sys.held[c];
      assert HeldOk(sys, w, h);
      if h.generation == next.generation {
        ExtendsOnward(h.state, held.state, payload);
      }
    }
  }

  lemma StepKeeps(sys: System, w: Workspace, step: Step)
    requires Invariant(sys, w)
    ensures Invariant(Next(sys, w, step), w)
    ensures var next := Next(sys, w, step);
            next.generation >= sys.generation
            && (next.generation == sys.generation && sys.stream.Some? ==>
                  next.stream.Some? && Extends(sys.stream.value.payload, next.stream.value.payload))
  {
    hide Chain, Extends, Mutate, Intact;
    if sys.stream.Some? { ExtendsSelf(sys.stream.value.payload); }
    match step
    case Bootstrap(pack) =>
      SeedChain(Seed(w.tenant, pack), w);
      forall c | c in sys.held ensures HeldOk(Next(sys, w, step), w, sys.held[c]) { assert HeldOk(sys, w, sys.held[c]); }
    case ReadBy(_) =>
      forall c | c in sys.held ensures HeldOk(Next(sys, w, step), w, sys.held[c]) { assert HeldOk(sys, w, sys.held[c]); }
    case SaveBy(_, _, _, _) =>
      if Commits(sys, w, step) { CommitKeeps(sys, w, step); }
    case Delete =>
      forall c | c in sys.held ensures HeldOk(Next(sys, w, step), w, sys.held[c]) { assert HeldOk(sys, w, sys.held[c]); }
  }

  ghost predicate Run(states: seq<System>, steps: seq<Step>, w: Workspace) {
    && |states| == |steps| + 1
    && states[0] == System(None, map[], 0)
    && forall i :: 0 <= i < |steps| ==> states[i + 1] == Next(states[i], w, steps[i])
  }

  // Every committed state, whatever the interleaving and however often the stream was deleted, is a chain.
  lemma {:induction false} CommittedStatesChain(states: seq<System>, steps: seq<Step>, w: Workspace, i: nat)
    requires Run(states, steps, w) && i < |states|
    ensures Invariant(states[i], w)
    ensures states[i].stream.Some? ==> Chain(states[i].stream.value.payload, w)
  {
    hide Chain, Next, HeldOk;
    if i > 0 {
      CommittedStatesChain(states, steps, w, i - 1);
      StepKeeps(states[i - 1], w, steps[i - 1]);
    }
  }

  // Within one generation history is only ever added to.
  lemma {:induction false} HistoryGrows(states: seq<System>, steps: seq<Step>, w: Workspace, i: nat, j: nat)
    requires Run(states, steps, w) && i <= j < |states| && states[i].stream.Some?
    ensures states[i].generation <= states[j].generation
    ensures states[i].generation == states[j].generation ==>
              states[j].stream.Some? && Extends(states[i].stream.value.payload, states[j].stream.value.payload)
  {
    hide Chain, Next, Extends, Invariant;
    if i == j {
      ExtendsSelf(states[i].stream.value.payload);
    } else {
      HistoryGrows(states, steps, w, i, j - 1);
      CommittedStatesChain(states, steps, w, j - 1);
      StepKeeps(states[j - 1], w, steps[j - 1]);
      if states[i].generation == states[j].generation {
        ExtendsOnward(states[i].stream.value.payload, states[j - 1].stream.value.payload, states[j].stream.value.payload);
      }
    }
  }

  // As long as the stream is not deleted, it stays in its first generation: no update is ever lost.
  lemma {:induction false} WithoutDeletion(states: seq<System>, steps: seq<Step>, w: Workspace, i: nat)
    requires Run(states, steps, w) && i < |states| && forall k :: 0 <= k < i ==> steps[k] != Delete
    ensures states[i].generation == 0
    ensures forall c :: c in states[i].held ==> states[i].held[c].generation == 0
  {
    hide Intact, Mutate;
    if i > 0 {
      WithoutDeletion(states, steps, w, i - 1);
      assert steps[i - 1] != Delete;
    }
  }

  // From a client's read on, up to the state before a later step, it has not read again and nobody deleted.
  ghost predicate Undisturbed(steps: seq<Step>, j: nat, i: nat) {
    && j < i <= |steps| && steps[j].ReadBy?
    && forall k :: j < k < i ==> steps[k] != steps[j] && steps[k] != Delete
  }

  // The stream a client read is the same as long as its revision is.
  ghost predicate ReadCopy(read: System, now: System, client: Client) {
    && read.stream.Some? && now.stream.Some? && read.stream.value.revision <= now.stream.value.revision
    && (read.stream.value.revision == now.stream.value.revision ==> read.stream == now.stream)
    && client in now.held && now.held[client].state == read.stream.value.payload
  }

  lemma ChainIntact(stream: Stream, w: Workspace)
    requires Chain(stream.payload, w) && stream.payload.revision == stream.revision
    ensures Intact(stream)
  {
    hide DraftsOk, EventsOk;
  }

  lemma {:induction false} CopyStays(states: seq<System>, steps: seq<Step>, w: Workspace, j: nat, i: nat)
    requires Run(states, steps, w) && Undisturbed(steps, j, i) && states[j].stream.Some?
    ensures ReadCopy(states[j], states[i], steps[j].client)
    decreases i
  {
    hide Chain, Mutate, Intact, HeldOk;
    if i == j + 1 {
      CommittedStatesChain(states, steps, w, j);
      ChainIntact(states[j].stream.value, w);
    } else {
      CopyStays(states, steps, w, j, i - 1);
      assert steps[i - 1] != Delete && steps[i - 1] != steps[j];
    }
  }

  // Unless the stream was deleted since its client last read it, a save that is accepted replaces exactly
  // the state that was read, whatever other clients saved and with which copies.
  lemma NoLostUpdate(states: seq<System>, steps: seq<Step>, w: Workspace, j: nat, i: nat)
    requires Run(states, steps, w) && i < |steps| && Commits(states[i], w, steps[i])
    requires Undisturbed(steps, j, i) && steps[j].client == steps[i].client && states[j].stream.Some?
    ensures states[j].stream == states[i].stream
    ensures var read := states[j].stream.value.payload;
            && read.snapshots != []
            && var made := Mutate(read, w, steps[i].reader, steps[i].change, steps[i].now);
            && made.Granted? && states[i + 1].stream == Some(Stream(read.revision + 1, made.value.(revision := read.revision + 1)))
  {
    hide Chain, Extends, Mutate, HeldOk;
    CommittedStatesChain(states, steps, w, j);
    CommittedStatesChain(states, steps, w, i);
    CopyStays(states, steps, w, j, i);
  }

  // The definitions in force never go back either, as long as nobody deletes the stream.
  lemma InForceOnward(states: seq<System>, steps: seq<Step>, w: Workspace, i: nat, j: nat, now: Time, now': Time)
    requires Run(states, steps, w) && i <= j < |states| && now <= now'
    requires states[i].stream.Some? && states[i].generation == states[j].generation
    requires Current(states[i].stream.value.payload, now).Granted?
    ensures states[j].stream.Some?
    ensures var s, s' := states[i].stream.value.payload, states[j].stream.value.payload;
            && Current(s', now').Granted?
            && SnapshotAt(s.snapshots, Current(s, now).value.id) <= SnapshotAt(s'.snapshots, Current(s', now').value.id)
  {
    hide Chain, Next, Extends, Invariant, Current;
    CommittedStatesChain(states, steps, w, i);
    CommittedStatesChain(states, steps, w, j);
    HistoryGrows(states, steps, w, i, j);
    CurrentNeverGoesBack(states[i].stream.value.payload, states[j].stream.value.payload, w, now, now');
  }

  // The deletion is what has to be excluded: revisions start again at 1, so a copy read before a deletion
  // is accepted afterwards, here over a stream with another bootstrap, whose history it drops.
  lemma StaleSaveAfterDeletion() returns (states: seq<System>, steps: seq<Step>, w: Workspace)
    ensures Run(states, steps, w) && |steps| == 5 && Commits(states[4], w, steps[4])
    ensures steps[1].ReadBy? && steps[2] == Delete && steps[3].Bootstrap? && steps[4].SaveBy? && steps[4].client == steps[1].client
    ensures states[1].stream.Some? && states[4].stream.Some? && states[5].stream.Some? && states[1].stream != states[4].stream
    ensures !Extends(states[4].stream.value.payload, states[5].stream.value.payload)
  {
    hide Apply, PackOk;
    var pack, other, edit := OneMetric(0), OneMetric(1), OneEdit(OneMetric(0));
    w := Workspace("t", false);
    var reader := Reader(Access("t", "u", {READ, EDIT}), 0);
    steps := [Bootstrap(pack), ReadBy(0), Delete, Bootstrap(other), SaveBy(0, reader, Change.CreateDraft(edit, 7), 0)];
    var s0 := System(None, map[], 0);
    var s1 := Next(s0, w, steps[0]);
    var s2 := Next(s1, w, steps[1]);
    var s3 := Next(s2, w, steps[2]);
    var s4 := Next(s3, w, steps[3]);
    EditApplies(pack);
    states := [s0, s1, s2, s3, s4, Next(s4, w, steps[4])];
  }

  function OneMetric(rest: nat): Pack {
    var word := Word("Sales", "sales");
    Pack([Item(word, word, "", "", [], 1, 0, "Retail", [], true, 0)], [], Named("1"), 0, ["Retail"], ({}, {}), rest)
  }

  function OneEdit(pack: Pack): Edit {
    Edit(Digest(pack), Metric, "Sales", Word("Sales", "sales"), "", "", [], 0)
  }

  lemma EditApplies(pack: Pack)
    requires pack == OneMetric(pack.rest)
    ensures Apply(pack, OneEdit(pack)).Granted?
  {
    ApplyStaysValid(pack, OneEdit(pack));
    assert OtherWords(pack.metrics, "Sales") == {};
  }
}
