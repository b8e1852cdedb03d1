/**
 Business definitions: edits, their review, and the chain of immutable publications. A state is a
 value here, as it is in the code, where every request works on its own parsed copy.
 */
module Governance {
  import opened Runs

  // A word and its case-folded form.
  datatype Word = Word(text: string, folded: string)

  // `rest` stands for further columns no edit touches, `sound` for whether they agree with one another
  // (time grains, bounds, aggregation, or the values of a dimension).
  datatype Item = Item(
    id: Word, name: Word, definition: string, owner: string, aliases: seq<Word>, version: nat,
    classification: nat, domain: string, dimensions: seq<string>, sound: bool, rest: nat)

  datatype Label = Named(text: string) | Publication(number: nat)

  // `anchors` are the metrics and dimensions its external topics refer to.
  datatype Pack = Pack(
    metrics: seq<Item>, dimensions: seq<Item>, version: Label, effectiveFrom: Time,
    domains: seq<string>, anchors: (set<string>, set<string>), rest: nat)

  type SnapshotId = Digest<Pack>

  datatype Kind = Metric | Dimension

  datatype Edit = Edit(
    base: SnapshotId, kind: Kind, definitionId: string, name: Word, definition: string, owner: string,
    aliases: seq<Word>, effectiveFrom: Time)

  datatype DraftStatus = Drafted | InReview | Approved | Rejected | Published

  datatype Draft = Draft(
    id: Uuid, revision: nat, status: DraftStatus, edit: Edit, author: string, reviewer: Option<string>,
    createdAt: Time, published: Option<SnapshotId>)

  datatype Snapshot = Snapshot(id: SnapshotId, sequence: nat, pack: Pack, publishedBy: string)

  datatype EventKind = Publishing | Revoking

  datatype Event = Event(
    sequence: nat, kind: EventKind, snapshotId: SnapshotId, occurredAt: Time, effectiveFrom: Time, actor: string)

  datatype State = State(
    tenant: string, revision: nat, snapshots: seq<Snapshot>, drafts: seq<Draft>, events: seq<Event>, revoked: set<SnapshotId>)

  datatype Refusal = Denied | NotFound | Conflict | Unavailable | Invalid

  datatype Verdict<+T> = Granted(value: T) | Refused(reason: Refusal)

  datatype Reader = Reader(access: Access, clearance: nat)

  datatype Workspace = Workspace(tenant: string, separateReviewer: bool)

  // ---------------------------------------------------------------- authority

  const READ := "READ_DATA"
  const EDIT := "EDIT_DEFINITIONS"
  const REVIEW := "REVIEW_DEFINITIONS"
  const PUBLISH := "PUBLISH_DEFINITIONS"
  const REVOKE := "REVOKE_DEFINITIONS"

  predicate Authorized(w: Workspace, reader: Reader, action: string) {
    reader.access.tenant == w.tenant && {READ, action} <= reader.access.permissions
  }

  // Managing needs clearance for every definition of the latest publication.
  predicate Manages(w: Workspace, reader: Reader, action: string, s: State) {
    && Authorized(w, reader, action)
    && (s.snapshots != [] ==>
          var pack := s.snapshots[|s.snapshots| - 1].pack;
          forall item :: item in pack.metrics + pack.dimensions ==> item.classification <= reader.clearance)
  }

  // ---------------------------------------------------------------- applying an edit

  function Folded(words: seq<Word>): set<string> {
    set w | w in words :: w.folded
  }

  function WordsOf(item: Item): set<string> {
    Folded([item.id, item.name] + item.aliases)
  }

  function OtherWords(items: seq<Item>, id: string): set<string> {
    set item, w | item in items && item.id.text != id && w in WordsOf(item) :: w
  }

  function Position(items: seq<Item>, id: string): (k: nat)
    ensures k <= |items|
    ensures forall i :: 0 <= i < k ==> items[i].id.text != id
    ensures k < |items| ==> items[k].id.text == id
  {
    if items == [] then 0
    else if items[0].id.text == id then 0
    else 1 + Position(items[1..], id)
  }

  function Revised(item: Item, edit: Edit): Item {
    item.(name := edit.name, definition := edit.definition, owner := edit.owner, aliases := edit.aliases, version := item.version + 1)
  }

  function Revise(items: seq<Item>, edit: Edit): Verdict<seq<Item>> {
    var k := Position(items, edit.definitionId);
    if k == |items| then Refused(NotFound)
    else if Folded([edit.name] + edit.aliases) !! OtherWords(items, edit.definitionId)
    then Granted(items[k := Revised(items[k], edit)])
    else Refused(Conflict)
  }

  function Edited(pack: Pack, edit: Edit): Verdict<Pack> {
    match edit.kind
    case Metric =>
      var items := Revise(pack.metrics, edit);
      if items.Granted? then Granted(pack.(metrics := items.value)) else Refused(items.reason)
    case Dimension =>
      var items := Revise(pack.dimensions, edit);
      if items.Granted? then Granted(pack.(dimensions := items.value)) else Refused(items.reason)
  }

  function Ids(items: seq<Item>): set<string> {
    set item | item in items :: item.id.text
  }

  predicate UniqueIds(items: seq<Item>) {
    forall i, j :: 0 <= i < j < |items| ==> items[i].id.text != items[j].id.text
  }

  predicate ItemOk(item: Item, domains: seq<string>, dimensions: set<string>) {
    && item.version >= 1 && item.sound && item.domain in domains
    && forall d :: d in item.dimensions ==> d in dimensions
  }

  // The validation every pack passes when it is parsed.
  predicate PackOk(pack: Pack) {
    && (forall i, j :: 0 <= i < j < |pack.domains| ==> pack.domains[i] != pack.domains[j])
    && UniqueIds(pack.metrics) && UniqueIds(pack.dimensions)
    && (forall item :: item in pack.metrics + pack.dimensions ==> ItemOk(item, pack.domains, Ids(pack.dimensions)))
    && pack.anchors.0 <= Ids(pack.metrics) && pack.anchors.1 <= Ids(pack.dimensions)
  }

  // The edited pack is validated once more.
  function Apply(pack: Pack, edit: Edit): Verdict<Pack> {
    var edited := Edited(pack, edit);
    if edited.Granted? && !PackOk(edited.value) then Refused(Invalid) else edited
  }

  // That never refuses anything: an edit keeps a valid pack valid.
  lemma ApplyStaysValid(pack: Pack, edit: Edit)
    requires PackOk(pack)
    ensures Apply(pack, edit) == Edited(pack, edit)
    ensures Apply(pack, edit).Granted? ==> PackOk(Apply(pack, edit).value)
  {
    hide Ids, ItemOk;
    if Edited(pack, edit).Granted? {
      var after := Edited(pack, edit).value;
      ReviseKeeps(pack.metrics, edit, pack.domains, Ids(pack.dimensions));
      ReviseKeeps(pack.dimensions, edit, pack.domains, Ids(pack.dimensions));
      forall item | item in after.metrics + after.dimensions ensures ItemOk(item, pack.domains, Ids(pack.dimensions)) {
        assert forall was :: was in pack.metrics ==> was in pack.metrics + pack.dimensions;
        assert forall was :: was in pack.dimensions ==> was in pack.metrics + pack.dimensions;
      }
    }
  }

  lemma ReviseKeeps(items: seq<Item>, edit: Edit, domains: seq<string>, dimensions: set<string>)
    requires UniqueIds(items)
    ensures var after := Revise(items, edit);
            after.Granted? ==>
              && Ids(after.value) == Ids(items) && UniqueIds(after.value)
              && ((forall item :: item in items ==> ItemOk(item, domains, dimensions)) ==>
                    forall item :: item in after.value ==> ItemOk(item, domains, dimensions))
  {
    var k := Position(items, edit.definitionId);
    if Revise(items, edit).Granted? {
      var after := Revise(items, edit).value;
      forall i | 0 <= i < |items| ensures after[i].id == items[i].id && after[i] in after && items[i] in items {}
      assert Ids(after) == Ids(items);
    }
  }

  // No two definitions answer to the same word.
  ghost predicate Unambiguous(items: seq<Item>) {
    && (forall i, j :: 0 <= i < j < |items| ==> items[i].id.text != items[j].id.text)
    && (forall i, j :: 0 <= i < j < |items| ==> WordsOf(items[i]) !! WordsOf(items[j]))
  }

  function Versions(items: seq<Item>): nat {
    if items == [] then 0 else Versions(items[..|items| - 1]) + items[|items| - 1].version
  }

  function TotalVersions(pack: Pack): nat {
    Versions(pack.metrics) + Versions(pack.dimensions)
  }

  lemma {:induction false} VersionsUpdate(items: seq<Item>, k: nat, item: Item)
    requires k < |items| && item.version == items[k].version + 1
    ensures Versions(items[k := item]) == Versions(items) + 1
  {
    var last := |items| - 1;
    if k == last {
      assert items[k := item][..last] == items[..last];
    } else {
      VersionsUpdate(items[..last], k, item);
      assert items[k := item][..last] == items[..last][k := item];
    }
  }

  // An accepted edit changes one definition, leaves every other one untouched, counts as one more
  // version, and cannot make two definitions answer to one word.
  lemma ApplyEffect(pack: Pack, edit: Edit)
    requires Apply(pack, edit).Granted?
    ensures var after := Apply(pack, edit).value;
            && TotalVersions(after) == TotalVersions(pack) + 1
            && (Unambiguous(pack.metrics) && Unambiguous(pack.dimensions) ==> Unambiguous(after.metrics) && Unambiguous(after.dimensions))
            && after.version == pack.version && after.effectiveFrom == pack.effectiveFrom && after.rest == pack.rest
  {
    hide Unambiguous;
    var items := if edit.kind == Metric then pack.metrics else pack.dimensions;
    var k := Position(items, edit.definitionId);
    VersionsUpdate(items, k, Revised(items[k], edit));
    ReviseUnambiguous(items, edit);
  }

  lemma ReviseUnambiguous(items: seq<Item>, edit: Edit)
    requires Revise(items, edit).Granted?
    ensures Unambiguous(items) ==> Unambiguous(Revise(items, edit).value)
  {
    var k := Position(items, edit.definitionId);
    var after := Revise(items, edit).value;
    if Unambiguous(items) {
      forall j | 0 <= j < |items| && j != k ensures WordsOf(after[k]) !! WordsOf(items[j]) {
        assert WordsOf(items[j]) <= OtherWords(items, edit.definitionId) by {
          assert items[j] in items && items[j].id.text != edit.definitionId;
        }
        assert items[k].id.folded in WordsOf(items[k]) by { assert ([items[k].id, items[k].name] + items[k].aliases)[0] == items[k].id; }
        RevisedWords(items[k], edit);
        assert WordsOf(items[k]) !! WordsOf(items[j]);
      }
    }
  }

  lemma RevisedWords(item: Item, edit: Edit)
    ensures WordsOf(Revised(item, edit)) == {item.id.folded} + Folded([edit.name] + edit.aliases)
  {
    var words := [item.id, edit.name] + edit.aliases;
    assert words == [item.id] + ([edit.name] + edit.aliases);
    assert item.id in words;
    forall w | w in [edit.name] + edit.aliases ensures w in words { }
  }

  // ---------------------------------------------------------------- requests

  datatype Action = Submit | Approve | Reject | Publish

  datatype Change =
    | CreateDraft(edit: Edit, draftId: Uuid)
    | Transition(draft: Uuid, action: Action, expectedRevision: nat)
    | Revoke(snapshotId: SnapshotId, expectedRevision: nat)

  function DraftAt(drafts: seq<Draft>, id: Uuid): (k: nat)
    ensures k <= |drafts|
    ensures k < |drafts| ==> drafts[k].id == id
  {
    if drafts == [] then 0 else if drafts[0].id == id then 0 else 1 + DraftAt(drafts[1..], id)
  }

  function SnapshotAt(snapshots: seq<Snapshot>, id: SnapshotId): (k: nat)
    ensures k <= |snapshots|
    ensures k < |snapshots| ==> snapshots[k].id == id
    ensures forall i :: 0 <= i < k ==> snapshots[i].id != id
  {
    if snapshots == [] then 0 else if snapshots[0].id == id then 0 else 1 + SnapshotAt(snapshots[1..], id)
  }

  function Max(a: Time, b: Time): Time { if a < b then b else a }

  function Permission(action: Action): string {
    match action
    case Submit => EDIT
    case Approve => REVIEW
    case Reject => REVIEW
    case Publish => PUBLISH
  }

  function Required(action: Action): DraftStatus {
    match action
    case Submit => Drafted
    case Approve => InReview
    case Reject => InReview
    case Publish => Approved
  }

  function Create(s: State, w: Workspace, reader: Reader, edit: Edit, draftId: Uuid, now: Time): Verdict<State>
    requires s.snapshots != []
  {
    var head := s.snapshots[|s.snapshots| - 1];
    if !Manages(w, reader, EDIT, s) then Refused(Denied)
    else if |s.drafts| >= 64 then Refused(Conflict)
    else if edit.base != head.id then Refused(Conflict)
    else if Apply(head.pack, edit).Refused? then Refused(Apply(head.pack, edit).reason)
    else
      var draft := Draft(draftId, 1, Drafted, edit, reader.access.user, None, now, None);
      Granted(s.(drafts := s.drafts + [draft]))
  }

  function PublishedPack(head: Snapshot, edit: Edit, count: nat, now: Time): Pack
    requires Apply(head.pack, edit).Granted?
  {
    Apply(head.pack, edit).value.(version := Publication(count + 1),
                                  effectiveFrom := Max(Max(edit.effectiveFrom, now), head.pack.effectiveFrom))
  }

  function Release(s: State, user: string, k: nat, now: Time): Verdict<State>
    requires s.snapshots != [] && k < |s.drafts|
  {
    var head, draft := s.snapshots[|s.snapshots| - 1], s.drafts[k];
    if draft.edit.base != head.id then Refused(Conflict)
    else if |s.snapshots| >= 64 then Refused(Conflict)
    else if Apply(head.pack, draft.edit).Refused? then Refused(Apply(head.pack, draft.edit).reason)
    else
      var pack := PublishedPack(head, draft.edit, |s.snapshots|, now);
      var id := Digest(pack);
      Granted(s.(
        snapshots := s.snapshots + [Snapshot(id, |s.events| + 1, pack, user)],
        events := s.events + [Event(|s.events| + 1, Publishing, id, now, pack.effectiveFrom, user)],
        drafts := s.drafts[k := draft.(status := Published, published := Some(id), revision := draft.revision + 1)]))
  }

  function Move(s: State, w: Workspace, reader: Reader, id: Uuid, action: Action, expectedRevision: nat, now: Time): Verdict<State>
    requires s.snapshots != []
  {
    var k, user := DraftAt(s.drafts, id), reader.access.user;
    if !Manages(w, reader, Permission(action), s) then Refused(Denied)
    else if k == |s.drafts| then Refused(NotFound)
    else if s.drafts[k].revision != expectedRevision then Refused(Conflict)
    else if s.drafts[k].status != Required(action) then Refused(Conflict)
    else
      var draft := s.drafts[k];
      match action
      case Submit =>
        if draft.author != user then Refused(Denied)
        else Granted(s.(drafts := s.drafts[k := draft.(status := InReview, revision := draft.revision + 1)]))
      case Publish => Release(s, user, k, now)
      case _ =>
        if w.separateReviewer && draft.author == user then Refused(Denied)
        else
          var status := if action == Approve then Approved else Rejected;
          Granted(s.(drafts := s.drafts[k := draft.(status := status, reviewer := Some(user), revision := draft.revision + 1)]))
  }

  function Withdraw(s: State, w: Workspace, reader: Reader, id: SnapshotId, expectedRevision: nat, now: Time): Verdict<State> {
    if !Manages(w, reader, REVOKE, s) then Refused(Denied)
    else if expectedRevision != s.revision || id in s.revoked then Refused(Conflict)
    else if SnapshotAt(s.snapshots, id) == |s.snapshots| then Refused(NotFound)
    else Granted(s.(revoked := s.revoked + {id},
                    events := s.events + [Event(|s.events| + 1, Revoking, id, now, now, reader.access.user)]))
  }

  function Mutate(s: State, w: Workspace, reader: Reader, change: Change, now: Time): Verdict<State>
    requires s.snapshots != []
  {
    match change
    case CreateDraft(edit, draftId) => Create(s, w, reader, edit, draftId, now)
    case Transition(draft, action, expectedRevision) => Move(s, w, reader, draft, action, expectedRevision, now)
    case Revoke(id, expectedRevision) => Withdraw(s, w, reader, id, expectedRevision, now)
  }

  // ---------------------------------------------------------------- the chain

  // The k-th publication applied the j-th draft's edit to its immediate predecessor, at the time its event says.
  ghost predicate Link(s: State, k: nat, j: nat)
    requires 0 < k < |s.snapshots| && j < |s.drafts|
  {
    var before, after, draft := s.snapshots[k - 1], s.snapshots[k], s.drafts[j];
    && draft.status == Published && draft.edit.base == before.id && draft.published == Some(after.id)
    && 0 < after.sequence <= |s.events|
    && var event := s.events[after.sequence - 1];
    && event.kind == Publishing && event.snapshotId == after.id && event.effectiveFrom == after.pack.effectiveFrom
    && Apply(before.pack, draft.edit).Granted? && after.pack == PublishedPack(before, draft.edit, k, event.occurredAt)
  }

  ghost predicate Linked(s: State, k: nat)
    requires 0 < k < |s.snapshots|
  {
    exists j :: 0 <= j < |s.drafts| && Link(s, k, j)
  }

  ghost predicate Accounted(s: State, j: nat)
    requires j < |s.drafts|
  {
    exists k :: 0 < k < |s.snapshots| && Link(s, k, j)
  }

  ghost predicate SnapshotsOk(s: State) {
    && s.snapshots != [] && s.snapshots[0].sequence == 0
    && (forall k :: 0 <= k < |s.snapshots| ==> s.snapshots[k].id == Digest(s.snapshots[k].pack))
    && (forall k :: 0 <= k < |s.snapshots| ==> TotalVersions(s.snapshots[k].pack) == TotalVersions(s.snapshots[0].pack) + k)
    && (forall k :: 0 < k < |s.snapshots| ==> Linked(s, k))
    && (forall i, k :: 0 <= i < k < |s.snapshots| ==>
          && s.snapshots[i].sequence < s.snapshots[k].sequence
          && s.snapshots[i].pack.effectiveFrom <= s.snapshots[k].pack.effectiveFrom)
  }

  ghost predicate EventsOk(s: State) {
    && |s.events| == |s.snapshots| - 1 + |s.revoked|
    && s.snapshots != [] && s.snapshots[|s.snapshots| - 1].sequence <= |s.events|
    && (forall k :: 0 <= k < |s.events| ==> s.events[k].sequence == k + 1)
    && (forall id :: id in s.revoked ==> SnapshotAt(s.snapshots, id) < |s.snapshots|)
  }

  // What a draft's status says about its revision, its reviewer and its publication.
  ghost predicate DraftOk(w: Workspace, d: Draft) {
    && d.revision == (match d.status case Drafted => 1 case InReview => 2 case Approved => 3 case Rejected => 3 case Published => 4)
    && (d.reviewer.Some? <==> d.status in {Approved, Rejected, Published})
    && (d.published.Some? <==> d.status == Published)
    && (w.separateReviewer && d.reviewer.Some? ==> d.reviewer != Some(d.author))
  }

  ghost predicate DraftsOk(s: State, w: Workspace) {
    && |s.drafts| <= 64 && |s.snapshots| <= 64
    && (forall j :: 0 <= j < |s.drafts| ==> DraftOk(w, s.drafts[j]))
    && (forall j :: 0 <= j < |s.drafts| && s.drafts[j].status == Published ==> Accounted(s, j))
    && (forall i, j :: 0 <= i < j < |s.drafts| && s.drafts[i].status == Published ==> s.drafts[i].published != s.drafts[j].published)
  }

  ghost predicate Chain(s: State, w: Workspace) {
    SnapshotsOk(s) && EventsOk(s) && DraftsOk(s, w)
  }

  // Nothing recorded is ever taken back.
  ghost predicate Extends(s: State, s': State) {
    && s.snapshots <= s'.snapshots && s.events <= s'.events && s.revoked <= s'.revoked
    && |s.drafts| <= |s'.drafts|
    && forall j :: 0 <= j < |s.drafts| ==>
         && s'.drafts[j].id == s.drafts[j].id && s'.drafts[j].edit == s.drafts[j].edit && s'.drafts[j].author == s.drafts[j].author
         && s.drafts[j].revision <= s'.drafts[j].revision
         && (s.drafts[j].status in {Rejected, Published} ==> s'.drafts[j] == s.drafts[j])
  }

  // Validating again never refuses a request: from a valid bootstrap on, every publication is valid, and so
  // is what an accepted edit makes of the latest one.
  lemma {:induction false} PublicationsValid(s: State, w: Workspace, k: nat, edit: Edit)
    requires Chain(s, w) && k < |s.snapshots| && PackOk(s.snapshots[0].pack)
    ensures PackOk(s.snapshots[k].pack) && Apply(s.snapshots[k].pack, edit) != Refused(Invalid)
  {
    hide Linked, PackOk, Apply, TotalVersions, DraftsOk, EventsOk;
    if k > 0 {
      PublicationsValid(s, w, k - 1, edit);
      PublicationValid(s, k);
    }
    EditedReason(s.snapshots[k].pack, edit);
    ApplyStaysValid(s.snapshots[k].pack, edit);
  }

  lemma EditedReason(pack: Pack, edit: Edit)
    ensures Edited(pack, edit) != Refused(Invalid)
  {
  }

  lemma PublicationValid(s: State, k: nat)
    requires 0 < k < |s.snapshots| && Linked(s, k) && PackOk(s.snapshots[k - 1].pack)
    ensures PackOk(s.snapshots[k].pack)
  {
    hide Edited, Ids, ItemOk, UniqueIds;
    var j :| 0 <= j < |s.drafts| && Link(s, k, j);
    hide Apply;
    ApplyStaysValid(s.snapshots[k - 1].pack, s.drafts[j].edit);
  }

  lemma DistinctPublications(s: State, w: Workspace)
    requires Chain(s, w)
    ensures forall i, k :: 0 <= i < k < |s.snapshots| ==> s.snapshots[i].id != s.snapshots[k].id
  {
    forall i, k | 0 <= i < k < |s.snapshots| ensures s.snapshots[i].id != s.snapshots[k].id {
      assert TotalVersions(s.snapshots[i].pack) < TotalVersions(s.snapshots[k].pack);
    }
  }

  // Two published drafts were never reviewed against the same predecessor.
  lemma BasesDiffer(s: State, w: Workspace, i: nat, j: nat)
    requires Chain(s, w) && i < j < |s.drafts|
    requires s.drafts[i].status == Published && s.drafts[j].status == Published
    ensures s.drafts[i].edit.base != s.drafts[j].edit.base
  {
    hide TotalVersions, DraftOk;
    DistinctPublications(s, w);
    assert Accounted(s, i) && Accounted(s, j);
    var a :| 0 < a < |s.snapshots| && Link(s, a, i);
    var b :| 0 < b < |s.snapshots| && Link(s, b, j);
    assert a - 1 < b - 1 || b - 1 < a - 1 || a == b;
  }

  ghost predicate SeedOk(s: State) {
    s.revision == 1 && |s.snapshots| == 1 && s.drafts == [] && s.events == [] && s.revoked == {}
    && s.snapshots[0].sequence == 0 && s.snapshots[0].id == Digest(s.snapshots[0].pack)
  }

  function Seed(tenant: string, pack: Pack): (s: State)
    ensures SeedOk(s) && s.snapshots[0].pack == pack
  {
    State(tenant, 1, [Snapshot(Digest(pack), 0, pack, "approved-bootstrap")], [], [], {})
  }

  lemma SeedChain(s: State, w: Workspace)
    requires SeedOk(s)
    ensures Chain(s, w)
  {
  }

  // ---------------------------------------------------------------- every granted request keeps the chain

  ghost predicate KeepsPublished(s: State, s': State) {
    && s.snapshots <= s'.snapshots && s.events <= s'.events && |s.drafts| <= |s'.drafts|
    && forall j :: 0 <= j < |s.drafts| && s.drafts[j].status == Published ==> s'.drafts[j] == s.drafts[j]
  }

  lemma LinksKept(s: State, s': State)
    requires KeepsPublished(s, s')
    ensures forall k :: 0 < k < |s.snapshots| && Linked(s, k) ==> Linked(s', k)
    ensures forall j :: 0 <= j < |s.drafts| && Accounted(s, j) ==> Accounted(s', j)
  {
    hide Apply, PublishedPack;
    forall k, j | 0 < k < |s.snapshots| && 0 <= j < |s.drafts| && Link(s, k, j) ensures Link(s', k, j) {
      assert s'.snapshots[k] == s.snapshots[k] && s'.snapshots[k - 1] == s.snapshots[k - 1];
      assert s'.events[s.snapshots[k].sequence - 1] == s.events[s.snapshots[k].sequence - 1];
    }
    hide Link;
    forall k | 0 < k < |s.snapshots| && Linked(s, k) ensures Linked(s', k) {
      var j :| 0 <= j < |s.drafts| && Link(s, k, j);
      assert Link(s', k, j);
    }
    forall j | 0 <= j < |s.drafts| && Accounted(s, j) ensures Accounted(s', j) {
      var k :| 0 < k < |s.snapshots| && Link(s, k, j);
      assert Link(s', k, j);
    }
  }

  // A request that publishes nothing only has to keep its drafts and events in order.
  lemma NoPublicationKeeps(s: State, s': State, w: Workspace)
    requires Chain(s, w) && KeepsPublished(s, s') && s'.snapshots == s.snapshots
    requires EventsOk(s') && |s'.drafts| <= 64
    requires forall j :: 0 <= j < |s'.drafts| ==> DraftOk(w, s'.drafts[j])
    requires forall j :: 0 <= j < |s'.drafts| && s'.drafts[j].status == Published ==> j < |s.drafts| && s.drafts[j] == s'.drafts[j]
    ensures Chain(s', w)
  {
    hide Linked, Accounted, EventsOk;
    LinksKept(s, s');
  }

  lemma CreateKeeps(s: State, w: Workspace, reader: Reader, edit: Edit, draftId: Uuid, now: Time)
    requires Chain(s, w) && Create(s, w, reader, edit, draftId, now).Granted?
    ensures var s' := Create(s, w, reader, edit, draftId, now).value; Chain(s', w) && Extends(s, s')
  {
    hide SnapshotsOk, Accounted, Apply, Manages;
    HasHead(s);
    NoPublicationKeeps(s, Create(s, w, reader, edit, draftId, now).value, w);
  }

  lemma HasHead(s: State)
    requires SnapshotsOk(s)
    ensures s.snapshots != []
  {
  }

  lemma WithdrawKeeps(s: State, w: Workspace, reader: Reader, id: SnapshotId, expectedRevision: nat, now: Time)
    requires Chain(s, w) && Withdraw(s, w, reader, id, expectedRevision, now).Granted?
    ensures var s' := Withdraw(s, w, reader, id, expectedRevision, now).value; Chain(s', w) && Extends(s, s')
  {
    hide SnapshotsOk, Accounted, Manages, DraftOk, EventsOk;
    HasHead(s);
    WithdrawEvents(s, w, reader, id, expectedRevision, now);
    NoPublicationKeeps(s, Withdraw(s, w, reader, id, expectedRevision, now).value, w);
  }

  lemma WithdrawEvents(s: State, w: Workspace, reader: Reader, id: SnapshotId, expectedRevision: nat, now: Time)
    requires EventsOk(s) && Withdraw(s, w, reader, id, expectedRevision, now).Granted?
    ensures EventsOk(Withdraw(s, w, reader, id, expectedRevision, now).value)
  {
    hide Manages;
  }

  // Replacing one unpublished draft by its next review step.
  lemma ReviewKeeps(s: State, w: Workspace, k: nat, draft: Draft)
    requires Chain(s, w) && k < |s.drafts| && s.drafts[k].status != Published && s.drafts[k].status != Rejected
    requires draft.status != Published && DraftOk(w, draft)
    requires draft.id == s.drafts[k].id && draft.edit == s.drafts[k].edit && draft.author == s.drafts[k].author
    requires s.drafts[k].revision <= draft.revision
    ensures var s' := s.(drafts := s.drafts[k := draft]); Chain(s', w) && Extends(s, s')
  {
    hide SnapshotsOk, Accounted, DraftOk;
    NoPublicationKeeps(s, s.(drafts := s.drafts[k := draft]), w);
  }

  lemma ReleaseKeeps(s: State, w: Workspace, user: string, k: nat, now: Time)
    requires Chain(s, w) && k < |s.drafts| && s.drafts[k].status == Approved && Release(s, user, k, now).Granted?
    ensures var s' := Release(s, user, k, now).value; Chain(s', w) && Extends(s, s')
  {
    hide Link, Linked, Apply, Accounted, TotalVersions, DraftOk;
    var s' := Release(s, user, k, now).value;
    LinksKept(s, s');
    ReleaseLinks(s, user, k, now);
    LinkedBy(s', |s.snapshots|, k);
    hide SnapshotsOk, DraftsOk, EventsOk;
    ReleaseSnapshots(s, user, k, now);
    ReleaseDrafts(s, w, user, k, now);
  }

  lemma ReleaseLinks(s: State, user: string, k: nat, now: Time)
    requires s.snapshots != [] && k < |s.drafts| && Release(s, user, k, now).Granted?
    ensures var s' := Release(s, user, k, now).value;
            && Link(s', |s.snapshots|, k)
            && TotalVersions(s'.snapshots[|s.snapshots|].pack) == TotalVersions(s.snapshots[|s.snapshots| - 1].pack) + 1
  {
    hide Apply, TotalVersions;
    ApplyEffect(s.snapshots[|s.snapshots| - 1].pack, s.drafts[k].edit);
    VersionsOnly(Apply(s.snapshots[|s.snapshots| - 1].pack, s.drafts[k].edit).value, Release(s, user, k, now).value.snapshots[|s.snapshots|].pack);
  }

  lemma LinkedBy(s: State, k: nat, j: nat)
    requires 0 < k < |s.snapshots| && j < |s.drafts| && Link(s, k, j)
    ensures Linked(s, k)
  {
  }

  lemma VersionsOnly(pack: Pack, pack': Pack)
    requires pack'.metrics == pack.metrics && pack'.dimensions == pack.dimensions
    ensures TotalVersions(pack') == TotalVersions(pack)
  {
  }

  lemma ReleaseSnapshots(s: State, user: string, k: nat, now: Time)
    requires SnapshotsOk(s) && EventsOk(s) && k < |s.drafts| && Release(s, user, k, now).Granted?
    requires var s' := Release(s, user, k, now).value;
             && (forall i :: 0 < i < |s'.snapshots| ==> Linked(s', i))
             && TotalVersions(s'.snapshots[|s.snapshots|].pack) == TotalVersions(s.snapshots[|s.snapshots| - 1].pack) + 1
    ensures SnapshotsOk(Release(s, user, k, now).value) && EventsOk(Release(s, user, k, now).value)
  {
    hide Linked, Apply, TotalVersions;
    var s' := Release(s, user, k, now).value;
    forall id | id in s.revoked ensures SnapshotAt(s'.snapshots, id) < |s'.snapshots| {
      assert s'.snapshots[SnapshotAt(s.snapshots, id)].id == id;
    }
  }

  lemma ReleaseDrafts(s: State, w: Workspace, user: string, k: nat, now: Time)
    requires Chain(s, w) && k < |s.drafts| && s.drafts[k].status == Approved && Release(s, user, k, now).Granted?
    requires var s' := Release(s, user, k, now).value; KeepsPublished(s, s') && Link(s', |s.snapshots|, k)
    requires TotalVersions(Release(s, user, k, now).value.snapshots[|s.snapshots|].pack) == TotalVersions(s.snapshots[|s.snapshots| - 1].pack) + 1
    ensures DraftsOk(Release(s, user, k, now).value, w)
  {
    hide Link, Linked, Apply, TotalVersions;
    var s' := Release(s, user, k, now).value;
    LinksKept(s, s');
    forall j | 0 <= j < |s.drafts| && j != k && s.drafts[j].status == Published
      ensures s'.drafts[j].published != s'.drafts[k].published
    {
      PublishedIsOld(s, w, j);
    }
    assert Accounted(s', k);
    hide Accounted;
  }

  // A published draft names a snapshot of the chain, which has fewer definition versions than a new one.
  lemma PublishedIsOld(s: State, w: Workspace, j: nat)
    requires Chain(s, w) && j < |s.drafts| && s.drafts[j].status == Published
    ensures s.drafts[j].published.Some?
    ensures TotalVersions(s.drafts[j].published.value.of) <= TotalVersions(s.snapshots[|s.snapshots| - 1].pack)
  {
    hide TotalVersions, Apply, PublishedPack, EventsOk, DraftOk;
    assert Accounted(s, j);
    var k :| 0 < k < |s.snapshots| && Link(s, k, j);
    assert s.snapshots[k].id == Digest(s.snapshots[k].pack);
  }

  lemma MoveKeeps(s: State, w: Workspace, reader: Reader, id: Uuid, action: Action, expectedRevision: nat, now: Time)
    requires Chain(s, w) && Move(s, w, reader, id, action, expectedRevision, now).Granted?
    ensures var s' := Move(s, w, reader, id, action, expectedRevision, now).value; Chain(s', w) && Extends(s, s')
  {
    HasHead(s);
    hide SnapshotsOk, EventsOk, Release, Manages, Extends;
    var k := DraftAt(s.drafts, id);
    var s' := Move(s, w, reader, id, action, expectedRevision, now).value;
    assert DraftOk(w, s.drafts[k]);
    if action == Publish {
      ReleaseKeeps(s, w, reader.access.user, k, now);
    } else {
      hide Chain;
      ReviewKeeps(s, w, k, s'.drafts[k]);
    }
  }

  // Who may take a review step, and what it changes: one draft, by one status; a publication also adds
  // its snapshot and its event.
  lemma MoveRules(s: State, w: Workspace, reader: Reader, id: Uuid, action: Action, expectedRevision: nat, now: Time)
    requires s.snapshots != [] && Move(s, w, reader, id, action, expectedRevision, now).Granted?
    ensures var s', k := Move(s, w, reader, id, action, expectedRevision, now).value, DraftAt(s.drafts, id);
            && k < |s.drafts| && |s'.drafts| == |s.drafts|
            && (forall j :: 0 <= j < |s.drafts| && j != k ==> s'.drafts[j] == s.drafts[j])
            && var before, after := s.drafts[k], s'.drafts[k];
            && Authorized(w, reader, Permission(action)) && before.revision == expectedRevision && after.revision == expectedRevision + 1
            && (before.status, after.status)
               == (match action case Submit => (Drafted, InReview) case Approve => (InReview, Approved)
                   case Reject => (InReview, Rejected) case Publish => (Approved, Published))
            && after.edit == before.edit && after.author == before.author
            && (action == Submit ==> before.author == reader.access.user)
            && (action in {Approve, Reject} ==> after.reviewer == Some(reader.access.user) && (w.separateReviewer ==> before.author != reader.access.user))
            && (action in {Submit, Publish} ==> after.reviewer == before.reviewer)
            && s'.revoked == s.revoked
            && (|s'.snapshots|, |s'.events|)
               == (if action == Publish then (|s.snapshots| + 1, |s.events| + 1) else (|s.snapshots|, |s.events|))
  {
    hide Apply, PublishedPack;
  }

  // Revoking takes effect on a snapshot of the chain that was not revoked, seen at the current revision.
  lemma WithdrawRules(s: State, w: Workspace, reader: Reader, id: SnapshotId, expectedRevision: nat, now: Time)
    ensures Withdraw(s, w, reader, id, expectedRevision, now).Granted? <==>
      && Manages(w, reader, REVOKE, s) && expectedRevision == s.revision && id !in s.revoked
      && exists k :: 0 <= k < |s.snapshots| && s.snapshots[k].id == id
  {
    hide Manages;
    if k :| 0 <= k < |s.snapshots| && s.snapshots[k].id == id {
      assert SnapshotAt(s.snapshots, id) <= k;
    }
  }

  lemma MutateKeeps(s: State, w: Workspace, reader: Reader, change: Change, now: Time)
    requires Chain(s, w)
    ensures s.snapshots != []
    ensures Mutate(s, w, reader, change, now).Granted? ==>
              var s' := Mutate(s, w, reader, change, now).value; Chain(s', w) && Extends(s, s')
  {
    HasHead(s);
    hide Chain, Extends, Create, Move, Withdraw;
    if Mutate(s, w, reader, change, now).Granted? {
      match change
      case CreateDraft(edit, draftId) => CreateKeeps(s, w, reader, edit, draftId, now);
      case Transition(draft, action, expectedRevision) => MoveKeeps(s, w, reader, draft, action, expectedRevision, now);
      case Revoke(id, expectedRevision) => WithdrawKeeps(s, w, reader, id, expectedRevision, now);
    }
  }

  // ---------------------------------------------------------------- the definitions in force

  function Eligible(snapshots: seq<Snapshot>, now: Time): seq<Snapshot> {
    if snapshots == [] then []
    else
      var last := snapshots[|snapshots| - 1];
      Eligible(snapshots[..|snapshots| - 1], now) + if last.pack.effectiveFrom <= now then [last] else []
  }

  predicate Later(a: Snapshot, b: Snapshot) {
    a.pack.effectiveFrom > b.pack.effectiveFrom || (a.pack.effectiveFrom == b.pack.effectiveFrom && a.sequence > b.sequence)
  }

  // max(..., key=(effective_from, sequence)); the first of equals wins.
  function Latest(items: seq<Snapshot>): Snapshot
    requires items != []
  {
    if |items| == 1 then items[0]
    else
      var best, last := Latest(items[..|items| - 1]), items[|items| - 1];
      if Later(last, best) then last else best
  }

  function Current(s: State, now: Time): Verdict<Snapshot> {
    var eligible := Eligible(s.snapshots, now);
    if eligible == [] then Refused(Unavailable) else Granted(Latest(eligible))
  }

  function Resolve(s: State, w: Workspace, reader: Reader, id: Option<SnapshotId>, requireCurrent: bool, now: Time): Verdict<Snapshot> {
    if !Authorized(w, reader, READ) then Refused(Denied)
    else
      var current := Current(s, now);
      if current.Refused? then current
      else
        var k := if id.None? then 0 else SnapshotAt(s.snapshots, id.value);
        if id.Some? && k == |s.snapshots| then Refused(NotFound)
        else
          var snapshot := if id.None? then current.value else s.snapshots[k];
          if requireCurrent && snapshot.id != current.value.id then Refused(Conflict)
          else if snapshot.id in s.revoked || snapshot.pack.effectiveFrom > now then Refused(Unavailable)
          else Granted(snapshot)
  }

  ghost predicate InOrder(snapshots: seq<Snapshot>) {
    forall i, k :: 0 <= i < k < |snapshots| ==>
      && snapshots[i].sequence < snapshots[k].sequence
      && snapshots[i].pack.effectiveFrom <= snapshots[k].pack.effectiveFrom
  }

  lemma {:induction false} EligibleIsPrefix(snapshots: seq<Snapshot>, now: Time)
    requires InOrder(snapshots)
    ensures var eligible := Eligible(snapshots, now);
            && eligible <= snapshots
            && forall i :: 0 <= i < |snapshots| ==> (i < |eligible| <==> snapshots[i].pack.effectiveFrom <= now)
  {
    if snapshots != [] {
      EligibleIsPrefix(snapshots[..|snapshots| - 1], now);
      var before := Eligible(snapshots[..|snapshots| - 1], now);
      var last := |snapshots| - 1;
      assert before <= snapshots;
      assert forall i :: 0 <= i < last ==> snapshots[i].pack.effectiveFrom <= snapshots[last].pack.effectiveFrom;
    }
  }

  lemma {:induction false} LatestIsLast(items: seq<Snapshot>)
    requires InOrder(items) && items != []
    ensures Latest(items) == items[|items| - 1]
  {
    if |items| > 1 { LatestIsLast(items[..|items| - 1]); }
  }

  lemma ChainInOrder(s: State, w: Workspace)
    requires Chain(s, w)
    ensures InOrder(s.snapshots) && s.snapshots != []
  {
    hide Linked, TotalVersions, EventsOk, DraftsOk;
  }

  // The snapshot in force is the last one of the chain that is effective; there is one exactly when
  // the bootstrap is effective.
  lemma CurrentIsLastEffective(s: State, w: Workspace, now: Time)
    requires Chain(s, w)
    ensures s.snapshots != [] && (Current(s, now).Granted? <==> s.snapshots[0].pack.effectiveFrom <= now)
    ensures Current(s, now).Granted? ==>
              var i := SnapshotAt(s.snapshots, Current(s, now).value.id);
              && i < |s.snapshots| && s.snapshots[i] == Current(s, now).value && s.snapshots[i].pack.effectiveFrom <= now
              && forall j :: i < j < |s.snapshots| ==> s.snapshots[j].pack.effectiveFrom > now
  {
    hide Chain;
    ChainInOrder(s, w);
    DistinctPublications(s, w);
    EligibleIsPrefix(s.snapshots, now);
    var eligible := Eligible(s.snapshots, now);
    if eligible != [] {
      LatestIsLast(eligible);
      assert s.snapshots[|eligible| - 1] == Latest(eligible);
    }
  }

  // As time passes and publications and revocations arrive, the definitions in force never go back.
  lemma CurrentNeverGoesBack(s: State, s': State, w: Workspace, now: Time, now': Time)
    requires Chain(s, w) && Chain(s', w) && Extends(s, s') && now <= now' && Current(s, now).Granted?
    ensures Current(s', now').Granted?
    ensures SnapshotAt(s.snapshots, Current(s, now).value.id) <= SnapshotAt(s'.snapshots, Current(s', now').value.id) < |s'.snapshots|
  {
    CurrentIsLastEffective(s, w, now);
    CurrentIsLastEffective(s', w, now');
    hide Chain, Current;
    var i := SnapshotAt(s.snapshots, Current(s, now).value.id);
    assert s'.snapshots[i] == s.snapshots[i] && s'.snapshots[0] == s.snapshots[0];
  }

  // Exactly when a pinned or current snapshot is handed out, and which one.
  lemma ResolveExactly(s: State, w: Workspace, reader: Reader, id: Option<SnapshotId>, requireCurrent: bool, now: Time)
    requires Chain(s, w) && Authorized(w, reader, READ) && Current(s, now).Granted?
    ensures var current := Current(s, now).value;
            var wanted := if id.None? then current.id else id.value;
            var outcome := Resolve(s, w, reader, id, requireCurrent, now);
            && (outcome.Granted? <==>
                  && wanted !in s.revoked && (requireCurrent ==> wanted == current.id)
                  && SnapshotAt(s.snapshots, wanted) <= SnapshotAt(s.snapshots, current.id))
            && (outcome.Granted? ==> outcome.value.id == wanted && outcome.value in s.snapshots)
  {
    hide Chain, Current, Authorized;
    CurrentIsLastEffective(s, w, now);
    ChainInOrder(s, w);
  }

  // A revoked snapshot stays refused in every later state, and nothing older takes its place.
  lemma RevocationHolds(s: State, s': State, w: Workspace, reader: Reader, id: SnapshotId, requireCurrent: bool, now: Time)
    requires Chain(s, w) && Chain(s', w) && Extends(s, s') && id in s.revoked
    ensures Resolve(s', w, reader, Some(id), requireCurrent, now).Refused?
    ensures Current(s', now).Granted? && Current(s', now).value.id == id ==> Resolve(s', w, reader, None, requireCurrent, now).Refused?
  {
    hide Chain;
  }
}
