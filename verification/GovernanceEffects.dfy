/**
 What each governance request does to the columns of a state, said a second time without the functions
 that compute it: who is let through, and the whole new state when somebody is.
 */
module GovernanceEffects {
  import opened Runs
  import opened Governance

  // ---------------------------------------------------------------- the edit of a definition

  // The first definition with the edit's identifier shows the edit's texts and counts one more version;
  // everything else about it, and every other definition, is as it was.
  ghost predicate EditedList(items: seq<Item>, items': seq<Item>, edit: Edit) {
    |items'| == |items| && exists k: nat :: EditedAt(items, items', edit, k)
  }

  ghost predicate EditedAt(items: seq<Item>, items': seq<Item>, edit: Edit, k: nat) {
    && k < |items| == |items'| && items[k].id.text == edit.definitionId
    && (forall i :: 0 <= i < k ==> items[i].id.text != edit.definitionId)
    && (forall i :: 0 <= i < |items| && i != k ==> items'[i] == items[i])
    && var before, after := items[k], items'[k];
    && (after.name, after.definition, after.owner, after.aliases) == (edit.name, edit.definition, edit.owner, edit.aliases)
    && after.version == before.version + 1 && after.id == before.id && after.classification == before.classification
    && after.domain == before.domain && after.dimensions == before.dimensions && after.sound == before.sound && after.rest == before.rest
  }

  // Only the definitions of the edit's kind change.
  ghost predicate EditedPack(pack: Pack, pack': Pack, edit: Edit) {
    && pack'.domains == pack.domains && pack'.anchors == pack.anchors && pack'.rest == pack.rest
    && if edit.kind == Metric then EditedList(pack.metrics, pack'.metrics, edit) && pack'.dimensions == pack.dimensions
       else EditedList(pack.dimensions, pack'.dimensions, edit) && pack'.metrics == pack.metrics
  }

  ghost predicate Clashes(item: Item, edit: Edit) {
    exists w, v :: w in [item.id, item.name] + item.aliases && v in [edit.name] + edit.aliases && w.folded == v.folded
  }

  // The definition is registered and no other definition of its kind answers to one of the edit's words.
  ghost predicate Applies(pack: Pack, edit: Edit) {
    var items := if edit.kind == Metric then pack.metrics else pack.dimensions;
    && (exists item :: item in items && item.id.text == edit.definitionId)
    && forall item :: item in items && item.id.text != edit.definitionId ==> !Clashes(item, edit)
  }

  lemma ApplyChanges(pack: Pack, edit: Edit)
    requires Apply(pack, edit).Granted?
    ensures var after := Apply(pack, edit).value;
            EditedPack(pack, after, edit) && after.version == pack.version && after.effectiveFrom == pack.effectiveFrom
  {
    hide PackOk, Folded, OtherWords;
    var items := if edit.kind == Metric then pack.metrics else pack.dimensions;
    var items' := if edit.kind == Metric then Apply(pack, edit).value.metrics else Apply(pack, edit).value.dimensions;
    assert EditedAt(items, items', edit, Position(items, edit.definitionId));
  }

  lemma AppliesExactly(pack: Pack, edit: Edit)
    requires PackOk(pack)
    ensures Apply(pack, edit).Granted? <==> Applies(pack, edit)
  {
    ApplyStaysValid(pack, edit);
    hide PackOk, Apply;
    var items := if edit.kind == Metric then pack.metrics else pack.dimensions;
    WordsClash(items, edit);
    PositionFinds(items, edit.definitionId);
  }

  lemma PositionFinds(items: seq<Item>, id: string)
    ensures Position(items, id) < |items| <==> exists item :: item in items && item.id.text == id
  {
    var k := Position(items, id);
    if k < |items| { assert items[k] in items; }
  }

  lemma WordsClash(items: seq<Item>, edit: Edit)
    ensures Folded([edit.name] + edit.aliases) !! OtherWords(items, edit.definitionId)
       <==> forall item :: item in items && item.id.text != edit.definitionId ==> !Clashes(item, edit)
  {
    var words := [edit.name] + edit.aliases;
    forall item | item in items && item.id.text != edit.definitionId && Clashes(item, edit)
      ensures !(Folded(words) !! OtherWords(items, edit.definitionId))
    {
      var w, v :| w in [item.id, item.name] + item.aliases && v in words && w.folded == v.folded;
      assert w.folded in WordsOf(item) && w.folded in OtherWords(items, edit.definitionId) && v.folded in Folded(words);
    }
    if !(Folded(words) !! OtherWords(items, edit.definitionId)) {
      var word :| word in Folded(words) && word in OtherWords(items, edit.definitionId);
      var item :| item in items && item.id.text != edit.definitionId && word in WordsOf(item);
      var w :| w in [item.id, item.name] + item.aliases && w.folded == word;
      var v :| v in words && v.folded == word;
      assert Clashes(item, edit);
    }
  }

  // ---------------------------------------------------------------- requests

  // A reader of the tenant with this permission and clearance for everything in the latest publication.
  ghost predicate Trusted(w: Workspace, reader: Reader, action: string, s: State) {
    && s.snapshots != [] && reader.access.tenant == w.tenant
    && "READ_DATA" in reader.access.permissions && action in reader.access.permissions
    && var pack := s.snapshots[|s.snapshots| - 1].pack;
    && (forall item :: item in pack.metrics ==> item.classification <= reader.clearance)
    && (forall item :: item in pack.dimensions ==> item.classification <= reader.clearance)
  }

  lemma ManagesIs(w: Workspace, reader: Reader, action: string, s: State)
    requires s.snapshots != []
    ensures Manages(w, reader, action, s) <==> Trusted(w, reader, action, s)
  {
    var pack := s.snapshots[|s.snapshots| - 1].pack;
    forall item | item in pack.metrics || item in pack.dimensions ensures item in pack.metrics + pack.dimensions {}
  }

  // A draft is added exactly for an editor who read the latest publication, as a first revision of their
  // own that nobody has reviewed.
  lemma CreateEffect(s: State, w: Workspace, reader: Reader, edit: Edit, draftId: Uuid, now: Time)
    requires s.snapshots != [] && PackOk(s.snapshots[|s.snapshots| - 1].pack)
    ensures var made, head := Create(s, w, reader, edit, draftId, now), s.snapshots[|s.snapshots| - 1];
            && (made.Granted? <==>
                  && Trusted(w, reader, "EDIT_DEFINITIONS", s) && |s.drafts| < 64
                  && edit.base == head.id && Applies(head.pack, edit))
            && (made.Granted? ==>
                  made.value == State(s.tenant, s.revision, s.snapshots,
                                      s.drafts + [Draft(draftId, 1, Drafted, edit, reader.access.user, None, now, None)],
                                      s.events, s.revoked))
  {
    hide PackOk, Apply, Applies, Manages, Trusted;
    ManagesIs(w, reader, EDIT, s);
    AppliesExactly(s.snapshots[|s.snapshots| - 1].pack, edit);
  }

  // The draft a transition names.
  ghost predicate IsDraft(s: State, id: Uuid, k: nat) {
    k < |s.drafts| && s.drafts[k].id == id && forall i :: 0 <= i < k ==> s.drafts[i].id != id
  }

  lemma {:induction false} DraftFound(drafts: seq<Draft>, id: Uuid)
    ensures var k := DraftAt(drafts, id);
            && (forall i :: 0 <= i < k ==> drafts[i].id != id)
  {
    if drafts != [] && drafts[0].id != id { DraftFound(drafts[1..], id); }
  }

  // Who may take which step with a draft.
  ghost predicate MayMove(w: Workspace, s: State, reader: Reader, draft: Draft, action: Action, expectedRevision: nat) {
    && draft.revision == expectedRevision
    && match action
       case Submit => Trusted(w, reader, "EDIT_DEFINITIONS", s) && draft.status == Drafted && draft.author == reader.access.user
       case Approve => Trusted(w, reader, "REVIEW_DEFINITIONS", s) && draft.status == InReview && (w.separateReviewer ==> draft.author != reader.access.user)
       case Reject => Trusted(w, reader, "REVIEW_DEFINITIONS", s) && draft.status == InReview && (w.separateReviewer ==> draft.author != reader.access.user)
       case Publish => Trusted(w, reader, "PUBLISH_DEFINITIONS", s) && draft.status == Approved
  }

  // A review step short of publication moves its draft and nothing else.
  lemma ReviewEffect(s: State, w: Workspace, reader: Reader, id: Uuid, action: Action, expectedRevision: nat, now: Time)
    requires s.snapshots != [] && action != Publish
    ensures var moved := Move(s, w, reader, id, action, expectedRevision, now);
            && (moved.Granted? <==> exists k: nat :: IsDraft(s, id, k) && MayMove(w, s, reader, s.drafts[k], action, expectedRevision))
            && forall k: nat :: moved.Granted? && IsDraft(s, id, k) ==>
                 moved.value == State(s.tenant, s.revision, s.snapshots, s.drafts[k := Reviewed(s.drafts[k], action, reader.access.user)], s.events, s.revoked)
  {
    hide Manages, Trusted;
    DraftFound(s.drafts, id);
    forall action { ManagesIs(w, reader, action, s); }
    forall k: nat | IsDraft(s, id, k) ensures DraftAt(s.drafts, id) == k { DraftIs(s, id, k); }
    if DraftAt(s.drafts, id) < |s.drafts| { assert IsDraft(s, id, DraftAt(s.drafts, id)); }
  }

  lemma DraftIs(s: State, id: Uuid, k: nat)
    requires IsDraft(s, id, k)
    ensures DraftAt(s.drafts, id) == k
  {
    DraftFound(s.drafts, id);
    NoLater(s.drafts, id, k);
  }

  lemma {:induction false} NoLater(drafts: seq<Draft>, id: Uuid, k: nat)
    requires k < |drafts| && drafts[k].id == id
    ensures DraftAt(drafts, id) <= k
  {
    if drafts[0].id != id { NoLater(drafts[1..], id, k - 1); }
  }

  function Reviewed(draft: Draft, action: Action, user: string): Draft {
    match action
    case Submit => Draft(draft.id, draft.revision + 1, InReview, draft.edit, draft.author, draft.reviewer, draft.createdAt, draft.published)
    case Approve => Draft(draft.id, draft.revision + 1, Approved, draft.edit, draft.author, Some(user), draft.createdAt, draft.published)
    case _ => Draft(draft.id, draft.revision + 1, Rejected, draft.edit, draft.author, Some(user), draft.createdAt, draft.published)
  }

  // A publication takes effect neither before it is made, nor before its draft says, nor before its
  // predecessor did, and not later than the last of these.
  ghost predicate TakesEffect(at: Time, wished: Time, now: Time, before: Time) {
    wished <= at && now <= at && before <= at && (at == wished || at == now || at == before)
  }

  // Publishing an approved draft of the latest publication appends the edited pack as the next numbered
  // snapshot with its event, and marks the draft.
  lemma PublishEffect(s: State, w: Workspace, reader: Reader, id: Uuid, expectedRevision: nat, now: Time)
    requires s.snapshots != [] && PackOk(s.snapshots[|s.snapshots| - 1].pack)
    ensures var moved := Move(s, w, reader, id, Publish, expectedRevision, now);
            && (moved.Granted? <==> exists k: nat :: IsDraft(s, id, k) && MayPublish(s, w, reader, k, expectedRevision))
            && forall k: nat :: moved.Granted? && IsDraft(s, id, k) ==> PublishedFrom(s, moved.value, reader.access.user, k, now)
  {
    hide Manages, Trusted, PackOk, Apply, Applies, PublishedPack, EditedPack;
    ManagesIs(w, reader, PUBLISH, s);
    forall k: nat | IsDraft(s, id, k) ensures DraftAt(s.drafts, id) == k { DraftIs(s, id, k); }
    DraftFound(s.drafts, id);
    var k := DraftAt(s.drafts, id);
    if k < |s.drafts| {
      assert IsDraft(s, id, k);
      var head, edit := s.snapshots[|s.snapshots| - 1], s.drafts[k].edit;
      AppliesExactly(head.pack, edit);
      if Apply(head.pack, edit).Granted? { PackPublished(head, edit, |s.snapshots|, now); }
    }
  }

  ghost predicate MayPublish(s: State, w: Workspace, reader: Reader, k: nat, expectedRevision: nat)
    requires s.snapshots != [] && k < |s.drafts|
  {
    var head, draft := s.snapshots[|s.snapshots| - 1], s.drafts[k];
    MayMove(w, s, reader, draft, Publish, expectedRevision) && draft.edit.base == head.id && |s.snapshots| < 64 && Applies(head.pack, draft.edit)
  }

  ghost predicate PublishedFrom(s: State, s': State, user: string, k: nat, now: Time)
    requires s.snapshots != [] && k < |s.drafts|
  {
    var head, draft, n := s.snapshots[|s.snapshots| - 1], s.drafts[k], |s.snapshots|;
    && |s'.snapshots| == n + 1
    && var pack := s'.snapshots[n].pack;
    && EditedPack(head.pack, pack, draft.edit) && pack.version == Publication(n + 1)
    && TakesEffect(pack.effectiveFrom, draft.edit.effectiveFrom, now, head.pack.effectiveFrom)
    && s' == State(s.tenant, s.revision,
                   s.snapshots + [Snapshot(Digest(pack), |s.events| + 1, pack, user)],
                   s.drafts[k := Draft(draft.id, draft.revision + 1, Published, draft.edit, draft.author, draft.reviewer, draft.createdAt, Some(Digest(pack)))],
                   s.events + [Event(|s.events| + 1, Publishing, Digest(pack), now, pack.effectiveFrom, user)],
                   s.revoked)
  }

  lemma PackPublished(head: Snapshot, edit: Edit, count: nat, now: Time)
    requires Apply(head.pack, edit).Granted?
    ensures var pack := PublishedPack(head, edit, count, now);
            && EditedPack(head.pack, pack, edit) && pack.version == Publication(count + 1)
            && TakesEffect(pack.effectiveFrom, edit.effectiveFrom, now, head.pack.effectiveFrom)
  {
    hide EditedList, Apply;
    ApplyChanges(head.pack, edit);
  }

  // Revoking adds one identifier of the chain to the revoked ones, with its event.
  lemma RevokeEffect(s: State, w: Workspace, reader: Reader, id: SnapshotId, expectedRevision: nat, now: Time)
    requires s.snapshots != []
    ensures var revoked := Withdraw(s, w, reader, id, expectedRevision, now);
            && (revoked.Granted? <==>
                  && Trusted(w, reader, "REVOKE_DEFINITIONS", s) && expectedRevision == s.revision && id !in s.revoked
                  && exists snapshot :: snapshot in s.snapshots && snapshot.id == id)
            && (revoked.Granted? ==>
                  revoked.value == State(s.tenant, s.revision, s.snapshots, s.drafts,
                                         s.events + [Event(|s.events| + 1, Revoking, id, now, now, reader.access.user)], s.revoked + {id}))
  {
    hide Manages, Trusted;
    ManagesIs(w, reader, REVOKE, s);
    WithdrawRules(s, w, reader, id, expectedRevision, now);
    if snapshot :| snapshot in s.snapshots && snapshot.id == id {
      var k :| 0 <= k < |s.snapshots| && s.snapshots[k] == snapshot;
      assert s.snapshots[k].id == id;
    }
  }

  // ---------------------------------------------------------------- along the chain

  // Every publication shows, in the definition its draft names, exactly the texts that were approved, and
  // is its predecessor everywhere else.
  lemma PublicationShowsItsDraft(s: State, w: Workspace, k: nat)
    requires Chain(s, w) && 0 < k < |s.snapshots|
    ensures exists j :: 0 <= j < |s.drafts| && s.drafts[j].status == Published && s.drafts[j].published == Some(s.snapshots[k].id)
              && s.drafts[j].edit.base == s.snapshots[k - 1].id
              && EditedPack(s.snapshots[k - 1].pack, s.snapshots[k].pack, s.drafts[j].edit)
              && s.snapshots[k].pack.version == Publication(k + 1)
  {
    assert Linked(s, k);
    hide Chain, PublishedPack, Apply, EditedPack;
    var j :| 0 <= j < |s.drafts| && Link(s, k, j);
    var at := s.events[s.snapshots[k].sequence - 1].occurredAt;
    PackPublished(s.snapshots[k - 1], s.drafts[j].edit, k, at);
  }

  // ---------------------------------------------------------------- what a reader is given

  // The last publication in effect; publications are in order of their times.
  ghost predicate InForce(s: State, now: Time, k: nat) {
    && k < |s.snapshots| && s.snapshots[k].pack.effectiveFrom <= now
    && forall j :: k < j < |s.snapshots| ==> s.snapshots[j].pack.effectiveFrom > now
  }

  // Without an identifier a reader of the tenant gets the publication in force, with one that publication,
  // if it is in effect, not revoked, and in force where that is asked for; nothing is ever put in its place.
  lemma ResolveEffect(s: State, w: Workspace, reader: Reader, id: Option<SnapshotId>, requireCurrent: bool, now: Time)
    requires Chain(s, w)
    ensures var outcome := Resolve(s, w, reader, id, requireCurrent, now);
            && (outcome.Granted? <==> exists c, k: nat :: Given(s, w, reader, id, requireCurrent, now, c, k))
            && forall c, k: nat :: Given(s, w, reader, id, requireCurrent, now, c, k) ==> outcome == Granted(s.snapshots[k])
  {
    hide Chain, Current;
    CurrentIsLastEffective(s, w, now);
    DistinctPublications(s, w);
    ChainInOrder(s, w);
    ReadingIs(w, reader);
    var outcome := Resolve(s, w, reader, id, requireCurrent, now);
    forall c: nat, k: nat | Given(s, w, reader, id, requireCurrent, now, c, k) ensures outcome == Granted(s.snapshots[k]) {
      GivenIs(s, w, reader, id, requireCurrent, now, c, k);
    }
    if outcome.Granted? {
      var c := SnapshotAt(s.snapshots, Current(s, now).value.id);
      var k := SnapshotAt(s.snapshots, outcome.value.id);
      assert Given(s, w, reader, id, requireCurrent, now, c, k);
    }
  }

  ghost predicate Given(s: State, w: Workspace, reader: Reader, id: Option<SnapshotId>, requireCurrent: bool, now: Time, c: nat, k: nat) {
    && reader.access.tenant == w.tenant && "READ_DATA" in reader.access.permissions
    && InForce(s, now, c) && k <= c && s.snapshots[k].id !in s.revoked
    && (id.None? || requireCurrent ==> k == c) && (id.Some? ==> s.snapshots[k].id == id.value)
  }

  lemma ReadingIs(w: Workspace, reader: Reader)
    ensures Authorized(w, reader, READ) <==> reader.access.tenant == w.tenant && "READ_DATA" in reader.access.permissions
  {
  }

  lemma GivenIs(s: State, w: Workspace, reader: Reader, id: Option<SnapshotId>, requireCurrent: bool, now: Time, c: nat, k: nat)
    requires Chain(s, w) && Given(s, w, reader, id, requireCurrent, now, c, k)
    ensures Resolve(s, w, reader, id, requireCurrent, now) == Granted(s.snapshots[k])
  {
    hide Chain, Current;
    CurrentIsLastEffective(s, w, now);
    DistinctPublications(s, w);
    ChainInOrder(s, w);
    ReadingIs(w, reader);
    assert s.snapshots[0].pack.effectiveFrom <= now;
    var current := Current(s, now).value;
    assert SnapshotAt(s.snapshots, current.id) == c;
  }
}
