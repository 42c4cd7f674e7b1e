/** The hooks of the `dubLinks` collection (`manageLinks`): before a mapping
    record is saved the remote link is brought in line with it (updated when
    it exists, created when it does not and a URL is given), and after a
    record is deleted its remote link is deleted.

    As for the link reconciler, each hook run is a function from the world
    before it to an `Outcome`, and each hook method is proved to end as that
    function says. */
module LinkRecords {
  import opened Common
  import opened DubService
  import opened PayloadStore
  import opened Effects

  /** One entry of `data.dubTags`: a tag id as a string, a populated tag
      record (whose `id` may be missing), or `null`/`undefined`, whose `.id`
      throws a `TypeError`. */
  datatype TagRef = TagText(text: string) | TagObject(id: Option<string>) | TagMissing

  /** The fields of the incoming mapping record the hook reads; `dubTags` is
      `None` when the field is not an array. */
  datatype LinkData = LinkData(
    externalId: Option<string>,
    shortLink: Option<string>,
    url: Option<string>,
    dubTags: Option<seq<TagRef>>)

  /** `data.externalId || originalDoc.externalId` */
  function ChosenExternalId(data: Option<string>, original: Option<string>): string {
    if Truthy(data) then data.value
    else if original.Some? then original.value else ""
  }

  /** The local tag ids named by `dubTags`: each string itself, each
      object's `id`, falsy values dropped; `None` when an entry is `null`
      (the `TypeError`), and no ids when the field is not an array. */
  function PayloadTagIds(refs: Option<seq<TagRef>>): Option<seq<string>> {
    if refs.None? then Some([]) else RefIds(refs.value)
  }

  function RefIds(refs: seq<TagRef>): Option<seq<string>> {
    if |refs| == 0 then Some([])
    else
      var rest := RefIds(refs[1..]);
      match refs[0]
      case TagMissing => None
      case TagText(s) => if s == "" || rest.None? then rest else Some([s] + rest.value)
      case TagObject(id) =>
        if !Truthy(id) || rest.None? then rest else Some([id.value] + rest.value)
  }

  /** The id a reference names, when it names a truthy one. */
  predicate Names(t: TagRef, id: string) {
    id != "" && (t == TagText(id) || t == TagObject(Some(id)))
  }

  /** The ids are found exactly when no entry is missing, and then they are
      exactly the truthy ids the entries name. */
  lemma {:induction false} RefIdsContents(refs: seq<TagRef>)
    ensures RefIds(refs).Some? <==> forall i :: 0 <= i < |refs| ==> refs[i] != TagMissing
    ensures RefIds(refs).Some? ==>
      var ids := RefIds(refs).value;
      && |ids| <= |refs|
      && (forall id :: id in ids <==> exists i :: 0 <= i < |refs| && Names(refs[i], id))
  {
    if |refs| > 0 {
      RefIdsContents(refs[1..]);
      assert forall i :: 1 <= i < |refs| ==> refs[i] == refs[1..][i - 1];
      if RefIds(refs).Some? {
        var ids := RefIds(refs).value;
        var rest := RefIds(refs[1..]).value;
        forall id | id in ids ensures exists i :: 0 <= i < |refs| && Names(refs[i], id) {
          if Names(refs[0], id) {
          } else {
            assert id in rest;
            var k :| 0 <= k < |refs[1..]| && Names(refs[1..][k], id);
            assert Names(refs[k + 1], id);
          }
        }
        forall id | exists i :: 0 <= i < |refs| && Names(refs[i], id) ensures id in ids {
          var i :| 0 <= i < |refs| && Names(refs[i], id);
          if i > 0 {
            assert Names(refs[1..][i - 1], id);
          }
        }
      }
    }
  }

  /** For example: falsy ids are dropped and the order is kept; a `null`
      entry makes the whole mapping throw. */
  lemma PayloadTagIdsExample()
    ensures PayloadTagIds(Some([TagText("a"), TagObject(None), TagText(""), TagObject(Some("b"))])) == Some(["a", "b"])
    ensures PayloadTagIds(Some([TagText("a"), TagMissing])) == None
    ensures PayloadTagIds(None) == Some([])
  {
    var last := [TagObject(Some("b"))];
    assert last[1..] == [];
    assert RefIds(last[1..]) == Some([]);
    assert ["b"] + [] == ["b"];
    assert RefIds(last) == Some(["b"]);
    assert [TagText("")] + last == [TagText(""), TagObject(Some("b"))];
    assert RefIds([TagText(""), TagObject(Some("b"))]) == Some(["b"]);
    var refs := [TagText("a"), TagObject(None), TagText(""), TagObject(Some("b"))];
    assert refs[1..][1..] == [TagText(""), TagObject(Some("b"))];
    assert RefIds(refs[1..]) == Some(["b"]);
    assert ["a"] + ["b"] == ["a", "b"];
    assert RefIds(refs) == Some(["a", "b"]);
    var bad := [TagText("a"), TagMissing];
    assert RefIds(bad[1..]) == None;
  }

  /** `docs.map((tag) => tag.tagID).filter(Boolean)`: the remote ids the
      found tag records hold, in order, empty ones dropped. */
  function RemoteTagIds(records: seq<TagRecord>): seq<string> {
    if |records| == 0 then []
    else if Truthy(records[0].tagID) then [records[0].tagID.value] + RemoteTagIds(records[1..])
    else RemoteTagIds(records[1..])
  }

  lemma {:induction false} RemoteTagIdsContents(records: seq<TagRecord>)
    ensures forall id :: id in RemoteTagIds(records) <==>
      exists i :: 0 <= i < |records| && records[i].tagID == Some(id) && id != ""
  {
    if |records| > 0 {
      RemoteTagIdsContents(records[1..]);
      assert forall i :: 1 <= i < |records| ==> records[i] == records[1..][i - 1];
      forall id | id in RemoteTagIds(records)
        ensures exists i :: 0 <= i < |records| && records[i].tagID == Some(id) && id != ""
      {
        if !(Truthy(records[0].tagID) && id == records[0].tagID.value) {
          assert id in RemoteTagIds(records[1..]);
          var k :| 0 <= k < |records[1..]| && records[1..][k].tagID == Some(id) && id != "";
          assert records[k + 1].tagID == Some(id);
        }
      }
      forall id | exists i :: 0 <= i < |records| && records[i].tagID == Some(id) && id != ""
        ensures id in RemoteTagIds(records)
      {
        var i :| 0 <= i < |records| && records[i].tagID == Some(id) && id != "";
        if i > 0 {
          assert records[1..][i - 1].tagID == Some(id);
        }
      }
    }
  }

  /** `updateData`: the short link when it is truthy, the remote tag ids when
      there are any. */
  function UpdatePatch(data: LinkData, remoteIds: seq<string>): LinkPatch {
    LinkPatch(if Truthy(data.shortLink) then data.shortLink else None,
              if |remoteIds| > 0 then Some(remoteIds) else None)
  }

  /** A link updated with `updateData` keeps every field the record did not
      send: its tags change only to a non-empty tag list, the short link sent
      is ignored, and nothing else changes. */
  lemma UpdateKeepsUnsentFields(l: Link, data: LinkData, remoteIds: seq<string>)
    ensures var l' := Patched(l, UpdatePatch(data, remoteIds));
      && l'.id == l.id && l'.externalId == l.externalId && l'.url == l.url
      && l'.folderId == l.folderId && l'.domain == l.domain && l'.tenantId == l.tenantId
      && l'.shortLink == l.shortLink
      && (l'.tagIds == if remoteIds != [] then TagIdList(remoteIds) else l.tagIds)
  {
  }

  datatype LinkStage =
    | Skipped             // re-entrant save
    | NoExternalId        // neither the new nor the stored record has one
    | TagsInvalid         // a `null` tag reference: the `TypeError`
    | TagLookupFailed
    | Updated
    | UpdateFailed
    | MissingUrl          // no remote link and nothing to create it from
    | Created
    | CreateFailed

  predicate LinkFailed(stage: LinkStage) {
    stage == TagsInvalid || stage == TagLookupFailed || stage == UpdateFailed || stage == CreateFailed
  }

  const UpdateError: string := "Dub link update failed"
  const DeleteError: string := "Dub link delete failed"

  function MissingUrlWarning(externalId: string): string {
    "Missing URL for link creation: " + externalId
  }

  /** The remote ids of the tag records named by `ids`: none when there are
      no ids, else the `tagID`s of the first `|ids|` records found. */
  function RemoteIdsFor(ids: seq<string>, db: Db): seq<string> {
    if |ids| == 0 then [] else RemoteTagIds(TagRecordsIn(db.tags, ids, |ids|))
  }

  /** Every remote id sent is the non-empty `tagID` of a stored tag record
      the references name; while fewer records than ids are found, every
      such `tagID` is sent. */
  lemma RemoteIdsForContents(ids: seq<string>, db: Db)
    ensures forall x :: x in RemoteIdsFor(ids, db) ==>
      x != "" && exists t :: t in db.tags && t.id in ids && t.tagID == Some(x)
    ensures |ids| > 0 && |TagRecordsIn(db.tags, ids, |ids|)| < |ids| ==>
      forall t :: t in db.tags && t.id in ids && Truthy(t.tagID) ==> t.tagID.value in RemoteIdsFor(ids, db)
  {
    if |ids| > 0 {
      var found := TagRecordsIn(db.tags, ids, |ids|);
      RemoteTagIdsContents(found);
      forall x | x in RemoteIdsFor(ids, db) ensures x != "" && exists t :: t in db.tags && t.id in ids && t.tagID == Some(x) {
        var i :| 0 <= i < |found| && found[i].tagID == Some(x) && x != "";
        assert found[i] in found;
      }
      if |found| < |ids| {
        forall t | t in db.tags && t.id in ids && Truthy(t.tagID) ensures t.tagID.value in RemoteIdsFor(ids, db) {
          var i :| 0 <= i < |found| && found[i] == t;
        }
      }
    }
  }

  /** `updateData` as a run computes it: from the record and the tag
      records. */
  function PatchFor(data: LinkData, ids: seq<string>, db: Db): LinkPatch {
    UpdatePatch(data, RemoteIdsFor(ids, db))
  }

  /** The tag-record lookup, made only for a non-empty id list; `Fail` when
      it throws. */
  function TagLookupRun(ids: seq<string>, w: World): (Reply<seq<string>>, World) {
    if |ids| == 0 then (Ok([]), w)
    else
      var called := RepoCalled(w, FindTagRecords(ids, |ids|));
      if !RepoUp(w) then (Fail, called)
      else (Ok(RemoteIdsFor(ids, w.db)), called)
  }

  /** The update of an existing link, or the creation of a missing one. */
  function WriteRun(data: LinkData, externalId: string, present: bool, patch: LinkPatch, w: World): Outcome<LinkStage> {
    if present then
      var called := DubCalled(w, LinksUpdate(externalId, patch));
      if DubUp(w) && LinkWith(w.remote.links, externalId).Some? then
        Outcome(Updated, called.(remote := w.remote.(links := PatchedLinks(w.remote.links, externalId, patch))))
      else Outcome(UpdateFailed, Logged(called, Error, UpdateError))
    else if !Truthy(data.url) then Outcome(MissingUrl, Logged(w, Warn, MissingUrlWarning(externalId)))
    else
      var called := DubCalled(w, LinksCreate(externalId, data.url.value, patch));
      if DubUp(w) && LinkWith(w.remote.links, externalId).None? then
        Outcome(Created, called.(remote := w.remote.(links := w.remote.links + [CreatedLink(w.remote, externalId, data.url.value, patch)],
                                                     minted := w.remote.minted + 1)))
      else Outcome(CreateFailed, Logged(called, Error, UpdateError))
  }

  /** Whether `links.get` answers a link: it does not when the call fails,
      which the hook cannot tell from a missing link. */
  predicate Exists(w: World, externalId: string) {
    DubUp(w) && LinkWith(w.remote.links, externalId).Some?
  }

  /** The lookup of the tag records, then the write. */
  function MappedRun(data: LinkData, externalId: string, present: bool, ids: seq<string>, w: World): Outcome<LinkStage> {
    var (remoteIds, looked) := TagLookupRun(ids, w);
    if remoteIds.Fail? then Outcome(TagLookupFailed, Logged(looked, Error, UpdateError))
    else WriteRun(data, externalId, present, UpdatePatch(data, remoteIds.value), looked)
  }

  /** Everything after the guards: the existence probe, the mapping of the
      tag references, the lookup and the write. */
  function ChangeRun(data: LinkData, externalId: string, w: World): Outcome<LinkStage> {
    var probed := DubCalled(w, LinksGet(externalId));
    match PayloadTagIds(data.dubTags)
    case None => Outcome(TagsInvalid, Logged(probed, Error, UpdateError))
    case Some(ids) => MappedRun(data, externalId, Exists(w, externalId), ids, probed)
  }

  /** The hook goes past its guards: the flag is clear and the new or the
      stored record has an external id. */
  predicate Proceeds(skipDubHook: bool, data: LinkData, original: Option<string>) {
    !skipDubHook && (Truthy(data.externalId) || Truthy(original))
  }

  /** A whole run of the before-change hook. */
  function BeforeChangeRun(skipDubHook: bool, data: LinkData, original: Option<string>, w: World): Outcome<LinkStage> {
    if skipDubHook then Outcome(Skipped, w)
    else if !Truthy(data.externalId) && !Truthy(original) then Outcome(NoExternalId, w)
    else ChangeRun(data, ChosenExternalId(data.externalId, original), w)
  }

  lemma TagLookupRunFacts(ids: seq<string>, w: World)
    ensures var (r, w') := TagLookupRun(ids, w);
      && w'.remote == w.remote && w'.dubCalls == w.dubCalls && w'.log == w.log && w'.db == w.db
      && w'.dubFaults == w.dubFaults && w'.repoFaults == w.repoFaults
      && w'.repoCalls == w.repoCalls + (if |ids| > 0 then [FindTagRecords(ids, |ids|)] else [])
      && (r.Fail? <==> |ids| > 0 && !RepoUp(w))
      && (r.Ok? ==> r.value == RemoteIdsFor(ids, w.db))
  {
  }

  /** The write step: which call it makes, what it logs, and that it only
      writes the service. */
  lemma WriteRunFacts(data: LinkData, externalId: string, present: bool, patch: LinkPatch, w: World)
    ensures var o := WriteRun(data, externalId, present, patch, w);
      && o.world.dubCalls == w.dubCalls +
           (if present then [LinksUpdate(externalId, patch)]
            else if Truthy(data.url) then [LinksCreate(externalId, data.url.value, patch)]
            else [])
      && o.world.db == w.db && o.world.repoCalls == w.repoCalls
      && o.world.dubFaults == w.dubFaults && o.world.repoFaults == w.repoFaults
      && (o.stage == Updated || o.stage == UpdateFailed <==> present)
      && (o.stage == MissingUrl <==> !present && !Truthy(data.url))
      && (o.stage == Updated <==> present && DubUp(w) && LinkWith(w.remote.links, externalId).Some?)
      && (o.stage == Created <==> !present && Truthy(data.url) && DubUp(w) && LinkWith(w.remote.links, externalId).None?)
      && (o.stage != Updated && o.stage != Created ==> o.world.remote == w.remote)
      && o.world.log == w.log +
           (if LinkFailed(o.stage) then [LogEntry(Error, UpdateError)]
            else if o.stage == MissingUrl then [LogEntry(Warn, MissingUrlWarning(externalId))]
            else [])
  {
  }

  /** The write step changes the service only at its external id. */
  lemma WriteRunTouchesOnlyItsLink(data: LinkData, externalId: string, present: bool, patch: LinkPatch, w: World)
    ensures var o := WriteRun(data, externalId, present, patch, w);
      && o.world.remote.folders == w.remote.folders && o.world.remote.tags == w.remote.tags
      && (forall l :: l in w.remote.links && l.externalId != externalId ==> l in o.world.remote.links)
      && (forall l :: l in o.world.remote.links && l.externalId != externalId ==> l in w.remote.links)
  {
    var o := WriteRun(data, externalId, present, patch, w);
    if o.stage == Updated {
      var links := o.world.remote.links;
      assert links == PatchedLinks(w.remote.links, externalId, patch);
      forall l | l in w.remote.links && l.externalId != externalId ensures l in links {
        var i :| 0 <= i < |w.remote.links| && w.remote.links[i] == l;
        assert links[i] == l;
      }
      forall l | l in links && l.externalId != externalId ensures l in w.remote.links {
        var i :| 0 <= i < |links| && links[i] == l;
        assert w.remote.links[i] == l;
      }
    }
  }

  /** What the steps after the guards do, in terms of the world before the
      probe. */
  lemma ChangeRunFacts(data: LinkData, externalId: string, w: World)
    ensures var o := ChangeRun(data, externalId, w);
      var ids := PayloadTagIds(data.dubTags);
      && Extends(w, o.world) && o.world.db == w.db
      && o.world.repoCalls == w.repoCalls +
           (if ids.Some? && |ids.value| > 0 then [FindTagRecords(ids.value, |ids.value|)] else [])
      && (o.stage == TagsInvalid <==> ids.None?)
      && (o.stage == TagLookupFailed <==> ids.Some? && |ids.value| > 0 && !RepoUp(w))
      && (o.stage != TagsInvalid && o.stage != TagLookupFailed ==>
            o == WriteRun(data, externalId, Exists(w, externalId), PatchFor(data, ids.value, w.db),
                          TagLookupRun(ids.value, DubCalled(w, LinksGet(externalId))).1))
      && (o.stage == TagsInvalid || o.stage == TagLookupFailed ==>
            o.world.remote == w.remote && o.world.dubCalls == w.dubCalls + [LinksGet(externalId)] &&
            o.world.log == w.log + [LogEntry(Error, UpdateError)])
  {
    var probed := DubCalled(w, LinksGet(externalId));
    var ids := PayloadTagIds(data.dubTags);
    if ids.Some? {
      TagLookupRunFacts(ids.value, probed);
      var (remoteIds, looked) := TagLookupRun(ids.value, probed);
      if remoteIds.Ok? {
        WriteRunFacts(data, externalId, Exists(w, externalId), PatchFor(data, ids.value, w.db), looked);
      }
    }
  }

  /** The calls a run makes to the service: none when a guard stops it;
      otherwise the probe by external id, then, once the tag references are
      mapped and looked up, an update when the probe found the link, a
      create when it did not and a URL is given, and nothing else. */
  lemma BeforeChangeDubCalls(skipDubHook: bool, data: LinkData, original: Option<string>, w: World)
    ensures var o := BeforeChangeRun(skipDubHook, data, original, w);
      var externalId := ChosenExternalId(data.externalId, original);
      var ids := PayloadTagIds(data.dubTags);
      && (!Proceeds(skipDubHook, data, original) ==> o.world == w && o.stage in {Skipped, NoExternalId})
      && (Proceeds(skipDubHook, data, original) ==>
            o.world.dubCalls == w.dubCalls + [LinksGet(externalId)] +
              (if o.stage in {TagsInvalid, TagLookupFailed, MissingUrl} then []
               else if Exists(w, externalId) then [LinksUpdate(externalId, PatchFor(data, ids.value, w.db))]
               else [LinksCreate(externalId, data.url.value, PatchFor(data, ids.value, w.db))]))
      && (o.stage == MissingUrl <==>
            Proceeds(skipDubHook, data, original) && ids.Some? && !(|ids.value| > 0 && !RepoUp(w)) &&
            !Exists(w, externalId) && !Truthy(data.url))
  {
    if Proceeds(skipDubHook, data, original) {
      var externalId := ChosenExternalId(data.externalId, original);
      ChangeRunFacts(data, externalId, w);
      var ids := PayloadTagIds(data.dubTags);
      if ids.Some? && !(|ids.value| > 0 && !RepoUp(w)) {
        var looked := TagLookupRun(ids.value, DubCalled(w, LinksGet(externalId))).1;
        TagLookupRunFacts(ids.value, DubCalled(w, LinksGet(externalId)));
        WriteRunFacts(data, externalId, Exists(w, externalId), PatchFor(data, ids.value, w.db), looked);
      }
    }
  }

  /** The repository is only read: the tag records are looked up exactly
      when the references name some ids, with those ids and that many as
      the limit, and nothing is written. */
  lemma BeforeChangeRepoCalls(skipDubHook: bool, data: LinkData, original: Option<string>, w: World)
    ensures var o := BeforeChangeRun(skipDubHook, data, original, w);
      var ids := PayloadTagIds(data.dubTags);
      && o.world.db == w.db
      && o.world.repoCalls == w.repoCalls +
           (if Proceeds(skipDubHook, data, original) && ids.Some? && |ids.value| > 0
            then [FindTagRecords(ids.value, |ids.value|)] else [])
  {
    if Proceeds(skipDubHook, data, original) {
      ChangeRunFacts(data, ChosenExternalId(data.externalId, original), w);
    }
  }

  /** A run changes the service only at its external id: every other link,
      every folder and every tag is kept, whatever happens. */
  lemma BeforeChangeTouchesOnlyItsLink(skipDubHook: bool, data: LinkData, original: Option<string>, w: World)
    ensures var o := BeforeChangeRun(skipDubHook, data, original, w);
      var externalId := ChosenExternalId(data.externalId, original);
      && o.world.remote.folders == w.remote.folders && o.world.remote.tags == w.remote.tags
      && (forall l :: l in w.remote.links && l.externalId != externalId ==> l in o.world.remote.links)
      && (forall l :: l in o.world.remote.links && l.externalId != externalId ==> l in w.remote.links)
  {
    if Proceeds(skipDubHook, data, original) {
      var externalId := ChosenExternalId(data.externalId, original);
      ChangeRunFacts(data, externalId, w);
      var ids := PayloadTagIds(data.dubTags);
      if ids.Some? && !(|ids.value| > 0 && !RepoUp(w)) {
        var looked := TagLookupRun(ids.value, DubCalled(w, LinksGet(externalId))).1;
        TagLookupRunFacts(ids.value, DubCalled(w, LinksGet(externalId)));
        WriteRunTouchesOnlyItsLink(data, externalId, Exists(w, externalId), PatchFor(data, ids.value, w.db), looked);
      }
    }
  }

  /** An existing link is updated with the record's `updateData`, and no
      link is created for it. */
  lemma ExistingLinkIsUpdated(data: LinkData, original: Option<string>, w: World)
    requires Truthy(data.externalId) || Truthy(original)
    requires Exists(w, ChosenExternalId(data.externalId, original))
    ensures var o := BeforeChangeRun(false, data, original, w);
      var externalId := ChosenExternalId(data.externalId, original);
      var ids := PayloadTagIds(data.dubTags);
      && o.stage in {TagsInvalid, TagLookupFailed, Updated, UpdateFailed}
      && (o.stage == Updated || o.stage == UpdateFailed ==>
            o.world.dubCalls == w.dubCalls + [LinksGet(externalId), LinksUpdate(externalId, PatchFor(data, ids.value, w.db))])
      && (o.stage == Updated ==>
            o.world.remote.links == PatchedLinks(w.remote.links, externalId, PatchFor(data, ids.value, w.db)))
  {
    var externalId := ChosenExternalId(data.externalId, original);
    ChangeRunFacts(data, externalId, w);
    BeforeChangeDubCalls(false, data, original, w);
    var o := BeforeChangeRun(false, data, original, w);
    if o.stage == Updated || o.stage == UpdateFailed {
      assert [LinksGet(externalId)] + [LinksUpdate(externalId, PatchFor(data, PayloadTagIds(data.dubTags).value, w.db))] ==
             [LinksGet(externalId), LinksUpdate(externalId, PatchFor(data, PayloadTagIds(data.dubTags).value, w.db))];
    }
  }

  /** A link is created only when the probe found none and a URL is given,
      and then the service holds, under the external id, a new link with
      that URL and the record's `updateData`. */
  lemma CreatedLinkCarriesData(skipDubHook: bool, data: LinkData, original: Option<string>, w: World)
    requires BeforeChangeRun(skipDubHook, data, original, w).stage == Created
    ensures var o := BeforeChangeRun(skipDubHook, data, original, w);
      var externalId := ChosenExternalId(data.externalId, original);
      && Proceeds(skipDubHook, data, original) && !Exists(w, externalId) && Truthy(data.url)
      && LinkWith(w.remote.links, externalId).None?
      && LinkWith(o.world.remote.links, externalId) ==
           Some(CreatedLink(w.remote, externalId, data.url.value, PatchFor(data, PayloadTagIds(data.dubTags).value, w.db)))
      && LinkWith(o.world.remote.links, externalId).value.shortLink == FreshShortLink(w.remote)
  {
    var o := BeforeChangeRun(skipDubHook, data, original, w);
    var externalId := ChosenExternalId(data.externalId, original);
    ChangeRunFacts(data, externalId, w);
    var ids := PayloadTagIds(data.dubTags).value;
    var looked := TagLookupRun(ids, DubCalled(w, LinksGet(externalId))).1;
    TagLookupRunFacts(ids, DubCalled(w, LinksGet(externalId)));
    var made := CreatedLink(w.remote, externalId, data.url.value, PatchFor(data, ids, w.db));
    var links := w.remote.links + [made];
    assert o.world.remote.links == links;
    FindFirst(w.remote.links, LinkIs(externalId));
    assert forall j :: 0 <= j < |w.remote.links| ==> links[j] == w.remote.links[j];
    FindAt(links, LinkIs(externalId), |w.remote.links|);
  }

  /** Errors are caught: exactly the failing stages log the error, a missing
      URL logs the warning, and nothing else is logged. */
  lemma BeforeChangeLogs(skipDubHook: bool, data: LinkData, original: Option<string>, w: World)
    ensures var o := BeforeChangeRun(skipDubHook, data, original, w);
      && Extends(w, o.world)
      && o.world.log == w.log +
           (if LinkFailed(o.stage) then [LogEntry(Error, UpdateError)]
            else if o.stage == MissingUrl then [LogEntry(Warn, MissingUrlWarning(ChosenExternalId(data.externalId, original)))]
            else [])
  {
    if Proceeds(skipDubHook, data, original) {
      var externalId := ChosenExternalId(data.externalId, original);
      ChangeRunFacts(data, externalId, w);
      var ids := PayloadTagIds(data.dubTags);
      if ids.Some? && !(|ids.value| > 0 && !RepoUp(w)) {
        var looked := TagLookupRun(ids.value, DubCalled(w, LinksGet(externalId))).1;
        TagLookupRunFacts(ids.value, DubCalled(w, LinksGet(externalId)));
        WriteRunFacts(data, externalId, Exists(w, externalId), PatchFor(data, ids.value, w.db), looked);
      }
    }
  }

  /** The after-delete hook: the remote link with the record's external id
      is deleted, when the record has one. */
  function AfterDeleteRun(externalId: Option<string>, w: World): Outcome<bool> {
    if !Truthy(externalId) then Outcome(false, w)
    else
      var called := DubCalled(w, LinksDelete(externalId.value));
      if DubUp(w) && LinkWith(w.remote.links, externalId.value).Some? then
        Outcome(true, called.(remote := w.remote.(links := WithoutLink(w.remote.links, externalId.value))))
      else Outcome(false, Logged(called, Error, DeleteError))
  }

  /** After the delete no link with the external id is left and every other
      link is; without an external id, or when the call fails, the service
      is untouched. */
  lemma AfterDeleteRemovesExactly(externalId: Option<string>, w: World)
    ensures var o := AfterDeleteRun(externalId, w);
      && o.world.db == w.db && o.world.repoCalls == w.repoCalls
      && (!Truthy(externalId) ==> o.world == w)
      && (Truthy(externalId) ==> o.world.dubCalls == w.dubCalls + [LinksDelete(externalId.value)])
      && (o.stage <==> Truthy(externalId) && DubUp(w) && LinkWith(w.remote.links, externalId.value).Some?)
      && (!o.stage ==> o.world.remote == w.remote)
      && (o.stage ==> forall l :: l in o.world.remote.links <==> l in w.remote.links && l.externalId != externalId.value)
      && (Truthy(externalId) && !o.stage ==> o.world.log == w.log + [LogEntry(Error, DeleteError)])
  {
  }

  /** The tag-record lookup. */
  method LookUpTags(ids: seq<string>, dub: DubClient, repo: Repository, logger: Logger) returns (r: Reply<seq<string>>)
    modifies repo
    ensures (r, Snapshot(dub, repo, logger)) == TagLookupRun(ids, old(Snapshot(dub, repo, logger)))
  {
    if |ids| == 0 {
      return Ok([]);
    }
    var found := repo.FindTagRecords(ids, |ids|);
    if found.Fail? {
      return Fail;
    }
    r := Ok(RemoteTagIds(found.value));
  }

  /** `exists ? links.update : links.create`, the latter only with a URL. */
  method WriteLink(data: LinkData, externalId: string, present: bool, patch: LinkPatch,
                   dub: DubClient, repo: Repository, logger: Logger)
    returns (ghost stage: LinkStage)
    modifies dub, logger
    ensures Outcome(stage, Snapshot(dub, repo, logger)) == WriteRun(data, externalId, present, patch, old(Snapshot(dub, repo, logger)))
  {
    if present {
      var ok := dub.UpdateLink(externalId, patch);
      if !ok {
        logger.Log(Error, UpdateError);
        return UpdateFailed;
      }
      return Updated;
    }
    if !Truthy(data.url) {
      logger.Log(Warn, MissingUrlWarning(externalId));
      return MissingUrl;
    }
    var made := dub.CreateLink(externalId, data.url.value, patch);
    if made.Fail? {
      logger.Log(Error, UpdateError);
      return CreateFailed;
    }
    stage := Created;
  }

  /** The before-change hook. It always returns the record; `stage` says how
      far the run got. */
  method BeforeChange(skipDubHook: bool, data: LinkData, original: Option<string>,
                      dub: DubClient, repo: Repository, logger: Logger)
    returns (r: LinkData, ghost stage: LinkStage)
    modifies dub, repo, logger
    ensures r == data
    ensures Outcome(stage, Snapshot(dub, repo, logger)) == BeforeChangeRun(skipDubHook, data, original, old(Snapshot(dub, repo, logger)))
  {
    r := data;
    if skipDubHook {
      return data, Skipped;
    }
    if !Truthy(data.externalId) && !Truthy(original) {
      return data, NoExternalId;
    }
    var externalId := if Truthy(data.externalId) then data.externalId.value else original.value;
    var got := dub.GetLink(externalId);
    var present := got.Ok?;
    var ids := PayloadTagIds(data.dubTags);
    if ids.None? {
      logger.Log(Error, UpdateError);
      return data, TagsInvalid;
    }
    var remoteIds := LookUpTags(ids.value, dub, repo, logger);
    if remoteIds.Fail? {
      logger.Log(Error, UpdateError);
      return data, TagLookupFailed;
    }
    stage := WriteLink(data, externalId, present, UpdatePatch(data, remoteIds.value), dub, repo, logger);
  }

  /** The after-delete hook; `deleted` says whether the link was deleted. */
  method AfterDelete(externalId: Option<string>, dub: DubClient, repo: Repository, logger: Logger)
    returns (ghost deleted: bool)
    modifies dub, logger
    ensures Outcome(deleted, Snapshot(dub, repo, logger)) == AfterDeleteRun(externalId, old(Snapshot(dub, repo, logger)))
  {
    if !Truthy(externalId) {
      return false;
    }
    var ok := dub.DeleteLink(externalId.value);
    if !ok {
      logger.Log(Error, DeleteError);
    }
    deleted := ok;
  }
}
