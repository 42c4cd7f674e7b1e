/** The name-matching tag reconciler (`createDubTagHooks`): after a local
    tag record changes, the remote tag it names is found by the record's
    previous name or its current one and created or brought up to date;
    after a local tag is deleted, the remote tag of that name is deleted
    unless some remote link still uses it. */
module TagSync {
  import opened Common
  import opened DubTypes
  import opened DubService
  import opened PayloadStore
  import opened Effects

  /** The fields of the tag record the hooks read. */
  datatype TagDoc = TagDoc(name: string, color: Option<Color>)

  const SyncError: string := "Dub tag sync failed"
  const DeleteError: string := "Dub tag delete failed"
  const InUseNotice: string := "Skipped Dub tag delete. Tag still in use."

  /** `previousTag || currentTag`: the tag named by the previous name when
      there is one and it is found, else the tag named by the current name. */
  function MatchedTag(tags: seq<Tag>, doc: TagDoc, previousName: Option<string>): Option<Tag> {
    var previous := if Truthy(previousName) then TagNamed(tags, previousName.value) else None;
    if previous.Some? then previous else TagNamed(tags, doc.name)
  }

  /** The match is a listed tag carrying the previous name or the current
      one; it is the previous name's tag whenever that one exists, and
      there is none exactly when neither name is found. */
  lemma MatchedTagIsNamed(tags: seq<Tag>, doc: TagDoc, previousName: Option<string>)
    ensures var m := MatchedTag(tags, doc, previousName);
      && (m.Some? ==> m.value in tags && (m.value.name == doc.name || (Truthy(previousName) && m.value.name == previousName.value)))
      && (Truthy(previousName) && TagNamed(tags, previousName.value).Some? ==> m == TagNamed(tags, previousName.value))
      && (m.None? <==> (forall i :: 0 <= i < |tags| ==> tags[i].name != doc.name) &&
                       (Truthy(previousName) ==> forall i :: 0 <= i < |tags| ==> tags[i].name != previousName.value))
  {
    FindFirst(tags, TagIs(doc.name));
    if Truthy(previousName) {
      FindFirst(tags, TagIs(previousName.value));
    }
  }

  /** `nameChanged || colorChanged`: the name differs, or a colour is set
      and differs. */
  predicate NeedsUpdate(existing: Tag, doc: TagDoc) {
    existing.name != doc.name || (doc.color.Some? && existing.color != doc.color)
  }

  /** An update is needed exactly when the tag does not already carry the
      record's name and, if the record has one, its colour: a record
      without a colour never forces an update. */
  lemma NeedsUpdateMeansDiffers(existing: Tag, doc: TagDoc)
    ensures !NeedsUpdate(existing, doc) <==>
      existing.name == doc.name && (doc.color.None? || existing.color == doc.color)
    ensures NeedsUpdate(existing, doc) ==>
      var t := Retagged([existing], existing.id, doc.name, doc.color)[0];
      !NeedsUpdate(t, doc) && t.id == existing.id
  {
  }

  datatype SyncStage = Skipped | ListFailed | Created | CreateFailed | Updated | UpdateFailed | Unchanged

  predicate SyncFailed(stage: SyncStage) {
    stage == ListFailed || stage == CreateFailed || stage == UpdateFailed
  }

  /** What follows the listing: create when nothing matched, update on a
      difference, else nothing. */
  function ApplyRun(doc: TagDoc, existing: Option<Tag>, w: World): Outcome<SyncStage> {
    match existing
    case None =>
      var called := DubCalled(w, TagsCreate(doc.name, doc.color));
      if DubUp(w) then Outcome(Created, called.(remote := WithTag(w.remote, doc.name, doc.color)))
      else Outcome(CreateFailed, Logged(called, Error, SyncError))
    case Some(t) =>
      if !NeedsUpdate(t, doc) then Outcome(Unchanged, w)
      else
        var called := DubCalled(w, TagsUpdate(t.id, doc.name, doc.color));
        if DubUp(w) && HasTag(w.remote.tags, t.id) then
          Outcome(Updated, called.(remote := w.remote.(tags := Retagged(w.remote.tags, t.id, doc.name, doc.color))))
        else Outcome(UpdateFailed, Logged(called, Error, SyncError))
  }

  /** A whole run of the after-change hook. */
  function AfterChangeRun(skipDubHook: bool, doc: TagDoc, previousName: Option<string>, w: World): Outcome<SyncStage> {
    if skipDubHook then Outcome(Skipped, w)
    else
      var listed := DubCalled(w, TagsList);
      if !DubUp(w) then Outcome(ListFailed, Logged(listed, Error, SyncError))
      else ApplyRun(doc, MatchedTag(w.remote.tags, doc, previousName), listed)
  }

  /** The calls of a run: none with the flag set; otherwise the listing,
      then exactly one create when no tag matched, one update of the
      matched tag when it differs, and nothing else. */
  lemma AfterChangeCalls(skipDubHook: bool, doc: TagDoc, previousName: Option<string>, w: World)
    ensures var o := AfterChangeRun(skipDubHook, doc, previousName, w);
      var m := MatchedTag(w.remote.tags, doc, previousName);
      && (skipDubHook ==> o == Outcome(Skipped, w))
      && (!skipDubHook ==>
            o.world.dubCalls == w.dubCalls + [TagsList] +
              (if !DubUp(w) then []
               else if m.None? then [TagsCreate(doc.name, doc.color)]
               else if NeedsUpdate(m.value, doc) then [TagsUpdate(m.value.id, doc.name, doc.color)]
               else []))
      && o.world.db == w.db && o.world.repoCalls == w.repoCalls && Extends(w, o.world)
      && o.world.log == w.log + (if SyncFailed(o.stage) then [LogEntry(Error, SyncError)] else [])
      && (o.stage == Unchanged ==> m.Some? && !NeedsUpdate(m.value, doc))
  {
  }

  /** What a run leaves on the service: the links and folders are never
      touched; a created tag carries the record's name and colour and is
      the tag of that name; an update renames the matched tag and recolours
      it only when the record has a colour; otherwise the tags are kept. */
  lemma AfterChangeEffect(skipDubHook: bool, doc: TagDoc, previousName: Option<string>, w: World)
    ensures var o := AfterChangeRun(skipDubHook, doc, previousName, w);
      var m := MatchedTag(w.remote.tags, doc, previousName);
      var r := o.world.remote;
      && r.links == w.remote.links && r.folders == w.remote.folders
      && (o.stage == Created ==>
            r.tags == w.remote.tags + [Tag(FreshId(w.remote), doc.name, doc.color)] &&
            TagNamed(r.tags, doc.name) == Some(Tag(FreshId(w.remote), doc.name, doc.color)))
      && (o.stage == Updated ==>
            m.Some? && |r.tags| == |w.remote.tags| &&
            (forall i :: 0 <= i < |r.tags| && w.remote.tags[i].id == m.value.id ==>
               r.tags[i].name == doc.name &&
               r.tags[i].color == (if doc.color.Some? then doc.color else w.remote.tags[i].color)) &&
            (forall i :: 0 <= i < |r.tags| && w.remote.tags[i].id != m.value.id ==> r.tags[i] == w.remote.tags[i]))
      && (o.stage != Created && o.stage != Updated ==> r == w.remote)
  {
    var o := AfterChangeRun(skipDubHook, doc, previousName, w);
    if o.stage == Created {
      var made := Tag(FreshId(w.remote), doc.name, doc.color);
      var tags := w.remote.tags + [made];
      MatchedTagIsNamed(w.remote.tags, doc, previousName);
      assert forall j :: 0 <= j < |w.remote.tags| ==> tags[j] == w.remote.tags[j];
      FindAt(tags, TagIs(doc.name), |w.remote.tags|);
    }
  }

  /** Once a run has created the tag, running the hook again for the same
      record (whose previous name is now its name) finds that tag and sends
      nothing more. */
  lemma RerunAfterCreateIsUnchanged(doc: TagDoc, previousName: Option<string>, w: World)
    requires AfterChangeRun(false, doc, previousName, w).stage == Created
    requires var w1 := AfterChangeRun(false, doc, previousName, w).world; DubUp(w1)
    ensures var w1 := AfterChangeRun(false, doc, previousName, w).world;
      var o2 := AfterChangeRun(false, doc, Some(doc.name), w1);
      o2.stage == Unchanged && o2.world.remote == w1.remote && o2.world.log == w1.log
  {
    var w1 := AfterChangeRun(false, doc, previousName, w).world;
    AfterChangeEffect(false, doc, previousName, w);
    var made := Tag(FreshId(w.remote), doc.name, doc.color);
    assert MatchedTag(w1.remote.tags, doc, Some(doc.name)) == Some(made);
    assert !NeedsUpdate(made, doc);
  }

  datatype DeleteStage = DeleteListFailed | NoMatch | LinksFailed | Deleted | DeleteFailed | InUse

  predicate DeleteFailedStage(stage: DeleteStage) {
    stage == DeleteListFailed || stage == LinksFailed || stage == DeleteFailed
  }

  /** The tag that `tags.find((tag) => tag.name === doc?.name)` picks; no
      tag has an absent name. */
  function NamedTag(tags: seq<Tag>, name: Option<string>): Option<Tag> {
    if name.Some? then TagNamed(tags, name.value) else None
  }

  /** `inUse`: the links answer is an array and some link's `tagIds` is an
      array that includes the id; any other answer counts as not in use. */
  predicate ListedInUse(r: Remote, id: string) {
    r.linksAsArray && TagInUse(r.links, id)
  }

  /** Once the tag is matched: list the links, then delete the tag unless
      it is `inUse`. */
  function DeleteMatchedRun(t: Tag, w: World): Outcome<DeleteStage> {
    var listed := DubCalled(w, LinksList);
    if !DubUp(w) then Outcome(LinksFailed, Logged(listed, Error, DeleteError))
    else if ListedInUse(w.remote, t.id) then Outcome(InUse, Logged(listed, Info, InUseNotice))
    else
      var called := DubCalled(listed, TagsDelete(t.id));
      if DubUp(listed) && HasTag(w.remote.tags, t.id) then
        Outcome(Deleted, called.(remote := w.remote.(tags := WithoutTag(w.remote.tags, t.id))))
      else Outcome(DeleteFailed, Logged(called, Error, DeleteError))
  }

  /** A whole run of the after-delete hook (which has no re-entrancy
      guard). */
  function AfterDeleteRun(name: Option<string>, w: World): Outcome<DeleteStage> {
    var listed := DubCalled(w, TagsList);
    if !DubUp(w) then Outcome(DeleteListFailed, Logged(listed, Error, DeleteError))
    else match NamedTag(w.remote.tags, name)
      case None => Outcome(NoMatch, listed)
      case Some(t) => DeleteMatchedRun(t, listed)
  }

  /** A tag that an array answer of `links.list()` shows in some link's
      array of tag ids is never deleted, and only the matched tag can go:
      every other tag, every link and every folder is kept. */
  lemma TagInUseIsNeverDeleted(name: Option<string>, w: World)
    ensures var o := AfterDeleteRun(name, w);
      && (forall t :: t in w.remote.tags && ListedInUse(w.remote, t.id) ==> t in o.world.remote.tags)
      && (forall t :: t in w.remote.tags && (NamedTag(w.remote.tags, name).None? || t.id != NamedTag(w.remote.tags, name).value.id) ==>
            t in o.world.remote.tags)
      && (forall t :: t in o.world.remote.tags ==> t in w.remote.tags)
      && o.world.remote.links == w.remote.links && o.world.remote.folders == w.remote.folders
  {
  }

  /** The calls and the outcome: the tags are listed; when no tag has the
      name nothing else happens and the links are not listed; otherwise the
      links are listed, and the tag is deleted exactly when no link uses it
      and the calls succeed, while a tag in use is reported and kept. */
  lemma AfterDeleteDecides(name: Option<string>, w: World)
    ensures var o := AfterDeleteRun(name, w);
      var m := NamedTag(w.remote.tags, name);
      && o.world.db == w.db && o.world.repoCalls == w.repoCalls && Extends(w, o.world)
      && (DubUp(w) && m.None? ==> o == Outcome(NoMatch, DubCalled(w, TagsList)))
      && (DubUp(w) && m.Some? ==>
            o.world.dubCalls[..|w.dubCalls| + 2] == w.dubCalls + [TagsList, LinksList] &&
            (o.stage == InUse <==> DubUp(DubCalled(w, TagsList)) && ListedInUse(w.remote, m.value.id)))
      && (o.stage == Deleted <==>
            DubUp(w) && m.Some? && DubUp(DubCalled(w, TagsList)) && !ListedInUse(w.remote, m.value.id) &&
            |w.dubCalls| + 2 !in w.dubFaults)
      && (o.stage == Deleted ==> forall t :: t in o.world.remote.tags <==> t in w.remote.tags && t.id != m.value.id)
      && (o.stage != Deleted ==> o.world.remote == w.remote)
      && o.world.log == w.log +
           (if DeleteFailedStage(o.stage) then [LogEntry(Error, DeleteError)]
            else if o.stage == InUse then [LogEntry(Info, InUseNotice)]
            else [])
  {
    var o := AfterDeleteRun(name, w);
    var m := NamedTag(w.remote.tags, name);
    if DubUp(w) && m.Some? {
      if name.Some? {
        FindFirst(w.remote.tags, TagIs(name.value));
      }
      assert HasTag(w.remote.tags, m.value.id);
    }
  }

  /** A use the check cannot see does not protect the tag: when the links
      answer is not an array, the matched tag is never reported in use, and
      it is deleted whenever the three calls succeed. */
  lemma UnlistedUseDoesNotProtect(name: Option<string>, w: World)
    requires !w.remote.linksAsArray
    ensures var o := AfterDeleteRun(name, w);
      && o.stage != InUse
      && (DubUp(w) && NamedTag(w.remote.tags, name).Some? &&
          |w.dubCalls| + 1 !in w.dubFaults && |w.dubCalls| + 2 !in w.dubFaults ==>
            o.stage == Deleted && NamedTag(w.remote.tags, name).value !in o.world.remote.tags)
  {
    AfterDeleteDecides(name, w);
  }

  /** A link whose `tagIds` is the tag's id as a bare string refers to the
      tag, yet the tag is deleted. */
  lemma TextTagIdsDoNotProtect(w: World)
    requires w.remote.tags == [Tag("tag_1", "News", None)]
    requires w.remote.links == [Link("link_1", "ext_1", "https://example.com", TagIdText("tag_1"), None, None, None, "https://dub.sh/a")]
    requires w.remote.linksAsArray && w.dubFaults == {}
    ensures TagReferenced(w.remote.links, "tag_1")
    ensures AfterDeleteRun(Some("News"), w).stage == Deleted
    ensures AfterDeleteRun(Some("News"), w).world.remote.tags == []
  {
    assert w.remote.links[0].tagIds == TagIdText("tag_1");
    assert NamedTag(w.remote.tags, Some("News")) == Some(w.remote.tags[0]);
    assert !TagInUse(w.remote.links, "tag_1");
  }

  method ApplyTag(doc: TagDoc, existing: Option<Tag>, dub: DubClient, repo: Repository, logger: Logger)
    returns (ghost stage: SyncStage)
    modifies dub, logger
    ensures Outcome(stage, Snapshot(dub, repo, logger)) == ApplyRun(doc, existing, old(Snapshot(dub, repo, logger)))
  {
    if existing.None? {
      var made := dub.CreateTag(doc.name, doc.color);
      if made.Fail? {
        logger.Log(Error, SyncError);
        return CreateFailed;
      }
      return Created;
    }
    var t := existing.value;
    if !NeedsUpdate(t, doc) {
      return Unchanged;
    }
    var ok := dub.UpdateTag(t.id, doc.name, doc.color);
    if !ok {
      logger.Log(Error, SyncError);
      return UpdateFailed;
    }
    stage := Updated;
  }

  /** The after-change hook. It always returns the record. */
  method AfterChange(skipDubHook: bool, doc: TagDoc, previousName: Option<string>,
                     dub: DubClient, repo: Repository, logger: Logger)
    returns (r: TagDoc, ghost stage: SyncStage)
    modifies dub, logger
    ensures r == doc
    ensures Outcome(stage, Snapshot(dub, repo, logger)) == AfterChangeRun(skipDubHook, doc, previousName, old(Snapshot(dub, repo, logger)))
  {
    r := doc;
    if skipDubHook {
      return doc, Skipped;
    }
    var tags := dub.ListTags();
    if tags.Fail? {
      logger.Log(Error, SyncError);
      return doc, ListFailed;
    }
    var existing := MatchedTag(tags.value, doc, previousName);
    stage := ApplyTag(doc, existing, dub, repo, logger);
  }

  /** The after-delete hook. */
  method AfterDelete(name: Option<string>, dub: DubClient, repo: Repository, logger: Logger)
    returns (ghost stage: DeleteStage)
    modifies dub, logger
    ensures Outcome(stage, Snapshot(dub, repo, logger)) == AfterDeleteRun(name, old(Snapshot(dub, repo, logger)))
  {
    var tags := dub.ListTags();
    if tags.Fail? {
      logger.Log(Error, DeleteError);
      return DeleteListFailed;
    }
    var found := NamedTag(tags.value, name);
    if found.None? {
      return NoMatch;
    }
    var t := found.value;
    var links := dub.ListLinks();
    if links.Fail? {
      logger.Log(Error, DeleteError);
      return LinksFailed;
    }
    if links.value.Some? && TagInUse(links.value.value, t.id) {
      logger.Log(Info, InUseNotice);
      return InUse;
    }
    var ok := dub.DeleteTag(t.id);
    if !ok {
      logger.Log(Error, DeleteError);
      return DeleteFailed;
    }
    stage := Deleted;
  }
}
