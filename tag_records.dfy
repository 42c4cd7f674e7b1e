/** The stored-id tag reconciler (`manageTags`): before a local tag record
    is saved, the remote tag whose id the stored record holds is updated,
    or a remote tag is created when there is none, and the record takes the
    remote id; after the record is deleted, the remote tag with that id is
    deleted. */
module TagRecords {
  import opened Common
  import opened DubTypes
  import opened DubService
  import opened PayloadStore
  import opened Effects

  /** The incoming tag record, which the hook changes in place. `name` is
      `None` when it is absent or not a string. */
  class TagData {
    var name: Option<string>
    var color: Option<Color>
    var tagID: Option<string>

    constructor (name: Option<string>, color: Option<Color>, tagID: Option<string>)
      ensures this.name == name && this.color == color && this.tagID == tagID
    {
      this.name := name;
      this.color := color;
      this.tagID := tagID;
    }
  }

  const SaveError: string := "Tag create/update failed"
  const DeleteError: string := "Tag delete failed"

  datatype SaveStage =
    | Skipped
    | NoName              // no usable name: nothing is sent
    | Updated(id: string)
    | UpdateFailed
    | Created(id: string)
    | CreateFailed

  /** The stages that assign `data.tagID`. */
  predicate Assigns(stage: SaveStage) {
    stage.Updated? || stage.Created?
  }

  /** `data.tagID` after the run: the id assigned, or what it was. */
  function TagIdAfter(stage: SaveStage, before: Option<string>): Option<string> {
    match stage
    case Updated(id) => Some(id)
    case Created(id) => Some(id)
    case _ => before
  }

  /** A whole run of the before-change hook, given the stored record's
      `tagID`. */
  function BeforeChangeRun(skipDubHook: bool, name: Option<string>, color: Option<Color>,
                           originalTagId: Option<string>, w: World): Outcome<SaveStage> {
    if skipDubHook then Outcome(Skipped, w)
    else if !Truthy(name) then Outcome(NoName, w)
    else if Truthy(originalTagId) then
      var called := DubCalled(w, TagsUpdate(originalTagId.value, name.value, color));
      if DubUp(w) && HasTag(w.remote.tags, originalTagId.value) then
        Outcome(Updated(originalTagId.value),
                called.(remote := w.remote.(tags := Retagged(w.remote.tags, originalTagId.value, name.value, color))))
      else Outcome(UpdateFailed, Logged(called, Error, SaveError))
    else
      var called := DubCalled(w, TagsCreate(name.value, color));
      if DubUp(w) then Outcome(Created(FreshId(w.remote)), called.(remote := WithTag(w.remote, name.value, color)))
      else Outcome(CreateFailed, Logged(called, Error, SaveError))
  }

  /** Which call a run makes: none with the flag set or without a name; an
      update of the stored remote tag when the record has an id, and then
      the id is kept; otherwise one create, and the record takes the new
      tag's id. A failed call assigns nothing and logs the error. */
  lemma BeforeChangeDecides(skipDubHook: bool, name: Option<string>, color: Option<Color>,
                            originalTagId: Option<string>, w: World)
    ensures var o := BeforeChangeRun(skipDubHook, name, color, originalTagId, w);
      && o.world.db == w.db && o.world.repoCalls == w.repoCalls && Extends(w, o.world)
      && (skipDubHook || !Truthy(name) ==> o.world == w && !Assigns(o.stage))
      && (!skipDubHook && Truthy(name) && Truthy(originalTagId) ==>
            o.world.dubCalls == w.dubCalls + [TagsUpdate(originalTagId.value, name.value, color)] &&
            (o.stage == Updated(originalTagId.value) <==> DubUp(w) && HasTag(w.remote.tags, originalTagId.value)) &&
            !o.stage.Created?)
      && (!skipDubHook && Truthy(name) && !Truthy(originalTagId) ==>
            o.world.dubCalls == w.dubCalls + [TagsCreate(name.value, color)] &&
            (o.stage == Created(FreshId(w.remote)) <==> DubUp(w)) &&
            !o.stage.Updated?)
      && (!Assigns(o.stage) ==> o.world.remote == w.remote)
      && o.world.log == w.log + (if o.stage == UpdateFailed || o.stage == CreateFailed then [LogEntry(Error, SaveError)] else [])
  {
  }

  /** After a run that assigned an id, the service holds a tag with that id,
      carrying the record's name and, when the record has one, its colour;
      a created tag is new and the only change is its addition. */
  lemma AssignedIdNamesRemoteTag(skipDubHook: bool, name: Option<string>, color: Option<Color>,
                                 originalTagId: Option<string>, w: World)
    requires Assigns(BeforeChangeRun(skipDubHook, name, color, originalTagId, w).stage)
    ensures var o := BeforeChangeRun(skipDubHook, name, color, originalTagId, w);
      var id := TagIdAfter(o.stage, originalTagId).value;
      && Truthy(name)
      && (exists i :: 0 <= i < |o.world.remote.tags| && o.world.remote.tags[i].id == id &&
                      o.world.remote.tags[i].name == name.value &&
                      (color.Some? ==> o.world.remote.tags[i].color == color))
      && (o.stage.Created? ==> o.world.remote.tags == w.remote.tags + [Tag(id, name.value, color)] &&
                               id == FreshId(w.remote))
      && o.world.remote.links == w.remote.links && o.world.remote.folders == w.remote.folders
  {
    var o := BeforeChangeRun(skipDubHook, name, color, originalTagId, w);
    var tags := o.world.remote.tags;
    if o.stage.Updated? {
      var i :| 0 <= i < |w.remote.tags| && w.remote.tags[i].id == originalTagId.value;
      assert tags[i].id == originalTagId.value && tags[i].name == name.value;
    } else {
      assert tags[|w.remote.tags|] == Tag(FreshId(w.remote), name.value, color);
    }
  }

  /** The after-delete hook: the remote tag with the stored id is deleted,
      in use or not. */
  function AfterDeleteRun(tagId: Option<string>, w: World): Outcome<bool> {
    if !Truthy(tagId) then Outcome(false, w)
    else
      var called := DubCalled(w, TagsDelete(tagId.value));
      if DubUp(w) && HasTag(w.remote.tags, tagId.value) then
        Outcome(true, called.(remote := w.remote.(tags := WithoutTag(w.remote.tags, tagId.value))))
      else Outcome(false, Logged(called, Error, DeleteError))
  }

  /** Without an id nothing happens; otherwise exactly the tags with that
      id are removed, even when links still use them, or nothing changes
      and the error is logged. */
  lemma AfterDeleteRemovesById(tagId: Option<string>, w: World)
    ensures var o := AfterDeleteRun(tagId, w);
      && o.world.db == w.db && o.world.repoCalls == w.repoCalls && Extends(w, o.world)
      && (!Truthy(tagId) ==> o.world == w && !o.stage)
      && (Truthy(tagId) ==> o.world.dubCalls == w.dubCalls + [TagsDelete(tagId.value)])
      && (o.stage <==> Truthy(tagId) && DubUp(w) && HasTag(w.remote.tags, tagId.value))
      && (o.stage ==> forall t :: t in o.world.remote.tags <==> t in w.remote.tags && t.id != tagId.value)
      && (o.stage ==> o.world.remote.links == w.remote.links)
      && (!o.stage ==> o.world.remote == w.remote)
      && (Truthy(tagId) && !o.stage ==> o.world.log == w.log + [LogEntry(Error, DeleteError)])
  {
  }

  /** The before-change hook. It returns the record it was given, with
      `tagID` assigned when the call succeeded. */
  method BeforeChange(skipDubHook: bool, data: TagData, originalTagId: Option<string>,
                      dub: DubClient, repo: Repository, logger: Logger)
    returns (r: TagData, ghost stage: SaveStage)
    modifies data, dub, logger
    ensures r == data
    ensures Outcome(stage, Snapshot(dub, repo, logger)) ==
            BeforeChangeRun(skipDubHook, old(data.name), old(data.color), originalTagId, old(Snapshot(dub, repo, logger)))
    ensures data.tagID == TagIdAfter(stage, old(data.tagID))
    ensures data.name == old(data.name) && data.color == old(data.color)
  {
    r := data;
    if skipDubHook {
      return data, Skipped;
    }
    if !Truthy(data.name) {
      return data, NoName;
    }
    var tagId: string;
    if Truthy(originalTagId) {
      var ok := dub.UpdateTag(originalTagId.value, data.name.value, data.color);
      if !ok {
        logger.Log(Error, SaveError);
        return data, UpdateFailed;
      }
      tagId := originalTagId.value;
      stage := Updated(tagId);
    } else {
      var created := dub.CreateTag(data.name.value, data.color);
      if created.Fail? {
        logger.Log(Error, SaveError);
        return data, CreateFailed;
      }
      tagId := created.value.id;
      stage := Created(tagId);
    }
    data.tagID := Some(tagId);
  }

  /** The after-delete hook; `deleted` says whether the tag was deleted. */
  method AfterDelete(tagId: Option<string>, dub: DubClient, repo: Repository, logger: Logger)
    returns (ghost deleted: bool)
    modifies dub, logger
    ensures Outcome(deleted, Snapshot(dub, repo, logger)) == AfterDeleteRun(tagId, old(Snapshot(dub, repo, logger)))
  {
    if !Truthy(tagId) {
      return false;
    }
    var ok := dub.DeleteTag(tagId.value);
    if !ok {
      logger.Log(Error, DeleteError);
    }
    deleted := ok;
  }
}
