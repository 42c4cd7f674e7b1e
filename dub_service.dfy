/** The link-shortening service as the hooks see it: its folders, tags and
    links, and a client whose every call is recorded and may fail.

    The service state is a value (`Remote`); the client object holds the
    current value, the log of calls made through it and a fixed fault plan:
    the call made when `k` calls have already been made fails iff `k` is in
    `faults`. A failing call changes nothing and reports `Fail`, which the
    hooks receive as a thrown exception. */
module DubService {
  import opened Common
  import opened DubTypes

  datatype Folder = Folder(id: string, name: string)

  /** A remote tag; `color` is `None` when the tag was created without one. */
  datatype Tag = Tag(id: string, name: string, color: Option<Color>)

  /** A link's `tagIds` as the service answers it: an array of tag ids, one
      id as a bare string (the link type allows both), or absent. */
  datatype TagIdsField = TagIdList(ids: seq<string>) | TagIdText(text: string) | NoTagIds

  datatype Link = Link(
    id: string,
    externalId: string,
    url: string,
    tagIds: TagIdsField,
    folderId: Option<string>,
    domain: Option<string>,
    tenantId: Option<string>,
    shortLink: string)

  /** The body of an upsert: the whole desired state of one link. */
  datatype LinkPayload = LinkPayload(
    externalId: string,
    url: string,
    tagIds: seq<string>,
    folderId: string,
    domain: Option<string>,
    tenantId: Option<string>)

  /** The optional fields sent with a link update or create. The link body
      has no `shortLink` field, so the service ignores the one sent. */
  datatype LinkPatch = LinkPatch(shortLink: Option<string>, tagIds: Option<seq<string>>)

  /** Everything the service stores; `minted` counts the identifiers it has
      handed out, and `linksAsArray` says whether `links.list()` answers an
      array (the client's answer shape is not fixed by the link type). */
  datatype Remote = Remote(folders: seq<Folder>, tags: seq<Tag>, links: seq<Link>, minted: nat, linksAsArray: bool)

  datatype DubCall =
    | FoldersList
    | FoldersCreate(name: string)
    | TagsList
    | TagsCreate(name: string, color: Option<Color>)
    | TagsUpdate(id: string, name: string, color: Option<Color>)
    | TagsDelete(id: string)
    | LinksGet(externalId: string)
    | LinksUpsert(payload: LinkPayload)
    | LinksCreate(externalId: string, url: string, patch: LinkPatch)
    | LinksUpdate(externalId: string, patch: LinkPatch)
    | LinksDelete(externalId: string)
    | LinksList

  /** The identifier and short link the service gives the next resource. */
  function FreshId(r: Remote): string {
    "dub_" + NatText(r.minted)
  }

  function FreshShortLink(r: Remote): string {
    "https://dub.sh/" + NatText(r.minted)
  }

  /** The `find` callbacks: a folder or tag by name, a link by external id. */
  function FolderIs(name: string): Folder -> bool {
    (f: Folder) => f.name == name
  }

  function TagIs(name: string): Tag -> bool {
    (t: Tag) => t.name == name
  }

  function LinkIs(externalId: string): Link -> bool {
    (l: Link) => l.externalId == externalId
  }

  function FolderNamed(folders: seq<Folder>, name: string): Option<Folder> {
    Find(folders, FolderIs(name))
  }

  function TagNamed(tags: seq<Tag>, name: string): Option<Tag> {
    Find(tags, TagIs(name))
  }

  function LinkWith(links: seq<Link>, externalId: string): Option<Link> {
    Find(links, LinkIs(externalId))
  }

  predicate HasTag(tags: seq<Tag>, id: string) {
    exists i :: 0 <= i < |tags| && tags[i].id == id
  }

  /** Some link's `tagIds` is an array that includes the id. */
  predicate TagInUse(links: seq<Link>, id: string) {
    exists i :: 0 <= i < |links| && links[i].tagIds.TagIdList? && id in links[i].tagIds.ids
  }

  /** Some link refers to the tag, in either form its `tagIds` can take. */
  predicate TagReferenced(links: seq<Link>, id: string) {
    exists i :: 0 <= i < |links| && (links[i].tagIds == TagIdText(id) || (links[i].tagIds.TagIdList? && id in links[i].tagIds.ids))
  }

  function WithFolder(r: Remote, name: string): (r': Remote)
    ensures r'.folders == r.folders + [Folder(FreshId(r), name)]
    ensures r'.tags == r.tags && r'.links == r.links && r'.minted == r.minted + 1
  {
    r.(folders := r.folders + [Folder(FreshId(r), name)], minted := r.minted + 1)
  }

  function WithTag(r: Remote, name: string, color: Option<Color>): (r': Remote)
    ensures r'.tags == r.tags + [Tag(FreshId(r), name, color)]
    ensures r'.folders == r.folders && r'.links == r.links && r'.minted == r.minted + 1
  {
    r.(tags := r.tags + [Tag(FreshId(r), name, color)], minted := r.minted + 1)
  }

  /** A tag update: the tags with identifier `id` take the new name, and the
      new colour only when one is sent; every other tag is untouched. */
  function Retagged(tags: seq<Tag>, id: string, name: string, color: Option<Color>): (r: seq<Tag>)
    ensures |r| == |tags|
    ensures forall i :: 0 <= i < |r| ==> r[i].id == tags[i].id
    ensures forall i :: 0 <= i < |r| && tags[i].id == id ==>
              r[i].name == name && r[i].color == (if color.Some? then color else tags[i].color)
    ensures forall i :: 0 <= i < |r| && tags[i].id != id ==> r[i] == tags[i]
  {
    seq(|tags|, i requires 0 <= i < |tags| =>
      if tags[i].id == id then Tag(id, name, if color.Some? then color else tags[i].color) else tags[i])
  }

  /** The tags left after deleting the tag with identifier `id`. */
  function WithoutTag(tags: seq<Tag>, id: string): (r: seq<Tag>)
    ensures forall t :: t in r <==> t in tags && t.id != id
    ensures |r| <= |tags|
  {
    if |tags| == 0 then []
    else if tags[0].id == id then WithoutTag(tags[1..], id)
    else [tags[0]] + WithoutTag(tags[1..], id)
  }

  /** The links left after deleting the link with external id `externalId`. */
  function WithoutLink(links: seq<Link>, externalId: string): (r: seq<Link>)
    ensures forall l :: l in r <==> l in links && l.externalId != externalId
    ensures |r| <= |links|
  {
    if |links| == 0 then []
    else if links[0].externalId == externalId then WithoutLink(links[1..], externalId)
    else [links[0]] + WithoutLink(links[1..], externalId)
  }

  /** A link brought to the state an upsert asks for; it keeps its own
      identifier and short link. */
  function Overwritten(l: Link, p: LinkPayload): Link {
    Link(l.id, p.externalId, p.url, TagIdList(p.tagIds), Some(p.folderId), p.domain, p.tenantId, l.shortLink)
  }

  /** The link an upsert answers with: the existing link with that external
      id brought to the payload's state, or a new one. */
  function UpsertResponse(r: Remote, p: LinkPayload): Link {
    match LinkWith(r.links, p.externalId)
    case Some(l) => Overwritten(l, p)
    case None => Link(FreshId(r), p.externalId, p.url, TagIdList(p.tagIds), Some(p.folderId), p.domain, p.tenantId, FreshShortLink(r))
  }

  function AfterUpsert(r: Remote, p: LinkPayload): Remote {
    if LinkWith(r.links, p.externalId).Some? then
      r.(links := seq(|r.links|, i requires 0 <= i < |r.links| =>
                    if r.links[i].externalId == p.externalId then Overwritten(r.links[i], p) else r.links[i]))
    else
      r.(links := r.links + [UpsertResponse(r, p)], minted := r.minted + 1)
  }

  /** After an upsert the service holds exactly the response under the
      external id, the response mirrors the payload, and an existing link
      keeps its short link; no other link, folder or tag changes. */
  lemma UpsertMirrorsPayload(r: Remote, p: LinkPayload)
    ensures LinkWith(AfterUpsert(r, p).links, p.externalId) == Some(UpsertResponse(r, p))
    ensures var l := UpsertResponse(r, p);
      l.externalId == p.externalId && l.url == p.url && l.tagIds == TagIdList(p.tagIds) &&
      l.folderId == Some(p.folderId) && l.domain == p.domain && l.tenantId == p.tenantId
    ensures LinkWith(r.links, p.externalId).Some? ==>
      UpsertResponse(r, p).shortLink == LinkWith(r.links, p.externalId).value.shortLink
    ensures AfterUpsert(r, p).folders == r.folders && AfterUpsert(r, p).tags == r.tags
    ensures forall l :: l in r.links && l.externalId != p.externalId ==> l in AfterUpsert(r, p).links
  {
    var after := AfterUpsert(r, p).links;
    var found := LinkWith(r.links, p.externalId);
    FindFirst(r.links, LinkIs(p.externalId));
    if found.Some? {
      var i :| 0 <= i < |r.links| && r.links[i] == found.value && r.links[i].externalId == p.externalId &&
               forall j :: 0 <= j < i ==> r.links[j].externalId != p.externalId;
      assert after[i] == Overwritten(found.value, p);
      assert forall j :: 0 <= j < i ==> after[j] == r.links[j];
      FindAt(after, LinkIs(p.externalId), i);
      forall l | l in r.links && l.externalId != p.externalId ensures l in after {
        var m :| 0 <= m < |r.links| && r.links[m] == l;
        assert after[m] == l;
      }
    } else {
      assert after[|r.links|] == UpsertResponse(r, p);
      assert forall j :: 0 <= j < |r.links| ==> after[j] == r.links[j];
      FindAt(after, LinkIs(p.externalId), |r.links|);
    }
  }

  /** Bringing a link to a payload's state twice is doing it once. */
  lemma OverwrittenIdempotent(l: Link, p: LinkPayload)
    ensures Overwritten(Overwritten(l, p), p) == Overwritten(l, p)
  {
  }

  /** Upserting the same payload again changes nothing and gets the same
      answer. */
  lemma UpsertIdempotent(r: Remote, p: LinkPayload)
    ensures AfterUpsert(AfterUpsert(r, p), p) == AfterUpsert(r, p)
    ensures UpsertResponse(AfterUpsert(r, p), p) == UpsertResponse(r, p)
  {
    var r1 := AfterUpsert(r, p);
    UpsertMirrorsPayload(r, p);
    var r2 := AfterUpsert(r1, p);
    assert |r2.links| == |r1.links|;
    forall i | 0 <= i < |r1.links| ensures r2.links[i] == r1.links[i] {
      if r1.links[i].externalId == p.externalId {
        if LinkWith(r.links, p.externalId).Some? {
          OverwrittenIdempotent(r.links[i], p);
        } else {
          FindFirst(r.links, LinkIs(p.externalId));
          assert i == |r.links|;
        }
      }
    }
  }

  /** A link update: tag ids in the patch replace the link's; the short link
      sent is not a field of the link body and is ignored. */
  function Patched(l: Link, patch: LinkPatch): (r: Link)
    ensures r.id == l.id && r.externalId == l.externalId && r.url == l.url
    ensures r.folderId == l.folderId && r.domain == l.domain && r.tenantId == l.tenantId
    ensures r.shortLink == l.shortLink
    ensures r.tagIds == (if patch.tagIds.Some? then TagIdList(patch.tagIds.value) else l.tagIds)
  {
    l.(tagIds := if patch.tagIds.Some? then TagIdList(patch.tagIds.value) else l.tagIds)
  }

  function PatchedLinks(links: seq<Link>, externalId: string, patch: LinkPatch): (r: seq<Link>)
    ensures |r| == |links|
    ensures forall i :: 0 <= i < |r| ==>
              r[i] == if links[i].externalId == externalId then Patched(links[i], patch) else links[i]
  {
    seq(|links|, i requires 0 <= i < |links| =>
      if links[i].externalId == externalId then Patched(links[i], patch) else links[i])
  }

  /** A new link: the patch's fields, the service's defaults for the rest. */
  function CreatedLink(r: Remote, externalId: string, url: string, patch: LinkPatch): Link {
    Patched(Link(FreshId(r), externalId, url, TagIdList([]), None, None, None, FreshShortLink(r)), patch)
  }

  class DubClient {
    var remote: Remote
    var calls: seq<DubCall>
    const faults: set<nat>

    constructor (remote: Remote, faults: set<nat>)
      ensures this.remote == remote && this.faults == faults && calls == []
    {
      this.remote := remote;
      this.faults := faults;
      calls := [];
    }

    /** The next call succeeds. */
    predicate Up()
      reads this
    {
      |calls| !in faults
    }

    /** `folders.list()` */
    method ListFolders() returns (r: Reply<seq<Folder>>)
      modifies this
      ensures calls == old(calls) + [FoldersList] && remote == old(remote)
      ensures r == if old(Up()) then Ok(remote.folders) else Fail
    {
      r := if Up() then Ok(remote.folders) else Fail;
      calls := calls + [FoldersList];
    }

    /** `folders.create({name})` */
    method CreateFolder(name: string) returns (r: Reply<Folder>)
      modifies this
      ensures calls == old(calls) + [FoldersCreate(name)]
      ensures r == if old(Up()) then Ok(Folder(FreshId(old(remote)), name)) else Fail
      ensures remote == if old(Up()) then WithFolder(old(remote), name) else old(remote)
    {
      if Up() {
        r := Ok(Folder(FreshId(remote), name));
        remote := WithFolder(remote, name);
      } else {
        r := Fail;
      }
      calls := calls + [FoldersCreate(name)];
    }

    /** `tags.list()` */
    method ListTags() returns (r: Reply<seq<Tag>>)
      modifies this
      ensures calls == old(calls) + [TagsList] && remote == old(remote)
      ensures r == if old(Up()) then Ok(remote.tags) else Fail
    {
      r := if Up() then Ok(remote.tags) else Fail;
      calls := calls + [TagsList];
    }

    /** `tags.create({name, color})` */
    method CreateTag(name: string, color: Option<Color>) returns (r: Reply<Tag>)
      modifies this
      ensures calls == old(calls) + [TagsCreate(name, color)]
      ensures r == if old(Up()) then Ok(Tag(FreshId(old(remote)), name, color)) else Fail
      ensures remote == if old(Up()) then WithTag(old(remote), name, color) else old(remote)
    {
      if Up() {
        r := Ok(Tag(FreshId(remote), name, color));
        remote := WithTag(remote, name, color);
      } else {
        r := Fail;
      }
      calls := calls + [TagsCreate(name, color)];
    }

    /** `tags.update(id, {name, color?})`; a missing tag is an error. */
    method UpdateTag(id: string, name: string, color: Option<Color>) returns (ok: bool)
      modifies this
      ensures calls == old(calls) + [TagsUpdate(id, name, color)]
      ensures ok == (old(Up()) && HasTag(old(remote.tags), id))
      ensures remote == if ok then old(remote).(tags := Retagged(old(remote.tags), id, name, color)) else old(remote)
    {
      ok := Up() && HasTag(remote.tags, id);
      if ok {
        remote := remote.(tags := Retagged(remote.tags, id, name, color));
      }
      calls := calls + [TagsUpdate(id, name, color)];
    }

    /** `tags.delete(id)`; a missing tag is an error. */
    method DeleteTag(id: string) returns (ok: bool)
      modifies this
      ensures calls == old(calls) + [TagsDelete(id)]
      ensures ok == (old(Up()) && HasTag(old(remote.tags), id))
      ensures remote == if ok then old(remote).(tags := WithoutTag(old(remote.tags), id)) else old(remote)
    {
      ok := Up() && HasTag(remote.tags, id);
      if ok {
        remote := remote.(tags := WithoutTag(remote.tags, id));
      }
      calls := calls + [TagsDelete(id)];
    }

    /** `links.get({externalId})`; a missing link is an error. */
    method GetLink(externalId: string) returns (r: Reply<Link>)
      modifies this
      ensures calls == old(calls) + [LinksGet(externalId)] && remote == old(remote)
      ensures r == if old(Up()) && LinkWith(remote.links, externalId).Some?
                   then Ok(LinkWith(remote.links, externalId).value) else Fail
    {
      var found := LinkWith(remote.links, externalId);
      r := if Up() && found.Some? then Ok(found.value) else Fail;
      calls := calls + [LinksGet(externalId)];
    }

    /** `links.upsert(payload)`: create or replace by external id. */
    method UpsertLink(p: LinkPayload) returns (r: Reply<Link>)
      modifies this
      ensures calls == old(calls) + [LinksUpsert(p)]
      ensures r == if old(Up()) then Ok(UpsertResponse(old(remote), p)) else Fail
      ensures remote == if old(Up()) then AfterUpsert(old(remote), p) else old(remote)
    {
      if Up() {
        r := Ok(UpsertResponse(remote, p));
        remote := AfterUpsert(remote, p);
      } else {
        r := Fail;
      }
      calls := calls + [LinksUpsert(p)];
    }

    /** `links.create({externalId, url, ...patch})`; an external id already
        in use is a conflict. */
    method CreateLink(externalId: string, url: string, patch: LinkPatch) returns (r: Reply<Link>)
      modifies this
      ensures calls == old(calls) + [LinksCreate(externalId, url, patch)]
      ensures var ok := old(Up()) && LinkWith(old(remote.links), externalId).None?;
        && r == (if ok then Ok(CreatedLink(old(remote), externalId, url, patch)) else Fail)
        && remote == if ok then old(remote).(links := old(remote.links) + [CreatedLink(old(remote), externalId, url, patch)],
                                             minted := old(remote.minted) + 1)
                     else old(remote)
    {
      if Up() && LinkWith(remote.links, externalId).None? {
        var l := CreatedLink(remote, externalId, url, patch);
        r := Ok(l);
        remote := remote.(links := remote.links + [l], minted := remote.minted + 1);
      } else {
        r := Fail;
      }
      calls := calls + [LinksCreate(externalId, url, patch)];
    }

    /** `links.update(externalId, patch)`; a missing link is an error. */
    method UpdateLink(externalId: string, patch: LinkPatch) returns (ok: bool)
      modifies this
      ensures calls == old(calls) + [LinksUpdate(externalId, patch)]
      ensures ok == (old(Up()) && LinkWith(old(remote.links), externalId).Some?)
      ensures remote == if ok then old(remote).(links := PatchedLinks(old(remote.links), externalId, patch)) else old(remote)
    {
      ok := Up() && LinkWith(remote.links, externalId).Some?;
      if ok {
        remote := remote.(links := PatchedLinks(remote.links, externalId, patch));
      }
      calls := calls + [LinksUpdate(externalId, patch)];
    }

    /** `links.delete(externalId)`; a missing link is an error. */
    method DeleteLink(externalId: string) returns (ok: bool)
      modifies this
      ensures calls == old(calls) + [LinksDelete(externalId)]
      ensures ok == (old(Up()) && LinkWith(old(remote.links), externalId).Some?)
      ensures remote == if ok then old(remote).(links := WithoutLink(old(remote.links), externalId)) else old(remote)
    {
      ok := Up() && LinkWith(remote.links, externalId).Some?;
      if ok {
        remote := remote.(links := WithoutLink(remote.links, externalId));
      }
      calls := calls + [LinksDelete(externalId)];
    }

    /** `links.list()`; `None` stands for an answer that is not an array. */
    method ListLinks() returns (r: Reply<Option<seq<Link>>>)
      modifies this
      ensures calls == old(calls) + [LinksList] && remote == old(remote)
      ensures r == if old(Up()) then Ok(if remote.linksAsArray then Some(remote.links) else None) else Fail
    {
      r := if Up() then Ok(if remote.linksAsArray then Some(remote.links) else None) else Fail;
      calls := calls + [LinksList];
    }
  }
}
