/** The link reconciler that runs after a content document changes
    (`createDubHook`): guards, folder resolution, tenant normalisation,
    mapping-record lookup and lazy creation, external-id precedence,
    destination URL, upsert and the write-back under the re-entrancy flag.

    `SyncRun` says, as a function of the configuration, the document and
    the world before the run, how far the run gets and the world it leaves;
    the hook method makes the calls one by one, stops at the first that
    fails (the hook's single `try`), and is proved to end as `SyncRun` says.
    The lemmas state the hook's properties about `SyncRun`. */
module LinkSync {
  import opened Common
  import opened DubService
  import opened PayloadStore
  import opened Effects

  datatype Operation = Create | Update | OtherOperation(name: string)

  /** The fields of the changed document the hook reads. `slug` is `None`
      when the document has none. */
  datatype ContentDoc = ContentDoc(id: string, slug: Option<string>, status: Option<string>, tags: Option<seq<DocTag>>)

  /** What the hook closes over: the collection slug and the plugin options. */
  datatype HookConfig = HookConfig(slug: string, domain: Option<string>, siteUrl: string, tenantId: Option<string>)

  const TenantPrefix: string := "user_"

  /** Only a created or updated document whose `_status` is `published` is
      synchronised. */
  predicate Triggers(op: Operation, doc: ContentDoc) {
    (op == Create || op == Update) && doc.status == Some("published")
  }

  /** The tenant id sent to the service: absent when none is configured,
      otherwise the configured id carrying the `user_` prefix exactly once
      at its head. */
  function NormalizeTenant(tenantId: Option<string>): Option<string> {
    if !Truthy(tenantId) then None
    else if StartsWith(tenantId.value, TenantPrefix) then tenantId
    else Some(TenantPrefix + tenantId.value)
  }

  /** A tenant is sent exactly when one is configured; it starts with the
      prefix and ends with the configured id, and an id that already has
      the prefix is sent as it is. */
  lemma NormalizeTenantShape(tenantId: Option<string>)
    ensures var r := NormalizeTenant(tenantId);
      && (r.Some? <==> Truthy(tenantId))
      && (r.Some? ==> StartsWith(r.value, TenantPrefix))
      && (r.Some? ==> |tenantId.value| <= |r.value| && r.value[|r.value| - |tenantId.value|..] == tenantId.value)
      && (Truthy(tenantId) && StartsWith(tenantId.value, TenantPrefix) ==> r == tenantId)
  {
    var r := NormalizeTenant(tenantId);
    if Truthy(tenantId) && !StartsWith(tenantId.value, TenantPrefix) {
      assert r.value == TenantPrefix + tenantId.value;
      assert r.value[..|TenantPrefix|] == TenantPrefix;
    }
  }

  /** Normalising twice is normalising once. */
  lemma NormalizeTenantIdempotent(tenantId: Option<string>)
    ensures NormalizeTenant(NormalizeTenant(tenantId)) == NormalizeTenant(tenantId)
  {
  }

  /** The current external-id template. */
  function DerivedExternalId(slug: string, id: string): string {
    "ext_" + slug + "_" + id
  }

  /** External-id precedence: the stored id when there is one (even an
      empty string, since only `null`/`undefined` fall through), else the
      id derived from the mapping record's id when that id is truthy, else
      the legacy id derived from the document's id. */
  function ExternalIdFor(stored: Option<string>, slug: string, recordId: string, docId: string): string {
    if stored.Some? then stored.value
    else if recordId != "" then DerivedExternalId(slug, recordId)
    else DerivedExternalId(slug, docId)
  }

  lemma ExternalIdPrecedence(stored: Option<string>, slug: string, recordId: string, docId: string)
    ensures stored.Some? ==> ExternalIdFor(stored, slug, recordId, docId) == stored.value
    ensures stored.None? && recordId != "" ==>
              ExternalIdFor(stored, slug, recordId, docId) == DerivedExternalId(slug, recordId)
    ensures stored.None? && recordId == "" ==>
              ExternalIdFor(stored, slug, recordId, docId) == DerivedExternalId(slug, docId)
  {
  }

  /** Once stored, an external id is what every later derivation yields,
      whatever the record and document ids are then. */
  lemma ExternalIdStable(stored: Option<string>, slug: string, recordId: string, docId: string,
                         slug': string, recordId': string, docId': string)
    ensures var e := ExternalIdFor(stored, slug, recordId, docId);
      ExternalIdFor(Some(e), slug', recordId', docId') == e
  {
  }

  /** A derived id gives back the id it was derived from. */
  lemma DerivedExternalIdRoundTrip(slug: string, id: string)
    ensures var e := DerivedExternalId(slug, id);
      StartsWith(e, "ext_" + slug + "_") && e[|"ext_" + slug + "_"|..] == id
  {
    var e := DerivedExternalId(slug, id);
    assert e == ("ext_" + slug + "_") + id;
  }

  /** `siteUrl.replace(/\/$/, '')`: one trailing slash, if any, is dropped. */
  function WithoutTrailingSlash(s: string): (r: string)
    ensures |s| > 0 && s[|s| - 1] == '/' ==> r + "/" == s
    ensures (|s| == 0 || s[|s| - 1] != '/') ==> r == s
  {
    if |s| > 0 && s[|s| - 1] == '/' then s[..|s| - 1] else s
  }

  /** A template literal renders an absent value as `undefined`. */
  function TemplateText(s: Option<string>): string {
    if s.Some? then s.value else "undefined"
  }

  function DestinationUrl(siteUrl: string, slug: string, docSlug: Option<string>): string {
    WithoutTrailingSlash(siteUrl) + "/" + slug + "/" + TemplateText(docSlug)
  }

  /** The URL is the site URL, less one trailing slash, followed by
      `/<collection>/<document slug>`. */
  lemma DestinationUrlShape(siteUrl: string, slug: string, docSlug: Option<string>)
    ensures var url := DestinationUrl(siteUrl, slug, docSlug);
      var tail := "/" + slug + "/" + TemplateText(docSlug);
      && |tail| <= |url| && url[|url| - |tail|..] == tail
      && var base := url[..|url| - |tail|];
         (base == siteUrl || base + "/" == siteUrl)
  {
    var tail := "/" + slug + "/" + TemplateText(docSlug);
    var url := DestinationUrl(siteUrl, slug, docSlug);
    assert url == WithoutTrailingSlash(siteUrl) + tail;
    assert url[..|url| - |tail|] == WithoutTrailingSlash(siteUrl);
  }

  /** The scenario of a document `hello` in collection `blog`. */
  lemma DestinationUrlExample()
    ensures DestinationUrl("https://x.io", "blog", Some("hello")) == "https://x.io/blog/hello"
    ensures DestinationUrl("https://x.io/", "blog", Some("hello")) == "https://x.io/blog/hello"
  {
  }

  /** The tag ids sent with the link: the id of each of the document's tags,
      in order, or none when the document's `tags` is not a list. */
  function TagIds(tags: Option<seq<DocTag>>): seq<string> {
    match tags
    case None => []
    case Some(ts) => seq(|ts|, i requires 0 <= i < |ts| => ts[i].id)
  }

  /** The "unchanged" short-circuit: a mapping record with a truthy short
      link whose tags equal the document's, element by element and in
      order (the comparison of the two JSON texts). */
  predicate ShortCircuits(existing: Option<LinkRecord>, tags: Option<seq<DocTag>>) {
    existing.Some? && Truthy(existing.value.shortLink) && tags == existing.value.tags
  }

  /** Reordering the tags of a document whose record short-circuits makes
      it stop short-circuiting: the comparison is order-sensitive. */
  lemma ShortCircuitIsOrderSensitive(existing: Option<LinkRecord>, a: DocTag, b: DocTag)
    requires a != b
    requires ShortCircuits(existing, Some([a, b]))
    ensures !ShortCircuits(existing, Some([b, a]))
  {
    assert Some([a, b]) != Some([b, a]) by {
      assert [a, b][0] != [b, a][0];
    }
  }

  predicate NeedsIdUpdate(stored: Option<string>, externalId: string) {
    !Truthy(stored) || stored.value != externalId
  }

  predicate NeedsLinkUpdate(stored: Option<string>, response: string) {
    !Truthy(stored) || Trim(stored.value) == "" || stored.value != response
  }

  /** Since a stored id always wins, the id needs writing exactly when the
      record has no truthy external id. */
  lemma IdUpdateOnlyWhenMissing(stored: Option<string>, slug: string, recordId: string, docId: string)
    ensures NeedsIdUpdate(stored, ExternalIdFor(stored, slug, recordId, docId)) <==> !Truthy(stored)
  {
  }

  /** The short link needs writing exactly when the stored one is missing,
      white space only, or not the one the service answered with. */
  lemma LinkUpdateCases(stored: Option<string>, response: string)
    ensures NeedsLinkUpdate(stored, response) <==>
              (!Truthy(stored) || IsBlank(stored.value) || stored.value != response)
  {
    if stored.Some? {
      TrimIsEmptyIffBlank(stored.value);
    }
  }

  /** The upsert body. */
  function Desired(cfg: HookConfig, doc: ContentDoc, externalId: string, folderId: string): LinkPayload {
    LinkPayload(externalId, DestinationUrl(cfg.siteUrl, cfg.slug, doc.slug), TagIds(doc.tags), folderId,
                if Truthy(cfg.domain) then cfg.domain else None, NormalizeTenant(cfg.tenantId))
  }

  /** The folder named after the collection: the first existing one, or the
      one the service is about to create. */
  function FolderId(r: Remote, slug: string): string {
    match FolderNamed(r.folders, slug)
    case Some(f) => f.id
    case None => FreshId(r)
  }

  function AfterFolder(r: Remote, slug: string): Remote {
    if FolderNamed(r.folders, slug).Some? then r else WithFolder(r, slug)
  }

  function FolderCalls(r: Remote, slug: string): seq<DubCall> {
    if FolderNamed(r.folders, slug).Some? then [FoldersList] else [FoldersList, FoldersCreate(slug)]
  }

  /** After the folder step, looking the collection's folder up again finds
      the folder with the resolved id; one is created only when none
      existed, and nothing but the folders changes. */
  lemma FolderStepEnsuresFolder(r: Remote, slug: string)
    ensures FolderNamed(AfterFolder(r, slug).folders, slug) == Some(Folder(FolderId(r, slug), slug))
    ensures FolderNamed(r.folders, slug).Some? ==> AfterFolder(r, slug) == r
    ensures FolderNamed(r.folders, slug).None? ==> AfterFolder(r, slug).folders == r.folders + [Folder(FreshId(r), slug)]
    ensures AfterFolder(r, slug).tags == r.tags && AfterFolder(r, slug).links == r.links
  {
    var after := AfterFolder(r, slug).folders;
    FindFirst(r.folders, FolderIs(slug));
    if FolderNamed(r.folders, slug).None? {
      assert forall j :: 0 <= j < |r.folders| ==> after[j] == r.folders[j];
      FindAt(after, FolderIs(slug), |r.folders|);
    }
  }

  /** The external id and the short link the mapping record holds, if any. */
  function StoredId(existing: Option<LinkRecord>): Option<string> {
    if existing.Some? then existing.value.externalId else None
  }

  function StoredLink(existing: Option<LinkRecord>): Option<string> {
    if existing.Some? then existing.value.shortLink else None
  }

  /** The write-back condition: the external id is missing or changed, or
      the stored short link is missing, blank or not the answered one. */
  predicate WriteBackNeeded(existing: Option<LinkRecord>, externalId: string, response: Link) {
    NeedsIdUpdate(StoredId(existing), externalId) || NeedsLinkUpdate(StoredLink(existing), response.shortLink)
  }

  /** The mapping record created for a document seen for the first time. */
  function NewRecord(cfg: HookConfig, doc: ContentDoc, db: Db): LinkRecord {
    LinkRecord(FreshRecordId(db), None, None, None, Source(cfg.slug, doc.id))
  }

  datatype Stage =
    | Skipped
    | NotPublished
    | FolderFailed
    | LookupFailed
    | UpToDate
    | RecordFailed
    | UpsertFailed
    | Synced(wroteBack: bool)
    | WriteBackFailed

  /** The stages at which a call threw and the hook's `catch` logged. */
  predicate Failed(stage: Stage) {
    stage == FolderFailed || stage == LookupFailed || stage == RecordFailed ||
    stage == UpsertFailed || stage == WriteBackFailed
  }

  const SyncError: string := "Error creating/updating Dub link"

  /** The record a run works on: the one found for the document, or the
      one it creates. */
  function WorkingRecord(cfg: HookConfig, doc: ContentDoc, db: Db): LinkRecord {
    var existing := RecordFor(db.links, doc.id);
    if existing.Some? then existing.value else NewRecord(cfg, doc, db)
  }

  /** The lookup matches on the document id alone: a document of this
      collection whose id is already the source of another collection's
      record works on that record, and no record of its own is created. */
  lemma RecordSharedAcrossCollections(cfg: HookConfig, doc: ContentDoc, db: Db, other: string)
    requires other != cfg.slug
    requires db.links == [LinkRecord("rec_0", Some("ext_0"), Some("https://dub.sh/a"), None, Source(other, doc.id))]
    ensures WorkingRecord(cfg, doc, db).source == Source(other, doc.id)
    ensures RecordStepDb(cfg, doc, db) == db
  {
    RecordForIs(db.links, doc.id, 0);
  }

  /** The records and the repository calls once the record is known. */
  function RecordStepDb(cfg: HookConfig, doc: ContentDoc, db: Db): Db {
    if RecordFor(db.links, doc.id).Some? then db
    else db.(links := db.links + [NewRecord(cfg, doc, db)], minted := db.minted + 1)
  }

  function RecordStepCalls(cfg: HookConfig, doc: ContentDoc, db: Db): seq<RepoCall> {
    [FindLinkRecords(doc.id, 1)] +
    if RecordFor(db.links, doc.id).Some? then [] else [RepoCall.CreateLinkRecord(Source(cfg.slug, doc.id))]
  }

  /** `folders.list()`, then `folders.create({name})` when no folder has the
      name; the folder's id, or `Fail` at the first call that throws. */
  function FolderRun(w: World, slug: string): (Reply<string>, World) {
    var listed := DubCalled(w, FoldersList);
    if !DubUp(w) then (Fail, listed)
    else match FolderNamed(w.remote.folders, slug)
      case Some(f) => (Ok(f.id), listed)
      case None =>
        var created := DubCalled(listed, FoldersCreate(slug));
        if !DubUp(listed) then (Fail, created)
        else (Ok(FreshId(w.remote)), created.(remote := WithFolder(w.remote, slug)))
  }

  /** The upsert and the write-back, once the mapping record is known. */
  function UpsertRun(cfg: HookConfig, doc: ContentDoc, folderId: string, existing: Option<LinkRecord>,
                     recordId: string, w: World): Outcome<Stage> {
    var externalId := ExternalIdFor(StoredId(existing), cfg.slug, recordId, doc.id);
    var payload := Desired(cfg, doc, externalId, folderId);
    var sent := DubCalled(w, LinksUpsert(payload));
    if !DubUp(w) then Outcome(UpsertFailed, Logged(sent, Error, SyncError))
    else
      var response := UpsertResponse(w.remote, payload);
      var upserted := sent.(remote := AfterUpsert(w.remote, payload));
      if !WriteBackNeeded(existing, externalId, response) then Outcome(Synced(false), upserted)
      else
        var written := RepoCalled(upserted, RepoCall.UpdateLinkRecord(recordId, externalId, response.shortLink, true));
        if RepoUp(upserted) && HasRecord(w.db.links, recordId) then
          Outcome(Synced(true), written.(db := w.db.(links := WrittenBack(w.db.links, recordId, externalId, response.shortLink))))
        else Outcome(WriteBackFailed, Logged(written, Error, SyncError))
  }

  /** From the mapping-record lookup on, once the folder is known: the
      lookup, the short-circuit, the lazy creation of the record, then the
      upsert step on the record found or created. */
  function ReconcileRun(cfg: HookConfig, doc: ContentDoc, folderId: string, w: World): Outcome<Stage> {
    var existing := RecordFor(w.db.links, doc.id);
    var next := w.(db := RecordStepDb(cfg, doc, w.db), repoCalls := w.repoCalls + RecordStepCalls(cfg, doc, w.db));
    if !RepoUp(w) then Outcome(LookupFailed, Logged(RepoCalled(w, FindLinkRecords(doc.id, 1)), Error, SyncError))
    else if ShortCircuits(existing, doc.tags) then Outcome(UpToDate, RepoCalled(w, FindLinkRecords(doc.id, 1)))
    else if existing.None? && |w.repoCalls| + 1 in w.repoFaults then
      Outcome(RecordFailed, Logged(next.(db := w.db), Error, SyncError))
    else UpsertRun(cfg, doc, folderId, existing, WorkingRecord(cfg, doc, w.db).id, next)
  }

  /** A whole run of the hook. */
  function SyncRun(cfg: HookConfig, skipDubHook: bool, doc: ContentDoc, op: Operation, w: World): Outcome<Stage> {
    if skipDubHook then Outcome(Skipped, w)
    else if !Triggers(op, doc) then Outcome(NotPublished, w)
    else
      var folder := FolderRun(w, cfg.slug);
      if folder.0.Fail? then Outcome(FolderFailed, Logged(folder.1, Error, SyncError))
      else ReconcileRun(cfg, doc, folder.0.value, folder.1)
  }

  /** The folder step resolves the folder `FolderId` names and leaves the
      service as `AfterFolder` says, or fails at the call that throws
      without changing the service. */
  lemma FolderRunResolves(w: World, slug: string)
    ensures var (r, w') := FolderRun(w, slug);
      && Extends(w, w') && w'.db == w.db && w'.repoCalls == w.repoCalls && w'.log == w.log
      && (r.Ok? <==> DubUp(w) && (FolderNamed(w.remote.folders, slug).Some? || |w.dubCalls| + 1 !in w.dubFaults))
      && (r.Ok? ==> && r.value == FolderId(w.remote, slug) && w'.remote == AfterFolder(w.remote, slug)
                    && w'.dubCalls == w.dubCalls + FolderCalls(w.remote, slug))
      && (r.Fail? ==> w'.remote == w.remote && |w'.dubCalls| - 1 in w.dubFaults)
  {
  }

  /** The upsert step sends the desired state of the link, and writes the
      answer back exactly when `WriteBackNeeded` says; a failed upsert
      changes neither system, a failed write-back leaves the records. */
  lemma UpsertRunFacts(cfg: HookConfig, doc: ContentDoc, folderId: string, existing: Option<LinkRecord>,
                       recordId: string, w: World)
    ensures var o := UpsertRun(cfg, doc, folderId, existing, recordId, w);
      var externalId := ExternalIdFor(StoredId(existing), cfg.slug, recordId, doc.id);
      var payload := Desired(cfg, doc, externalId, folderId);
      var response := UpsertResponse(w.remote, payload);
      && (o.stage == UpsertFailed || o.stage.Synced? || o.stage == WriteBackFailed)
      && o.world.dubCalls == w.dubCalls + [LinksUpsert(payload)]
      && (o.stage == UpsertFailed <==> !DubUp(w))
      && (o.stage == UpsertFailed ==> o.world.remote == w.remote)
      && (o.stage != UpsertFailed ==> o.world.remote == AfterUpsert(w.remote, payload))
      && (o.stage == Synced(true) || o.stage == WriteBackFailed <==> DubUp(w) && WriteBackNeeded(existing, externalId, response))
      && (o.stage == UpsertFailed || o.stage == Synced(false) ==> o.world.db == w.db && o.world.repoCalls == w.repoCalls)
      && (o.stage == Synced(true) || o.stage == WriteBackFailed ==>
            o.world.repoCalls == w.repoCalls + [RepoCall.UpdateLinkRecord(recordId, externalId, response.shortLink, true)])
      && (o.stage == Synced(true) <==>
            DubUp(w) && WriteBackNeeded(existing, externalId, response) && RepoUp(w) && HasRecord(w.db.links, recordId))
      && (o.stage == Synced(true) ==>
            o.world.db == w.db.(links := WrittenBack(w.db.links, recordId, externalId, response.shortLink)))
      && (o.stage == WriteBackFailed ==> o.world.db == w.db)
  {
  }

  /** An upsert step that ends in `Synced` leaves the service as the upsert
      says and the document's mapping record holding the external id sent
      and the short link answered, whether or not it had to write them. */
  lemma UpsertRunSynced(cfg: HookConfig, doc: ContentDoc, folderId: string, existing: Option<LinkRecord>,
                        rec: LinkRecord, w: World)
    requires RecordFor(w.db.links, doc.id) == Some(rec)
    requires StoredId(existing) == rec.externalId && StoredLink(existing) == rec.shortLink
    requires UpsertRun(cfg, doc, folderId, existing, rec.id, w).stage.Synced?
    ensures var o := UpsertRun(cfg, doc, folderId, existing, rec.id, w);
      var externalId := ExternalIdFor(StoredId(existing), cfg.slug, rec.id, doc.id);
      var payload := Desired(cfg, doc, externalId, folderId);
      && o.world.remote == AfterUpsert(w.remote, payload)
      && RecordFor(o.world.db.links, doc.id) ==
           Some(rec.(externalId := Some(externalId), shortLink := Some(UpsertResponse(w.remote, payload).shortLink)))
  {
    var o := UpsertRun(cfg, doc, folderId, existing, rec.id, w);
    var externalId := ExternalIdFor(StoredId(existing), cfg.slug, rec.id, doc.id);
    var payload := Desired(cfg, doc, externalId, folderId);
    var response := UpsertResponse(w.remote, payload);
    UpsertRunFacts(cfg, doc, folderId, existing, rec.id, w);
    if o.stage == Synced(true) {
      RecordForWrittenBack(w.db.links, doc.id, externalId, response.shortLink);
    } else {
      assert o.world.db == w.db;
    }
  }

  /** The stages an upsert step can end in. */
  predicate UpsertStage(stage: Stage) {
    stage == UpsertFailed || stage.Synced? || stage == WriteBackFailed
  }

  lemma UpsertRunStages(cfg: HookConfig, doc: ContentDoc, folderId: string, existing: Option<LinkRecord>,
                        recordId: string, w: World)
    ensures UpsertStage(UpsertRun(cfg, doc, folderId, existing, recordId, w).stage)
  {
  }

  /** The lookup and record steps: the run stops at a failed lookup, at the
      short-circuit or at a failed record creation, touching only the
      repository; otherwise the rest of the run is the upsert step on the
      record found or created. */
  lemma ReconcileRunStops(cfg: HookConfig, doc: ContentDoc, folderId: string, w: World)
    ensures var o := ReconcileRun(cfg, doc, folderId, w);
      var existing := RecordFor(w.db.links, doc.id);
      && (o.stage == LookupFailed <==> !RepoUp(w))
      && (o.stage == UpToDate <==> RepoUp(w) && ShortCircuits(existing, doc.tags))
      && (o.stage == RecordFailed <==>
            RepoUp(w) && !ShortCircuits(existing, doc.tags) && existing.None? && |w.repoCalls| + 1 in w.repoFaults)
      && (o.stage == LookupFailed || o.stage == UpToDate ==>
            && o.world.db == w.db && o.world.remote == w.remote && o.world.dubCalls == w.dubCalls
            && o.world.repoCalls == w.repoCalls + [FindLinkRecords(doc.id, 1)])
      && (o.stage == RecordFailed ==>
            && o.world.db == w.db && o.world.remote == w.remote && o.world.dubCalls == w.dubCalls
            && o.world.repoCalls == w.repoCalls + RecordStepCalls(cfg, doc, w.db))
  {
    var next := w.(db := RecordStepDb(cfg, doc, w.db), repoCalls := w.repoCalls + RecordStepCalls(cfg, doc, w.db));
    UpsertRunStages(cfg, doc, folderId, RecordFor(w.db.links, doc.id), WorkingRecord(cfg, doc, w.db).id, next);
  }

  lemma ReconcileRunContinues(cfg: HookConfig, doc: ContentDoc, folderId: string, w: World)
    requires RepoUp(w) && !ShortCircuits(RecordFor(w.db.links, doc.id), doc.tags)
    requires RecordFor(w.db.links, doc.id).None? ==> |w.repoCalls| + 1 !in w.repoFaults
    ensures var existing := RecordFor(w.db.links, doc.id);
      var rec := WorkingRecord(cfg, doc, w.db);
      var next := w.(db := RecordStepDb(cfg, doc, w.db), repoCalls := w.repoCalls + RecordStepCalls(cfg, doc, w.db));
      && ReconcileRun(cfg, doc, folderId, w) == UpsertRun(cfg, doc, folderId, existing, rec.id, next)
      && RecordFor(next.db.links, doc.id) == Some(rec)
      && StoredId(existing) == rec.externalId && StoredLink(existing) == rec.shortLink
  {
    if RecordFor(w.db.links, doc.id).None? {
      RecordForAppended(w.db.links, NewRecord(cfg, doc, w.db));
    }
  }

  /** A skipped or unpublished run changes nothing and calls nothing. */
  lemma SyncGuards(cfg: HookConfig, skipDubHook: bool, doc: ContentDoc, op: Operation, w: World)
    ensures var o := SyncRun(cfg, skipDubHook, doc, op, w);
      && (o.stage == Skipped <==> skipDubHook)
      && (o.stage == NotPublished <==> !skipDubHook && !Triggers(op, doc))
      && (o.stage == Skipped || o.stage == NotPublished ==> o.world == w)
  {
  }

  /** A run only appends calls, and it logs exactly one error when a call
      throws and nothing otherwise. */
  predicate LogsOutcome(w: World, o: Outcome<Stage>) {
    Extends(w, o.world) && o.world.log == w.log + (if Failed(o.stage) then [LogEntry(Error, SyncError)] else [])
  }

  lemma UpsertRunLogs(cfg: HookConfig, doc: ContentDoc, folderId: string, existing: Option<LinkRecord>,
                      recordId: string, w: World)
    ensures LogsOutcome(w, UpsertRun(cfg, doc, folderId, existing, recordId, w))
  {
    var o := UpsertRun(cfg, doc, folderId, existing, recordId, w);
    var externalId := ExternalIdFor(StoredId(existing), cfg.slug, recordId, doc.id);
    var payload := Desired(cfg, doc, externalId, folderId);
    var sent := DubCalled(w, LinksUpsert(payload));
    if !DubUp(w) {
      assert o.world == Logged(sent, Error, SyncError);
    }
  }

  lemma ReconcileRunLogs(cfg: HookConfig, doc: ContentDoc, folderId: string, w: World)
    ensures LogsOutcome(w, ReconcileRun(cfg, doc, folderId, w))
  {
    var existing := RecordFor(w.db.links, doc.id);
    var next := w.(db := RecordStepDb(cfg, doc, w.db), repoCalls := w.repoCalls + RecordStepCalls(cfg, doc, w.db));
    if RepoUp(w) && !ShortCircuits(existing, doc.tags) && !(existing.None? && |w.repoCalls| + 1 in w.repoFaults) {
      UpsertRunLogs(cfg, doc, folderId, existing, WorkingRecord(cfg, doc, w.db).id, next);
    }
  }

  lemma SyncRunLogs(cfg: HookConfig, skipDubHook: bool, doc: ContentDoc, op: Operation, w: World)
    ensures LogsOutcome(w, SyncRun(cfg, skipDubHook, doc, op, w))
  {
    if !skipDubHook && Triggers(op, doc) {
      var folder := FolderRun(w, cfg.slug);
      FolderRunResolves(w, cfg.slug);
      if folder.0.Ok? {
        ReconcileRunLogs(cfg, doc, folder.0.value, folder.1);
      }
    }
  }

  /** The run stops at the short-circuit exactly when the folder step
      succeeds, the lookup succeeds and the record found is up to date;
      then only the folder step has touched the service, and no record has
      changed. */
  lemma UpToDateTouchesNoLink(cfg: HookConfig, skipDubHook: bool, doc: ContentDoc, op: Operation, w: World)
    ensures var o := SyncRun(cfg, skipDubHook, doc, op, w);
      && (o.stage == UpToDate <==>
            && !skipDubHook && Triggers(op, doc) && FolderRun(w, cfg.slug).0.Ok? && RepoUp(w)
            && ShortCircuits(RecordFor(w.db.links, doc.id), doc.tags))
      && (o.stage == UpToDate ==>
            && o.world.db == w.db && o.world.remote == AfterFolder(w.remote, cfg.slug)
            && o.world.dubCalls == w.dubCalls + FolderCalls(w.remote, cfg.slug))
  {
    if !skipDubHook && Triggers(op, doc) {
      var folder := FolderRun(w, cfg.slug);
      FolderRunResolves(w, cfg.slug);
      if folder.0.Ok? {
        ReconcileRunStops(cfg, doc, folder.0.value, folder.1);
      }
    }
  }

  /** The repository calls one run may add: none; the lookup alone; the
      record step (lookup, and creation for a document without a record);
      or the record step followed by one flagged write-back of the derived
      external id to the record found or created. */
  predicate RepoCallsShape(cfg: HookConfig, doc: ContentDoc, db: Db, added: seq<RepoCall>) {
    var steps := RecordStepCalls(cfg, doc, db);
    var rec := WorkingRecord(cfg, doc, db);
    var externalId := ExternalIdFor(StoredId(RecordFor(db.links, doc.id)), cfg.slug, rec.id, doc.id);
    || added == [] || added == [FindLinkRecords(doc.id, 1)] || added == steps
    || (&& |added| == |steps| + 1 && added[..|steps|] == steps && added[|steps|].UpdateLinkRecord?
        && added[|steps|] == RepoCall.UpdateLinkRecord(rec.id, externalId, added[|steps|].shortLink, true))
  }

  /** The calls each shape allows, one by one. */
  predicate AllowedRepoCall(cfg: HookConfig, doc: ContentDoc, db: Db, k: nat, c: RepoCall) {
    var existing := RecordFor(db.links, doc.id);
    && (c.FindLinkRecords? ==> k == 0 && c == FindLinkRecords(doc.id, 1))
    && (c.CreateLinkRecord? ==> k == 1 && existing.None? && c.source == Source(cfg.slug, doc.id))
    && (c.UpdateLinkRecord? ==>
          && c.skipDubHook && c.id == WorkingRecord(cfg, doc, db).id
          && (existing.Some? && existing.value.externalId.Some? ==> c.externalId == existing.value.externalId.value))
    && !c.FindTagRecords?
  }

  lemma RepoCallsShapeAllows(cfg: HookConfig, doc: ContentDoc, db: Db, added: seq<RepoCall>)
    requires RepoCallsShape(cfg, doc, db, added)
    ensures forall k :: 0 <= k < |added| ==> AllowedRepoCall(cfg, doc, db, k, added[k])
  {
    var steps := RecordStepCalls(cfg, doc, db);
    if |added| == |steps| + 1 {
      assert forall k :: 0 <= k < |steps| ==> added[k] == steps[k];
    }
  }

  lemma UpsertRunRepoCalls(cfg: HookConfig, doc: ContentDoc, folderId: string, existing: Option<LinkRecord>,
                           recordId: string, w: World)
    ensures var o := UpsertRun(cfg, doc, folderId, existing, recordId, w);
      var externalId := ExternalIdFor(StoredId(existing), cfg.slug, recordId, doc.id);
      || o.world.repoCalls == w.repoCalls
      || (&& |o.world.repoCalls| == |w.repoCalls| + 1 && o.world.repoCalls[..|w.repoCalls|] == w.repoCalls
          && o.world.repoCalls[|w.repoCalls|].UpdateLinkRecord?
          && o.world.repoCalls[|w.repoCalls|] ==
               RepoCall.UpdateLinkRecord(recordId, externalId, o.world.repoCalls[|w.repoCalls|].shortLink, true))
  {
  }

  lemma ReconcileRunRepoCalls(cfg: HookConfig, doc: ContentDoc, folderId: string, w: World)
    ensures var o := ReconcileRun(cfg, doc, folderId, w);
      w.repoCalls <= o.world.repoCalls && RepoCallsShape(cfg, doc, w.db, o.world.repoCalls[|w.repoCalls|..])
  {
    var o := ReconcileRun(cfg, doc, folderId, w);
    var existing := RecordFor(w.db.links, doc.id);
    var steps := RecordStepCalls(cfg, doc, w.db);
    var next := w.(db := RecordStepDb(cfg, doc, w.db), repoCalls := w.repoCalls + steps);
    if RepoUp(w) && !ShortCircuits(existing, doc.tags) && !(existing.None? && |w.repoCalls| + 1 in w.repoFaults) {
      var rec := WorkingRecord(cfg, doc, w.db);
      assert o == UpsertRun(cfg, doc, folderId, existing, rec.id, next);
      UpsertRunRepoCalls(cfg, doc, folderId, existing, rec.id, next);
      var added := o.world.repoCalls[|w.repoCalls|..];
      if o.world.repoCalls != next.repoCalls {
        assert added[..|steps|] == steps;
      }
    } else {
      assert o.world.repoCalls == w.repoCalls + o.world.repoCalls[|w.repoCalls|..];
    }
  }

  /** The repository calls of a run: at most one lookup, first; at most one
      record creation, second, and only for a document without a record;
      at most one write-back, to the record found or created, flagged so
      that it does not re-trigger the hook, and never changing a stored
      external id. */
  lemma RunRepoCalls(cfg: HookConfig, skipDubHook: bool, doc: ContentDoc, op: Operation, w: World)
    ensures var o := SyncRun(cfg, skipDubHook, doc, op, w);
      && w.repoCalls <= o.world.repoCalls
      && forall i :: |w.repoCalls| <= i < |o.world.repoCalls| ==>
           AllowedRepoCall(cfg, doc, w.db, i - |w.repoCalls|, o.world.repoCalls[i])
  {
    var o := SyncRun(cfg, skipDubHook, doc, op, w);
    if !skipDubHook && Triggers(op, doc) {
      var folder := FolderRun(w, cfg.slug);
      FolderRunResolves(w, cfg.slug);
      if folder.0.Ok? {
        ReconcileRunRepoCalls(cfg, doc, folder.0.value, folder.1);
        var added := o.world.repoCalls[|w.repoCalls|..];
        RepoCallsShapeAllows(cfg, doc, w.db, added);
        assert forall i :: |w.repoCalls| <= i < |o.world.repoCalls| ==> o.world.repoCalls[i] == added[i - |w.repoCalls|];
      }
    }
  }

  /** What a run that ends in `Synced` leaves behind: the service as the
      folder step and then the upsert of the desired link say, and the
      document's mapping record holding the external id sent and the short
      link answered. */
  lemma SyncedRunResult(cfg: HookConfig, skipDubHook: bool, doc: ContentDoc, op: Operation, w: World)
    requires SyncRun(cfg, skipDubHook, doc, op, w).stage.Synced?
    ensures var o := SyncRun(cfg, skipDubHook, doc, op, w);
      var before := AfterFolder(w.remote, cfg.slug);
      var rec := WorkingRecord(cfg, doc, w.db);
      var externalId := ExternalIdFor(StoredId(RecordFor(w.db.links, doc.id)), cfg.slug, rec.id, doc.id);
      var payload := Desired(cfg, doc, externalId, FolderId(w.remote, cfg.slug));
      && o.world.remote == AfterUpsert(before, payload)
      && RecordFor(o.world.db.links, doc.id) ==
           Some(rec.(externalId := Some(externalId), shortLink := Some(UpsertResponse(before, payload).shortLink)))
  {
    var folder := FolderRun(w, cfg.slug);
    FolderRunResolves(w, cfg.slug);
    var v := folder.1;
    ReconcileRunStops(cfg, doc, folder.0.value, v);
    ReconcileRunContinues(cfg, doc, folder.0.value, v);
    var rec := WorkingRecord(cfg, doc, w.db);
    var next := v.(db := RecordStepDb(cfg, doc, w.db), repoCalls := w.repoCalls + RecordStepCalls(cfg, doc, w.db));
    UpsertRunSynced(cfg, doc, folder.0.value, RecordFor(w.db.links, doc.id), rec, next);
  }

  /** After a run that ends in `Synced`, the mapping record and the service
      agree: the record holds the external id and the short link of the
      link the service keeps under that id, and that link points at the
      document's page, carries its tags and sits in the collection's folder. */
  lemma SyncedRecordMatchesLink(cfg: HookConfig, skipDubHook: bool, doc: ContentDoc, op: Operation, w: World)
    requires SyncRun(cfg, skipDubHook, doc, op, w).stage.Synced?
    ensures var o := SyncRun(cfg, skipDubHook, doc, op, w);
      var final := RecordFor(o.world.db.links, doc.id);
      && final.Some? && final.value.externalId.Some? && final.value.shortLink.Some?
      && var link := LinkWith(o.world.remote.links, final.value.externalId.value);
         && link.Some? && link.value.shortLink == final.value.shortLink.value
         && link.value.url == DestinationUrl(cfg.siteUrl, cfg.slug, doc.slug)
         && link.value.tagIds == TagIdList(TagIds(doc.tags))
         && link.value.folderId.Some?
         && FolderNamed(o.world.remote.folders, cfg.slug) == Some(Folder(link.value.folderId.value, cfg.slug))
  {
    SyncedRunResult(cfg, skipDubHook, doc, op, w);
    var before := AfterFolder(w.remote, cfg.slug);
    var rec := WorkingRecord(cfg, doc, w.db);
    var externalId := ExternalIdFor(StoredId(RecordFor(w.db.links, doc.id)), cfg.slug, rec.id, doc.id);
    var payload := Desired(cfg, doc, externalId, FolderId(w.remote, cfg.slug));
    UpsertMirrorsPayload(before, payload);
    FolderStepEnsuresFolder(w.remote, cfg.slug);
  }

  /** No call fails from the world's current position on. */
  predicate NoFaultsAhead(w: World) {
    && (forall k :: |w.dubCalls| <= k ==> k !in w.dubFaults)
    && (forall k :: |w.repoCalls| <= k ==> k !in w.repoFaults)
  }

  /** Running the hook again on an unchanged document right after a run
      that ended in `Synced` changes neither system, provided no call fails
      and the record now holds a non-empty external id and a non-blank
      short link: the second run short-circuits or upserts the same link
      and finds nothing to write back. */
  lemma SecondRunChangesNothing(cfg: HookConfig, doc: ContentDoc, op: Operation, w: World)
    requires SyncRun(cfg, false, doc, op, w).stage.Synced?
    requires NoFaultsAhead(SyncRun(cfg, false, doc, op, w).world)
    requires var final := RecordFor(SyncRun(cfg, false, doc, op, w).world.db.links, doc.id);
      final.Some? ==> final.value.externalId != Some("") && final.value.shortLink.Some? && !IsBlank(final.value.shortLink.value)
    ensures var w1 := SyncRun(cfg, false, doc, op, w).world;
      var o2 := SyncRun(cfg, false, doc, op, w1);
      && (o2.stage == UpToDate || o2.stage == Synced(false))
      && o2.world.db == w1.db && o2.world.remote == w1.remote
  {
    var w1 := SyncRun(cfg, false, doc, op, w).world;
    SyncedRunResult(cfg, false, doc, op, w);
    var before := AfterFolder(w.remote, cfg.slug);
    var folderId := FolderId(w.remote, cfg.slug);
    var rec := WorkingRecord(cfg, doc, w.db);
    var externalId := ExternalIdFor(StoredId(RecordFor(w.db.links, doc.id)), cfg.slug, rec.id, doc.id);
    var payload := Desired(cfg, doc, externalId, folderId);
    var response := UpsertResponse(before, payload);
    var final := rec.(externalId := Some(externalId), shortLink := Some(response.shortLink));
    UpsertMirrorsPayload(before, payload);
    UpsertIdempotent(before, payload);
    FolderStepEnsuresFolder(w.remote, cfg.slug);
    // the second folder step finds the same folder
    assert FolderNamed(w1.remote.folders, cfg.slug) == Some(Folder(folderId, cfg.slug));
    FolderRunResolves(w1, cfg.slug);
    var folder := FolderRun(w1, cfg.slug);
    assert folder.0 == Ok(folderId) && folder.1.remote == w1.remote;
    var v := folder.1;
    ReconcileRunStops(cfg, doc, folderId, v);
    if !ShortCircuits(Some(final), doc.tags) {
      ReconcileRunContinues(cfg, doc, folderId, v);
      var next := v.(db := RecordStepDb(cfg, doc, v.db), repoCalls := v.repoCalls + RecordStepCalls(cfg, doc, v.db));
      assert WorkingRecord(cfg, doc, v.db) == final && next.db == w1.db;
      // the same payload is sent, and the answer is the one stored
      assert ExternalIdFor(StoredId(Some(final)), cfg.slug, final.id, doc.id) == externalId;
      TrimIsEmptyIffBlank(response.shortLink);
      assert !WriteBackNeeded(Some(final), externalId, UpsertResponse(w1.remote, payload));
      UpsertRunFacts(cfg, doc, folderId, Some(final), final.id, next);
    }
  }

  method ResolveFolder(slug: string, dub: DubClient, repo: Repository, logger: Logger) returns (r: Reply<string>)
    modifies dub
    ensures (r, Snapshot(dub, repo, logger)) == FolderRun(old(Snapshot(dub, repo, logger)), slug)
  {
    var listed := dub.ListFolders();
    if listed.Fail? {
      return Fail;
    }
    var found := FolderNamed(listed.value, slug);
    if found.Some? {
      return Ok(found.value.id);
    }
    var made := dub.CreateFolder(slug);
    if made.Fail? {
      return Fail;
    }
    r := Ok(made.value.id);
  }

  method UpsertAndWriteBack(cfg: HookConfig, doc: ContentDoc, folderId: string, tenant: Option<string>,
                            existing: Option<LinkRecord>, recordId: string,
                            dub: DubClient, repo: Repository, logger: Logger)
    returns (ghost stage: Stage)
    requires tenant == NormalizeTenant(cfg.tenantId)
    modifies dub, repo, logger
    ensures Outcome(stage, Snapshot(dub, repo, logger)) ==
            UpsertRun(cfg, doc, folderId, existing, recordId, old(Snapshot(dub, repo, logger)))
  {
    var externalId := ExternalIdFor(StoredId(existing), cfg.slug, recordId, doc.id);
    var payload := LinkPayload(externalId, DestinationUrl(cfg.siteUrl, cfg.slug, doc.slug), TagIds(doc.tags),
                               folderId, if Truthy(cfg.domain) then cfg.domain else None, tenant);
    var response := dub.UpsertLink(payload);
    if response.Fail? {
      logger.Log(Error, SyncError);
      return UpsertFailed;
    }
    if WriteBackNeeded(existing, externalId, response.value) {
      var written := repo.UpdateLinkRecord(recordId, externalId, response.value.shortLink, true);
      if !written {
        logger.Log(Error, SyncError);
        return WriteBackFailed;
      }
      stage := Synced(true);
    } else {
      stage := Synced(false);
    }
  }

  method Reconcile(cfg: HookConfig, doc: ContentDoc, folderId: string, tenant: Option<string>,
                   dub: DubClient, repo: Repository, logger: Logger)
    returns (ghost stage: Stage)
    requires tenant == NormalizeTenant(cfg.tenantId)
    modifies dub, repo, logger
    ensures Outcome(stage, Snapshot(dub, repo, logger)) == ReconcileRun(cfg, doc, folderId, old(Snapshot(dub, repo, logger)))
  {
    ghost var w := Snapshot(dub, repo, logger);
    ghost var next := w.(db := RecordStepDb(cfg, doc, w.db), repoCalls := w.repoCalls + RecordStepCalls(cfg, doc, w.db));
    var lookup := repo.FindLinkRecord(doc.id);
    if lookup.Fail? {
      logger.Log(Error, SyncError);
      return LookupFailed;
    }
    var existing := lookup.value;
    if ShortCircuits(existing, doc.tags) {
      return UpToDate;
    }
    var recordId: string;
    if existing.Some? {
      recordId := existing.value.id;
    } else {
      var made := repo.CreateLinkRecord(Source(cfg.slug, doc.id));
      if made.Fail? {
        logger.Log(Error, SyncError);
        assert Snapshot(dub, repo, logger) == Logged(next.(db := w.db), Error, SyncError);
        return RecordFailed;
      }
      recordId := made.value.id;
    }
    assert recordId == WorkingRecord(cfg, doc, w.db).id;
    assert Snapshot(dub, repo, logger) == next;
    stage := UpsertAndWriteBack(cfg, doc, folderId, tenant, existing, recordId, dub, repo, logger);
  }

  /** The hook. It always returns the document; `stage` says how far the
      run got. */
  method AfterChange(cfg: HookConfig, skipDubHook: bool, doc: ContentDoc, op: Operation,
                     dub: DubClient, repo: Repository, logger: Logger)
    returns (r: ContentDoc, ghost stage: Stage)
    modifies dub, repo, logger
    ensures r == doc
    ensures Outcome(stage, Snapshot(dub, repo, logger)) == SyncRun(cfg, skipDubHook, doc, op, old(Snapshot(dub, repo, logger)))
  {
    r := doc;
    if skipDubHook {
      return doc, Skipped;
    }
    if !Triggers(op, doc) {
      return doc, NotPublished;
    }
    var folder := ResolveFolder(cfg.slug, dub, repo, logger);
    if folder.Fail? {
      logger.Log(Error, SyncError);
      return doc, FolderFailed;
    }
    var tenant := NormalizeTenant(cfg.tenantId);
    stage := Reconcile(cfg, doc, folder.value, tenant, dub, repo, logger);
  }
}
