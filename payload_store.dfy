/** The content repository as the hooks see it: the `dubLinks` mapping
    records and the `dubTags` tag records, a repository object whose every
    call is recorded and may fail (with the same fault plan as the link
    service client), and the logger. */
module PayloadStore {
  import opened Common
  import opened DubTypes

  /** A reference from a document to one of its tags, as stored (the
      populated tag's id). */
  datatype DocTag = DocTag(id: string)

  /** The polymorphic `source` relationship: collection and document id. */
  datatype Source = Source(relationTo: string, value: string)

  /** A `dubLinks` mapping record. `tags` is `None` when the field is absent. */
  datatype LinkRecord = LinkRecord(
    id: string,
    externalId: Option<string>,
    shortLink: Option<string>,
    tags: Option<seq<DocTag>>,
    source: Source)

  /** A `dubTags` record; `tagID` is the remote tag's identifier. */
  datatype TagRecord = TagRecord(id: string, name: string, color: Option<Color>, tagID: Option<string>)

  datatype Db = Db(links: seq<LinkRecord>, tags: seq<TagRecord>, minted: nat)

  datatype RepoCall =
    | FindLinkRecords(sourceValue: string, limit: nat)
    | CreateLinkRecord(source: Source)
    | UpdateLinkRecord(id: string, externalId: string, shortLink: string, skipDubHook: bool)
    | FindTagRecords(ids: seq<string>, limit: nat)

  function FreshRecordId(db: Db): string {
    "rec_" + NatText(db.minted)
  }

  /** `find({collection: 'dubLinks', where: {'source.value': {equals}}, limit: 1})`:
      the first record whose source document id matches, whatever its
      collection. */
  function RecordFor(records: seq<LinkRecord>, docId: string): Option<LinkRecord> {
    Find(records, SourceIs(docId))
  }

  function SourceIs(docId: string): LinkRecord -> bool {
    (r: LinkRecord) => r.source.value == docId
  }

  /** The record found is the first one whose source is the document. */
  lemma RecordForIs(records: seq<LinkRecord>, docId: string, i: nat)
    requires i < |records| && records[i].source.value == docId
    requires forall j :: 0 <= j < i ==> records[j].source.value != docId
    ensures RecordFor(records, docId) == Some(records[i])
  {
    FindAt(records, SourceIs(docId), i);
  }

  /** A record appended for a document that had none is the one found. */
  lemma RecordForAppended(records: seq<LinkRecord>, made: LinkRecord)
    requires RecordFor(records, made.source.value).None?
    ensures RecordFor(records + [made], made.source.value) == Some(made)
  {
    var all := records + [made];
    assert forall j :: 0 <= j < |records| ==> all[j] == records[j];
    FindFirst(records, SourceIs(made.source.value));
    RecordForIs(all, made.source.value, |records|);
  }

  /** The write-back: the records with that id take the external id and
      short link; nothing else changes. */
  function WrittenBack(records: seq<LinkRecord>, id: string, externalId: string, shortLink: string): seq<LinkRecord> {
    seq(|records|, i requires 0 <= i < |records| =>
      if records[i].id == id then records[i].(externalId := Some(externalId), shortLink := Some(shortLink))
      else records[i])
  }

  lemma WrittenBackFields(records: seq<LinkRecord>, id: string, externalId: string, shortLink: string)
    ensures var r := WrittenBack(records, id, externalId, shortLink);
      && |r| == |records|
      && (forall i :: 0 <= i < |r| ==> r[i].id == records[i].id && r[i].source == records[i].source &&
                                       r[i].tags == records[i].tags)
      && (forall i :: 0 <= i < |r| && records[i].id == id ==>
            r[i].externalId == Some(externalId) && r[i].shortLink == Some(shortLink))
      && (forall i :: 0 <= i < |r| && records[i].id != id ==> r[i] == records[i])
  {
  }

  /** Writing back to the record found for a document leaves it the record
      found, now holding the external id and short link written. */
  lemma RecordForWrittenBack(records: seq<LinkRecord>, docId: string, externalId: string, shortLink: string)
    requires RecordFor(records, docId).Some?
    ensures var rec := RecordFor(records, docId).value;
      RecordFor(WrittenBack(records, rec.id, externalId, shortLink), docId) ==
        Some(rec.(externalId := Some(externalId), shortLink := Some(shortLink)))
  {
    var rec := RecordFor(records, docId).value;
    FindFirst(records, SourceIs(docId));
    var i :| 0 <= i < |records| && records[i] == rec && records[i].source.value == docId &&
             forall j :: 0 <= j < i ==> records[j].source.value != docId;
    var after := WrittenBack(records, rec.id, externalId, shortLink);
    WrittenBackFields(records, rec.id, externalId, shortLink);
    assert after[i] == rec.(externalId := Some(externalId), shortLink := Some(shortLink));
    RecordForIs(after, docId, i);
  }

  predicate HasRecord(records: seq<LinkRecord>, id: string) {
    exists i :: 0 <= i < |records| && records[i].id == id
  }

  /** `find({collection: 'dubTags', where: {id: {in: ids}}, limit})`: the
      first `limit` tag records, in store order, whose id is requested. */
  function TagRecordsIn(records: seq<TagRecord>, ids: seq<string>, limit: nat): (r: seq<TagRecord>)
    ensures |r| <= limit
    ensures forall t :: t in r ==> t in records && t.id in ids
    ensures |r| < limit ==> forall t :: t in records && t.id in ids ==> t in r
  {
    if |records| == 0 || limit == 0 then []
    else if records[0].id in ids then [records[0]] + TagRecordsIn(records[1..], ids, limit - 1)
    else TagRecordsIn(records[1..], ids, limit)
  }

  class Repository {
    var db: Db
    var calls: seq<RepoCall>
    const faults: set<nat>

    constructor (db: Db, faults: set<nat>)
      ensures this.db == db && this.faults == faults && calls == []
    {
      this.db := db;
      this.faults := faults;
      calls := [];
    }

    predicate Up()
      reads this
    {
      |calls| !in faults
    }

    /** The mapping record of a document (limit 1). */
    method FindLinkRecord(docId: string) returns (r: Reply<Option<LinkRecord>>)
      modifies this
      ensures calls == old(calls) + [FindLinkRecords(docId, 1)] && db == old(db)
      ensures r == if old(Up()) then Ok(RecordFor(db.links, docId)) else Fail
    {
      r := if Up() then Ok(RecordFor(db.links, docId)) else Fail;
      calls := calls + [FindLinkRecords(docId, 1)];
    }

    /** Creates an empty mapping record for a source document. */
    method CreateLinkRecord(source: Source) returns (r: Reply<LinkRecord>)
      modifies this
      ensures calls == old(calls) + [RepoCall.CreateLinkRecord(source)]
      ensures var made := LinkRecord(FreshRecordId(old(db)), None, None, None, source);
        && r == (if old(Up()) then Ok(made) else Fail)
        && db == if old(Up()) then old(db).(links := old(db.links) + [made], minted := old(db.minted) + 1)
                 else old(db)
    {
      if Up() {
        var made := LinkRecord(FreshRecordId(db), None, None, None, source);
        r := Ok(made);
        db := db.(links := db.links + [made], minted := db.minted + 1);
      } else {
        r := Fail;
      }
      calls := calls + [RepoCall.CreateLinkRecord(source)];
    }

    /** Updates a mapping record's external id and short link; a missing
        record is an error. */
    method UpdateLinkRecord(id: string, externalId: string, shortLink: string, skipDubHook: bool) returns (ok: bool)
      modifies this
      ensures calls == old(calls) + [RepoCall.UpdateLinkRecord(id, externalId, shortLink, skipDubHook)]
      ensures ok == (old(Up()) && HasRecord(old(db.links), id))
      ensures db == if ok then old(db).(links := WrittenBack(old(db.links), id, externalId, shortLink)) else old(db)
    {
      ok := Up() && HasRecord(db.links, id);
      if ok {
        db := db.(links := WrittenBack(db.links, id, externalId, shortLink));
      }
      calls := calls + [RepoCall.UpdateLinkRecord(id, externalId, shortLink, skipDubHook)];
    }

    /** The tag records with the given ids, at most `limit` of them. */
    method FindTagRecords(ids: seq<string>, limit: nat) returns (r: Reply<seq<TagRecord>>)
      modifies this
      ensures calls == old(calls) + [RepoCall.FindTagRecords(ids, limit)] && db == old(db)
      ensures r == if old(Up()) then Ok(TagRecordsIn(db.tags, ids, limit)) else Fail
    {
      r := if Up() then Ok(TagRecordsIn(db.tags, ids, limit)) else Fail;
      calls := calls + [RepoCall.FindTagRecords(ids, limit)];
    }
  }

  datatype Level = Error | Warn | Info

  datatype LogEntry = LogEntry(level: Level, message: string)

  /** `payload.logger`: what the hooks log, in order. */
  class Logger {
    var entries: seq<LogEntry>

    constructor ()
      ensures entries == []
    {
      entries := [];
    }

    method Log(level: Level, message: string)
      modifies this
      ensures entries == old(entries) + [LogEntry(level, message)]
    {
      entries := entries + [LogEntry(level, message)];
    }
  }
}
