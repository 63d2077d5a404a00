/**
 What a backup archive contains and when it is accepted offline. Member names are
 derived from key digests, and SHA-256 is idealised: it never collides.
 */
module ArchiveContracts {
  import opened Common

  const MAX_BYTES := 20_000_000_000
  const MAX_MEMBERS := 100_000
  const MAX_MANIFEST := 25_000_000
  const BLOCK := 1024 * 1024

  const PROBE_KEYS: set<string> :=
    {"health/readiness.txt", "health/report-worker.txt", "health/probe.txt"}

  /** SHA-256 of the UTF-8 text of an object key. */
  datatype KeyDigest = KeySha256(of: string)

  /** Archive member names: `database.dump`, `manifest.json`, and `objects/<key digest>.bin`. */
  datatype Member = DatabaseDump | ManifestJson | ObjectFile(digest: KeyDigest)

  function ObjectMember(key: string): Member { ObjectFile(KeySha256(key)) }

  datatype FileEvidence = FileEvidence(sha256: Digest, bytes: nat)

  datatype TableEvidence = TableEvidence(schemaName: string, tableName: string, rows: nat, sha256: Digest)

  datatype ObjectEvidence = ObjectEvidence(
    key: string, member: Member, etag: string, modified: int,
    contentType: string, metadata: map<string, string>)

  datatype Reference = Reference(key: string, sha256: Digest, bytes: Option<nat>)

  datatype Manifest = Manifest(
    createdAt: int, retainUntil: int,
    files: map<Member, FileEvidence>, tables: seq<TableEvidence>, objects: seq<ObjectEvidence>,
    references: seq<Reference>, excluded: set<string>)

  // --- the manifest's own consistency ---

  predicate ValidObject(o: ObjectEvidence) {
    1 <= |o.key| <= 1024 && o.member == ObjectMember(o.key)
  }

  predicate DistinctKeys(objects: seq<ObjectEvidence>) {
    forall i, j :: 0 <= i < j < |objects| ==> objects[i].key != objects[j].key
  }

  predicate DistinctTables(tables: seq<TableEvidence>) {
    forall i, j :: 0 <= i < j < |tables| ==>
      (tables[i].schemaName, tables[i].tableName) != (tables[j].schemaName, tables[j].tableName)
  }

  function MembersOf(objects: seq<ObjectEvidence>): set<Member> { set o | o in objects :: o.member }

  function KeysOf(objects: seq<ObjectEvidence>): set<string> { set o | o in objects :: o.key }

  predicate ReferenceMet(files: map<Member, FileEvidence>, r: Reference) {
    var member := ObjectMember(r.key);
    && member in files && files[member].sha256 == r.sha256
    && (r.bytes.Some? ==> files[member].bytes == r.bytes.value)
  }

  /** The sum over all files, dump first, objects in manifest order. */
  function ObjectBytes(files: map<Member, FileEvidence>, objects: seq<ObjectEvidence>): nat
    requires forall o :: o in objects ==> o.member in files
  {
    if objects == [] then 0
    else ObjectBytes(files, objects[..|objects| - 1]) + files[objects[|objects| - 1].member].bytes
  }

  /** `Manifest.inventory_matches`, with the field constraints of the models inside it. */
  predicate InventoryMatches(m: Manifest) {
    && (forall o :: o in m.objects ==> ValidObject(o))
    && (forall f :: f in m.files ==> m.files[f].bytes <= MAX_BYTES)
    && DistinctKeys(m.objects)
    && KeysOf(m.objects) !! m.excluded
    && m.tables != [] && DistinctTables(m.tables)
    && m.files.Keys == {DatabaseDump} + MembersOf(m.objects)
    && (forall r :: r in m.references ==> ReferenceMet(m.files, r))
    && m.retainUntil >= m.createdAt
    && m.excluded <= PROBE_KEYS
    && m.files[DatabaseDump].bytes + ObjectBytes(m.files, m.objects) <= MAX_BYTES
  }

  // --- the archive ---

  datatype Entry = Entry(name: Member, content: Bytes, plain: bool)

  /** A ZIP file; `parsed` is the manifest its `manifest.json` decodes to, if it does. */
  datatype Archive = Archive(entries: seq<Entry>, parsed: Option<Manifest>)

  /** SHA-256 of the whole archive file. */
  datatype ArchiveDigest = ArchiveSha256(of: Archive)

  predicate DistinctNames(entries: seq<Entry>) {
    forall i, j :: 0 <= i < j < |entries| ==> entries[i].name != entries[j].name
  }

  function NamesOf(entries: seq<Entry>): set<Member> { set e | e in entries :: e.name }

  predicate Has(a: Archive, name: Member) { exists e :: e in a.entries && e.name == name }

  /** The bytes stored under a name (the first ones, should there be several). */
  function ContentIn(entries: seq<Entry>, name: Member): Bytes
    requires exists e :: e in entries && e.name == name
  {
    if entries[0].name == name then entries[0].content
    else
      assert exists e :: e in entries[1..] && e.name == name by {
        var e :| e in entries && e.name == name;
        assert entries == [entries[0]] + entries[1..];
        assert e in entries[1..];
      }
      ContentIn(entries[1..], name)
  }

  function TotalBytes(entries: seq<Entry>): nat {
    if entries == [] then 0 else TotalBytes(entries[..|entries| - 1]) + |entries[|entries| - 1].content|
  }

  function EvidenceOf(content: Bytes): FileEvidence { FileEvidence(Sha256(content), |content|) }

  const PGDMP: Bytes := [80, 71, 68, 77, 80]

  /** What `verify_archive` accepts, and with which manifest. */
  predicate Verified(a: Archive, m: Manifest) {
    && |a.entries| <= MAX_MEMBERS && DistinctNames(a.entries)
    && TotalBytes(a.entries) <= MAX_BYTES + MAX_MANIFEST
    && Has(a, ManifestJson) && |ContentIn(a.entries, ManifestJson)| <= MAX_MANIFEST
    && a.parsed == Some(m) && InventoryMatches(m)
    && NamesOf(a.entries) == {ManifestJson} + m.files.Keys
    && (forall e :: e in a.entries ==> e.plain)
    && (forall f :: f in m.files ==> Has(a, f) && EvidenceOf(ContentIn(a.entries, f)) == m.files[f])
    && Has(a, DatabaseDump) && PGDMP <= ContentIn(a.entries, DatabaseDump)
  }

  /** Distinct keys never share a member, so they never share or hide each other's bytes. */
  lemma MembersAreInjective(objects: seq<ObjectEvidence>, i: nat, j: nat)
    requires DistinctKeys(objects) && i < |objects| && j < |objects|
    requires forall o :: o in objects ==> ValidObject(o)
    ensures objects[i].member == objects[j].member <==> i == j
    ensures objects[i].member != DatabaseDump && objects[i].member != ManifestJson
  {
    assert ValidObject(objects[i]) && ValidObject(objects[j]);
    if i < j { assert objects[i].key != objects[j].key; }
    if j < i { assert objects[j].key != objects[i].key; }
  }

  /** Every database reference of a verified archive is answered by archived bytes of that digest and size. */
  lemma ReferencesAreArchived(a: Archive, m: Manifest, r: Reference)
    requires Verified(a, m) && r in m.references
    ensures exists o :: o in m.objects && o.key == r.key
    ensures Has(a, ObjectMember(r.key))
    ensures Sha256(ContentIn(a.entries, ObjectMember(r.key))) == r.sha256
    ensures r.bytes.Some? ==> |ContentIn(a.entries, ObjectMember(r.key))| == r.bytes.value
    ensures r.key !in m.excluded
  {}

  lemma ContentOfEntry(entries: seq<Entry>, i: nat)
    requires i < |entries| && DistinctNames(entries)
    ensures ContentIn(entries, entries[i].name) == entries[i].content
  {
    if i > 0 {
      assert entries[1..][i - 1] == entries[i];
      ContentOfEntry(entries[1..], i - 1);
    }
  }

  // --- the loops that compute evidence ---

  method Fingerprint(content: Bytes) returns (r: Option<FileEvidence>)
    ensures r == if |content| <= MAX_BYTES then Some(EvidenceOf(content)) else None
  {
    var size := 0;
    var hashed: Bytes := [];
    while size < |content|
      invariant 0 <= size <= |content| && hashed == content[..size]
      invariant size <= MAX_BYTES
    {
      var end := if size + BLOCK < |content| then size + BLOCK else |content|;
      var chunk := content[size..end];
      assert hashed + chunk == content[..end];
      size := size + |chunk|;
      if size > MAX_BYTES { return None; }
      hashed := hashed + chunk;
    }
    assert hashed == content;
    return Some(FileEvidence(Sha256(hashed), size));
  }

  method VerifyArchive(a: Archive) returns (r: Option<Manifest>)
    ensures forall m :: r == Some(m) <==> Verified(a, m)
    ensures r.None? <==> forall m :: !Verified(a, m)
  {
    if |a.entries| > MAX_MEMBERS || !DistinctNames(a.entries) { return None; }
    if TotalBytes(a.entries) > MAX_BYTES + MAX_MANIFEST { return None; }
    if !Has(a, ManifestJson) || |ContentIn(a.entries, ManifestJson)| > MAX_MANIFEST { return None; }
    if a.parsed.None? || !InventoryMatches(a.parsed.value) { return None; }
    var m := a.parsed.value;
    if NamesOf(a.entries) != {ManifestJson} + m.files.Keys { return None; }
    var k := 0;
    while k < |a.entries|
      invariant 0 <= k <= |a.entries| && forall i :: 0 <= i < k ==> a.entries[i].plain
    {
      if !a.entries[k].plain { assert a.entries[k] in a.entries; return None; }
      k := k + 1;
    }
    var todo := m.files.Keys;
    while todo != {}
      invariant todo <= m.files.Keys
      invariant forall f :: f in m.files && f !in todo ==>
        Has(a, f) && EvidenceOf(ContentIn(a.entries, f)) == m.files[f]
    {
      var f :| f in todo;
      assert f in NamesOf(a.entries);
      var evidence := Fingerprint(ContentIn(a.entries, f));
      if evidence != Some(m.files[f]) { return None; }
      todo := todo - {f};
    }
    if !(PGDMP <= ContentIn(a.entries, DatabaseDump)) { return None; }
    return Some(m);
  }
}
