/**
 The managed backup and its restore test. The object store changes under other
 writers while a backup lists it, dumps the database, copies every object and
 lists the store again; a restore puts every object into a new bucket and reads
 it back.
 */
module ManagedBackup {
  import opened Common
  import opened ArchiveContracts

  // --- the object store over time ---

  datatype Object = Object(
    bytes: Bytes, etag: string, modified: int, contentType: string, metadata: map<string, string>)

  type Bucket = map<string, Object>

  /** The live bucket at every instant. */
  type Timeline = nat -> Bucket

  datatype Stamp = Stamp(size: nat, etag: string, modified: int)

  function StampOf(o: Object): Stamp { Stamp(|o.bytes|, o.etag, o.modified) }

  /** One row of a listing page, seen at one instant; S3 may leave fields out. */
  datatype Listed = Listed(
    at: nat, key: Option<string>, size: Option<nat>, etag: Option<string>, modified: Option<int>)
  {
    predicate Complete() { key.Some? && size.Some? && etag.Some? && modified.Some? }
    function AsStamp(): Stamp
      requires Complete()
    {
      Stamp(size.value, etag.value, modified.value)
    }
  }

  type Inventory = map<string, Stamp>

  predicate Included(l: Listed, excluded: set<string>) {
    l.Complete() && l.key.value !in excluded
  }

  function SizeSum(listing: seq<Listed>, excluded: set<string>): nat {
    if listing == [] then 0
    else
      var last := listing[|listing| - 1];
      SizeSum(listing[..|listing| - 1], excluded) + (if Included(last, excluded) then last.size.value else 0)
  }

  function IncludedCount(listing: seq<Listed>, excluded: set<string>): nat {
    if listing == [] then 0
    else
      IncludedCount(listing[..|listing| - 1], excluded)
      + (if Included(listing[|listing| - 1], excluded) then 1 else 0)
  }

  /** Complete rows, no included key twice, and within the archive's limits. */
  predicate GoodListing(listing: seq<Listed>, excluded: set<string>) {
    && (forall l :: l in listing ==> l.Complete())
    && NoRepeats(listing, excluded)
    && IncludedCount(listing, excluded) + 2 <= MAX_MEMBERS
    && SizeSum(listing, excluded) <= MAX_BYTES
  }

  /** The inventory holds exactly the included rows. */
  predicate InventoryOf(inv: Inventory, listing: seq<Listed>, excluded: set<string>) {
    && (forall l :: l in listing && Included(l, excluded) ==> l.key.value in inv && inv[l.key.value] == l.AsStamp())
    && (forall k :: k in inv ==> exists l :: l in listing && Included(l, excluded) && l.key.value == k)
  }

  /** What the listing loop builds: the last row of every included key. */
  function Collected(listing: seq<Listed>, excluded: set<string>): Inventory {
    if listing == [] then map[]
    else
      var before, last := Collected(listing[..|listing| - 1], excluded), listing[|listing| - 1];
      if Included(last, excluded) then before[last.key.value := last.AsStamp()] else before
  }

  predicate NoRepeats(listing: seq<Listed>, excluded: set<string>) {
    forall i, j :: 0 <= i < j < |listing| && listing[i].key == listing[j].key ==> !Included(listing[i], excluded)
  }

  /** The loop's progress: everything read so far is complete, unrepeated and accounted for. */
  predicate Counted(inv: Inventory, total: nat, listing: seq<Listed>, excluded: set<string>) {
    && (forall l :: l in listing ==> l.Complete())
    && NoRepeats(listing, excluded)
    && InventoryOf(inv, listing, excluded) && inv == Collected(listing, excluded)
    && |inv| == IncludedCount(listing, excluded) && total == SizeSum(listing, excluded)
  }

  lemma CountOne(inv: Inventory, total: nat, before: seq<Listed>, item: Listed, excluded: set<string>)
    requires Counted(inv, total, before, excluded)
    requires item.Complete() && item.key.value !in inv
    ensures item.key.value in excluded ==> Counted(inv, total, before + [item], excluded)
    ensures item.key.value !in excluded ==>
      Counted(inv[item.key.value := item.AsStamp()], total + item.size.value, before + [item], excluded)
  {
    hide Collected, SizeSum, IncludedCount, InventoryOf, NoRepeats;
    NewKey(inv, before, item, excluded);
    OneMoreListed(before, item, excluded);
    if item.key.value in excluded {
      ExcludedItem(inv, before, item, excluded);
    } else {
      IncludedItem(inv, before, item, excluded);
    }
  }

  /** A key that is not in the inventory has not been included before. */
  lemma NewKey(inv: Inventory, before: seq<Listed>, item: Listed, excluded: set<string>)
    requires InventoryOf(inv, before, excluded) && NoRepeats(before, excluded)
    requires item.Complete() && item.key.value !in inv
    ensures NoRepeats(before + [item], excluded)
  {
    var after := before + [item];
    forall i, j | 0 <= i < j < |after| && after[i].key == after[j].key ensures !Included(after[i], excluded) {
      assert after[i] in before;
    }
  }

  /** The last row's share of the three sums. */
  lemma OneMoreListed(before: seq<Listed>, item: Listed, excluded: set<string>)
    requires item.Complete()
    ensures var taken := item.key.value !in excluded;
      && Collected(before + [item], excluded) ==
           (if taken then Collected(before, excluded)[item.key.value := item.AsStamp()]
            else Collected(before, excluded))
      && SizeSum(before + [item], excluded) == SizeSum(before, excluded) + (if taken then item.size.value else 0)
      && IncludedCount(before + [item], excluded) == IncludedCount(before, excluded) + (if taken then 1 else 0)
  {
    assert (before + [item])[..|before|] == before;
  }

  lemma ExcludedItem(inv: Inventory, before: seq<Listed>, item: Listed, excluded: set<string>)
    requires InventoryOf(inv, before, excluded) && item.Complete() && item.key.value in excluded
    ensures InventoryOf(inv, before + [item], excluded)
  {}

  lemma IncludedItem(inv: Inventory, before: seq<Listed>, item: Listed, excluded: set<string>)
    requires InventoryOf(inv, before, excluded) && item.Complete()
    requires item.key.value !in inv && item.key.value !in excluded
    ensures InventoryOf(inv[item.key.value := item.AsStamp()], before + [item], excluded)
  {}

  method TakeInventory(listing: seq<Listed>, excluded: set<string>) returns (r: Option<Inventory>)
    ensures r.Some? <==> GoodListing(listing, excluded)
    ensures r.Some? ==> InventoryOf(r.value, listing, excluded) && r.value == Collected(listing, excluded)
    ensures r.Some? ==> |r.value| + 2 <= MAX_MEMBERS
  {
    hide Counted, InventoryOf, GoodListing, Included, Collected;
    var result: Inventory := map[];
    var total: nat := 0;
    var k := 0;
    NothingCounted(excluded);
    assert listing[..0] == [];
    while k < |listing|
      invariant 0 <= k <= |listing|
      invariant Counted(result, total, listing[..k], excluded)
      invariant |result| == 0 || |result| + 2 <= MAX_MEMBERS
    {
      var item := listing[k];
      if !item.Complete() || item.key.value in result {
        BadRow(listing, excluded, k, result, total);
        return None;
      }
      CountOne(result, total, listing[..k], item, excluded);
      assert listing[..k + 1] == listing[..k] + [item];
      k := k + 1;
      if item.key.value !in excluded {
        result := result[item.key.value := item.AsStamp()];
        total := total + item.size.value;
        if |result| + 2 > MAX_MEMBERS {
          TooMany(listing, excluded, k, result, total);
          return None;
        }
      }
    }
    assert listing[..k] == listing;
    AllCounted(result, total, listing, excluded);
    return if total > MAX_BYTES then None else Some(result);
  }

  lemma NothingCounted(excluded: set<string>)
    ensures Counted(map[], 0, [], excluded)
  {}

  lemma AllCounted(inv: Inventory, total: nat, listing: seq<Listed>, excluded: set<string>)
    requires Counted(inv, total, listing, excluded) && (|inv| == 0 || |inv| + 2 <= MAX_MEMBERS)
    ensures GoodListing(listing, excluded) <==> total <= MAX_BYTES
    ensures InventoryOf(inv, listing, excluded) && inv == Collected(listing, excluded)
  {}

  lemma BadRow(listing: seq<Listed>, excluded: set<string>, k: nat, inv: Inventory, total: nat)
    requires k < |listing| && Counted(inv, total, listing[..k], excluded)
    requires !listing[k].Complete() || listing[k].key.value in inv
    ensures !GoodListing(listing, excluded)
  {
    assert listing[k] in listing;
    if listing[k].Complete() {
      var l :| l in listing[..k] && Included(l, excluded) && l.key.value == listing[k].key.value;
      var i :| 0 <= i < k && listing[i] == l;
    }
  }

  lemma TooMany(listing: seq<Listed>, excluded: set<string>, k: nat, inv: Inventory, total: nat)
    requires k <= |listing| && Counted(inv, total, listing[..k], excluded) && |inv| + 2 > MAX_MEMBERS
    ensures !GoodListing(listing, excluded)
  {
    CountsGrow(listing, excluded, k);
  }

  lemma {:induction false} CountsGrow(listing: seq<Listed>, excluded: set<string>, k: nat)
    requires k <= |listing|
    ensures IncludedCount(listing[..k], excluded) <= IncludedCount(listing, excluded)
    decreases |listing| - k
  {
    if k == |listing| {
      assert listing[..k] == listing;
    } else {
      assert listing[..k + 1][..k] == listing[..k];
      CountsGrow(listing, excluded, k + 1);
    }
  }

  // --- copying the objects ---

  /** The server's answer to a conditional GET at one instant. */
  datatype Response = Response(
    at: nat, body: Bytes, etag: Option<string>, modified: Option<int>,
    contentType: Option<string>, metadata: Option<map<string, string>>)

  datatype Dump = Dump(at: nat, bytes: Bytes, tables: seq<TableEvidence>, references: seq<Reference>)

  /** One finished download. */
  datatype Copy = Copy(key: string, stamp: Stamp, response: Response)

  /** Times are in milliseconds; HTTP only carries whole seconds. */
  function Seconds(ms: int): int { ms / 1000 }

  predicate Unchanged(stamp: Stamp, r: Response) {
    && |r.body| == stamp.size && r.etag == Some(stamp.etag)
    && r.modified.Some? && Seconds(r.modified.value) == Seconds(stamp.modified)
  }

  function EvidenceFor(c: Copy): ObjectEvidence {
    ObjectEvidence(
      c.key, ObjectMember(c.key), c.stamp.etag, c.stamp.modified,
      if c.response.contentType.Some? then c.response.contentType.value else "application/octet-stream",
      if c.response.metadata.Some? then c.response.metadata.value else map[])
  }

  function EntryFor(c: Copy): Entry { Entry(ObjectMember(c.key), c.response.body, true) }

  predicate Downloadable(stamp: Stamp, response: Option<Response>, already: nat) {
    && response.Some? && Unchanged(stamp, response.value)
    && already + |response.value.body| <= MAX_BYTES
  }

  /** One object: stream it in blocks, refusing too many bytes, then compare what was listed. */
  method Download(key: string, stamp: Stamp, response: Option<Response>, already: nat)
    returns (copy: Option<Copy>, total: nat)
    requires already <= MAX_BYTES
    ensures copy.Some? <==> Downloadable(stamp, response, already)
    ensures copy.Some? ==>
      copy.value == Copy(key, stamp, response.value) && total == already + |response.value.body|
  {
    total := already;
    if response.None? { return None, total; }
    var body := response.value.body;
    var size := 0;
    while size < |body|
      invariant 0 <= size <= |body| && total == already + size
      invariant size == 0 || (total <= MAX_BYTES && size <= stamp.size)
    {
      var end := if size + BLOCK < |body| then size + BLOCK else |body|;
      size, total := end, already + end;
      if total > MAX_BYTES || size > stamp.size { return None, total; }
    }
    if !Unchanged(stamp, response.value) { return None, total; }
    return Some(Copy(key, stamp, response.value)), total;
  }

  function BodySum(copies: seq<Copy>): nat {
    if copies == [] then 0
    else BodySum(copies[..|copies| - 1]) + |copies[|copies| - 1].response.body|
  }

  function FilesOf(dump: Dump, copies: seq<Copy>): map<Member, FileEvidence> {
    if copies == [] then map[DatabaseDump := EvidenceOf(dump.bytes)]
    else
      var last := copies[|copies| - 1];
      FilesOf(dump, copies[..|copies| - 1])[ObjectMember(last.key) := EvidenceOf(last.response.body)]
  }

  function ObjectsOf(copies: seq<Copy>): seq<ObjectEvidence> {
    seq(|copies|, k requires 0 <= k < |copies| => EvidenceFor(copies[k]))
  }

  function EntriesOf(dump: Dump, copies: seq<Copy>): seq<Entry> {
    [Entry(DatabaseDump, dump.bytes, true)] + seq(|copies|, k requires 0 <= k < |copies| => EntryFor(copies[k]))
  }

  const DAY := 86_400_000

  function ManifestOf(created: int, retentionDays: nat, dump: Dump, copies: seq<Copy>): Manifest {
    Manifest(created, created + retentionDays * DAY, FilesOf(dump, copies), dump.tables,
             ObjectsOf(copies), dump.references, PROBE_KEYS)
  }

  function ArchiveOf(dump: Dump, copies: seq<Copy>, m: Manifest, payload: Bytes): Archive {
    Archive(EntriesOf(dump, copies) + [Entry(ManifestJson, payload, true)], Some(m))
  }

  function CopyOf(key: string, inv: Inventory, responses: map<string, Option<Response>>): Copy
    requires key in inv && key in responses
  {
    Copy(key, inv[key],
         if responses[key].Some? then responses[key].value else Response(0, [], None, None, None, None))
  }

  /** The downloads of `order`, one for each listed key. */
  function CopiesOf(order: seq<string>, inv: Inventory, responses: map<string, Option<Response>>): seq<Copy>
    requires forall k :: k in order ==> k in inv && k in responses
  {
    seq(|order|, k requires 0 <= k < |order| => CopyOf(order[k], inv, responses))
  }

  /** All of them downloaded, none too long; `None` as soon as one fails. */
  predicate AllDownloadable(order: seq<string>, inv: Inventory, responses: map<string, Option<Response>>, start: nat)
    requires forall k :: k in order ==> k in inv && k in responses
  {
    order == [] ||
    var n := |order| - 1;
    && AllDownloadable(order[..n], inv, responses, start)
    && Downloadable(inv[order[n]], responses[order[n]], start + BodySum(CopiesOf(order[..n], inv, responses)))
  }

  method DownloadAll(order: seq<string>, inv: Inventory, responses: map<string, Option<Response>>, start: nat)
    returns (r: Option<seq<Copy>>)
    requires start <= MAX_BYTES && forall k :: k in order ==> k in inv && k in responses
    ensures r.Some? <==> AllDownloadable(order, inv, responses, start)
    ensures r.Some? ==>
      && r.value == CopiesOf(order, inv, responses) && start + BodySum(r.value) <= MAX_BYTES
      && forall c :: c in r.value ==> responses[c.key] == Some(c.response) && Unchanged(c.stamp, c.response)
  {
    var copies: seq<Copy> := [];
    var total := start;
    var k := 0;
    assert order[..0] == [];
    while k < |order|
      invariant 0 <= k <= |order| && AllDownloadable(order[..k], inv, responses, start)
      invariant copies == CopiesOf(order[..k], inv, responses)
      invariant forall c :: c in copies ==>
        c.key in responses && responses[c.key] == Some(c.response) && Unchanged(c.stamp, c.response)
      invariant total == start + BodySum(copies) <= MAX_BYTES
    {
      assert order[..k + 1][..k] == order[..k];
      var copy, sum := Download(order[k], inv[order[k]], responses[order[k]], total);
      if copy.None? {
        FailedDownload(order, inv, responses, start, k + 1);
        return None;
      }
      assert (copies + [copy.value])[..|copies|] == copies;
      copies, total := copies + [copy.value], sum;
      assert copies == CopiesOf(order[..k + 1], inv, responses);
      k := k + 1;
    }
    assert order[..k] == order;
    return Some(copies);
  }

  lemma {:induction false} FailedDownload(
    order: seq<string>, inv: Inventory, responses: map<string, Option<Response>>, start: nat, k: nat)
    requires k <= |order| && forall key :: key in order ==> key in inv && key in responses
    requires !AllDownloadable(order[..k], inv, responses, start)
    ensures !AllDownloadable(order, inv, responses, start)
    decreases |order| - k
  {
    if k == |order| {
      assert order[..k] == order;
    } else {
      assert order[..k + 1][..k] == order[..k];
      FailedDownload(order, inv, responses, start, k + 1);
    }
  }

  // --- the finished archive ---

  predicate DistinctCopies(copies: seq<Copy>) {
    forall i, j :: 0 <= i < j < |copies| ==> copies[i].key != copies[j].key
  }

  predicate FilesMatch(files: map<Member, FileEvidence>, copies: seq<Copy>) {
    forall c :: c in copies ==>
      ObjectMember(c.key) in files && files[ObjectMember(c.key)] == EvidenceOf(c.response.body)
  }

  lemma {:induction false} FilesOfCopies(dump: Dump, copies: seq<Copy>)
    requires DistinctCopies(copies)
    ensures FilesOf(dump, copies).Keys == {DatabaseDump} + MembersOf(ObjectsOf(copies))
    ensures FilesOf(dump, copies)[DatabaseDump] == EvidenceOf(dump.bytes)
    ensures FilesMatch(FilesOf(dump, copies), copies)
    decreases |copies|
  {
    hide MembersOf, ObjectsOf, FilesMatch, EvidenceOf;
    if copies == [] {
      NoMembers();
    } else {
      var init, last := copies[..|copies| - 1], copies[|copies| - 1];
      FilesOfCopies(dump, init);
      MembersOneMore(init, last);
      assert copies == init + [last];
      MatchOneMore(FilesOf(dump, init), init, last);
    }
  }

  lemma NoMembers()
    ensures MembersOf(ObjectsOf([])) == {}
    ensures forall files :: FilesMatch(files, [])
  {
    assert ObjectsOf([]) == [];
  }

  lemma MatchOneMore(files: map<Member, FileEvidence>, init: seq<Copy>, last: Copy)
    requires FilesMatch(files, init) && DistinctCopies(init + [last])
    ensures FilesMatch(files[ObjectMember(last.key) := EvidenceOf(last.response.body)], init + [last])
  {
    forall c | c in init ensures c.key != last.key {
      var k :| 0 <= k < |init| && init[k] == c;
      assert (init + [last])[k] == c && (init + [last])[|init|] == last;
    }
  }

  lemma MembersOneMore(init: seq<Copy>, last: Copy)
    ensures MembersOf(ObjectsOf(init + [last])) == MembersOf(ObjectsOf(init)) + {ObjectMember(last.key)}
  {
    assert ObjectsOf(init + [last]) == ObjectsOf(init) + [EvidenceFor(last)];
  }

  /** Objects and downloads correspond, one to one. */
  lemma ObjectAndCopy(copies: seq<Copy>)
    ensures forall o :: o in ObjectsOf(copies) ==> exists c :: c in copies && EvidenceFor(c) == o
    ensures forall c :: c in copies ==> EvidenceFor(c) in ObjectsOf(copies)
  {
    forall o | o in ObjectsOf(copies) ensures exists c :: c in copies && EvidenceFor(c) == o {
      var k :| 0 <= k < |copies| && ObjectsOf(copies)[k] == o;
      assert copies[k] in copies;
    }
    forall c | c in copies ensures EvidenceFor(c) in ObjectsOf(copies) {
      var k :| 0 <= k < |copies| && copies[k] == c;
      assert ObjectsOf(copies)[k] == EvidenceFor(c);
    }
  }

  lemma {:induction false} ObjectBytesOfCopies(files: map<Member, FileEvidence>, copies: seq<Copy>)
    requires FilesMatch(files, copies)
    ensures forall o :: o in ObjectsOf(copies) ==> o.member in files
    ensures ObjectBytes(files, ObjectsOf(copies)) == BodySum(copies)
    decreases |copies|
  {
    ObjectAndCopy(copies);
    if copies != [] {
      var init := copies[..|copies| - 1];
      assert forall c :: c in init ==> c in copies;
      ObjectBytesOfCopies(files, init);
      assert ObjectsOf(copies)[..|copies| - 1] == ObjectsOf(init);
    }
  }

  lemma {:induction false} EntriesTotal(dump: Dump, copies: seq<Copy>)
    ensures TotalBytes(EntriesOf(dump, copies)) == |dump.bytes| + BodySum(copies)
    decreases |copies|
  {
    var entries := EntriesOf(dump, copies);
    if copies == [] {
      assert entries[..|entries| - 1] == [];
    } else {
      var init := copies[..|copies| - 1];
      EntriesTotal(dump, init);
      assert entries[..|entries| - 1] == EntriesOf(dump, init);
    }
  }

  /** The manifest conditions that the downloads do not already guarantee. */
  predicate Describable(dump: Dump, copies: seq<Copy>) {
    && dump.tables != [] && DistinctTables(dump.tables)
    && (forall c :: c in copies ==> 1 <= |c.key| <= 1024)
    && forall r :: r in dump.references ==> Answered(copies, r)
  }

  lemma KeysAreFine(copies: seq<Copy>)
    requires DistinctCopies(copies) && forall c :: c in copies ==> c.key !in PROBE_KEYS
    ensures DistinctKeys(ObjectsOf(copies)) && KeysOf(ObjectsOf(copies)) !! PROBE_KEYS
    ensures (forall o :: o in ObjectsOf(copies) ==> ValidObject(o))
      <==> (forall c :: c in copies ==> 1 <= |c.key| <= 1024)
  {
    ObjectAndCopy(copies);
    forall i, j | 0 <= i < j < |copies| ensures ObjectsOf(copies)[i].key != ObjectsOf(copies)[j].key {
      assert copies[i].key != copies[j].key;
    }
    if forall o :: o in ObjectsOf(copies) ==> ValidObject(o) {
      forall c | c in copies ensures 1 <= |c.key| <= 1024 {
        assert ValidObject(EvidenceFor(c));
      }
    }
  }

  lemma SizesAreFine(dump: Dump, copies: seq<Copy>)
    requires DistinctCopies(copies) && |dump.bytes| + BodySum(copies) <= MAX_BYTES
    ensures forall f :: f in FilesOf(dump, copies) ==> FilesOf(dump, copies)[f].bytes <= MAX_BYTES
  {}

  lemma ManifestIsValid(created: int, retentionDays: nat, dump: Dump, copies: seq<Copy>)
    requires DistinctCopies(copies) && |dump.bytes| + BodySum(copies) <= MAX_BYTES
    requires forall c :: c in copies ==> c.key !in PROBE_KEYS
    ensures InventoryMatches(ManifestOf(created, retentionDays, dump, copies)) <==> Describable(dump, copies)
  {
    hide ReferenceMet, Answered, FilesOf, ObjectsOf, DistinctKeys, KeysOf, DistinctTables, MembersOf, FilesMatch;
    hide BodySum, ValidObject;
    FilesOfCopies(dump, copies);
    ObjectBytesOfCopies(FilesOf(dump, copies), copies);
    KeysAreFine(copies);
    SizesAreFine(dump, copies);
    forall r ensures ReferenceMet(FilesOf(dump, copies), r) <==> Answered(copies, r) {
      ReferenceAnswered(dump, copies, r);
    }
  }

  predicate Answered(copies: seq<Copy>, r: Reference) {
    exists c :: c in copies && c.key == r.key && Sha256(c.response.body) == r.sha256
      && (r.bytes.Some? ==> |c.response.body| == r.bytes.value)
  }

  lemma ReferenceAnswered(dump: Dump, copies: seq<Copy>, r: Reference)
    requires DistinctCopies(copies)
    ensures ReferenceMet(FilesOf(dump, copies), r) <==> Answered(copies, r)
  {}

  /** What lies in an assembled archive: the dump, the manifest, and one entry per download. */
  lemma EntriesOfOwnArchive(dump: Dump, copies: seq<Copy>, m: Manifest, payload: Bytes)
    ensures var entries := ArchiveOf(dump, copies, m, payload).entries;
      && Entry(DatabaseDump, dump.bytes, true) in entries && Entry(ManifestJson, payload, true) in entries
      && (forall c :: c in copies ==> EntryFor(c) in entries)
      && forall e :: e in entries ==>
           || e == Entry(DatabaseDump, dump.bytes, true) || e == Entry(ManifestJson, payload, true)
           || exists c :: c in copies && e == EntryFor(c)
  {
    var entries := ArchiveOf(dump, copies, m, payload).entries;
    assert entries[0] in entries && entries[|entries| - 1] in entries;
    forall c | c in copies ensures EntryFor(c) in entries {
      var k :| 0 <= k < |copies| && copies[k] == c;
      assert entries[k + 1] == EntryFor(c);
    }
    forall e | e in entries ensures
      || e == Entry(DatabaseDump, dump.bytes, true) || e == Entry(ManifestJson, payload, true)
      || exists c :: c in copies && e == EntryFor(c)
    {
      var k :| 0 <= k < |entries| && entries[k] == e;
      if 0 < k < |entries| - 1 { assert copies[k - 1] in copies && e == EntryFor(copies[k - 1]); }
    }
  }

  lemma NamesAreDistinct(dump: Dump, copies: seq<Copy>, m: Manifest, payload: Bytes)
    requires DistinctCopies(copies)
    ensures DistinctNames(ArchiveOf(dump, copies, m, payload).entries)
  {}

  lemma NamesOfOwnArchive(dump: Dump, copies: seq<Copy>, m: Manifest, payload: Bytes)
    requires DistinctCopies(copies)
    ensures var entries := ArchiveOf(dump, copies, m, payload).entries;
      && NamesOf(entries) == {ManifestJson} + FilesOf(dump, copies).Keys
      && (forall e :: e in entries ==> e.plain)
  {
    hide FilesOf, ArchiveOf, ObjectsOf;
    var entries := ArchiveOf(dump, copies, m, payload).entries;
    FilesOfCopies(dump, copies);
    ObjectAndCopy(copies);
    EntriesOfOwnArchive(dump, copies, m, payload);
    forall f | f in {ManifestJson} + FilesOf(dump, copies).Keys ensures f in NamesOf(entries) {
      if f != ManifestJson && f != DatabaseDump { MemberIsEntry(copies, entries, f); }
    }
    forall e | e in entries ensures e.plain && e.name in {ManifestJson} + FilesOf(dump, copies).Keys {
      if e.name != ManifestJson && e.name != DatabaseDump {
        var c :| c in copies && e == EntryFor(c);
        assert EvidenceFor(c) in ObjectsOf(copies);
      }
    }
  }

  lemma MemberIsEntry(copies: seq<Copy>, entries: seq<Entry>, f: Member)
    requires f in MembersOf(ObjectsOf(copies)) && forall c :: c in copies ==> EntryFor(c) in entries
    ensures f in NamesOf(entries)
  {
    hide ObjectsOf;
    ObjectAndCopy(copies);
    var o :| o in ObjectsOf(copies) && o.member == f;
    var c :| c in copies && EvidenceFor(c) == o;
    assert EntryFor(c) in entries;
  }

  lemma ContentsOfOwnArchive(dump: Dump, copies: seq<Copy>, m: Manifest, payload: Bytes)
    requires DistinctCopies(copies)
    ensures var a := ArchiveOf(dump, copies, m, payload);
      && Has(a, DatabaseDump) && ContentIn(a.entries, DatabaseDump) == dump.bytes
      && Has(a, ManifestJson) && ContentIn(a.entries, ManifestJson) == payload
      && forall c :: c in copies ==>
           Has(a, ObjectMember(c.key)) && ContentIn(a.entries, ObjectMember(c.key)) == c.response.body
  {
    hide FilesOf, ContentIn;
    var a := ArchiveOf(dump, copies, m, payload);
    NamesAreDistinct(dump, copies, m, payload);
    assert a.entries[0] == Entry(DatabaseDump, dump.bytes, true) && a.entries[0] in a.entries;
    ContentOfEntry(a.entries, 0);
    var last := |a.entries| - 1;
    assert a.entries[last] == Entry(ManifestJson, payload, true) && a.entries[last] in a.entries;
    ContentOfEntry(a.entries, last);
    forall c | c in copies ensures
      Has(a, ObjectMember(c.key)) && ContentIn(a.entries, ObjectMember(c.key)) == c.response.body
    {
      var k :| 0 <= k < |copies| && copies[k] == c;
      assert a.entries[k + 1] == EntryFor(c) && a.entries[k + 1] in a.entries;
      ContentOfEntry(a.entries, k + 1);
    }
  }

  /**
   The writer meets its own checker: an archive assembled from complete downloads
   passes the offline verification exactly when its manifest is describable and its
   dump is a PostgreSQL one.
   */
  lemma OwnArchiveVerifies(created: int, retentionDays: nat, dump: Dump, copies: seq<Copy>, payload: Bytes)
    requires DistinctCopies(copies) && |dump.bytes| + BodySum(copies) <= MAX_BYTES
    requires forall c :: c in copies ==> c.key !in PROBE_KEYS
    requires |copies| + 2 <= MAX_MEMBERS && |payload| <= MAX_MANIFEST
    ensures var m := ManifestOf(created, retentionDays, dump, copies);
      Verified(ArchiveOf(dump, copies, m, payload), m) <==> Describable(dump, copies) && PGDMP <= dump.bytes
  {
    hide FilesOf, ContentIn, ObjectsOf, InventoryMatches, Describable, DistinctCopies, BodySum, NamesOf;
    hide DistinctNames, PGDMP, TotalBytes;
    var m := ManifestOf(created, retentionDays, dump, copies);
    var a := ArchiveOf(dump, copies, m, payload);
    ManifestIsValid(created, retentionDays, dump, copies);
    NamesAreDistinct(dump, copies, m, payload);
    NamesOfOwnArchive(dump, copies, m, payload);
    ContentsOfOwnArchive(dump, copies, m, payload);
    ArchiveTotal(dump, copies, m, payload);
    EvidenceOfOwnArchive(dump, copies, m, payload);
  }

  lemma EvidenceOfOwnArchive(dump: Dump, copies: seq<Copy>, m: Manifest, payload: Bytes)
    requires DistinctCopies(copies) && m.files == FilesOf(dump, copies)
    ensures var a := ArchiveOf(dump, copies, m, payload);
      forall f :: f in m.files ==> Has(a, f) && EvidenceOf(ContentIn(a.entries, f)) == m.files[f]
  {
    hide FilesOf, ContentIn, ObjectsOf, DistinctCopies, ArchiveOf;
    var a := ArchiveOf(dump, copies, m, payload);
    ContentsOfOwnArchive(dump, copies, m, payload);
    FilesOfCopies(dump, copies);
    ObjectAndCopy(copies);
    forall f | f in m.files ensures Has(a, f) && EvidenceOf(ContentIn(a.entries, f)) == m.files[f] {
      if f != DatabaseDump {
        var o :| o in ObjectsOf(copies) && o.member == f;
        var c :| c in copies && EvidenceFor(c) == o;
        assert m.files[ObjectMember(c.key)] == EvidenceOf(c.response.body);
      }
    }
  }

  lemma ArchiveTotal(dump: Dump, copies: seq<Copy>, m: Manifest, payload: Bytes)
    ensures var a := ArchiveOf(dump, copies, m, payload);
      TotalBytes(a.entries) == |dump.bytes| + BodySum(copies) + |payload| && |a.entries| == |copies| + 2
  {
    var entries := EntriesOf(dump, copies);
    EntriesTotal(dump, copies);
    var all := ArchiveOf(dump, copies, m, payload).entries;
    assert all[..|all| - 1] == entries;
  }

  // --- the backup ---

  /** `sorted(before.items())`: every listed key once. */
  predicate Enumerates(order: seq<string>, inv: Inventory) {
    && (forall k :: k in inv ==> k in order) && (forall k :: k in order ==> k in inv)
    && forall i, j :: 0 <= i < j < |order| ==> order[i] != order[j]
  }

  /** The conditions under which `_create_backup` publishes an archive. */
  predicate Publishable(
    first: seq<Listed>, dump: Option<Dump>, order: seq<string>, responses: map<string, Option<Response>>,
    second: seq<Listed>, created: int, retentionDays: nat, render: Manifest -> Bytes)
    requires Enumerates(order, Collected(first, PROBE_KEYS)) && forall k :: k in order ==> k in responses
  {
    var inv := Collected(first, PROBE_KEYS);
    var copies := CopiesOf(order, inv, responses);
    && GoodListing(first, PROBE_KEYS)
    && dump.Some? && |dump.value.bytes| <= MAX_BYTES
    && AllDownloadable(order, inv, responses, |dump.value.bytes|)
    && GoodListing(second, PROBE_KEYS) && Collected(second, PROBE_KEYS) == inv
    && Describable(dump.value, copies)
    && |render(ManifestOf(created, retentionDays, dump.value, copies))| <= MAX_MANIFEST
    && PGDMP <= dump.value.bytes
  }

  method BuildBackup(
    first: seq<Listed>, dump: Option<Dump>, order: seq<string>, responses: map<string, Option<Response>>,
    second: seq<Listed>, created: int, retentionDays: nat, render: Manifest -> Bytes)
    returns (r: Option<(Archive, Manifest)>)
    requires Enumerates(order, Collected(first, PROBE_KEYS)) && forall k :: k in order ==> k in responses
    ensures r.Some? <==> Publishable(first, dump, order, responses, second, created, retentionDays, render)
    ensures r.Some? ==>
      var copies := CopiesOf(order, Collected(first, PROBE_KEYS), responses);
      && r.value.1 == ManifestOf(created, retentionDays, dump.value, copies)
      && r.value.0 == ArchiveOf(dump.value, copies, r.value.1, render(r.value.1))
      && Verified(r.value.0, r.value.1)
      && DistinctCopies(copies)
      && (forall c :: c in copies ==> responses[c.key] == Some(c.response) && Unchanged(c.stamp, c.response))
  {
    hide GoodListing, Collected, AllDownloadable, Describable, Verified, FilesOf, InventoryMatches, DistinctCopies;
    hide Unchanged, BodySum;
    var before := TakeInventory(first, PROBE_KEYS);
    if before.None? || dump.None? { return None; }
    var inv := before.value;
    var evidence := Fingerprint(dump.value.bytes);
    if evidence.None? { return None; }
    var copies := DownloadAll(order, inv, responses, |dump.value.bytes|);
    if copies.None? { return None; }
    var after := TakeInventory(second, PROBE_KEYS);
    if after != Some(inv) { return None; }
    OrderedCopies(first, order, inv, responses);
    var m := ManifestOf(created, retentionDays, dump.value, copies.value);
    ManifestIsValid(created, retentionDays, dump.value, copies.value);
    if !InventoryMatches(m) { return None; }
    var payload := render(m);
    if |payload| > MAX_MANIFEST { return None; }
    var archive := ArchiveOf(dump.value, copies.value, m, payload);
    OwnArchiveVerifies(created, retentionDays, dump.value, copies.value, payload);
    var verified := VerifyArchive(archive);
    if verified.None? { return None; }
    assert verified == Some(m) by { VerifiedIsParsed(archive, verified.value); }
    return Some((archive, m));
  }

  lemma VerifiedIsParsed(a: Archive, m: Manifest)
    requires Verified(a, m)
    ensures a.parsed == Some(m)
  {}

  lemma OrderedCopies(first: seq<Listed>, order: seq<string>, inv: Inventory, responses: map<string, Option<Response>>)
    requires InventoryOf(inv, first, PROBE_KEYS) && Enumerates(order, inv)
    requires forall k :: k in order ==> k in responses
    ensures DistinctCopies(CopiesOf(order, inv, responses))
    ensures forall c :: c in CopiesOf(order, inv, responses) ==> c.key in inv && c.key !in PROBE_KEYS
    ensures |CopiesOf(order, inv, responses)| == |inv|
  {
    assert inv.Keys == set k | k in order;
    DistinctCount(order);
  }

  lemma {:induction false} DistinctCount(order: seq<string>)
    requires forall i, j :: 0 <= i < j < |order| ==> order[i] != order[j]
    ensures |set k | k in order| == |order|
    decreases |order|
  {
    if order != [] {
      var init, last := order[..|order| - 1], order[|order| - 1];
      DistinctCount(init);
      assert order == init + [last];
      assert (set k | k in order) == (set k | k in init) + {last};
      assert last !in init;
    }
  }
}
