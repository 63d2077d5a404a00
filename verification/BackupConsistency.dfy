/**
 Why a published backup is one consistent picture of a store that kept changing, and
 why a restore that returns has put that very picture into the new bucket.
 */
module BackupConsistency {
  import opened Common
  import opened ArchiveContracts
  import opened ManagedBackup

  // --- what a truthful store answers ---

  /** The key's object at this instant was written since the one before. */
  predicate Written(live: Timeline, t: nat, key: string) {
    t > 0 && key in live(t) && !(key in live(t - 1) && live(t - 1)[key] == live(t)[key])
  }

  /** A write never brings back a (size, ETag, modification time) that the key has had before. */
  ghost predicate FreshStamps(live: Timeline) {
    forall s: nat, t: nat, key ::
      s < t && key in live(s) && Written(live, t, key) ==> StampOf(live(s)[key]) != StampOf(live(t)[key])
  }

  /** Every complete row of a listing shows the key as it was at the row's own instant. */
  predicate TruthfulRow(live: Timeline, l: Listed) {
    l.Complete() ==> l.key.value in live(l.at) && StampOf(live(l.at)[l.key.value]) == l.AsStamp()
  }

  predicate TruthfulAnswer(live: Timeline, key: string, r: Response) {
    && key in live(r.at)
    && var o := live(r.at)[key];
       r.body == o.bytes && r.contentType == Some(o.contentType) && r.metadata == Some(o.metadata)
  }

  /** First listing, then the database snapshot, then the downloads, then the second listing. */
  predicate InOrder(
    first: seq<Listed>, dump: Dump, order: seq<string>, responses: map<string, Option<Response>>, second: seq<Listed>)
  {
    && (forall l :: l in first ==> l.at <= dump.at)
    && (forall l :: l in second ==> dump.at <= l.at)
    && forall k, l :: k in order && k in responses && responses[k].Some? && l in second ==>
         dump.at <= responses[k].value.at <= l.at
  }

  /** Everything a backup observed, from a truthful store in the order of the code. */
  ghost predicate Observed(
    live: Timeline, first: seq<Listed>, dump: Dump, order: seq<string>,
    responses: map<string, Option<Response>>, second: seq<Listed>)
  {
    && (forall l :: l in first + second ==> TruthfulRow(live, l))
    && (forall k :: k in order && k in responses && responses[k].Some? ==> TruthfulAnswer(live, k, responses[k].value))
    && InOrder(first, dump, order, responses, second)
  }

  // --- no version comes back ---

  /** If a key shows one stamp at two instants, it held one and the same object all the time in between. */
  lemma {:induction false} SameStampSameObject(live: Timeline, key: string, from: nat, t: nat, upto: nat)
    requires FreshStamps(live) && from <= t <= upto
    requires key in live(from) && key in live(upto) && StampOf(live(from)[key]) == StampOf(live(upto)[key])
    ensures key in live(t) && live(t)[key] == live(upto)[key]
    decreases upto
  {
    if t < upto {
      var last := upto - 1;
      assert !Written(live, upto, key);
      SameStampSameObject(live, key, from, t, last);
    }
  }

  // --- a published backup is a snapshot ---

  /** The archive holds this key exactly as it was live at instant `t`. */
  predicate ArchivedAsAt(a: Archive, m: Manifest, live: Timeline, key: string, t: nat) {
    && key in live(t)
    && Has(a, ObjectMember(key)) && ContentIn(a.entries, ObjectMember(key)) == live(t)[key].bytes
    && exists o :: o in m.objects && o.key == key && o.etag == live(t)[key].etag
         && o.contentType == live(t)[key].contentType && o.metadata == live(t)[key].metadata
  }

  /** The key was listed twice, around the database snapshot, and is archived as it was all that time. */
  ghost predicate Snapshotted(
    a: Archive, m: Manifest, live: Timeline, dump: Dump, first: seq<Listed>, second: seq<Listed>, key: string)
  {
    exists l1, l2 :: l1 in first && l2 in second && l1.key == Some(key) && l2.key == Some(key)
      && l1.at <= dump.at <= l2.at
      && forall t: nat :: l1.at <= t <= l2.at ==> ArchivedAsAt(a, m, live, key, t)
  }

  /** A key in both equal inventories: its object never changed between its two listings, the download included. */
  lemma OneKey(
    live: Timeline, first: seq<Listed>, dump: Dump, order: seq<string>,
    responses: map<string, Option<Response>>, second: seq<Listed>, key: string)
    returns (l1: Listed, l2: Listed)
    requires FreshStamps(live) && Observed(live, first, dump, order, responses, second)
    requires InventoryOf(Collected(first, PROBE_KEYS), first, PROBE_KEYS)
    requires InventoryOf(Collected(first, PROBE_KEYS), second, PROBE_KEYS)
    requires key in Collected(first, PROBE_KEYS) && key in order && key in responses && responses[key].Some?
    ensures l1 in first && l2 in second && l1.key == Some(key) && l2.key == Some(key)
    ensures l1.at <= dump.at <= responses[key].value.at <= l2.at
    ensures forall t: nat :: l1.at <= t <= l2.at ==>
      && key in live(t) && live(t)[key].etag == Collected(first, PROBE_KEYS)[key].etag
      && live(t)[key].bytes == responses[key].value.body
      && responses[key].value.contentType == Some(live(t)[key].contentType)
      && responses[key].value.metadata == Some(live(t)[key].metadata)
  {
    hide Collected, FreshStamps;
    var inv := Collected(first, PROBE_KEYS);
    l1 :| l1 in first && Included(l1, PROBE_KEYS) && l1.key.value == key;
    l2 :| l2 in second && Included(l2, PROBE_KEYS) && l2.key.value == key;
    assert l1 in first + second && l2 in first + second;
    assert TruthfulRow(live, l1) && TruthfulRow(live, l2);
    assert l1.AsStamp() == inv[key] == l2.AsStamp();
    assert TruthfulAnswer(live, key, responses[key].value);
    SameStampSameObject(live, key, l1.at, responses[key].value.at, l2.at);
    forall t: nat | l1.at <= t <= l2.at
      ensures key in live(t) && live(t)[key] == live(l2.at)[key]
    {
      SameStampSameObject(live, key, l1.at, t, l2.at);
    }
  }

  /** What a published archive says about one of its downloads. */
  lemma CopyInArchive(created: int, retentionDays: nat, dump: Dump, copies: seq<Copy>, payload: Bytes, c: Copy)
    requires DistinctCopies(copies) && c in copies
    ensures var m := ManifestOf(created, retentionDays, dump, copies);
      var a := ArchiveOf(dump, copies, m, payload);
      && Has(a, ObjectMember(c.key)) && ContentIn(a.entries, ObjectMember(c.key)) == c.response.body
      && EvidenceFor(c) in m.objects
  {
    hide ArchiveOf, ContentIn, Has, FilesOf;
    ContentsOfOwnArchive(dump, copies, ManifestOf(created, retentionDays, dump, copies), payload);
    ObjectAndCopy(copies);
  }

  lemma OneCopy(
    live: Timeline, first: seq<Listed>, dump: Dump, order: seq<string>, responses: map<string, Option<Response>>,
    second: seq<Listed>, a: Archive, m: Manifest, c: Copy)
    requires FreshStamps(live) && Observed(live, first, dump, order, responses, second)
    requires InventoryOf(Collected(first, PROBE_KEYS), first, PROBE_KEYS)
    requires InventoryOf(Collected(first, PROBE_KEYS), second, PROBE_KEYS)
    requires c.key in Collected(first, PROBE_KEYS) && c.stamp == Collected(first, PROBE_KEYS)[c.key]
    requires c.key in order && c.key in responses && responses[c.key] == Some(c.response)
    requires Has(a, ObjectMember(c.key)) && ContentIn(a.entries, ObjectMember(c.key)) == c.response.body
    requires EvidenceFor(c) in m.objects
    ensures Snapshotted(a, m, live, dump, first, second, c.key)
  {
    hide Collected, FreshStamps, Observed, InventoryOf, ContentIn, Has;
    var l1, l2 := OneKey(live, first, dump, order, responses, second, c.key);
    forall t: nat | l1.at <= t <= l2.at ensures ArchivedAsAt(a, m, live, c.key, t) {}
  }

  /**
   Snapshot consistency. Whatever other writers do, every key of a published backup is
   archived as it was live at every instant between its two listings, the database
   snapshot among them; the archive holds no other key.
   */
  lemma StableSnapshot(
    live: Timeline, first: seq<Listed>, dump: Dump, order: seq<string>, responses: map<string, Option<Response>>,
    second: seq<Listed>, created: int, retentionDays: nat, render: Manifest -> Bytes)
    requires FreshStamps(live) && Observed(live, first, dump, order, responses, second)
    requires Enumerates(order, Collected(first, PROBE_KEYS)) && forall k :: k in order ==> k in responses
    requires Publishable(first, Some(dump), order, responses, second, created, retentionDays, render)
    ensures var copies := CopiesOf(order, Collected(first, PROBE_KEYS), responses);
      var m := ManifestOf(created, retentionDays, dump, copies);
      var a := ArchiveOf(dump, copies, m, render(m));
      && KeysOf(m.objects) == Collected(first, PROBE_KEYS).Keys
      && forall o :: o in m.objects ==> Snapshotted(a, m, live, dump, first, second, o.key)
  {
    hide GoodListing, Collected, AllDownloadable, Describable, FreshStamps, Observed, ContentIn, Has, EntriesOf;
    hide FilesOf;
    var inv := Collected(first, PROBE_KEYS);
    var copies := CopiesOf(order, inv, responses);
    var m := ManifestOf(created, retentionDays, dump, copies);
    var a := ArchiveOf(dump, copies, m, render(m));
    ListedIsCollected(first);
    ListedIsCollected(second);
    OrderedCopies(first, order, inv, responses);
    DownloadsAnswered(order, inv, responses, |dump.bytes|);
    ObjectAndCopy(copies);
    forall o | o in m.objects ensures Snapshotted(a, m, live, dump, first, second, o.key) {
      var c :| c in copies && EvidenceFor(c) == o;
      CopyInArchive(created, retentionDays, dump, copies, render(m), c);
      CopyIsAnswer(order, inv, responses, c);
      OneCopy(live, first, dump, order, responses, second, a, m, c);
    }
    KeysOfCopies(order, inv, responses);
  }

  lemma ListedIsCollected(listing: seq<Listed>)
    requires GoodListing(listing, PROBE_KEYS)
    ensures InventoryOf(Collected(listing, PROBE_KEYS), listing, PROBE_KEYS)
  {}

  lemma {:induction false} DownloadsAnswered(
    order: seq<string>, inv: Inventory, responses: map<string, Option<Response>>, start: nat)
    requires forall k :: k in order ==> k in inv && k in responses
    requires AllDownloadable(order, inv, responses, start)
    ensures forall k :: k in order ==> responses[k].Some? && Unchanged(inv[k], responses[k].value)
    decreases |order|
  {
    if order != [] {
      var n := |order| - 1;
      DownloadsAnswered(order[..n], inv, responses, start);
      assert order == order[..n] + [order[n]];
    }
  }

  lemma CopyIsAnswer(order: seq<string>, inv: Inventory, responses: map<string, Option<Response>>, c: Copy)
    requires forall k :: k in order ==> k in inv && k in responses && responses[k].Some?
    requires c in CopiesOf(order, inv, responses)
    ensures c.key in order && c.stamp == inv[c.key] && responses[c.key] == Some(c.response)
  {}

  lemma KeysOfCopies(order: seq<string>, inv: Inventory, responses: map<string, Option<Response>>)
    requires Enumerates(order, inv) && forall k :: k in order ==> k in responses
    ensures KeysOf(ObjectsOf(CopiesOf(order, inv, responses))) == inv.Keys
  {
    var objects := ObjectsOf(CopiesOf(order, inv, responses));
    forall k | k in inv.Keys ensures k in KeysOf(objects) {
      var i :| 0 <= i < |order| && order[i] == k;
      assert objects[i].key == k;
    }
  }

  /**
   The database's references lead into the archive: the archived bytes have the digest and
   size the database recorded, and they were live when the database was dumped.
   */
  lemma ReferencesWereLive(
    live: Timeline, first: seq<Listed>, dump: Dump, order: seq<string>, responses: map<string, Option<Response>>,
    second: seq<Listed>, created: int, retentionDays: nat, render: Manifest -> Bytes, r: Reference)
    requires FreshStamps(live) && Observed(live, first, dump, order, responses, second)
    requires Enumerates(order, Collected(first, PROBE_KEYS)) && forall k :: k in order ==> k in responses
    requires Publishable(first, Some(dump), order, responses, second, created, retentionDays, render)
    requires r in dump.references
    ensures r.key in live(dump.at) && Sha256(live(dump.at)[r.key].bytes) == r.sha256
    ensures r.bytes.Some? ==> |live(dump.at)[r.key].bytes| == r.bytes.value
  {
    hide GoodListing, Collected, AllDownloadable, FreshStamps, Observed, ContentIn, Has, EntriesOf, FilesOf;
    hide Snapshotted, ArchivedAsAt;
    var copies := CopiesOf(order, Collected(first, PROBE_KEYS), responses);
    var m := ManifestOf(created, retentionDays, dump, copies);
    var a := ArchiveOf(dump, copies, m, render(m));
    StableSnapshot(live, first, dump, order, responses, second, created, retentionDays, render);
    ListedIsCollected(first);
    OrderedCopies(first, order, Collected(first, PROBE_KEYS), responses);
    assert Describable(dump, copies);
    var c := ReferencedCopy(dump, copies, r);
    CopyInArchive(created, retentionDays, dump, copies, render(m), c);
    AtTheDump(a, m, live, dump, first, second, EvidenceFor(c).key);
    assert live(dump.at)[c.key].bytes == c.response.body;
  }

  lemma ReferencedCopy(dump: Dump, copies: seq<Copy>, r: Reference) returns (c: Copy)
    requires Describable(dump, copies) && r in dump.references
    ensures c in copies && c.key == r.key && Sha256(c.response.body) == r.sha256
    ensures r.bytes.Some? ==> |c.response.body| == r.bytes.value
  {
    assert Answered(copies, r);
    c :| c in copies && c.key == r.key && Sha256(c.response.body) == r.sha256
      && (r.bytes.Some? ==> |c.response.body| == r.bytes.value);
  }

  lemma AtTheDump(
    a: Archive, m: Manifest, live: Timeline, dump: Dump, first: seq<Listed>, second: seq<Listed>, key: string)
    requires Snapshotted(a, m, live, dump, first, second, key)
    ensures ArchivedAsAt(a, m, live, key, dump.at)
    ensures key in live(dump.at)
    ensures Has(a, ObjectMember(key)) && live(dump.at)[key].bytes == ContentIn(a.entries, ObjectMember(key))
  {}

  // --- the restore ---

  /** What else the restore test depends on: the archive's size, the bucket's privacy, the database import. */
  datatype Surroundings = Surroundings(
    archiveSize: nat, bucketIsNew: bool, privateBefore: bool, databaseRestored: bool, privateAfter: bool)

  /** What the new bucket holds after every manifest object was put; `kept` is what the store kept of each PUT. */
  function AfterPuts(initial: Bucket, objects: seq<ObjectEvidence>, kept: map<string, Option<Object>>): Bucket {
    if objects == [] then initial
    else
      var before, last := AfterPuts(initial, objects[..|objects| - 1], kept), objects[|objects| - 1];
      if last.key in kept && kept[last.key].Some? then before[last.key := kept[last.key].value] else before
  }

  /** The stored object answers for the archived one. */
  predicate Stands(files: map<Member, FileEvidence>, o: ObjectEvidence, held: Object) {
    && |held.bytes| <= MAX_BYTES && o.member in files && EvidenceOf(held.bytes) == files[o.member]
    && held.metadata == o.metadata && held.contentType == o.contentType
  }

  /** The conditional PUT found no object under the key, was kept, and reads back as archived. */
  predicate PutStands(m: Manifest, o: ObjectEvidence, initial: Bucket, kept: map<string, Option<Object>>) {
    o.key !in initial && o.key in kept && kept[o.key].Some? && Stands(m.files, o, kept[o.key].value)
  }

  predicate AllStand(m: Manifest, n: nat, initial: Bucket, kept: map<string, Option<Object>>)
    requires n <= |m.objects|
  {
    forall i :: 0 <= i < n ==> PutStands(m, m.objects[i], initial, kept)
  }

  predicate Prepared(s: Surroundings) {
    && s.archiveSize <= MAX_BYTES
    && s.bucketIsNew && s.privateBefore && s.databaseRestored && s.privateAfter
  }

  predicate FinalListing(m: Manifest, listing: seq<Listed>) {
    GoodListing(listing, m.excluded) && Collected(listing, m.excluded).Keys == KeysOf(m.objects)
  }

  /** Exactly when `restore_test` returns. */
  predicate Restorable(
    a: Archive, m: Manifest, expected: ArchiveDigest, initial: Bucket, kept: map<string, Option<Object>>,
    list: Bucket -> seq<Listed>, s: Surroundings)
  {
    && Prepared(s) && Verified(a, m) && ArchiveSha256(a) == expected
    && AllStand(m, |m.objects|, initial, kept)
    && FinalListing(m, list(AfterPuts(initial, m.objects, kept)))
  }

  lemma {:induction false} PutsHold(
    initial: Bucket, objects: seq<ObjectEvidence>, kept: map<string, Option<Object>>)
    requires forall o :: o in objects ==> o.key in kept && kept[o.key].Some?
    ensures AfterPuts(initial, objects, kept).Keys == initial.Keys + KeysOf(objects)
    ensures forall o :: o in objects ==> AfterPuts(initial, objects, kept)[o.key] == kept[o.key].value
    ensures forall k :: k in initial && k !in KeysOf(objects) ==> AfterPuts(initial, objects, kept)[k] == initial[k]
    decreases |objects|
  {
    if objects != [] {
      var init, last := objects[..|objects| - 1], objects[|objects| - 1];
      PutsHold(initial, init, kept);
      assert objects == init + [last];
      assert KeysOf(objects) == KeysOf(init) + {last.key};
    }
  }

  method RestoreTest(
    a: Archive, expected: ArchiveDigest, initial: Bucket, kept: map<string, Option<Object>>,
    list: Bucket -> seq<Listed>, s: Surroundings)
    returns (r: Option<Manifest>, bucket: Bucket)
    ensures forall m :: r == Some(m) <==> Restorable(a, m, expected, initial, kept, list, s)
    ensures r.Some? ==> bucket == AfterPuts(initial, r.value.objects, kept)
  {
    hide Verified, FinalListing, Stands, GoodListing, Collected, InventoryMatches;
    bucket := initial;
    if s.archiveSize > MAX_BYTES + MAX_MANIFEST { return None, bucket; }
    // Verification hashes the copy, and gives up beyond its own, lower limit.
    if s.archiveSize > MAX_BYTES { return None, bucket; }
    var verified := VerifyArchive(a);
    if verified.None? || ArchiveSha256(a) != expected { return None, bucket; }
    var m := verified.value;
    VerifiedKeys(a, m);
    forall other | Verified(a, other) ensures other == m { VerifiedIsParsed(a, other); VerifiedIsParsed(a, m); }
    if !s.bucketIsNew || !s.privateBefore || !s.databaseRestored { return None, bucket; }
    var ok := true;
    ok, bucket := PutObjects(m, initial, kept);
    if !ok { return None, bucket; }
    var observed := TakeInventory(list(bucket), m.excluded);
    if observed.None? || observed.value.Keys != KeysOf(m.objects) {
      assert !FinalListing(m, list(bucket)) by { NotTheListing(m, list(bucket), observed); }
      return None, bucket;
    }
    assert FinalListing(m, list(bucket)) by { TheListing(m, list(bucket), observed.value); }
    if !s.privateAfter { return None, bucket; }
    return Some(m), bucket;
  }

  lemma NotTheListing(m: Manifest, listing: seq<Listed>, observed: Option<Inventory>)
    requires observed.Some? <==> GoodListing(listing, m.excluded)
    requires observed.Some? ==> observed.value == Collected(listing, m.excluded)
    requires observed.None? || observed.value.Keys != KeysOf(m.objects)
    ensures !FinalListing(m, listing)
  {}

  lemma TheListing(m: Manifest, listing: seq<Listed>, observed: Inventory)
    requires GoodListing(listing, m.excluded) && observed == Collected(listing, m.excluded)
    requires observed.Keys == KeysOf(m.objects)
    ensures FinalListing(m, listing)
  {}

  lemma VerifiedKeys(a: Archive, m: Manifest)
    requires Verified(a, m)
    ensures DistinctKeys(m.objects) && forall o :: o in m.objects ==> o.member in m.files
  {}

  /** Read an object back in blocks and compare it with what was archived. */
  method ReadBack(files: map<Member, FileEvidence>, item: ObjectEvidence, held: Object) returns (same: bool)
    requires item.member in files
    ensures same <==> Stands(files, item, held)
  {
    var evidence := Fingerprint(held.bytes);
    if evidence != Some(files[item.member]) { return false; }
    return held.metadata == item.metadata && held.contentType == item.contentType;
  }

  lemma KeptSoFar(m: Manifest, n: nat, initial: Bucket, kept: map<string, Option<Object>>)
    requires n < |m.objects| && DistinctKeys(m.objects) && AllStand(m, n, initial, kept)
    ensures m.objects[n].key in AfterPuts(initial, m.objects[..n], kept) <==> m.objects[n].key in initial
  {
    forall o | o in m.objects[..n] ensures o.key in kept && kept[o.key].Some? && o.key != m.objects[n].key {
      var i :| 0 <= i < n && m.objects[i] == o;
      assert PutStands(m, m.objects[i], initial, kept);
    }
    PutsHold(initial, m.objects[..n], kept);
  }

  /** Put every object under its key unless something is there already, and read it back. */
  method PutObjects(m: Manifest, initial: Bucket, kept: map<string, Option<Object>>)
    returns (ok: bool, bucket: Bucket)
    requires DistinctKeys(m.objects) && forall o :: o in m.objects ==> o.member in m.files
    ensures ok <==> AllStand(m, |m.objects|, initial, kept)
    ensures ok ==> bucket == AfterPuts(initial, m.objects, kept)
  {
    hide Stands, DistinctKeys;
    bucket := initial;
    var n := 0;
    while n < |m.objects|
      invariant 0 <= n <= |m.objects| && AllStand(m, n, initial, kept)
      invariant bucket == AfterPuts(initial, m.objects[..n], kept)
    {
      var item := m.objects[n];
      KeptSoFar(m, n, initial, kept);
      if item.key in bucket || item.key !in kept || kept[item.key].None? {
        assert !PutStands(m, item, initial, kept);
        return false, bucket;
      }
      bucket := bucket[item.key := kept[item.key].value];
      var same := ReadBack(m.files, item, bucket[item.key]);
      if !same { return false, bucket; }
      assert m.objects[..n + 1][..n] == m.objects[..n];
      n := n + 1;
    }
    assert m.objects[..n] == m.objects;
    return true, bucket;
  }

  /** A listing that shows exactly the keys of the bucket. */
  predicate ShowsKeys(listing: seq<Listed>, bucket: Bucket) {
    && (forall l :: l in listing && l.key.Some? ==> l.key.value in bucket)
    && forall k :: k in bucket ==> exists l :: l in listing && l.key == Some(k)
  }

  /** The key holds, with its content type and metadata, the bytes the archive keeps for it. */
  predicate RestoredFrom(a: Archive, o: ObjectEvidence, bucket: Bucket) {
    && o.key in bucket && Has(a, o.member) && bucket[o.key].bytes == ContentIn(a.entries, o.member)
    && bucket[o.key].contentType == o.contentType && bucket[o.key].metadata == o.metadata
  }

  /** A restore that returns: health probes aside, the new bucket is the archive, key for key and byte for byte. */
  lemma RestoredIsArchived(
    a: Archive, m: Manifest, expected: ArchiveDigest, initial: Bucket, kept: map<string, Option<Object>>,
    list: Bucket -> seq<Listed>, s: Surroundings)
    requires Restorable(a, m, expected, initial, kept, list, s)
    requires ShowsKeys(list(AfterPuts(initial, m.objects, kept)), AfterPuts(initial, m.objects, kept))
    ensures var bucket := AfterPuts(initial, m.objects, kept);
      && bucket.Keys - m.excluded == KeysOf(m.objects) && initial.Keys <= m.excluded
      && forall o :: o in m.objects ==> RestoredFrom(a, o, bucket)
  {
    hide InventoryMatches, ContentIn, Verified, Collected, AllStand, RestoredFrom, NoRepeats;
    var bucket := AfterPuts(initial, m.objects, kept);
    AllKept(m, initial, kept);
    PutsHold(initial, m.objects, kept);
    CollectedKeys(list(bucket), m.excluded);
    KeysAndProbes(a, m);
    forall k | k in bucket && k !in m.excluded ensures k in KeysOf(m.objects) {
      var l :| l in list(bucket) && l.key == Some(k);
      assert Included(l, m.excluded);
    }
    forall k | k in initial ensures k !in KeysOf(m.objects) {
      NotTaken(m, initial, kept, k);
    }
    forall o | o in m.objects ensures RestoredFrom(a, o, bucket) {
      OneStands(a, m, initial, kept, o);
    }
  }

  lemma NotTaken(m: Manifest, initial: Bucket, kept: map<string, Option<Object>>, key: string)
    requires AllStand(m, |m.objects|, initial, kept) && key in initial
    ensures key !in KeysOf(m.objects)
  {}

  lemma OneStands(
    a: Archive, m: Manifest, initial: Bucket, kept: map<string, Option<Object>>, o: ObjectEvidence)
    requires Verified(a, m) && AllStand(m, |m.objects|, initial, kept) && o in m.objects
    requires forall o :: o in m.objects ==> o.key in kept && kept[o.key].Some?
    ensures RestoredFrom(a, o, AfterPuts(initial, m.objects, kept))
  {
    hide InventoryMatches, ContentIn, DistinctNames, NamesOf, TotalBytes;
    PutsHold(initial, m.objects, kept);
    var i :| 0 <= i < |m.objects| && m.objects[i] == o;
    assert PutStands(m, m.objects[i], initial, kept);
    assert Sha256(kept[o.key].value.bytes) == Sha256(ContentIn(a.entries, o.member));
  }

  lemma AllKept(m: Manifest, initial: Bucket, kept: map<string, Option<Object>>)
    requires AllStand(m, |m.objects|, initial, kept)
    ensures forall o :: o in m.objects ==> o.key in kept && kept[o.key].Some?
  {}

  lemma KeysAndProbes(a: Archive, m: Manifest)
    requires Verified(a, m)
    ensures KeysOf(m.objects) !! m.excluded
  {}

  lemma {:induction false} CollectedKeys(listing: seq<Listed>, excluded: set<string>)
    ensures forall l :: l in listing && Included(l, excluded) ==> l.key.value in Collected(listing, excluded)
    decreases |listing|
  {
    if listing != [] {
      var n := |listing| - 1;
      CollectedKeys(listing[..n], excluded);
      assert listing == listing[..n] + [listing[n]];
    }
  }

  /**
   Backup, then restore. When both return, every restored object is, byte for byte and with
   its content type and metadata, the one that was live at every instant between the key's
   two listings, and nothing but health probes lies beside them.
   */
  lemma BackupThenRestore(
    live: Timeline, first: seq<Listed>, dump: Dump, order: seq<string>, responses: map<string, Option<Response>>,
    second: seq<Listed>, created: int, retentionDays: nat, render: Manifest -> Bytes,
    a: Archive, m: Manifest, initial: Bucket, kept: map<string, Option<Object>>,
    list: Bucket -> seq<Listed>, s: Surroundings)
    requires FreshStamps(live) && Observed(live, first, dump, order, responses, second)
    requires Enumerates(order, Collected(first, PROBE_KEYS)) && forall k :: k in order ==> k in responses
    requires Publishable(first, Some(dump), order, responses, second, created, retentionDays, render)
    requires m == ManifestOf(created, retentionDays, dump, CopiesOf(order, Collected(first, PROBE_KEYS), responses))
    requires a == ArchiveOf(dump, CopiesOf(order, Collected(first, PROBE_KEYS), responses), m, render(m))
    requires Restorable(a, m, ArchiveSha256(a), initial, kept, list, s)
    requires ShowsKeys(list(AfterPuts(initial, m.objects, kept)), AfterPuts(initial, m.objects, kept))
    ensures var bucket := AfterPuts(initial, m.objects, kept);
      && bucket.Keys - PROBE_KEYS == Collected(first, PROBE_KEYS).Keys
      && forall key :: key in bucket && key !in PROBE_KEYS ==> RestoredAsLive(bucket, live, dump, first, second, key)
  {
    hide Publishable, Restorable, Collected, FreshStamps, Observed, ArchiveOf, CopiesOf, ContentIn, Has, AfterPuts;
    hide ShowsKeys, Snapshotted, RestoredAsLive;
    var bucket := AfterPuts(initial, m.objects, kept);
    StableSnapshot(live, first, dump, order, responses, second, created, retentionDays, render);
    RestoredIsArchived(a, m, ArchiveSha256(a), initial, kept, list, s);
    RestorableObjects(a, m, ArchiveSha256(a), initial, kept, list, s);
    forall key | key in bucket && key !in PROBE_KEYS ensures RestoredAsLive(bucket, live, dump, first, second, key) {
      assert key in KeysOf(m.objects);
      var o :| o in m.objects && o.key == key;
      OneRestored(a, m, bucket, live, dump, first, second, o);
    }
  }

  lemma RestorableObjects(
    a: Archive, m: Manifest, expected: ArchiveDigest, initial: Bucket, kept: map<string, Option<Object>>,
    list: Bucket -> seq<Listed>, s: Surroundings)
    requires Restorable(a, m, expected, initial, kept, list, s)
    ensures DistinctKeys(m.objects) && forall o :: o in m.objects ==> ValidObject(o)
  {}

  ghost predicate RestoredAsLive(
    bucket: Bucket, live: Timeline, dump: Dump, first: seq<Listed>, second: seq<Listed>, key: string)
  {
    exists l1, l2 :: l1 in first && l2 in second && l1.key == Some(key) && l2.key == Some(key)
      && l1.at <= dump.at <= l2.at
      && forall t: nat :: l1.at <= t <= l2.at ==> SameObject(bucket, live, key, t)
  }

  predicate SameObject(bucket: Bucket, live: Timeline, key: string, t: nat) {
    && key in bucket && key in live(t) && bucket[key].bytes == live(t)[key].bytes
    && bucket[key].contentType == live(t)[key].contentType && bucket[key].metadata == live(t)[key].metadata
  }

  lemma OneRestored(
    a: Archive, m: Manifest, bucket: Bucket, live: Timeline, dump: Dump, first: seq<Listed>, second: seq<Listed>,
    o: ObjectEvidence)
    requires DistinctKeys(m.objects) && (forall o :: o in m.objects ==> ValidObject(o))
    requires o in m.objects && RestoredFrom(a, o, bucket) && Snapshotted(a, m, live, dump, first, second, o.key)
    ensures RestoredAsLive(bucket, live, dump, first, second, o.key)
  {
    hide ContentIn, Has;
    assert ValidObject(o);
    var l1, l2 :| l1 in first && l2 in second && l1.key == Some(o.key) && l2.key == Some(o.key)
      && l1.at <= dump.at <= l2.at
      && forall t: nat :: l1.at <= t <= l2.at ==> ArchivedAsAt(a, m, live, o.key, t);
    forall t: nat | l1.at <= t <= l2.at ensures SameObject(bucket, live, o.key, t) {
      assert ArchivedAsAt(a, m, live, o.key, t);
      var other :| other in m.objects && other.key == o.key && other.etag == live(t)[o.key].etag
         && other.contentType == live(t)[o.key].contentType && other.metadata == live(t)[o.key].metadata;
      SameKeySameObject(m.objects, o, other);
    }
  }

  lemma SameKeySameObject(objects: seq<ObjectEvidence>, o: ObjectEvidence, other: ObjectEvidence)
    requires DistinctKeys(objects) && o in objects && other in objects && o.key == other.key
    ensures o == other
  {}
}
