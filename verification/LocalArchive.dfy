/**
 The local backup: a SQLite snapshot and object files in one archive, and their
 restoration into a directory that did not exist before.
 */
module LocalArchive {
  import opened Common

  const MAX_EXPANDED := 20_000_000_000
  const MAX_NAMES := 1_000_000
  const MAX_MANIFEST := 25_000_000

  const DATABASE := "database.sqlite"
  const MANIFEST := "manifest.json"
  const OBJECTS := "objects/"

  datatype FileEvidence = FileEvidence(sha256: Digest, bytes: nat)

  datatype Manifest = Manifest(files: map<string, FileEvidence>, tables: map<string, nat>)

  datatype Member = Member(name: string, content: Bytes, linked: bool)

  /** A ZIP file; `parsed` is what its manifest decodes to, should it be a valid one. */
  datatype Archive = Archive(members: seq<Member>, parsed: Option<Manifest>)

  /** Case folding, Windows' reserved names, and the inspection of a database are not modelled further. */
  datatype Platform = Platform(
    fold: string -> string, reserved: string -> bool, inspect: Bytes -> Option<map<string, nat>>)

  // --- paths ---

  type Path = seq<string>

  /** The components between slashes. */
  function Split(s: string): (parts: Path)
    ensures parts != []
  {
    if s == "" then [""]
    else
      var before, c := Split(s[..|s| - 1]), s[|s| - 1];
      if c == '/' then before + [""]
      else before[..|before| - 1] + [before[|before| - 1] + [c]]
  }

  function Join(parts: Path): string
    requires parts != []
  {
    if |parts| == 1 then parts[0] else Join(parts[..|parts| - 1]) + "/" + parts[|parts| - 1]
  }

  lemma {:induction false} JoinOfSplit(s: string)
    ensures Join(Split(s)) == s
    decreases |s|
  {
    if s != "" {
      var init, c := s[..|s| - 1], s[|s| - 1];
      JoinOfSplit(init);
      var before := Split(init);
      assert s == init + [c];
      if c == '/' {
        assert (before + [""])[..|before|] == before;
      } else {
        var n := |before| - 1;
        var after := before[..n] + [before[n] + [c]];
        assert after[..n] == before[..n];
      }
    }
  }

  /** Different names are different paths. */
  lemma SplitIsInjective(a: string, b: string)
    ensures Split(a) == Split(b) <==> a == b
  {
    JoinOfSplit(a);
    JoinOfSplit(b);
  }

  /** Where a relative path leads, lexically. */
  function Resolve(base: Path, parts: Path): Path {
    if parts == [] then base
    else
      var before, p := Resolve(base, parts[..|parts| - 1]), parts[|parts| - 1];
      if p == "" || p == "." then before
      else if p == ".." then (if before == [] then [] else before[..|before| - 1])
      else before + [p]
  }

  predicate EndsBadly(p: string) { p != "" && (p[|p| - 1] == '.' || p[|p| - 1] == ' ') }

  /** A component that means the same on every platform: no traversal, drive, stream, separator or device. */
  predicate SafePart(p: string, platform: Platform) {
    && p != "" && p != "." && p != ".." && ':' !in p && '\\' !in p && !EndsBadly(p) && !platform.reserved(p)
  }

  predicate SafeName(name: string, platform: Platform) {
    && (forall p :: p in Split(name) ==> SafePart(p, platform))
    && (name == MANIFEST || name == DATABASE || OBJECTS <= name)
  }

  /** A safe name leads strictly below whatever directory it is put in. */
  lemma {:induction false} SafeStaysInside(base: Path, parts: Path, platform: Platform)
    requires forall p :: p in parts ==> SafePart(p, platform)
    ensures Resolve(base, parts) == base + parts
    decreases |parts|
  {
    if parts != [] {
      var init, last := parts[..|parts| - 1], parts[|parts| - 1];
      SafeStaysInside(base, init, platform);
      assert parts == init + [last] && SafePart(last, platform);
      assert base + init + [last] == base + parts;
    }
  }

  // --- which archives are safe ---

  function Expanded(members: seq<Member>): nat {
    if members == [] then 0 else Expanded(members[..|members| - 1]) + |members[|members| - 1].content|
  }

  predicate DistinctFolded(members: seq<Member>, platform: Platform) {
    forall i, j :: 0 <= i < j < |members| ==> platform.fold(members[i].name) != platform.fold(members[j].name)
  }

  predicate Safe(members: seq<Member>, platform: Platform) {
    && DistinctFolded(members, platform) && |members| <= MAX_NAMES && Expanded(members) <= MAX_EXPANDED
    && forall m :: m in members ==> SafeName(m.name, platform) && !m.linked
  }

  function FoldedNames(members: seq<Member>, platform: Platform): set<string> {
    set m | m in members :: platform.fold(m.name)
  }

  lemma {:induction false} FoldedCount(members: seq<Member>, platform: Platform)
    ensures |FoldedNames(members, platform)| <= |members|
    ensures |FoldedNames(members, platform)| == |members| <==> DistinctFolded(members, platform)
    decreases |members|
  {
    if members == [] {
      assert FoldedNames(members, platform) == {};
    } else {
      var init, last := members[..|members| - 1], members[|members| - 1];
      FoldedCount(init, platform);
      assert members == init + [last];
      FoldedOneMore(init, last, platform);
    }
  }

  lemma FoldedOneMore(init: seq<Member>, last: Member, platform: Platform)
    ensures FoldedNames(init + [last], platform) == FoldedNames(init, platform) + {platform.fold(last.name)}
    ensures DistinctFolded(init + [last], platform) <==>
      DistinctFolded(init, platform) && platform.fold(last.name) !in FoldedNames(init, platform)
  {
    var members := init + [last];
    if platform.fold(last.name) in FoldedNames(init, platform) {
      var m :| m in init && platform.fold(m.name) == platform.fold(last.name);
      var i :| 0 <= i < |init| && init[i] == m;
      assert members[i] == m && members[|init|] == last;
    } else {
      forall i | 0 <= i < |init| ensures platform.fold(members[i].name) != platform.fold(last.name) {
        assert init[i] in init;
      }
    }
    if DistinctFolded(members, platform) {
      forall i, j | 0 <= i < j < |init| ensures platform.fold(init[i].name) != platform.fold(init[j].name) {
        assert members[i] == init[i] && members[j] == init[j];
      }
    }
  }

  method SafeMembers(members: seq<Member>, platform: Platform) returns (ok: bool)
    ensures ok <==> Safe(members, platform)
  {
    FoldedCount(members, platform);
    if |members| != |FoldedNames(members, platform)| || |members| > MAX_NAMES { return false; }
    if Expanded(members) > MAX_EXPANDED { return false; }
    var k := 0;
    while k < |members|
      invariant 0 <= k <= |members|
      invariant forall i :: 0 <= i < k ==> SafeName(members[i].name, platform) && !members[i].linked
    {
      var m := members[k];
      var parts := Split(m.name);
      var p := 0;
      while p < |parts|
        invariant 0 <= p <= |parts| && forall i :: 0 <= i < p ==> SafePart(parts[i], platform)
      {
        if !SafePart(parts[p], platform) {
          assert parts[p] in parts && m in members;
          return false;
        }
        p := p + 1;
      }
      if m.name != MANIFEST && m.name != DATABASE && !(OBJECTS <= m.name) {
        assert m in members;
        return false;
      }
      if m.linked {
        assert m in members;
        return false;
      }
      k := k + 1;
    }
    return true;
  }

  // --- verification ---

  predicate Has(members: seq<Member>, name: string) { exists m :: m in members && m.name == name }

  function Content(members: seq<Member>, name: string): Bytes {
    if members == [] then []
    else if members[|members| - 1].name == name then members[|members| - 1].content
    else Content(members[..|members| - 1], name)
  }

  lemma {:induction false} ContentOf(members: seq<Member>, platform: Platform, i: nat)
    requires DistinctFolded(members, platform) && i < |members|
    ensures Content(members, members[i].name) == members[i].content
    decreases |members|
  {
    var last := |members| - 1;
    if i < last {
      assert platform.fold(members[i].name) != platform.fold(members[last].name);
      ContentOf(members[..last], platform, i);
    }
  }

  function Names(members: seq<Member>): set<string> { set m | m in members :: m.name }

  function EvidenceOf(content: Bytes): FileEvidence { FileEvidence(Sha256(content), |content|) }

  predicate Verified(a: Archive, m: Manifest, platform: Platform) {
    && Safe(a.members, platform)
    && Has(a.members, MANIFEST) && |Content(a.members, MANIFEST)| <= MAX_MANIFEST
    && a.parsed == Some(m)
    && Names(a.members) == m.files.Keys + {MANIFEST} && DATABASE in m.files
    && (forall n :: n in m.files ==> EvidenceOf(Content(a.members, n)) == m.files[n])
    && platform.inspect(Content(a.members, DATABASE)) == Some(m.tables)
  }

  method VerifyBackup(a: Archive, platform: Platform) returns (r: Option<Manifest>)
    ensures forall m :: r == Some(m) <==> Verified(a, m, platform)
    ensures r.None? <==> forall m :: !Verified(a, m, platform)
  {
    hide Safe, Content;
    var safe := SafeMembers(a.members, platform);
    if !safe || !Has(a.members, MANIFEST) || |Content(a.members, MANIFEST)| > MAX_MANIFEST { return None; }
    if a.parsed.None? { return None; }
    var m := a.parsed.value;
    if Names(a.members) != m.files.Keys + {MANIFEST} || DATABASE !in m.files { return None; }
    var todo := m.files.Keys;
    while todo != {}
      invariant todo <= m.files.Keys
      invariant forall n :: n in m.files && n !in todo ==> EvidenceOf(Content(a.members, n)) == m.files[n]
    {
      var n :| n in todo;
      if EvidenceOf(Content(a.members, n)) != m.files[n] { return None; }
      todo := todo - {n};
    }
    if platform.inspect(Content(a.members, DATABASE)) != Some(m.tables) { return None; }
    return Some(m);
  }

  // --- creation ---

  /** An object file as the walk finds it; `steady` when its size and time were the same before and after reading. */
  datatype Source = Source(path: string, content: Bytes, steady: bool, linked: bool)

  function MemberFor(s: Source): Member { Member(OBJECTS + s.path, s.content, false) }

  function ObjectMembers(objects: seq<Source>): seq<Member> {
    if objects == [] then []
    else ObjectMembers(objects[..|objects| - 1]) + [MemberFor(objects[|objects| - 1])]
  }

  /** The files of the backup, the database first. */
  function FileMembers(snapshot: Bytes, objects: seq<Source>): seq<Member> {
    [Member(DATABASE, snapshot, false)] + ObjectMembers(objects)
  }

  function EvidenceFor(members: seq<Member>): map<string, FileEvidence> {
    if members == [] then map[]
    else
      var last := members[|members| - 1];
      EvidenceFor(members[..|members| - 1])[last.name := EvidenceOf(last.content)]
  }

  function ManifestFor(members: seq<Member>, tables: map<string, nat>): Manifest {
    Manifest(EvidenceFor(members), tables)
  }

  /** What `create_backup` writes when nothing stops it. */
  function ArchiveFor(
    snapshot: Bytes, objects: seq<Source>, tables: map<string, nat>, render: Manifest -> Bytes): Archive
  {
    var files := FileMembers(snapshot, objects);
    var m := ManifestFor(files, tables);
    Archive(files + [Member(MANIFEST, render(m), false)], Some(m))
  }

  predicate Readable(objects: seq<Source>) { forall s :: s in objects ==> !s.linked && s.steady }

  method CreateBackup(snapshot: Bytes, objects: seq<Source>, platform: Platform, render: Manifest -> Bytes)
    returns (r: Option<Archive>)
    ensures r.Some? ==>
      && Readable(objects) && Expanded(FileMembers(snapshot, objects)) <= MAX_EXPANDED
      && platform.inspect(snapshot).Some?
      && r.value == ArchiveFor(snapshot, objects, platform.inspect(snapshot).value, render)
      && Verified(r.value, ManifestFor(FileMembers(snapshot, objects), platform.inspect(snapshot).value), platform)
    ensures r.None? ==>
      || !Readable(objects) || Expanded(FileMembers(snapshot, objects)) > MAX_EXPANDED
      || platform.inspect(snapshot).None?
      || forall m :: !Verified(ArchiveFor(snapshot, objects, platform.inspect(snapshot).value, render), m, platform)
  {
    hide Verified, FileMembers, EvidenceFor;
    var tables := platform.inspect(snapshot);
    if tables.None? { return None; }
    var files := Walk(snapshot, objects);
    if files.None? || Expanded(files.value) > MAX_EXPANDED { return None; }
    var evidence := ReadAll(files.value, objects, snapshot);
    if evidence.None? { return None; }
    var m := Manifest(evidence.value, tables.value);
    var a := Archive(files.value + [Member(MANIFEST, render(m), false)], Some(m));
    var verified := VerifyBackup(a, platform);
    if verified.None? { return None; }
    assert verified == Some(m) by { OwnManifest(a, verified.value, platform); }
    return Some(a);
  }

  /** The walk: every object under its name, none of them a link. */
  method Walk(snapshot: Bytes, objects: seq<Source>) returns (files: Option<seq<Member>>)
    ensures files == if (forall s :: s in objects ==> !s.linked) then Some(FileMembers(snapshot, objects)) else None
  {
    var list := [Member(DATABASE, snapshot, false)];
    var k := 0;
    while k < |objects|
      invariant 0 <= k <= |objects| && list == FileMembers(snapshot, objects[..k])
      invariant forall i :: 0 <= i < k ==> !objects[i].linked
    {
      if objects[k].linked { assert objects[k] in objects; return None; }
      assert objects[..k + 1][..k] == objects[..k];
      list := list + [MemberFor(objects[k])];
      k := k + 1;
    }
    assert objects[..k] == objects;
    return Some(list);
  }

  /** The reading: each file is hashed, and must not have changed meanwhile. */
  method ReadAll(files: seq<Member>, objects: seq<Source>, ghost snapshot: Bytes)
    returns (evidence: Option<map<string, FileEvidence>>)
    requires files == FileMembers(snapshot, objects)
    ensures evidence == if (forall s :: s in objects ==> s.steady) then Some(EvidenceFor(files)) else None
  {
    ObjectMembersLength(objects);
    var entries: map<string, FileEvidence> := map[];
    var n := 0;
    assert files[..0] == [];
    while n < |files|
      invariant 0 <= n <= |files| && entries == EvidenceFor(files[..n])
      invariant forall i :: 0 <= i < n - 1 ==> objects[i].steady
    {
      if n > 0 && !objects[n - 1].steady { assert objects[n - 1] in objects; return None; }
      assert files[..n + 1][..n] == files[..n];
      entries := entries[files[n].name := EvidenceOf(files[n].content)];
      n := n + 1;
    }
    assert files[..n] == files;
    return Some(entries);
  }

  lemma {:induction false} ObjectMembersLength(objects: seq<Source>)
    ensures |ObjectMembers(objects)| == |objects|
    ensures forall k :: 0 <= k < |objects| ==> ObjectMembers(objects)[k] == MemberFor(objects[k])
    decreases |objects|
  {
    if objects != [] { ObjectMembersLength(objects[..|objects| - 1]); }
  }

  lemma OwnManifest(a: Archive, m: Manifest, platform: Platform)
    requires Verified(a, m, platform)
    ensures a.parsed == Some(m)
  {}

  // --- restoration ---

  /** The files below the target directory, by path. */
  type Files = map<Path, Bytes>

  predicate Below(parent: Path, child: Path) { |parent| < |child| && child[..|parent|] == parent }

  /** A new file can be made: nothing is there, no file stands where a directory is needed. */
  predicate Free(fs: Files, path: Path) {
    path !in fs && forall p :: p in fs ==> !Below(p, path) && !Below(path, p)
  }

  function Restored(names: seq<string>, members: seq<Member>): Files {
    if names == [] then map[]
    else
      var last := names[|names| - 1];
      Restored(names[..|names| - 1], members)[Split(last) := Content(members, last)]
  }

  /** No member is a file where another needs a directory. */
  predicate NoneNested(names: seq<string>) {
    forall a, b :: a in names && b in names ==> !Below(Split(a), Split(b))
  }

  predicate Enumerates(names: seq<string>, files: map<string, FileEvidence>) {
    && (forall n :: n in names ==> n in files) && (forall n :: n in files ==> n in names)
    && forall i, j :: 0 <= i < j < |names| ==> names[i] != names[j]
  }

  lemma {:induction false} RestoredPaths(names: seq<string>, members: seq<Member>)
    ensures forall p :: p in Restored(names, members) <==> exists n :: n in names && Split(n) == p
    ensures forall n :: n in names ==> Restored(names, members)[Split(n)] == Content(members, n)
    decreases |names|
  {
    if names != [] {
      hide Split, Content;
      var init, last := names[..|names| - 1], names[|names| - 1];
      RestoredPaths(init, members);
      assert names == init + [last];
      forall n | n in init ensures Split(n) == Split(last) <==> n == last { SplitIsInjective(n, last); }
      forall p | p in Restored(names, members) ensures exists n :: n in names && Split(n) == p {
        if p == Split(last) {
          assert last in names;
        } else {
          assert p in Restored(init, members);
          var n :| n in init && Split(n) == p;
          assert n in names;
        }
      }
    }
  }

  /** Every file of the manifest is in its place with its digest, and the database has the stated tables. */
  predicate RestoredVerified(fs: Files, m: Manifest, platform: Platform) {
    && (forall n :: n in m.files ==> Split(n) in fs && Sha256(fs[Split(n)]) == m.files[n].sha256)
    && Split(DATABASE) in fs && platform.inspect(fs[Split(DATABASE)]) == Some(m.tables)
  }

  method RestoreBackup(a: Archive, order: seq<string>, taken: bool, platform: Platform) returns (r: Option<Files>)
    requires a.parsed.Some? ==> Enumerates(order, a.parsed.value.files)
    ensures r.Some? <==> !taken && NoneNested(order) && exists m :: Verified(a, m, platform)
    ensures r.Some? ==> r.value == Restored(order, a.members)
    ensures r.Some? ==> a.parsed.Some? && RestoredVerified(r.value, a.parsed.value, platform)
  {
    hide Verified, Safe, Content, SafePart, Below, Restored, Split;
    var verified := VerifyBackup(a, platform);
    if verified.None? || taken { return None; }
    var m := verified.value;
    OwnManifest(a, m, platform);
    var fs: Files := map[];
    var k := 0;
    NothingRestored(a.members);
    assert order[..0] == [];
    while k < |order|
      invariant 0 <= k <= |order| && fs == Restored(order[..k], a.members) && NoneNested(order[..k])
    {
      var name := order[k];
      var path := Split(name);
      assert Resolve([], path) == path by { VerifiedName(a, m, name, platform); SafeStaysInside([], path, platform); }
      Fits(order, k, a.members);
      if !Free(fs, path) { return None; }
      OneMoreRestored(order, k, a.members);
      fs := fs[path := Content(a.members, name)];
      VerifiedContent(a, m, name, platform);
      if Sha256(fs[path]) != m.files[name].sha256 { return None; }
      k := k + 1;
    }
    assert order[..k] == order;
    RestoredIsVerified(order, a, m, platform);
    if platform.inspect(fs[Split(DATABASE)]) != Some(m.tables) { return None; }
    return Some(fs);
  }

  lemma NothingRestored(members: seq<Member>)
    ensures Restored([], members) == map[]
  {}

  lemma OneMoreRestored(order: seq<string>, k: nat, members: seq<Member>)
    requires k < |order|
    ensures Restored(order[..k + 1], members) ==
      Restored(order[..k], members)[Split(order[k]) := Content(members, order[k])]
  {
    hide Split, Content;
    assert order[..k + 1][..k] == order[..k];
  }

  lemma VerifiedContent(a: Archive, m: Manifest, name: string, platform: Platform)
    requires Verified(a, m, platform) && name in m.files
    ensures Sha256(Content(a.members, name)) == m.files[name].sha256
  {}

  /** What is restored passes both comparisons made after extraction. */
  lemma RestoredIsVerified(order: seq<string>, a: Archive, m: Manifest, platform: Platform)
    requires Verified(a, m, platform) && Enumerates(order, m.files)
    ensures RestoredVerified(Restored(order, a.members), m, platform)
  {
    hide Split, Content, Restored, Safe;
    RestoredPaths(order, a.members);
    forall n | n in m.files ensures Sha256(Content(a.members, n)) == m.files[n].sha256 {
      VerifiedContent(a, m, n, platform);
    }
    assert DATABASE in order;
  }

  lemma VerifiedName(a: Archive, m: Manifest, name: string, platform: Platform)
    requires Verified(a, m, platform) && name in m.files
    ensures forall p :: p in Split(name) ==> SafePart(p, platform)
  {}

  /** The next file can be made exactly when it is not nested with an earlier one. */
  lemma Fits(order: seq<string>, k: nat, members: seq<Member>)
    requires k < |order| && NoneNested(order[..k])
    requires forall i, j :: 0 <= i < j < |order| ==> order[i] != order[j]
    ensures Free(Restored(order[..k], members), Split(order[k])) <==> NoneNested(order[..k + 1])
    ensures NoneNested(order) ==> NoneNested(order[..k + 1])
  {
    hide Below, Split, Restored;
    var fs, path := Restored(order[..k], members), Split(order[k]);
    RestoredPaths(order[..k], members);
    assert order[..k + 1] == order[..k] + [order[k]];
    NotBelowItself(path);
    forall n | n in order[..k] ensures Split(n) in fs && Split(n) != path {
      SplitIsInjective(n, order[k]);
    }
  }

  lemma NotBelowItself(path: Path)
    ensures !Below(path, path)
  {}

  // --- the round trip ---

  /** Each file of the backup below the target, under its own path, byte for byte, and no other file. */
  predicate SameFiles(fs: Files, snapshot: Bytes, objects: seq<Source>) {
    && (forall p :: p in fs ==>
          p == Split(DATABASE) || exists s :: s in objects && p == Split(OBJECTS + s.path))
    && Split(DATABASE) in fs && fs[Split(DATABASE)] == snapshot
    && forall s :: s in objects ==> Split(OBJECTS + s.path) in fs && fs[Split(OBJECTS + s.path)] == s.content
  }

  lemma {:induction false} EvidenceNames(members: seq<Member>)
    ensures EvidenceFor(members).Keys == Names(members)
    decreases |members|
  {
    if members != [] {
      var init, last := members[..|members| - 1], members[|members| - 1];
      EvidenceNames(init);
      assert members == init + [last];
      assert Names(members) == Names(init) + {last.name};
    } else {
      assert Names(members) == {};
    }
  }

  /** The members of an archive made by `create_backup`, and what is stored under their names. */
  lemma OwnMembers(
    snapshot: Bytes, objects: seq<Source>, tables: map<string, nat>, render: Manifest -> Bytes, platform: Platform)
    requires var a := ArchiveFor(snapshot, objects, tables, render);
      DistinctFolded(a.members, platform)
    ensures var a := ArchiveFor(snapshot, objects, tables, render);
      && Content(a.members, DATABASE) == snapshot
      && forall s :: s in objects ==> Content(a.members, OBJECTS + s.path) == s.content
  {
    hide Content;
    var a := ArchiveFor(snapshot, objects, tables, render);
    ObjectMembersLength(objects);
    assert a.members[0] == Member(DATABASE, snapshot, false);
    ContentOf(a.members, platform, 0);
    forall s | s in objects ensures Content(a.members, OBJECTS + s.path) == s.content {
      var k :| 0 <= k < |objects| && objects[k] == s;
      assert a.members[k + 1] == MemberFor(s);
      ContentOf(a.members, platform, k + 1);
    }
  }

  lemma OwnNames(snapshot: Bytes, objects: seq<Source>)
    ensures forall n :: n in Names(FileMembers(snapshot, objects)) <==>
      n == DATABASE || exists s :: s in objects && n == OBJECTS + s.path
  {
    ObjectMembersLength(objects);
    var files := FileMembers(snapshot, objects);
    assert files[0] in files;
    forall s | s in objects ensures OBJECTS + s.path in Names(files) {
      var k :| 0 <= k < |objects| && objects[k] == s;
      assert files[k + 1] == MemberFor(s) && files[k + 1] in files;
    }
    forall n | n in Names(files) ensures n == DATABASE || exists s :: s in objects && n == OBJECTS + s.path {
      var m :| m in files && m.name == n;
      var k :| 0 <= k < |files| && files[k] == m;
      if k > 0 { assert m == MemberFor(objects[k - 1]) && objects[k - 1] in objects; }
    }
  }

  lemma VerifiedDistinct(a: Archive, m: Manifest, platform: Platform)
    requires Verified(a, m, platform)
    ensures DistinctFolded(a.members, platform)
  {}

  /** Backup, then restore: what lies below the new directory is the snapshot and the objects, and nothing else. */
  lemma RoundTrip(
    snapshot: Bytes, objects: seq<Source>, platform: Platform, render: Manifest -> Bytes, order: seq<string>)
    requires platform.inspect(snapshot).Some?
    requires var tables := platform.inspect(snapshot).value;
      var m := ManifestFor(FileMembers(snapshot, objects), tables);
      Verified(ArchiveFor(snapshot, objects, tables, render), m, platform) && Enumerates(order, m.files)
    ensures var a := ArchiveFor(snapshot, objects, platform.inspect(snapshot).value, render);
      SameFiles(Restored(order, a.members), snapshot, objects)
  {
    hide Content, Verified, Split, Restored, ArchiveFor, FileMembers, EvidenceFor, Names;
    var tables := platform.inspect(snapshot).value;
    var a := ArchiveFor(snapshot, objects, tables, render);
    var files := FileMembers(snapshot, objects);
    EvidenceNames(files);
    OwnNames(snapshot, objects);
    VerifiedDistinct(a, ManifestFor(files, tables), platform);
    OwnMembers(snapshot, objects, tables, render, platform);
    RestoredPaths(order, a.members);
    forall p | p in Restored(order, a.members) ensures
      p == Split(DATABASE) || exists s :: s in objects && p == Split(OBJECTS + s.path)
    {
      var n :| n in order && Split(n) == p;
    }
    forall s | s in objects ensures
      Split(OBJECTS + s.path) in Restored(order, a.members)
      && Restored(order, a.members)[Split(OBJECTS + s.path)] == s.content
    {
      assert OBJECTS + s.path in order;
    }
  }

  /** Every restored path is strictly below the target, and no two differ only in case. */
  lemma RestoredInside(a: Archive, m: Manifest, platform: Platform, target: Path, x: string, y: string)
    requires Verified(a, m, platform) && x in m.files && y in m.files
    ensures Resolve(target, Split(x)) == target + Split(x) && Below(target, target + Split(x))
    ensures x != y ==> platform.fold(x) != platform.fold(y) && Split(x) != Split(y)
  {
    hide Verified, Split, SafePart;
    VerifiedName(a, m, x, platform);
    SafeStaysInside(target, Split(x), platform);
    SplitIsInjective(x, y);
    PathsAreLonger(target, x);
    if x != y { FoldedApart(a, m, platform, x, y); }
  }

  lemma PathsAreLonger(target: Path, x: string)
    ensures Below(target, target + Split(x))
  {}

  lemma FoldedApart(a: Archive, m: Manifest, platform: Platform, x: string, y: string)
    requires Verified(a, m, platform) && x in m.files && y in m.files && x != y
    ensures platform.fold(x) != platform.fold(y)
  {}
}
