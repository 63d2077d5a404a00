/**
 The backup directory: what attempts write into it, when they die, and what the health
 report concludes from it afterwards.
 */
module BackupHealth {
  import opened Common
  import opened ArchiveContracts
  import opened ManagedBackup

  // Times are in milliseconds.
  const SECOND := 1000
  const STALE_AFTER := 86_400 * SECOND

  datatype AttemptState = Running | Failed | Verified

  datatype Attempt = Attempt(state: AttemptState, attemptedAt: int)

  datatype Receipt = Receipt(archive: string, verifiedAt: int, fileCount: nat, sha256: ArchiveDigest)

  datatype File = File(content: Archive, modified: int)

  /** The files of the backup directory. */
  datatype Directory = Directory(
    archives: map<string, File>, latest: Option<Receipt>, attempt: Option<Attempt>)

  // --- the report ---

  datatype Health = NotVerified | VerifiedHealth | Stale | FailedHealth

  predicate PlainName(name: string) { forall c :: c in name ==> c != '/' && c != '\\' }

  function BackupState(d: Directory, now: int): Health {
    if d.latest.Some? && d.latest.value.fileCount < 1 then FailedHealth
    else if d.attempt.Some? && d.attempt.value.attemptedAt > now then FailedHealth
    else if d.attempt.Some? && d.attempt.value.state != Verified
      && (d.latest.None? || d.attempt.value.attemptedAt > d.latest.value.verifiedAt)
    then if d.attempt.value.state == Failed then FailedHealth else NotVerified
    else if d.latest.None? then NotVerified
    else
      var r := d.latest.value;
      if !PlainName(r.archive) then FailedHealth
      else if r.archive !in d.archives || d.archives[r.archive].modified > r.verifiedAt + SECOND || now < r.verifiedAt
      then FailedHealth
      else if now - r.verifiedAt < STALE_AFTER then VerifiedHealth else Stale
  }

  predicate Good(h: Health) { h == VerifiedHealth || h == Stale }

  // --- attempts as steps, any of which may be the last ---

  /** How far the running attempt is; lost when its process dies. */
  datatype Stage =
    | Idle
    | Begun(began: int)
    | Linked(began: int, name: string, archive: Archive, manifest: Manifest)
    | Recorded(began: int)

  /**
   `clock` is the last instant at which anything happened; `began`, `published` and
   `replaced` are history: the names under which outsiders have put a file of theirs.
   */
  datatype System = System(
    dir: Directory, stage: Stage, clock: int,
    began: seq<int>, published: map<string, (Archive, Manifest)>, replaced: set<string>)

  /**
   Outsiders remove archives and put files there, over an archive or not. A file may have
   any modification time: `mv`, `cp -p` and `touch -d` give it an old one.
   */
  datatype Event =
    | Begin(at: int)
    | Link(at: int, wrote: int, name: string, archive: Archive, manifest: Manifest)
    | Record(at: int)
    | Finish
    | Fail
    | Die
    | Remove(name: string)
    | Put(at: int, name: string, file: File)

  predicate Possible(s: System, e: Event) {
    match e
    case Begin(at) => s.stage.Idle? && at > s.clock
    case Link(at, wrote, name, archive, manifest) =>
      && s.stage.Begun? && at > s.clock && wrote <= at && PlainName(name)
      && name !in s.dir.archives && name !in s.published
      && ArchiveContracts.Verified(archive, manifest)
    case Record(at) => s.stage.Linked? && at > s.clock
    case Finish => s.stage.Recorded?
    case Fail => s.stage.Begun? || s.stage.Linked?
    case Die => true
    case Remove(name) => true
    case Put(at, name, _) => at > s.clock
  }

  function FileCount(m: Manifest): nat { |m.files| }

  function Next(s: System, e: Event): System
    requires Possible(s, e)
  {
    match e
    case Begin(at) =>
      s.(dir := s.dir.(attempt := Some(Attempt(Running, at))), stage := Begun(at), clock := at, began := s.began + [at])
    case Link(at, wrote, name, archive, manifest) =>
      s.(dir := s.dir.(archives := s.dir.archives[name := File(archive, wrote)]),
         stage := Linked(s.stage.began, name, archive, manifest), clock := at,
         published := s.published[name := (archive, manifest)], replaced := s.replaced - {name})
    case Record(at) =>
      s.(dir := s.dir.(latest := Some(
           Receipt(s.stage.name, at, FileCount(s.stage.manifest), ArchiveSha256(s.stage.archive)))),
         stage := Recorded(s.stage.began), clock := at)
    case Finish => s.(dir := s.dir.(attempt := Some(Attempt(Verified, s.stage.began))), stage := Idle)
    case Fail => s.(dir := s.dir.(attempt := Some(Attempt(Failed, s.stage.began))), stage := Idle)
    case Die => s.(stage := Idle)
    case Remove(name) => s.(dir := s.dir.(archives := s.dir.archives - {name}))
    case Put(at, name, file) =>
      s.(dir := s.dir.(archives := s.dir.archives[name := file]), clock := at, replaced := s.replaced + {name})
  }

  function After(s: System, events: seq<Event>): System {
    if events == [] then s
    else
      var before, e := After(s, events[..|events| - 1]), events[|events| - 1];
      if Possible(before, e) then Next(before, e) else before
  }

  const EMPTY := System(Directory(map[], None, None), Idle, 0, [], map[], {})

  // --- what every run keeps ---

  /** Starts are in order, the last of them recorded. */
  predicate AttemptSound(s: System) {
    && (forall i, j :: 0 <= i < j < |s.began| ==> s.began[i] < s.began[j])
    && (forall b :: b in s.began ==> b <= s.clock)
    && (s.dir.attempt.None? <==> s.began == [])
    && (s.dir.attempt.Some? ==> s.dir.attempt.value.attemptedAt == s.began[|s.began| - 1])
    && (!s.stage.Idle? ==>
          && s.dir.attempt.Some? && s.dir.attempt.value.state == Running
          && s.stage.began == s.dir.attempt.value.attemptedAt)
  }

  /** The receipt speaks of a published archive that passed verification before. */
  predicate ReceiptSound(s: System) {
    && (s.dir.latest.Some? ==>
          var r := s.dir.latest.value;
          && r.verifiedAt <= s.clock && PlainName(r.archive) && r.archive in s.published
          && var (archive, manifest) := s.published[r.archive];
             && ArchiveContracts.Verified(archive, manifest)
             && r.sha256 == ArchiveSha256(archive) && r.fileCount == FileCount(manifest))
    && (s.stage.Linked? ==>
          && ArchiveContracts.Verified(s.stage.archive, s.stage.manifest) && PlainName(s.stage.name)
          && s.stage.name in s.published && s.published[s.stage.name] == (s.stage.archive, s.stage.manifest))
  }

  /** An attempt counts as verified only once its own receipt lies there. */
  predicate FinishSound(s: System) {
    && (s.dir.attempt.Some? && s.dir.attempt.value.state == Verified ==>
          s.dir.latest.Some? && s.dir.latest.value.verifiedAt > s.dir.attempt.value.attemptedAt)
    && (s.stage.Recorded? ==> s.dir.latest.Some? && s.dir.latest.value.verifiedAt > s.stage.began)
  }

  /** What outsiders did not put there is as it was published. */
  predicate FilesSound(s: System) {
    forall n :: n in s.dir.archives && n !in s.replaced ==>
      && n in s.published && s.dir.archives[n].content == s.published[n].0
      && s.dir.archives[n].modified <= s.clock
  }

  /** The receipt's archive, if it is there untouched, was written before the receipt. */
  predicate TimesSound(s: System) {
    && (s.dir.latest.Some? ==>
          var n := s.dir.latest.value.archive;
          n in s.dir.archives && n !in s.replaced ==> s.dir.archives[n].modified <= s.dir.latest.value.verifiedAt)
  }

  predicate Sound(s: System) {
    AttemptSound(s) && ReceiptSound(s) && FinishSound(s) && FilesSound(s) && TimesSound(s)
  }

  lemma StepKeeps(s: System, e: Event)
    requires Sound(s) && Possible(s, e)
    ensures Sound(Next(s, e))
  {
    hide ArchiveContracts.Verified, PlainName;
    AttemptKeeps(s, e);
    FilesKeep(s, e);
  }

  lemma AttemptKeeps(s: System, e: Event)
    requires Sound(s) && Possible(s, e)
    ensures AttemptSound(Next(s, e)) && FinishSound(Next(s, e))
  {
    hide ArchiveContracts.Verified, PlainName, FilesSound, TimesSound;
    var after := Next(s, e);
    if s.began != [] { assert s.began[|s.began| - 1] in s.began; }
  }

  lemma FilesKeep(s: System, e: Event)
    requires FilesSound(s) && Possible(s, e)
    ensures FilesSound(Next(s, e))
  {
    hide ArchiveContracts.Verified, PlainName;
  }

  lemma {:induction false} RunKeeps(events: seq<Event>)
    ensures Sound(After(EMPTY, events))
    decreases |events|
  {
    if events != [] {
      var n := |events| - 1;
      RunKeeps(events[..n]);
      var before := After(EMPTY, events[..n]);
      if Possible(before, events[n]) { StepKeeps(before, events[n]); }
    }
  }

  /**
   An honest report, whenever attempts died and whatever clock the reader has: a good
   state names an archive that was published and had passed verification with the
   reported digest, no recorded attempt began after that verification, and the file is
   still that archive unless somebody put another one in its place whose modification
   time is no later than a second after the verification.
   */
  lemma GoodIsHonest(events: seq<Event>, now: int)
    ensures var s := After(EMPTY, events);
      Good(BackupState(s.dir, now)) ==>
        && s.dir.latest.Some?
        && var r := s.dir.latest.value;
        && r.archive in s.published && r.archive in s.dir.archives
        && var (archive, manifest) := s.published[r.archive];
        && ArchiveContracts.Verified(archive, manifest)
        && r.sha256 == ArchiveSha256(archive) && r.fileCount == FileCount(manifest)
        && (forall b :: b in s.began ==> b <= r.verifiedAt)
        && (s.dir.archives[r.archive].content == archive
            || (r.archive in s.replaced && s.dir.archives[r.archive].modified <= r.verifiedAt + SECOND))
  {
    hide ArchiveContracts.Verified, PlainName;
    RunKeeps(events);
    NewestIsLast(After(EMPTY, events));
  }

  lemma NewestIsLast(s: System)
    requires AttemptSound(s)
    ensures forall b :: b in s.began ==> s.dir.attempt.Some? && b <= s.dir.attempt.value.attemptedAt
  {}

  /**
   Exactly when the report is good, for a reader whose clock is not behind: there is a
   receipt, no recorded attempt began after its verification, and under its name lies the
   archive itself, or whatever else with a modification time no later than a second after
   the verification.
   */
  lemma GoodExactly(events: seq<Event>, now: int)
    requires now >= After(EMPTY, events).clock
    ensures var s := After(EMPTY, events);
      Good(BackupState(s.dir, now)) <==>
        && s.dir.latest.Some?
        && var r := s.dir.latest.value;
        && (forall b :: b in s.began ==> b <= r.verifiedAt)
        && r.archive in s.dir.archives
        && (r.archive in s.replaced ==> s.dir.archives[r.archive].modified <= r.verifiedAt + SECOND)
  {
    hide ArchiveContracts.Verified, PlainName;
    var s := After(EMPTY, events);
    RunKeeps(events);
    NewestIsLast(s);
    if s.began != [] { assert s.began[|s.began| - 1] in s.began; }
    if s.dir.latest.Some? {
      var kept := s.published[s.dir.latest.value.archive];
      SomeFiles(kept.0, kept.1);
    }
  }

  /**
   Otherwise the report says why: nothing verified yet, an attempt cut short or failed, or
   the archive is gone or altered.
   */
  lemma NotGoodBecause(events: seq<Event>, now: int)
    requires now >= After(EMPTY, events).clock && !Good(BackupState(After(EMPTY, events).dir, now))
    ensures var s := After(EMPTY, events);
      var latest := s.dir.latest;
      BackupState(s.dir, now) ==
        if s.began != [] && (latest.None? || s.began[|s.began| - 1] > latest.value.verifiedAt)
        then if s.dir.attempt == Some(Attempt(Failed, s.began[|s.began| - 1])) then FailedHealth else NotVerified
        else if latest.None? then NotVerified
        else FailedHealth
  {
    hide ArchiveContracts.Verified, PlainName;
    var s := After(EMPTY, events);
    RunKeeps(events);
    if s.began != [] { assert s.began[|s.began| - 1] in s.began; }
    if s.dir.latest.Some? {
      var kept := s.published[s.dir.latest.value.archive];
      SomeFiles(kept.0, kept.1);
    }
  }

  lemma SomeFiles(a: Archive, m: Manifest)
    requires ArchiveContracts.Verified(a, m)
    ensures FileCount(m) >= 1
  {
    assert DatabaseDump in m.files;
  }

  // --- a replaced archive that passes ---

  const NAME := "a.zip"

  /** An attempt that completes. */
  function Completed(a: Archive, m: Manifest): seq<Event> {
    [Begin(1), Link(2, 2, NAME, a, m), Record(3), Finish]
  }

  /** Later its archive is replaced, in place or after it was removed. */
  function Replacement(a: Archive, m: Manifest, removed: bool, at: int, file: File): seq<Event> {
    Completed(a, m) + (if removed then [Remove(NAME)] else []) + [Put(at, NAME, file)]
  }

  function Published(a: Archive, m: Manifest): Directory {
    Directory(map[NAME := File(a, 2)], Some(Receipt(NAME, 3, FileCount(m), ArchiveSha256(a))),
              Some(Attempt(Verified, 1)))
  }

  lemma PublishedRuns(a: Archive, m: Manifest)
    requires ArchiveContracts.Verified(a, m)
    ensures var s := After(EMPTY, Completed(a, m));
      s == System(Published(a, m), Idle, 3, [1], map[NAME := (a, m)], {})
  {
    hide After, ArchiveContracts.Verified;
    NoSteps(EMPTY);
    AfterNext(EMPTY, [], Begin(1));
    AfterNext(EMPTY, [] + [Begin(1)], Link(2, 2, NAME, a, m));
    AfterNext(EMPTY, [] + [Begin(1)] + [Link(2, 2, NAME, a, m)], Record(3));
    AfterNext(EMPTY, [] + [Begin(1)] + [Link(2, 2, NAME, a, m)] + [Record(3)], Finish);
    assert [] + [Begin(1)] + [Link(2, 2, NAME, a, m)] + [Record(3)] + [Finish]
      == Completed(a, m);
  }

  /**
   Whenever the archive is replaced and whenever the report is made, another archive in its
   place is reported as good exactly if its modification time is old enough, and with it
   the digest of the one that was verified.
   */
  lemma ReplacedArchivePasses(a: Archive, m: Manifest, removed: bool, at: int, file: File, now: int)
    requires ArchiveContracts.Verified(a, m) && file.content != a && 3 < at <= now
    ensures var s := After(EMPTY, Replacement(a, m, removed, at, file));
      && (Good(BackupState(s.dir, now)) <==> file.modified <= 3 + SECOND)
      && s.dir.latest == Some(Receipt(NAME, 3, FileCount(m), ArchiveSha256(a)))
      && s.dir.archives == map[NAME := file]
  {
    hide After, ArchiveContracts.Verified;
    PublishedRuns(a, m);
    var kept := Completed(a, m) + if removed then [Remove(NAME)] else [];
    AfterNext(EMPTY, Completed(a, m), Remove(NAME));
    assert !removed ==> kept == Completed(a, m);
    AfterNext(EMPTY, kept, Put(at, NAME, file));
    SomeFiles(a, m);
  }

  /** An older archive moved over the verified one half a minute later still passes after ten hours. */
  lemma OldArchivePasses(a: Archive, m: Manifest, older: Archive)
    requires ArchiveContracts.Verified(a, m) && older != a
    ensures var s := After(EMPTY, Replacement(a, m, false, 30 * SECOND, File(older, 0)));
      && BackupState(s.dir, 36_000 * SECOND) == VerifiedHealth
      && s.dir.archives[s.dir.latest.value.archive].content == older
  {
    hide After, ArchiveContracts.Verified;
    ReplacedArchivePasses(a, m, false, 30 * SECOND, File(older, 0), 36_000 * SECOND);
  }

  /** There are such archives: already a dump of one empty table makes one. */
  lemma VerifiedArchiveExists() returns (a: Archive, m: Manifest)
    ensures ArchiveContracts.Verified(a, m)
  {
    hide ArchiveContracts.Verified;
    var dump := Dump(0, PGDMP, [TableEvidence("public", "t", 0, Sha256([]))], []);
    m := ManifestOf(0, 1, dump, []);
    a := ArchiveOf(dump, [], m, []);
    OwnArchiveVerifies(0, 1, dump, [], []);
  }

  // --- the code of one attempt ---

  /** Everything one attempt reads from the store, the database and the configuration. */
  datatype Inputs = Inputs(
    first: seq<Listed>, dump: Option<Dump>, order: seq<string>, responses: map<string, Option<Response>>,
    second: seq<Listed>, created: int, retentionDays: int, render: Manifest -> Bytes)
  {
    predicate Complete() {
      Enumerates(order, Collected(first, PROBE_KEYS)) && forall k :: k in order ==> k in responses
    }
  }

  predicate RetentionAllowed(i: Inputs) { 1 <= i.retentionDays <= 3650 }

  predicate Builds(i: Inputs)
    requires i.Complete() && RetentionAllowed(i)
  {
    Publishable(i.first, i.dump, i.order, i.responses, i.second, i.created, i.retentionDays, i.render)
  }

  function Built(i: Inputs): (Archive, Manifest)
    requires i.Complete() && RetentionAllowed(i) && Builds(i)
  {
    var copies := CopiesOf(i.order, Collected(i.first, PROBE_KEYS), i.responses);
    var m := ManifestOf(i.created, i.retentionDays, i.dump.value, copies);
    (ArchiveOf(i.dump.value, copies, m, i.render(m)), m)
  }

  method Build(i: Inputs) returns (r: Option<(Archive, Manifest)>)
    requires i.Complete() && RetentionAllowed(i)
    ensures r == if Builds(i) then Some(Built(i)) else None
    ensures r.Some? ==> ArchiveContracts.Verified(r.value.0, r.value.1)
  {
    hide Publishable, Collected, CopiesOf, Enumerates, ArchiveContracts.Verified;
    r := BuildBackup(i.first, i.dump, i.order, i.responses, i.second, i.created, i.retentionDays, i.render);
  }

  datatype Times = Times(begun: int, wrote: int, linked: int, verified: int)

  /** The steps of one attempt that nothing interrupts. */
  function Script(i: Inputs, t: Times, name: string, taken: bool, recordFails: bool): seq<Event>
    requires i.Complete()
  {
    if !RetentionAllowed(i) then []
    else if !Builds(i) || taken then [Begin(t.begun), Fail]
    else
      var link := Link(t.linked, t.wrote, name, Built(i).0, Built(i).1);
      if recordFails then [Begin(t.begun), link, Fail]
      else [Begin(t.begun), link, Record(t.verified), Finish]
  }

  /** The steps that take place when the process dies after `lives` of them. */
  function Lived(script: seq<Event>, lives: nat): seq<Event> {
    if lives < |script| then script[..lives] + [Die] else script
  }

  lemma AfterNext(s: System, events: seq<Event>, e: Event)
    ensures After(s, events + [e]) ==
      if Possible(After(s, events), e) then Next(After(s, events), e) else After(s, events)
  {
    assert (events + [e])[..|events|] == events;
  }

  class BackupDirectory {
    var archives: map<string, File>
    var latest: Option<Receipt>
    var attempt: Option<Attempt>
    ghost var stage: Stage
    ghost var clock: int
    ghost var began: seq<int>
    ghost var published: map<string, (Archive, Manifest)>
    ghost var replaced: set<string>

    ghost function Now(): System
      reads this
    {
      System(Directory(archives, latest, attempt), stage, clock, began, published, replaced)
    }

    /** Written beside its destination, then renamed over it: there is never half a receipt. */
    method WriteAttempt(state: AttemptState, at: int, ghost e: Event)
      requires Possible(Now(), e)
      requires (e == Begin(at) && state == Running) || (e.Fail? && state == Failed && at == stage.began)
        || (e.Finish? && state == Verified && at == stage.began)
      modifies this
      ensures Now() == Next(old(Now()), e)
    {
      attempt := Some(Attempt(state, at));
      if e.Begin? {
        stage, clock, began := Begun(at), at, began + [at];
      } else {
        stage := Idle;
      }
    }

    method WriteRecord(name: string, at: int, m: Manifest, archive: Archive)
      requires Possible(Now(), Record(at)) && stage.name == name && stage.manifest == m && stage.archive == archive
      modifies this
      ensures Now() == Next(old(Now()), Record(at))
    {
      latest := Some(Receipt(name, at, FileCount(m), ArchiveSha256(archive)));
      stage, clock := Recorded(stage.began), at;
    }

    /** Publish under a name that nothing has yet. */
    method LinkArchive(at: int, wrote: int, name: string, archive: Archive, m: Manifest)
      requires Possible(Now(), Link(at, wrote, name, archive, m))
      modifies this
      ensures Now() == Next(old(Now()), Link(at, wrote, name, archive, m))
    {
      archives := archives[name := File(archive, wrote)];
      stage, clock, published := Linked(stage.began, name, archive, m), at, published[name := (archive, m)];
      replaced := replaced - {name};
    }

    ghost method Dies()
      modifies this
      ensures Now() == Next(old(Now()), Die)
    {
      stage := Idle;
    }

    /**
     One attempt: whatever it reads and wherever it dies, what it leaves behind is what
     the first steps of its script leave behind.
     */
    method CreateBackup(i: Inputs, t: Times, name: string, recordFails: bool, lives: nat) returns (done: bool)
      requires i.Complete() && stage.Idle? && PlainName(name) && name !in published
      requires clock < t.begun < t.linked < t.verified && t.wrote <= t.linked
      modifies this
      ensures Now() == After(old(Now()), Lived(Script(i, t, name, name in old(archives), recordFails), lives))
      ensures done <==>
        RetentionAllowed(i) && Builds(i) && name !in old(archives) && !recordFails && lives >= 4
    {
      hide Built, Builds, After, Enumerates, ArchiveContracts.Verified, PlainName;
      ghost var start := Now();
      ghost var script := Script(i, t, name, name in archives, recordFails);
      NoSteps(start);
      if !RetentionAllowed(i) { return false; }
      if lives == 0 {
        Dies();
        LivedShort(start, script, lives);
        return false;
      }
      WriteAttempt(Running, t.begun, Begin(t.begun));
      AfterStep(start, script, 0);
      if lives == 1 {
        Dies();
        LivedShort(start, script, lives);
        return false;
      }
      var built := Build(i);
      if built.None? || name in archives {
        WriteAttempt(Failed, t.begun, Fail);
        AfterStep(start, script, 1);
        assert script[..2] == script;
        return false;
      }
      LinkArchive(t.linked, t.wrote, name, built.value.0, built.value.1);
      AfterStep(start, script, 1);
      done := RecordArchive(t, name, built.value.0, built.value.1, recordFails, lives, start, script);
    }

    /** The rest of an attempt whose archive is published. */
    method RecordArchive(
      t: Times, name: string, archive: Archive, m: Manifest, recordFails: bool, lives: nat,
      ghost start: System, ghost script: seq<Event>)
      returns (done: bool)
      requires lives >= 2 && stage == Linked(t.begun, name, archive, m) && clock < t.verified
      requires script ==
        [Begin(t.begun), Link(t.linked, t.wrote, name, archive, m)]
        + (if recordFails then [Fail] else [Record(t.verified), Finish])
      requires Now() == After(start, script[..2])
      modifies this
      ensures Now() == After(start, Lived(script, lives))
      ensures done <==> !recordFails && lives >= 4
    {
      hide After, ArchiveContracts.Verified;
      if lives == 2 {
        Dies();
        LivedShort(start, script, lives);
        return false;
      }
      if recordFails {
        WriteAttempt(Failed, t.begun, Fail);
        AfterStep(start, script, 2);
        assert script[..3] == script;
        return false;
      }
      WriteRecord(name, t.verified, m, archive);
      AfterStep(start, script, 2);
      if lives == 3 {
        Dies();
        LivedShort(start, script, lives);
        return false;
      }
      WriteAttempt(Verified, t.begun, Finish);
      AfterStep(start, script, 3);
      assert script[..4] == script;
      return true;
    }
  }

  lemma NoSteps(s: System)
    ensures After(s, []) == s
  {}

  lemma AfterStep(s: System, script: seq<Event>, n: nat)
    requires n < |script| && Possible(After(s, script[..n]), script[n])
    ensures After(s, script[..n + 1]) == Next(After(s, script[..n]), script[n])
  {
    assert script[..n + 1] == script[..n] + [script[n]];
    AfterNext(s, script[..n], script[n]);
  }

  lemma LivedShort(s: System, script: seq<Event>, lives: nat)
    requires lives < |script|
    ensures After(s, Lived(script, lives)) == Next(After(s, script[..lives]), Die)
  {
    AfterNext(s, script[..lives], Die);
  }
}
