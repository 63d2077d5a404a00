/**
 What each method of the agent does to one file, as the sequence of atomic
 actions it performs, and what those sequences achieve. A process death may
 follow any prefix of them.
 */
module AgentScripts {
  import opened Common
  import opened AgentWorld
  import opened AgentSafety
  import opened AgentRuns

  /** How a method ends: normally, with an exception its caller handles, or with the process. */
  datatype Outcome = Done | Raised | Died

  datatype Script = Script(acts: seq<Action>, outcome: Outcome)

  // --- scan ---

  const MAX_FILE := 25_000_000

  datatype Stamp = Stamp(size: nat, modified: int)

  function StampOf(f: File): Stamp { Stamp(|f.content|, f.modified) }

  /** The file has not changed since the last scan and has an acceptable size. */
  predicate Stable(observed: map<Entry, Stamp>, p: Entry, stamp: Stamp) {
    p in observed && observed[p] == stamp && 0 < stamp.size <= MAX_FILE
  }

  /** The inbox as it is at the four instants at which `scan` looks at one of its files. */
  datatype Moments = Moments(stat: Inbox, read: Inbox, restat: Inbox, move: Inbox)

  /** `short` is the twelve-digit prefix of a digest, `stamp` the text of `time_ns()`. */
  datatype Naming = Naming(short: Digest -> string, stamp: string) {
    function ByDigest(hash: Digest, p: Entry): Path { Path(Processing, short(hash) + "-" + p.name) }
    function ByTime(p: Entry): Path { Path(Processing, stamp + "-" + p.name) }
  }

  datatype Sight = Sight(acts: seq<Action>, outcome: Outcome, collided: bool)

  datatype Seen = Seen(script: Script, observed: map<Entry, Stamp>, collided: bool)

  /** The move of a hashed file into processing, and its row. */
  ghost function EnqueueScript(rows: Table, p: Entry, target: Path, hash: Digest, id: nat): Script {
    if PathTaken(rows, target) then Script([Take(p, target), Crash], Died)
    else Script([Take(p, target), Insert(id, target, hash), Commit], Done)
  }

  /** The last moment: the file may have vanished; if not, it is moved as it is now. */
  ghost function RelocateScript(rows: Table, p: Entry, target: Path, hash: Digest, m: Moments, id: nat): Script {
    if p !in m.move then Script([Outside(m.move)], Raised)
    else
      var s := EnqueueScript(rows, p, target, hash, id);
      Script([Outside(m.move)] + s.acts, s.outcome)
  }

  /** A hashed file: choose its name in processing and move it there. */
  ghost function PlaceScript(
    disk: Disk, rows: Table, p: Entry, hash: Digest, m: Moments, names: Naming, id: nat): Sight
  {
    var named := names.ByDigest(hash, p);
    if named in disk && !Holds(disk, named, hash) then Sight([], Done, true)
    else
      // Both files are kept when the same content is already in processing.
      var s := RelocateScript(rows, p, if named in disk then names.ByTime(p) else named, hash, m, id);
      Sight(s.acts, s.outcome, false)
  }

  /** A file that has been stable since the last scan: read it, look again, and place it. */
  ghost function ReadScript(
    disk: Disk, rows: Table, p: Entry, stamp: Stamp, m: Moments, names: Naming, id: nat): Sight
  {
    var looked := [Outside(m.read), Outside(m.restat)];
    if p !in m.read then Sight([Outside(m.read)], Raised, false)
    else if p !in m.restat then Sight(looked, Raised, false)
    else if StampOf(m.restat[p]) != stamp then Sight(looked, Done, false)
    else
      var last := PlaceScript(disk, rows, p, Sha256(m.read[p].content), m, names, id);
      Sight(looked + last.acts, last.outcome, last.collided)
  }

  ghost function ScanFileScript(
    w: World, observed: map<Entry, Stamp>, p: Entry, m: Moments, names: Naming, id: nat): Seen
  {
    var atStat := [Outside(m.stat)];
    if p !in m.stat then Seen(Script(atStat, Done), observed, false)
    else
      var stamp := StampOf(m.stat[p]);
      var observed' := observed[p := stamp];
      if !Stable(observed, p, stamp) then Seen(Script(atStat, Done), observed', false)
      else
        var rest := ReadScript(w.disk, w.rows, p, stamp, m, names, id);
        Seen(Script(atStat + rest.acts, rest.outcome), observed', rest.collided)
  }

  /** One file met by the loop over the inbox. */
  datatype Visit = Visit(entry: Entry, moments: Moments, names: Naming)

  datatype Sweep = Sweep(acts: seq<Action>, outcome: Outcome, observed: map<Entry, Stamp>, collisions: nat)

  ghost function InboxSweep(w: World, observed: map<Entry, Stamp>, visits: seq<Visit>): Sweep {
    if visits == [] then Sweep([], Done, observed, 0)
    else
      var before := InboxSweep(w, observed, visits[..|visits| - 1]);
      if !before.outcome.Done? then before
      else
        var v, last := Exec(w, before.acts), visits[|visits| - 1];
        var seen := ScanFileScript(v, before.observed, last.entry, last.moments, last.names, |v.rows|);
        Continued(before, seen)
  }

  /** A sweep continued by what the next visit does. */
  ghost function Continued(before: Sweep, seen: Seen): Sweep {
    Sweep(before.acts + seen.script.acts, seen.script.outcome, seen.observed,
          before.collisions + (if seen.collided then 1 else 0))
  }

  lemma InboxSweepEmpty(w: World, observed: map<Entry, Stamp>)
    ensures InboxSweep(w, observed, []) == Sweep([], Done, observed, 0)
  {}

  lemma InboxSweepStep(w: World, observed: map<Entry, Stamp>, visits: seq<Visit>, k: nat, v: World)
    requires k < |visits| && InboxSweep(w, observed, visits[..k]).outcome.Done?
    requires v == Exec(w, InboxSweep(w, observed, visits[..k]).acts)
    ensures InboxSweep(w, observed, visits[..k + 1]) ==
      var before := InboxSweep(w, observed, visits[..k]);
      var visit := visits[k];
      Continued(before, ScanFileScript(v, before.observed, visit.entry, visit.moments, visit.names, |v.rows|))
  {
    hide ScanFileScript, Exec;
    assert visits[..k + 1][..k] == visits[..k];
  }

  lemma {:induction false} InboxSweepStops(w: World, observed: map<Entry, Stamp>, visits: seq<Visit>, k: nat)
    requires k <= |visits| && !InboxSweep(w, observed, visits[..k]).outcome.Done?
    ensures InboxSweep(w, observed, visits) == InboxSweep(w, observed, visits[..k])
    decreases |visits| - k
  {
    if k == |visits| {
      assert visits[..k] == visits;
    } else {
      assert visits[..k + 1][..k] == visits[..k];
      InboxSweepStops(w, observed, visits, k + 1);
    }
  }

  /** The `time_ns` name of every visit is still free when its turn comes. */
  ghost predicate FreshNames(w: World, observed: map<Entry, Stamp>, visits: seq<Visit>) {
    forall k :: 0 <= k < |visits| ==>
      visits[k].names.ByTime(visits[k].entry)
        !in Exec(w, InboxSweep(w, observed, visits[..k]).acts).disk
  }

  /** A file found in processing without a row is queued under the hash it has now. */
  ghost function AdoptScript(disk: Disk, rows: Table, p: Path): seq<Action> {
    if p in disk && !PathTaken(rows, p) then [Insert(|rows|, p, Sha256(disk[p].content))] else []
  }

  ghost function AdoptSweep(w: World, listing: seq<Path>): seq<Action> {
    if listing == [] then []
    else
      var before := AdoptSweep(w, listing[..|listing| - 1]);
      var v := Exec(w, before);
      before + AdoptScript(v.disk, v.rows, listing[|listing| - 1])
  }

  // --- upload ---

  /** What the outside world does while one queued file is uploaded. */
  datatype UploadEvent = UploadEvent(answer: Option<FileStatus>, moveFails: bool, now: int)

  /** The server took this very file. */
  predicate Accepted(row: Row, disk: Disk, e: UploadEvent) {
    && Holds(disk, row.path, row.hash)
    && e.answer.Some? && e.answer.value.hash == row.hash && !e.answer.value.state.UPLOAD_FAILED?
  }

  /** An acknowledged file the server has not finished with. */
  ghost function ReviewScript(disk: Disk, rows: Table, id: nat, e: UploadEvent): Script
    requires id in rows
  {
    if ReviewOf(rows[id].path) in disk then Script([], Done)
    else if e.moveFails then Script([Postpone(id, e.now)], Done)
    else if PathTaken(rows, ReviewOf(rows[id].path)) then Script([ToReview(id), Crash], Died)
    else Script([ToReview(id), Repoint(id)], Done)
  }

  ghost function RecordScript(disk: Disk, rows: Table, id: nat, e: UploadEvent): Script
    requires id in rows && e.answer.Some?
  {
    var reply := e.answer.value;
    if reply.state.Terminal() then Script([Acknowledge(id, reply), Commit], Done)
    else
      var acknowledged := rows[id := rows[id].(fileId := Some(reply.id), state := Server(reply.state))];
      var s := ReviewScript(disk, acknowledged, id, e);
      Script([Acknowledge(id, reply)] + s.acts + (if s.outcome.Died? then [] else [Commit]), s.outcome)
  }

  ghost function UploadScript(disk: Disk, rows: Table, id: nat, e: UploadEvent): Script
    requires id in rows
  {
    if !Holds(disk, rows[id].path, rows[id].hash) then Script([Postpone(id, e.now), Commit], Done)
    else if !Hyphenated(rows[id].path) then Script([Crash], Died)
    else if e.answer.None? then Script([Postpone(id, e.now), Commit], Done)
    else if !Accepted(rows[id], disk, e) then Script([Hear(e.answer.value), Postpone(id, e.now), Commit], Done)
    else
      var s := RecordScript(disk, rows, id, e);
      Script([Hear(e.answer.value)] + s.acts, s.outcome)
  }

  predicate NeedsUpload(row: Row, now: int) {
    row.state.Queued? && row.retryAt <= now
  }

  ghost function UploadSweep(w: World, order: seq<nat>, events: seq<UploadEvent>): Script
    requires |events| == |order|
  {
    if order == [] then Script([], Done)
    else
      var n := |order| - 1;
      var before := UploadSweep(w, order[..n], events[..n]);
      var v := Exec(w, before.acts);
      if !before.outcome.Done? || order[n] !in v.rows then before
      else
        var last := UploadScript(v.disk, v.rows, order[n], events[n]);
        Script(before.acts + last.acts, last.outcome)
  }

  lemma UploadSweepEmpty(w: World)
    ensures UploadSweep(w, [], []) == Script([], Done)
  {}

  lemma UploadSweepStep(w: World, order: seq<nat>, events: seq<UploadEvent>, k: nat, v: World)
    requires |events| == |order| && k < |order|
    requires UploadSweep(w, order[..k], events[..k]).outcome.Done?
    requires v == Exec(w, UploadSweep(w, order[..k], events[..k]).acts) && order[k] in v.rows
    ensures UploadSweep(w, order[..k + 1], events[..k + 1]) ==
      var s := UploadScript(v.disk, v.rows, order[k], events[k]);
      Script(UploadSweep(w, order[..k], events[..k]).acts + s.acts, s.outcome)
  {
    assert order[..k + 1][..k] == order[..k] && events[..k + 1][..k] == events[..k];
  }

  lemma {:induction false} UploadSweepStops(w: World, order: seq<nat>, events: seq<UploadEvent>, k: nat)
    requires |events| == |order| && k <= |order|
    requires !UploadSweep(w, order[..k], events[..k]).outcome.Done?
    ensures UploadSweep(w, order, events) == UploadSweep(w, order[..k], events[..k])
    decreases |order| - k
  {
    if k == |order| {
      assert order[..k] == order && events[..k] == events;
    } else {
      assert order[..k + 1][..k] == order[..k] && events[..k + 1][..k] == events[..k];
      UploadSweepStops(w, order, events, k + 1);
    }
  }

  // --- archive ---

  /** What the outside world does while one file is archived. */
  datatype ArchiveEvent = ArchiveEvent(
    month: string, unique: string, moveFails: bool, confirmed: bool, now: int)

  function FolderFor(state: ServerState, month: string): Folder {
    if state.QUARANTINED? then Quarantine else if state.REJECTED? then Rejected else Processed(month)
  }

  function TargetFor(disk: Disk, p: Path, state: ServerState, e: ArchiveEvent): Path {
    var folder := FolderFor(state, e.month);
    if Path(folder, p.name) in disk then Path(folder, e.unique + "-" + p.name) else Path(folder, p.name)
  }

  ghost function RecordArchiveScript(rows: Table, id: nat, item: FileStatus, target: Path, e: ArchiveEvent): Script
  {
    if item.state.IMPORTED? && !e.confirmed then Script([], Raised)
    else if PathTakenByOther(rows, id, target) then Script([Crash], Died)
    else Script([Finish(id, item, e.confirmed), Commit], Done)
  }

  /** The second half of `_archive`, once the target is on record. */
  ghost function MoveScript(disk: Disk, rows: Table, id: nat, item: FileStatus, target: Path, e: ArchiveEvent): Script
    requires id in rows
  {
    var row := rows[id];
    if target !in disk && (!Holds(disk, row.path, row.hash) || e.moveFails) then Script([], Raised)
    else if target in disk && !Holds(disk, target, row.hash) then Script([], Raised)
    else
      var s := RecordArchiveScript(rows, id, item, target, e);
      Script((if target in disk then [] else [ToArchive(id)]) + s.acts, s.outcome)
  }

  ghost function ArchiveScript(disk: Disk, rows: Table, id: nat, item: FileStatus, e: ArchiveEvent): Script
    requires id in rows
  {
    var row := rows[id];
    if item.hash != row.hash then Script([], Raised)
    else if row.archivePath.Some? then MoveScript(disk, rows, id, item, row.archivePath.value, e)
    else if !Holds(disk, row.path, row.hash) then Script([], Raised)
    else
      var target := TargetFor(disk, row.path, item.state, e);
      var planned := rows[id := row.(archivePath := Some(target), state := ArchivePending)];
      var rest := MoveScript(disk, planned, id, item, target, e);
      Script([Plan(id, item, target), Commit] + rest.acts, rest.outcome)
  }

  // --- sync ---

  /** What follows a call of `_archive` in the loop of `sync`. */
  function AfterArchive(s: Script, id: nat, now: int): Script {
    match s.outcome
    case Done => Script(s.acts + [Commit], Done)
    case Raised => Script(s.acts + [Postpone(id, now), Commit], Done)
    case Died => s
  }

  /** The loop body of `sync` for one row of one reported file. */
  ghost function SyncScript(
    disk: Disk, rows: Table, id: nat, item: FileStatus, archiving: bool, e: ArchiveEvent): Script
    requires id in rows
  {
    var row := rows[id];
    if row.state.LocalArchived? || row.retryAt > e.now then Script([], Done)
    else if item.hash != row.hash then Script([Postpone(id, e.now), Commit], Done)
    else if item.state.Terminal() then
      if archiving then AfterArchive(ArchiveScript(disk, rows, id, item, e), id, e.now)
      else Script([Commit], Done)
    else if row.state.ArchivePending? then Script([Commit], Done)
    else Script([Refresh(id, item), Commit], Done)
  }

  const BATCH := 100

  function Retried(row: Row, now: int): Row {
    row.(attempts := row.attempts + 1, retryAt := now + Backoff(row.attempts + 1))
  }

  function RetriedAll(rows: Table, ids: set<nat>, now: int): Table {
    map i | i in rows :: if i in ids then Retried(rows[i], now) else rows[i]
  }

  lemma RetriedAllStep(rows: Table, ids: set<nat>, id: nat, now: int)
    requires id in rows && id !in ids
    ensures RetriedAll(rows, ids, now).Keys == rows.Keys && RetriedAll(rows, ids, now)[id] == rows[id]
    ensures RetriedAll(rows, ids + {id}, now) == RetriedAll(rows, ids, now)[id := Retried(rows[id], now)]
  {}

  lemma RetriedAllKeepsPlans(rows: Table, ids: set<nat>, now: int, saved: Table)
    requires PlansIn(rows, saved)
    ensures PlansIn(RetriedAll(rows, ids, now), saved) && RetriedAll(rows, {}, now) == rows
  {}

  /** Archive destinations on record are committed. */
  ghost predicate PlansIn(rows: Table, saved: Table) {
    forall i :: i in rows && rows[i].state.ArchivePending? ==>
      i in saved && saved[i].archivePath == rows[i].archivePath
  }

  /** The rows of files the server did not report, when it should have, wait for another attempt. */
  predicate Unreported(row: Row, missing: set<string>) {
    row.fileId.Some? && row.fileId.value in missing && !row.state.LocalArchived?
  }

  function AfterMissing(rows: Table, missing: set<string>, now: int): Table {
    map i | i in rows :: if Unreported(rows[i], missing) then Retried(rows[i], now) else rows[i]
  }

  lemma UnreportedRetried(rows: Table, ids: set<nat>, missing: set<string>, now: int)
    requires ids == set i | i in rows && Unreported(rows[i], missing)
    ensures RetriedAll(rows, ids, now) == AfterMissing(rows, missing, now)
  {}

  lemma NoneMissing(rows: Table, now: int)
    ensures AfterMissing(rows, {}, now) == rows
  {}

  lemma AfterMissingTwice(rows: Table, first: set<string>, second: set<string>, now: int)
    requires first !! second
    ensures AfterMissing(AfterMissing(rows, first, now), second, now) == AfterMissing(rows, first + second, now)
  {}

  function IdsOf(items: seq<FileStatus>): set<string> { set item | item in items :: item.id }

  predicate DistinctIds(items: seq<FileStatus>) {
    forall j, k :: 0 <= j < k < |items| ==> items[j].id != items[k].id
  }

  /** The server's list names only files it was asked for, each at most once. */
  predicate AnswersBatch(items: seq<FileStatus>, batch: seq<string>) {
    && |IdsOf(items)| == |items|
    && forall item :: item in items ==> item.id in batch
  }

  /** Counting the identifiers as a set detects every repetition. */
  lemma {:induction false} CountedIdsAreDistinct(items: seq<FileStatus>)
    ensures |IdsOf(items)| <= |items|
    ensures |IdsOf(items)| == |items| ==> DistinctIds(items)
    decreases |items|
  {
    if items != [] {
      var init, last := items[..|items| - 1], items[|items| - 1];
      CountedIdsAreDistinct(init);
      assert items == init + [last];
      assert IdsOf(items) == IdsOf(init) + {last.id};
      if |IdsOf(items)| == |items| {
        assert last.id !in IdsOf(init);
        forall j, k | 0 <= j < k < |items| ensures items[j].id != items[k].id {
          if k == |items| - 1 { assert items[j] in init; }
        }
      }
    }
  }

  function Listed(ids: seq<string>): set<string> { set s | s in ids }

  lemma ListedNone(ids: seq<string>, returned: set<string>)
    ensures Listed(ids[..0]) - returned == {}
  {}

  lemma ListedStep(ids: seq<string>, k: nat, returned: set<string>)
    requires k < |ids| && forall i, j :: 0 <= i < j < |ids| ==> ids[i] != ids[j]
    ensures Listed(ids[..k + 1]) - returned ==
      (Listed(ids[..k]) - returned) + (if ids[k] in returned then {} else {ids[k]})
    ensures ids[k] !in Listed(ids[..k])
  {
    assert ids[..k + 1] == ids[..k] + [ids[k]];
  }

  lemma OneMoreUnreported(rows: Table, ids: seq<string>, k: nat, returned: set<string>, now: int)
    requires k < |ids| && forall i, j :: 0 <= i < j < |ids| ==> ids[i] != ids[j]
    ensures AfterMissing(rows, Listed(ids[..k + 1]) - returned, now) ==
      var soFar := AfterMissing(rows, Listed(ids[..k]) - returned, now);
      if ids[k] in returned then soFar else AfterMissing(soFar, {ids[k]}, now)
  {
    hide AfterMissing;
    ListedStep(ids, k, returned);
    var before := Listed(ids[..k]) - returned;
    if ids[k] in returned {
      assert Listed(ids[..k + 1]) - returned == before;
    } else {
      AfterMissingTwice(rows, before, {ids[k]}, now);
    }
  }

  lemma CombineBatches(
    rows: Table, ids: seq<string>, start: nat, end: nat,
    found: seq<FileStatus>, more: seq<FileStatus>, now: int)
    requires start <= end <= |ids| && forall j, k :: 0 <= j < k < |ids| ==> ids[j] != ids[k]
    requires DistinctIds(found) && (forall item :: item in found ==> item.id in ids[..start])
    requires AnswersBatch(more, ids[start..end])
    ensures DistinctIds(found + more)
    ensures forall item :: item in found + more ==> item.id in ids[..end]
    ensures AfterMissing(AfterMissing(rows, Listed(ids[..start]) - IdsOf(found), now),
                         Listed(ids[start..end]) - IdsOf(more), now)
      == AfterMissing(rows, Listed(ids[..end]) - IdsOf(found + more), now)
  {
    hide AfterMissing, Listed, IdsOf, DistinctIds;
    CountedIdsAreDistinct(more);
    var first, second := ids[..start], ids[start..end];
    assert ids[..end] == first + second;
    forall s | s in first ensures s !in second {
      var j :| 0 <= j < start && ids[j] == s;
      assert forall k :: 0 <= k < |second| ==> second[k] == ids[start + k];
    }
    var a, b := Listed(first) - IdsOf(found), Listed(second) - IdsOf(more);
    UnreportedApart(found, more, first, second);
    AfterMissingTwice(rows, a, b, now);
    CombinedDistinct(found, more, first, second);
  }

  /** The unreported identifiers of two batches together are those of the first and those of the second. */
  lemma UnreportedApart(found: seq<FileStatus>, more: seq<FileStatus>, first: seq<string>, second: seq<string>)
    requires forall s :: s in first ==> s !in second
    requires (forall item :: item in found ==> item.id in first) && forall item :: item in more ==> item.id in second
    ensures Listed(first + second) - IdsOf(found + more)
         == (Listed(first) - IdsOf(found)) + (Listed(second) - IdsOf(more))
    ensures (Listed(first) - IdsOf(found)) !! (Listed(second) - IdsOf(more))
  {
    assert Listed(first + second) == Listed(first) + Listed(second);
    assert IdsOf(found + more) == IdsOf(found) + IdsOf(more);
    assert IdsOf(found) <= Listed(first) && IdsOf(more) <= Listed(second);
  }

  lemma CombinedDistinct(found: seq<FileStatus>, more: seq<FileStatus>, first: seq<string>, second: seq<string>)
    requires DistinctIds(found) && DistinctIds(more)
    requires forall s :: s in first ==> s !in second
    requires forall item :: item in found ==> item.id in first
    requires forall item :: item in more ==> item.id in second
    ensures DistinctIds(found + more)
  {}

  /** One turn of the two nested loops of `sync`: a reported file and one of its rows. */
  datatype Job = Job(id: nat, item: FileStatus, event: ArchiveEvent)

  /** The jobs are the rows of every report, each once: what the two queries return. */
  ghost predicate CoversReports(jobs: seq<Job>, items: seq<FileStatus>, rows: Table) {
    && (forall k :: 0 <= k < |jobs| ==>
          jobs[k].item in items && jobs[k].id in rows && rows[jobs[k].id].fileId == Some(jobs[k].item.id))
    && (forall j, k :: 0 <= j < k < |jobs| ==> jobs[j].id != jobs[k].id)
    && forall i, item :: i in rows && item in items && rows[i].fileId == Some(item.id) ==> JobIn(jobs, i, item)
  }

  predicate JobIn(jobs: seq<Job>, id: nat, item: FileStatus) {
    exists k :: 0 <= k < |jobs| && jobs[k].id == id && jobs[k].item == item
  }

  ghost function SyncSweep(w: World, jobs: seq<Job>, archiving: bool): Script {
    if jobs == [] then Script([], Done)
    else
      var before := SyncSweep(w, jobs[..|jobs| - 1], archiving);
      var v, job := Exec(w, before.acts), jobs[|jobs| - 1];
      if !before.outcome.Done? || job.id !in v.rows then before
      else
        var last := SyncScript(v.disk, v.rows, job.id, job.item, archiving, job.event);
        Script(before.acts + last.acts, last.outcome)
  }

  lemma SyncSweepEmpty(w: World, archiving: bool)
    ensures SyncSweep(w, [], archiving) == Script([], Done)
  {}

  lemma {:induction false} HeardGrows(w: World, acts: seq<Action>)
    ensures w.heard <= Exec(w, acts).heard
    decreases |acts|
  {
    hide Apply, Enabled;
    if acts != [] {
      var init, a := acts[..|acts| - 1], acts[|acts| - 1];
      HeardGrows(w, init);
      if Enabled(Exec(w, init), a) { StepHears(Exec(w, init), a); }
    }
  }

  lemma StepHears(w: World, a: Action)
    requires Enabled(w, a)
    ensures w.heard <= Apply(w, a).heard
  {}

  lemma SyncSweepStep(w: World, jobs: seq<Job>, archiving: bool, k: nat, v: World)
    requires k < |jobs| && SyncSweep(w, jobs[..k], archiving).outcome.Done?
    requires v == Exec(w, SyncSweep(w, jobs[..k], archiving).acts) && jobs[k].id in v.rows
    ensures SyncSweep(w, jobs[..k + 1], archiving) ==
      var s := SyncScript(v.disk, v.rows, jobs[k].id, jobs[k].item, archiving, jobs[k].event);
      Script(SyncSweep(w, jobs[..k], archiving).acts + s.acts, s.outcome)
  {
    hide SyncScript, Exec;
    assert jobs[..k + 1][..k] == jobs[..k];
  }

  lemma {:induction false} SyncSweepStops(w: World, jobs: seq<Job>, archiving: bool, k: nat)
    requires k <= |jobs| && !SyncSweep(w, jobs[..k], archiving).outcome.Done?
    ensures SyncSweep(w, jobs, archiving) == SyncSweep(w, jobs[..k], archiving)
    decreases |jobs| - k
  {
    if k == |jobs| {
      assert jobs[..k] == jobs;
    } else {
      assert jobs[..k + 1][..k] == jobs[..k];
      SyncSweepStops(w, jobs, archiving, k + 1);
    }
  }

  /** The `uuid4` name of every turn is free when it comes. */
  ghost predicate FreshDestinations(w: World, jobs: seq<Job>, archiving: bool) {
    forall k :: 0 <= k < |jobs| ==>
      var v := Exec(w, SyncSweep(w, jobs[..k], archiving).acts);
      jobs[k].id in v.rows ==> FreshDestination(v.disk, v.rows[jobs[k].id].path, jobs[k].item, jobs[k].event)
  }

  predicate FreshDestination(disk: Disk, p: Path, item: FileStatus, e: ArchiveEvent) {
    Path(FolderFor(item.state, e.month), e.unique + "-" + p.name) !in disk
  }

  // --- recovering an interrupted archive ---

  /** Neither the server nor the disk refuses. */
  predicate Cooperative(item: FileStatus, e: ArchiveEvent) {
    !e.moveFails && (item.state.IMPORTED? ==> e.confirmed)
  }

  /** The process has restarted and finds a row whose archive destination is on record. */
  ghost predicate Restarted(w: World, id: nat, item: FileStatus) {
    && Inv(w) && w.rows == w.saved && w.moving.None?
    && id in w.rows && w.rows[id].state.ArchivePending?
    && item in w.heard && TerminalFor(w.rows[id], item)
  }

  /** No other row already has the planned path, and the file found there, if any, is the row's own. */
  ghost predicate Clear(w: World, id: nat)
    requires id in w.rows
  {
    var plan := w.rows[id].archivePath;
    plan.Some? ==>
      && !PathTakenByOther(w.rows, id, plan.value)
      && (plan.value in w.disk ==> Holds(w.disk, plan.value, w.rows[id].hash))
  }

  /** Rerunning the archive step finishes exactly then; another row may well plan the same path. */
  lemma ArchiveFinishesExactly(w: World, id: nat, item: FileStatus, e: ArchiveEvent)
    requires Restarted(w, id, item) && Cooperative(item, e)
    ensures ArchiveScript(w.disk, w.rows, id, item, e).outcome.Done? <==> Clear(w, id)
  {}

  /**
   And exactly then it ends with the row archived: at the planned path, holding the right
   content, and with no second move if the first had already happened.
   */
  lemma ArchiveRecovers(w: World, id: nat, item: FileStatus, e: ArchiveEvent)
    requires Restarted(w, id, item) && Cooperative(item, e)
    ensures var target := w.rows[id].archivePath.value;
      var acts := ArchiveScript(w.disk, w.rows, id, item, e).acts;
      var v := Exec(w, acts);
      && id in v.saved && (v.saved[id].state.LocalArchived? <==> Clear(w, id))
      && (Clear(w, id) ==>
            && Legal(w, acts) && v.saved[id].path == target && Holds(v.disk, target, w.rows[id].hash)
            && v.disk == if target in w.disk then w.disk else Rename(w.disk, w.rows[id].path, target))
  {
    if Clear(w, id) { ClearArchiveRecovers(w, id, item, e); } else { BlockedArchiveStays(w, id, item, e); }
  }

  lemma BlockedArchiveStays(w: World, id: nat, item: FileStatus, e: ArchiveEvent)
    requires Restarted(w, id, item) && Cooperative(item, e) && !Clear(w, id)
    ensures Exec(w, ArchiveScript(w.disk, w.rows, id, item, e).acts).saved == w.saved
  {
    NoActions(w);
    assert [] + [Crash] == [Crash];
    ThenOne(w, [], Crash);
  }

  lemma ClearScript(w: World, id: nat, item: FileStatus, e: ArchiveEvent)
    requires Restarted(w, id, item) && Cooperative(item, e) && Clear(w, id)
    ensures var row := w.rows[id];
      var target := row.archivePath.value;
      && (target !in w.disk ==> Holds(w.disk, row.path, row.hash))
      && ArchiveScript(w.disk, w.rows, id, item, e).acts ==
           (if target in w.disk then [] else [ToArchive(id)]) + [Finish(id, item, e.confirmed), Commit]
  {
    var row := w.rows[id];
    assert RowShape(w.heard, row) && Located(w.disk, row);
  }

  lemma ClearArchiveRecovers(w: World, id: nat, item: FileStatus, e: ArchiveEvent)
    requires Restarted(w, id, item) && Cooperative(item, e) && Clear(w, id)
    ensures var target := w.rows[id].archivePath.value;
      var acts := ArchiveScript(w.disk, w.rows, id, item, e).acts;
      var v := Exec(w, acts);
      && Legal(w, acts)
      && id in v.saved && v.saved[id].state.LocalArchived? && v.saved[id].path == target
      && Holds(v.disk, target, w.rows[id].hash)
      && v.disk == if target in w.disk then w.disk else Rename(w.disk, w.rows[id].path, target)
  {
    ClearScript(w, id, item, e);
    hide ArchiveScript, Exec, Legal, Inv;
    var target := w.rows[id].archivePath.value;
    var finish := Finish(id, item, e.confirmed);
    var moved := if target in w.disk then [] else [ToArchive(id)];
    NoActions(w);
    if target !in w.disk { ThenOne(w, [], ToArchive(id)); assert [] + [ToArchive(id)] == moved; }
    ThenOne(w, moved, finish);
    ThenOne(w, moved + [finish], Commit);
    assert moved + [finish, Commit] == moved + [finish] + [Commit];
  }

  /**
   Whatever happens after a destination has been committed - deaths, other rows,
   other months, refusing servers - the row is either archived at that destination
   with its content there, or still pending with it.
   */
  lemma PlanIsKept(w: World, acts: seq<Action>, more: seq<Action>, u: World, v: World, id: nat)
    requires Fresh(w) && Legal(w, acts) && u == Exec(w, acts)
    requires Legal(u, more) && v == Exec(u, more)
    requires id in u.saved && u.saved[id].state.ArchivePending?
    ensures Inv(v) && id in v.saved && u.saved[id].archivePath.Some?
    ensures v.saved[id].hash == u.saved[id].hash
    ensures var target := u.saved[id].archivePath.value; var row := v.saved[id];
      || (row.state.ArchivePending? && row.archivePath == Some(target))
      || (row.state.LocalArchived? && row.path == target && Holds(v.disk, target, u.saved[id].hash))
  {
    Reachable(w, acts);
    assert RowShape(u.heard, u.saved[id]);
    RowsAdvance(u, more);
    RunKeeps(u, more);
    assert Advances(u.saved[id], v.saved[id]);
    assert RowShape(v.heard, v.saved[id]);
    assert Located(v.disk, v.saved[id]);
  }

  lemma RestartedArchiveEnds(
    v: World, id: nat, item: FileStatus, e: ArchiveEvent, target: Path, hash: Digest)
    requires Restarted(v, id, item) && Cooperative(item, e)
    requires v.rows[id].archivePath == Some(target) && v.rows[id].hash == hash
    ensures var z := Exec(v, ArchiveScript(v.disk, v.rows, id, item, e).acts);
      && id in z.saved && (z.saved[id].state.LocalArchived? <==> Clear(v, id))
      && (Clear(v, id) ==> z.saved[id].path == target && Holds(z.disk, target, hash))
  {
    ArchiveRecovers(v, id, item, e);
  }

  /**
   So a process that died anywhere in or after `_archive` finishes, once restarted, where it
   first meant to, exactly if nothing else has taken that place meanwhile.
   */
  lemma InterruptedArchiveRecovers(
    w: World, acts: seq<Action>, more: seq<Action>, u: World, v: World,
    id: nat, item: FileStatus, e: ArchiveEvent)
    requires Fresh(w) && Legal(w, acts) && u == Exec(w, acts)
    requires Legal(u, more) && v == Exec(u, more + [Crash])
    requires id in u.saved && u.saved[id].state.ArchivePending?
    requires id in v.saved && !v.saved[id].state.LocalArchived?
    requires item in v.heard && TerminalFor(v.saved[id], item) && Cooperative(item, e)
    ensures var z := Exec(v, ArchiveScript(v.disk, v.rows, id, item, e).acts);
      && id in v.rows && id in z.saved && (z.saved[id].state.LocalArchived? <==> Clear(v, id))
      && (Clear(v, id) ==>
            && Some(z.saved[id].path) == u.saved[id].archivePath == v.rows[id].archivePath
            && Holds(z.disk, z.saved[id].path, u.saved[id].hash))
  {
    ThenOne(u, more, Crash);
    PlanIsKept(w, acts, more + [Crash], u, v, id);
    RestartedArchiveEnds(v, id, item, e, u.saved[id].archivePath.value, u.saved[id].hash);
  }
}
