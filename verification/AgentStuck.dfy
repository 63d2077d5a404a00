/**
 Rows that no later action helps: queued rows without their file, and planned archives
 whose destination another row has. Each comes with a run that leads there and with its
 exact condition.
 */
module AgentStuck {
  import opened Common
  import opened AgentWorld
  import opened AgentSafety
  import opened AgentRuns
  import opened AgentScripts

  // --- queued rows ---

  /** Right after a start nothing is uncommitted. */
  ghost predicate JustStarted(w: World) { Inv(w) && w.rows == w.saved && w.moving.None? }

  predicate NoNewFileAt(acts: seq<Action>, p: Path) { forall a :: a in acts && a.Take? ==> a.to != p }

  /** A queued row whose path does not hold the content it records, or has no hyphen in its name. */
  ghost predicate Unheld(w: World, id: nat, p: Path, hash: Digest) {
    && !(Holds(w.disk, p, hash) && Hyphenated(p)) && p.folder.Processing?
    && id in w.rows && w.rows[id].state.Queued? && w.rows[id].path == p && w.rows[id].hash == hash
    && id in w.saved && w.saved[id].state.Queued? && w.saved[id].path == p && w.saved[id].hash == hash
  }

  lemma StaysUnheld(w: World, a: Action, id: nat, p: Path, hash: Digest)
    requires Shapes(w.heard, w.rows) && UniquePaths(w.rows) && w.moving != Some(id)
    requires Enabled(w, a) && Unheld(w, id, p, hash) && !(a.Take? && a.to == p)
    ensures Unheld(Apply(w, a), id, p, hash)
  {
    match a {
      case ToArchive(i) => assert RowShape(w.heard, w.rows[i]);
      case ToReview(i) => assert i != id;
      case _ =>
    }
  }

  lemma InvariantParts(w: World)
    requires Inv(w)
    ensures Shapes(w.heard, w.rows) && UniquePaths(w.rows) && Shapes(w.heard, w.saved) && UniquePaths(w.saved)
    ensures forall i :: i in w.rows && w.rows[i].state.Queued? ==> w.moving != Some(i)
  {}

  /** Until a new file of its very name comes in, such a row stays queued, whatever else happens. */
  lemma {:induction false} UnheldStays(w: World, acts: seq<Action>, id: nat, p: Path, hash: Digest)
    requires Inv(w) && Legal(w, acts) && Unheld(w, id, p, hash) && NoNewFileAt(acts, p)
    ensures Unheld(Exec(w, acts), id, p, hash)
    decreases |acts|
  {
    if acts != [] {
      var init := acts[..|acts| - 1];
      UnheldStays(w, init, id, p, hash);
      RunKeeps(w, init);
      InvariantParts(Exec(w, init));
      StaysUnheld(Exec(w, init), acts[|acts| - 1], id, p, hash);
    }
  }

  /** Some run, bringing in no new file of the row's name, commits the row in a later state. */
  ghost predicate CanLeaveQueue(w: World, id: nat)
    requires id in w.saved
  {
    exists acts :: Legal(w, acts) && NoNewFileAt(acts, w.saved[id].path)
      && id in Exec(w, acts).saved && !Exec(w, acts).saved[id].state.Queued?
  }

  /**
   After a start a queued row can leave the queue exactly if its path holds the content it
   records and its name can be split at a hyphen: rows whose file is gone or differs stay,
   and so do files without a hyphen, at which each upload dies.
   */
  lemma LeavesQueueExactly(w: World, id: nat)
    requires JustStarted(w) && id in w.saved && w.saved[id].state.Queued?
    ensures CanLeaveQueue(w, id) <==>
      Holds(w.disk, w.saved[id].path, w.saved[id].hash) && Hyphenated(w.saved[id].path)
  {
    var row := w.saved[id];
    assert RowShape(w.heard, row);
    if Holds(w.disk, row.path, row.hash) && Hyphenated(row.path) {
      var reply := FileStatus("f", row.hash, IMPORTED);
      var acts := [Hear(reply), Acknowledge(id, reply), Commit];
      ThenOne(w, [], Hear(reply));
      ThenOne(w, [] + [Hear(reply)], Acknowledge(id, reply));
      ThenOne(w, [] + [Hear(reply)] + [Acknowledge(id, reply)], Commit);
      assert acts == [] + [Hear(reply)] + [Acknowledge(id, reply)] + [Commit];
      assert NoNewFileAt(acts, row.path);
    } else {
      forall acts | Legal(w, acts) && NoNewFileAt(acts, row.path)
        ensures Unheld(Exec(w, acts), id, row.path, row.hash)
      {
        UnheldStays(w, acts, id, row.path, row.hash);
      }
    }
  }

  // --- how an upload is stranded ---

  const ENTRY := Entry("prices", "a.csv")
  const QUEUED := Path(Processing, "x-a.csv")
  const ONE: Bytes := [1]
  const EMPTY := World(map[], map[], map[], map[], None, {}, {})

  function Dropped(): File { File(ONE, 0) }

  const DETECTED_REPLY := FileStatus("f", Sha256(ONE), DETECTED)

  function RowAt(p: Path, id: Option<string>, state: State): Row { Row(p, Sha256(ONE), id, state, None, 0, 0) }

  /** A file is dropped, moved into processing, and its row committed. */
  const TAKEN := [Outside(map[ENTRY := Dropped()]), Take(ENTRY, QUEUED), Insert(0, QUEUED, Sha256(ONE)), Commit]

  function AfterTaken(): World {
    var rows := map[0 := RowAt(QUEUED, None, Queued)];
    World(map[], map[QUEUED := Dropped()], rows, rows, None, {}, {0})
  }

  lemma TakenRuns()
    ensures Legal(EMPTY, TAKEN) && Exec(EMPTY, TAKEN) == AfterTaken()
  {
    var w1 := EMPTY.(inbox := map[ENTRY := Dropped()]);
    NoActions(EMPTY);
    assert ENTRY in w1.inbox && w1.inbox - {ENTRY} == map[];
    ThenOne(EMPTY, [], TAKEN[0]);
    ThenOne(EMPTY, [] + [TAKEN[0]], TAKEN[1]);
    ThenOne(EMPTY, [] + [TAKEN[0]] + [TAKEN[1]], TAKEN[2]);
    ThenOne(EMPTY, [] + [TAKEN[0]] + [TAKEN[1]] + [TAKEN[2]], TAKEN[3]);
    assert TAKEN == [] + [TAKEN[0]] + [TAKEN[1]] + [TAKEN[2]] + [TAKEN[3]];
  }

  /** The upload is acknowledged and the file moved into review; nothing of it is committed yet. */
  const MOVED := [Hear(DETECTED_REPLY), Acknowledge(0, DETECTED_REPLY), ToReview(0)]

  function AfterMoved(): World {
    World(map[], map[ReviewOf(QUEUED) := Dropped()], map[0 := RowAt(QUEUED, Some("f"), Server(DETECTED))],
          map[0 := RowAt(QUEUED, None, Queued)], Some(0), {DETECTED_REPLY}, {0})
  }

  lemma MovedRuns()
    ensures Legal(AfterTaken(), MOVED) && Exec(AfterTaken(), MOVED) == AfterMoved()
  {
    hide Exec, Legal;
    var w := AfterTaken();
    NoActions(w);
    ThenOne(w, [], MOVED[0]);
    ThenOne(w, [] + [MOVED[0]], MOVED[1]);
    ThenOne(w, [] + [MOVED[0]] + [MOVED[1]], MOVED[2]);
    assert MOVED == [] + [MOVED[0]] + [MOVED[1]] + [MOVED[2]];
    assert w.disk - {QUEUED} == map[];
  }

  /** A queued row whose file lies in review, and which nothing gets out of the queue. */
  ghost predicate StrandedUpload(w: World, id: nat) {
    && JustStarted(w) && id in w.saved && w.saved[id].state.Queued?
    && w.saved[id].path !in w.disk && Holds(w.disk, ReviewOf(w.saved[id].path), w.saved[id].hash)
    && !CanLeaveQueue(w, id)
  }

  /** A death right there: the row is queued again, without its file, for good. */
  lemma UploadIsStranded() returns (acts: seq<Action>)
    ensures Legal(EMPTY, acts) && StrandedUpload(Exec(EMPTY, acts), 0)
  {
    hide Inv, Exec, Legal;
    acts := TAKEN + MOVED + [Crash];
    TakenRuns();
    MovedRuns();
    ExecAppend(EMPTY, TAKEN, MOVED);
    ThenOne(EMPTY, TAKEN + MOVED, Crash);
    var w := Exec(EMPTY, acts);
    assert w == AfterMoved().(rows := AfterMoved().saved, moving := None);
    Reachable(EMPTY, acts);
    LeavesQueueExactly(w, 0);
  }

  // --- planned archives ---

  /** A planned row whose destination is another row's path. */
  ghost predicate Blocked(w: World, id: nat, other: nat, target: Path) {
    && id in w.saved && w.saved[id].state.ArchivePending? && w.saved[id].archivePath == Some(target)
    && other in w.saved && other != id && w.saved[other].path == target
  }

  /** It stays so in every later state: each restart meets it again. */
  lemma BlockedStays(w: World, acts: seq<Action>, id: nat, other: nat, target: Path)
    requires Inv(w) && Legal(w, acts) && Blocked(w, id, other, target)
    ensures Blocked(Exec(w, acts), id, other, target)
  {
    hide Exec, Legal;
    RowsAdvance(w, acts);
    RunKeeps(w, acts);
    var v := Exec(w, acts);
    InvariantParts(w);
    InvariantParts(v);
    assert RowShape(w.heard, w.saved[id]) && RowShape(w.heard, w.saved[other]);
    assert Advances(w.saved[id], v.saved[id]) && Advances(w.saved[other], v.saved[other]);
  }

  /** The same file dropped again while its first copy waits in review. */
  const REVIEWED := [Repoint(0), Commit]
  const TAKEN_AGAIN := [Outside(map[ENTRY := Dropped()]), Take(ENTRY, QUEUED), Insert(1, QUEUED, Sha256(ONE)), Commit]

  const FIRST_REPLY := FileStatus("f", Sha256(ONE), DUPLICATE)
  const SECOND_REPLY := FileStatus("g", Sha256(ONE), DUPLICATE)
  const TARGET := Path(Processed("2024/05"), "x-a.csv")

  /** The copy's upload ends at once; the first file's archive is planned, and the process dies. */
  const ACCEPTED := [Hear(SECOND_REPLY), Acknowledge(1, SECOND_REPLY), Commit]
  const PLANNED := [Hear(FIRST_REPLY), Plan(0, FIRST_REPLY, TARGET), Commit, Crash]

  /** After the restart the copy is archived first, under the same name. */
  const PLANNED_TOO := [Plan(1, SECOND_REPLY, TARGET), Commit]
  const ARCHIVED := [ToArchive(1), Finish(1, SECOND_REPLY, true), Commit]

  function Review0(state: State, plan: Option<Path>): Row {
    Row(ReviewOf(QUEUED), Sha256(ONE), Some("f"), state, plan, 0, 0)
  }

  function AfterReviewed(): World {
    var rows := map[0 := Review0(Server(DETECTED), None)];
    World(map[], map[ReviewOf(QUEUED) := Dropped()], rows, rows, None, {DETECTED_REPLY}, {0})
  }

  function AfterTakenAgain(): World {
    WithRows(BOTH, Review0(Server(DETECTED), None), RowAt(QUEUED, None, Queued), {DETECTED_REPLY})
  }

  function WithRows(disk: Disk, row0: Row, row1: Row, heard: set<FileStatus>): World {
    var rows := map[0 := row0, 1 := row1];
    World(map[], disk, rows, rows, None, heard, {0, 1})
  }

  const BOTH: Disk := map[ReviewOf(QUEUED) := Dropped(), QUEUED := Dropped()]

  function AfterAccepted(): World {
    WithRows(BOTH, Review0(Server(DETECTED), None), RowAt(QUEUED, Some("g"), Server(DUPLICATE)),
             {DETECTED_REPLY, SECOND_REPLY})
  }

  function AfterPlanned(): World {
    WithRows(BOTH, Review0(ArchivePending, Some(TARGET)), RowAt(QUEUED, Some("g"), Server(DUPLICATE)),
             {DETECTED_REPLY, SECOND_REPLY, FIRST_REPLY})
  }

  function AfterPlannedToo(): World {
    WithRows(BOTH, Review0(ArchivePending, Some(TARGET)),
             Row(QUEUED, Sha256(ONE), Some("g"), ArchivePending, Some(TARGET), 0, 0),
             {DETECTED_REPLY, SECOND_REPLY, FIRST_REPLY})
  }

  function AfterArchived(): World {
    WithRows(map[ReviewOf(QUEUED) := Dropped(), TARGET := Dropped()],
             Review0(ArchivePending, Some(TARGET)), RowAt(TARGET, Some("g"), LocalArchived),
             {DETECTED_REPLY, SECOND_REPLY, FIRST_REPLY})
  }

  lemma ReviewedRuns()
    ensures Legal(AfterMoved(), REVIEWED) && Exec(AfterMoved(), REVIEWED) == AfterReviewed()
  {
    hide Exec, Legal;
    var w := AfterMoved();
    NoActions(w);
    ThenOne(w, [], REVIEWED[0]);
    ThenOne(w, [] + [REVIEWED[0]], REVIEWED[1]);
    assert REVIEWED == [] + [REVIEWED[0]] + [REVIEWED[1]];
  }

  lemma TakenAgainRuns()
    ensures Legal(AfterReviewed(), TAKEN_AGAIN) && Exec(AfterReviewed(), TAKEN_AGAIN) == AfterTakenAgain()
  {
    hide Exec, Legal;
    var w, a := AfterReviewed(), TAKEN_AGAIN;
    NoActions(w);
    ThenOne(w, [], a[0]);
    ThenOne(w, [] + [a[0]], a[1]);
    ThenOne(w, [] + [a[0]] + [a[1]], a[2]);
    ThenOne(w, [] + [a[0]] + [a[1]] + [a[2]], a[3]);
    assert a == [] + [a[0]] + [a[1]] + [a[2]] + [a[3]];
    assert w.(inbox := map[ENTRY := Dropped()]).inbox - {ENTRY} == map[];
  }

  lemma AcceptedRuns()
    ensures Legal(AfterTakenAgain(), ACCEPTED) && Exec(AfterTakenAgain(), ACCEPTED) == AfterAccepted()
  {
    hide Exec, Legal;
    var w, a := AfterTakenAgain(), ACCEPTED;
    NoActions(w);
    ThenOne(w, [], a[0]);
    ThenOne(w, [] + [a[0]], a[1]);
    ThenOne(w, [] + [a[0]] + [a[1]], a[2]);
    assert a == [] + [a[0]] + [a[1]] + [a[2]];
  }

  lemma PlannedRuns()
    ensures Legal(AfterAccepted(), PLANNED) && Exec(AfterAccepted(), PLANNED) == AfterPlanned()
  {
    hide Exec, Legal;
    var w, a := AfterAccepted(), PLANNED;
    NoActions(w);
    ThenOne(w, [], a[0]);
    ThenOne(w, [] + [a[0]], a[1]);
    ThenOne(w, [] + [a[0]] + [a[1]], a[2]);
    ThenOne(w, [] + [a[0]] + [a[1]] + [a[2]], a[3]);
    assert a == [] + [a[0]] + [a[1]] + [a[2]] + [a[3]];
  }

  lemma PlannedTooRuns()
    ensures Legal(AfterPlanned(), PLANNED_TOO) && Exec(AfterPlanned(), PLANNED_TOO) == AfterPlannedToo()
  {
    hide Exec, Legal;
    var w, a := AfterPlanned(), PLANNED_TOO;
    NoActions(w);
    ThenOne(w, [], a[0]);
    ThenOne(w, [] + [a[0]], a[1]);
    assert a == [] + [a[0]] + [a[1]];
  }

  lemma ArchivedRuns()
    ensures Legal(AfterPlannedToo(), ARCHIVED) && Exec(AfterPlannedToo(), ARCHIVED) == AfterArchived()
  {
    hide Exec, Legal;
    var w, a := AfterPlannedToo(), ARCHIVED;
    NoActions(w);
    ThenOne(w, [], a[0]);
    ThenOne(w, [] + [a[0]], a[1]);
    ThenOne(w, [] + [a[0]] + [a[1]], a[2]);
    assert a == [] + [a[0]] + [a[1]] + [a[2]];
  }

  /** Then the first row's archive cannot be finished, now or ever: the process dies at it. */
  lemma ArchiveIsBlocked(e: ArchiveEvent) returns (acts: seq<Action>)
    requires !e.moveFails
    ensures Legal(EMPTY, acts)
    ensures var w := Exec(EMPTY, acts);
      && Restarted(w, 0, FIRST_REPLY) && Blocked(w, 0, 1, TARGET)
      && ArchiveScript(w.disk, w.rows, 0, FIRST_REPLY, e).outcome.Died?
  {
    hide Inv, Exec, Legal;
    acts := TAKEN + MOVED + REVIEWED + TAKEN_AGAIN + ACCEPTED + PLANNED + PLANNED_TOO + ARCHIVED;
    TakenRuns();
    MovedRuns();
    ReviewedRuns();
    TakenAgainRuns();
    AcceptedRuns();
    PlannedRuns();
    PlannedTooRuns();
    ArchivedRuns();
    ExecAppend(EMPTY, TAKEN, MOVED);
    ExecAppend(EMPTY, TAKEN + MOVED, REVIEWED);
    ExecAppend(EMPTY, TAKEN + MOVED + REVIEWED, TAKEN_AGAIN);
    ExecAppend(EMPTY, TAKEN + MOVED + REVIEWED + TAKEN_AGAIN, ACCEPTED);
    ExecAppend(EMPTY, TAKEN + MOVED + REVIEWED + TAKEN_AGAIN + ACCEPTED, PLANNED);
    ExecAppend(EMPTY, TAKEN + MOVED + REVIEWED + TAKEN_AGAIN + ACCEPTED + PLANNED, PLANNED_TOO);
    ExecAppend(EMPTY, TAKEN + MOVED + REVIEWED + TAKEN_AGAIN + ACCEPTED + PLANNED + PLANNED_TOO, ARCHIVED);
    Reachable(EMPTY, acts);
  }
}
