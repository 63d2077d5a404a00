/**
 What every run of the agent keeps, whatever the server answers, whatever the
 outsiders put in the inbox and wherever the process dies: no recorded file is
 lost, no file content appears or disappears, and rows only move forward.
 */
module AgentSafety {
  import opened Common
  import opened AgentWorld

  /** Where the content of a row may legitimately be found. */
  predicate Located(disk: Disk, row: Row) {
    || Holds(disk, row.path, row.hash)
    || (row.archivePath.Some? && Holds(disk, row.archivePath.value, row.hash))
    || (row.state.Queued? && Holds(disk, ReviewOf(row.path), row.hash))
  }

  /** A row the agent can vouch for: its hash was right when inserted, or was checked since. */
  predicate Trusted(matched: set<nat>, id: nat, row: Row) {
    id in matched || !row.state.Queued?
  }

  /** The other kind: the file changed between being hashed and being moved. It is kept as it is. */
  predicate Mislabelled(disk: Disk, row: Row) {
    row.state.Queued? && row.path in disk && !Holds(disk, row.path, row.hash)
  }

  ghost predicate RowShape(heard: set<FileStatus>, row: Row) {
    && (row.fileId.None? <==> row.state.Queued?)
    && (row.archivePath.Some? <==> row.state.ArchivePending?)
    && (row.state.Queued? ==> row.path.folder.Processing?)
    && (row.state.Server? || row.state.ArchivePending? ==>
          row.path.folder.Processing? || row.path.folder.Review?)
    && (row.archivePath.Some? ==> IsArchive(row.archivePath.value))
    && (row.state.LocalArchived? ==> IsArchive(row.path))
    && (row.state.ArchivePending? || row.state.LocalArchived? ==>
          exists reply :: reply in heard && TerminalFor(row, reply))
  }

  ghost predicate Shapes(heard: set<FileStatus>, t: Table) {
    forall i :: i in t ==> RowShape(heard, t[i])
  }

  ghost predicate UniquePaths(t: Table) {
    forall i, j :: i in t && j in t && t[i].path == t[j].path ==> i == j
  }

  ghost predicate Kept(disk: Disk, matched: set<nat>, t: Table, moving: Option<nat>) {
    forall i :: i in t && moving != Some(i) ==>
      if Trusted(matched, i, t[i]) then Located(disk, t[i]) else Mislabelled(disk, t[i])
  }

  /**
   When a queued row's file already sits in review under a name that is another
   row's path, that other row's own file is already in the archive: it will
   never move the one in review.
   */
  ghost predicate NoRivals(disk: Disk, matched: set<nat>, t: Table) {
    forall q, r :: q in t && r in t && q in matched && t[q].state.Queued?
      && !Holds(disk, t[q].path, t[q].hash) && t[r].path == ReviewOf(t[q].path)
      ==> t[r].archivePath.Some? && t[r].archivePath.value in disk
  }

  predicate Claims(row: Row, p: Path) {
    row.path == p || row.archivePath == Some(p)
  }

  ghost predicate ClaimedByOther(t: Table, id: nat, p: Path) {
    exists j :: j in t && j != id && Claims(t[j], p)
  }

  /** A planned archive path is free, or holds the row's own content, or is claimed twice. */
  ghost predicate PlansHold(disk: Disk, t: Table) {
    forall i :: i in t && t[i].archivePath.Some? && t[i].archivePath.value in disk ==>
      Holds(disk, t[i].archivePath.value, t[i].hash) || ClaimedByOther(t, i, t[i].archivePath.value)
  }

  function Rank(s: State): nat {
    match s
    case Queued => 0
    case Server(_) => 1
    case ArchivePending => 2
    case LocalArchived => 3
  }

  /** `later` is `row` after any number of steps forward. */
  predicate Advances(row: Row, later: Row) {
    && later.hash == row.hash
    && Rank(row.state) <= Rank(later.state)
    && (row.fileId.Some? ==> later.fileId == row.fileId)
    && (row.state.ArchivePending? ==>
          || (later.state.ArchivePending? && later.path == row.path && later.archivePath == row.archivePath)
          || (later.state.LocalArchived? && Some(later.path) == row.archivePath))
    && (row.state.LocalArchived? ==> later.path == row.path)
  }

  ghost predicate Evolves(t: Table, later: Table) {
    forall i :: i in t ==> i in later && Advances(t[i], later[i])
  }

  ghost predicate Sound(disk: Disk, heard: set<FileStatus>, matched: set<nat>, t: Table, moving: Option<nat>) {
    && Shapes(heard, t)
    && UniquePaths(t)
    && Kept(disk, matched, t, moving)
    && NoRivals(disk, matched, t)
    && PlansHold(disk, t)
  }

  ghost predicate Inv(w: World) {
    && Sound(w.disk, w.heard, w.matched, w.rows, w.moving)
    && Sound(w.disk, w.heard, w.matched, w.saved, None)
    && Evolves(w.saved, w.rows)
    && (w.moving.Some? ==>
          var m := w.moving.value;
          && m in w.rows && m in w.saved
          && w.rows[m].state.Server? && w.rows[m].path.folder.Processing?
          && Holds(w.disk, ReviewOf(w.rows[m].path), w.rows[m].hash))
  }

  // --- one step ---

  lemma TakeKeeps(w: World, from: Entry, to: Path, t: Table, moving: Option<nat>)
    requires Enabled(w, Take(from, to)) && Sound(w.disk, w.heard, w.matched, t, moving)
    ensures Sound(Apply(w, Take(from, to)).disk, w.heard, w.matched, t, moving)
  {}

  lemma HearKeeps(w: World, reply: FileStatus, t: Table, moving: Option<nat>)
    requires Sound(w.disk, w.heard, w.matched, t, moving)
    ensures Sound(w.disk, w.heard + {reply}, w.matched, t, moving)
  {}

  lemma HistoryOfOthers(w: World, matched: set<nat>, id: nat, t: Table, moving: Option<nat>)
    requires Sound(w.disk, w.heard, w.matched, t, moving)
    requires id !in t && forall i :: i != id ==> (i in matched <==> i in w.matched)
    ensures Sound(w.disk, w.heard, matched, t, moving)
  {}

  /** What the new version of one row has to satisfy for the whole table to stay sound. */
  ghost predicate FitsIn(w: World, t: Table, id: nat, row: Row, moving: Option<nat>) {
    && RowShape(w.heard, row)
    && (forall j :: j in t && j != id ==> t[j].path != row.path)
    && (moving != Some(id) ==>
          if Trusted(w.matched, id, row) then Located(w.disk, row) else Mislabelled(w.disk, row))
    && (id in t ==> forall p :: IsArchive(p) && Claims(t[id], p) ==> Claims(row, p))
    && (row.state.Queued? ==>
          || Holds(w.disk, row.path, row.hash)
          || id !in w.matched
          || (id in t && t[id].state.Queued? && t[id].path == row.path && t[id].hash == row.hash))
    && (row.path.folder.Review? ==>
          || (id in t && t[id].path == row.path
              && (t[id].archivePath.Some? ==> row.archivePath == t[id].archivePath))
          || (forall q :: q in t && q != id && t[q].state.Queued? ==> ReviewOf(t[q].path) != row.path))
    && (row.archivePath.Some? && row.archivePath.value in w.disk ==>
          || Holds(w.disk, row.archivePath.value, row.hash)
          || (id in t && t[id].archivePath == row.archivePath && t[id].hash == row.hash))
  }

  lemma RowChangeKeeps(w: World, t: Table, id: nat, row: Row, moving: Option<nat>, moving': Option<nat>)
    requires Sound(w.disk, w.heard, w.matched, t, moving)
    requires FitsIn(w, t, id, row, moving')
    requires moving' == moving || (moving == Some(id) && moving'.None?)
    ensures Sound(w.disk, w.heard, w.matched, t[id := row], moving')
  {
    RowChangeKeepsRivals(w, t, id, row, moving);
    RowChangeKeepsPlans(w, t, id, row, moving);
  }

  lemma RowChangeKeepsRivals(w: World, t: Table, id: nat, row: Row, moving: Option<nat>)
    requires Sound(w.disk, w.heard, w.matched, t, moving)
    requires FitsIn(w, t, id, row, None) || FitsIn(w, t, id, row, moving)
    ensures NoRivals(w.disk, w.matched, t[id := row])
  {}

  lemma RowChangeKeepsPlans(w: World, t: Table, id: nat, row: Row, moving: Option<nat>)
    requires Sound(w.disk, w.heard, w.matched, t, moving)
    requires FitsIn(w, t, id, row, None) || FitsIn(w, t, id, row, moving)
    ensures PlansHold(w.disk, t[id := row])
  {
    var t' := t[id := row];
    forall i | i in t' && t'[i].archivePath.Some? && t'[i].archivePath.value in w.disk
      ensures Holds(w.disk, t'[i].archivePath.value, t'[i].hash)
        || ClaimedByOther(t', i, t'[i].archivePath.value)
    {
      var p := t'[i].archivePath.value;
      assert IsArchive(p) by { if i != id { assert RowShape(w.heard, t[i]); } }
      if !Holds(w.disk, p, t'[i].hash) {
        assert ClaimedByOther(t, i, p);
        var j :| j in t && j != i && Claims(t[j], p);
        assert j in t' && Claims(t'[j], p);
      }
    }
  }

  lemma InsertKeeps(w: World, a: Action)
    requires Inv(w) && a.Insert? && Enabled(w, a)
    ensures Inv(Apply(w, a))
  {
    var matched := Apply(w, a).matched;
    var v := w.(matched := matched);
    HistoryOfOthers(w, matched, a.id, w.rows, w.moving);
    HistoryOfOthers(w, matched, a.id, w.saved, None);
    RowChangeKeeps(v, w.rows, a.id, Row(a.at, a.hash, None, Queued, None, 0, 0), None, None);
  }

  /** Replaces one row by a version that fits in and is a step forward. */
  lemma UpdateKeeps(w: World, id: nat, row: Row, moving: Option<nat>)
    requires Inv(w) && id in w.rows
    requires FitsIn(w, w.rows, id, row, moving) && Advances(w.rows[id], row)
    requires moving == w.moving || (w.moving == Some(id) && moving.None?)
    requires moving.None?
    ensures Inv(w.(rows := w.rows[id := row], moving := moving))
  {
    RowChangeKeeps(w, w.rows, id, row, w.moving, moving);
    forall i | i in w.saved ensures Advances(w.saved[i], w.rows[id := row][i]) {
      assert Advances(w.saved[i], w.rows[i]);
      if i == id { AdvancesTransitive(w.saved[i], w.rows[i], row); }
    }
  }

  lemma AdvancesTransitive(first: Row, second: Row, third: Row)
    requires Advances(first, second) && Advances(second, third)
    ensures Advances(first, third)
  {}

  lemma AcknowledgeKeeps(w: World, a: Action)
    requires Inv(w) && Enabled(w, a) && a.Acknowledge?
    ensures Inv(Apply(w, a))
  {
    var row := w.rows[a.id];
    assert RowShape(w.heard, row);
    UpdateKeeps(w, a.id, row.(fileId := Some(a.reply.id), state := Server(a.reply.state)), None);
  }

  lemma RepointKeeps(w: World, a: Action)
    requires Inv(w) && Enabled(w, a) && a.Repoint?
    ensures Inv(Apply(w, a))
  {
    var row := w.rows[a.id];
    var row' := row.(path := ReviewOf(row.path));
    assert RowShape(w.heard, row);
    forall q | q in w.rows && q != a.id && w.rows[q].state.Queued?
      ensures ReviewOf(w.rows[q].path) != row'.path
    {
      assert RowShape(w.heard, w.rows[q]);
    }
    UpdateKeeps(w, a.id, row', None);
  }

  lemma PostponeKeeps(w: World, a: Action)
    requires Inv(w) && Enabled(w, a) && a.Postpone?
    ensures Inv(Apply(w, a))
  {
    var row := w.rows[a.id];
    var row' := Apply(w, a).rows[a.id];
    assert RowShape(w.heard, row);
    if row.state.ArchivePending? || row.state.LocalArchived? {
      var reply :| reply in w.heard && TerminalFor(row, reply);
      assert TerminalFor(row', reply);
    }
    UpdateKeeps(w, a.id, row', None);
  }

  lemma PlanKeeps(w: World, a: Action)
    requires Inv(w) && Enabled(w, a) && a.Plan?
    ensures Inv(Apply(w, a))
  {
    var row := w.rows[a.id];
    var row' := row.(archivePath := Some(a.target), state := ArchivePending);
    assert RowShape(w.heard, row);
    assert TerminalFor(row', a.reply);
    UpdateKeeps(w, a.id, row', None);
  }

  lemma FinishKeeps(w: World, a: Action)
    requires Inv(w) && Enabled(w, a) && a.Finish?
    ensures Inv(Apply(w, a))
  {
    var row := w.rows[a.id];
    var row' := Row(row.archivePath.value, row.hash, row.fileId, LocalArchived, None, 0, 0);
    assert RowShape(w.heard, row);
    assert TerminalFor(row', a.reply);
    assert forall p :: IsArchive(p) && Claims(row, p) ==> Claims(row', p);
    UpdateKeeps(w, a.id, row', None);
  }

  lemma RefreshKeeps(w: World, a: Action)
    requires Inv(w) && Enabled(w, a) && a.Refresh?
    ensures Inv(Apply(w, a))
  {
    var row := w.rows[a.id];
    assert RowShape(w.heard, row);
    UpdateKeeps(w, a.id, row.(state := Server(a.reply.state)), None);
  }

  // --- the two renames of recorded files ---

  /** Nobody but `id` depends on the file at `from`, and `to` was free. */
  lemma RenameKeepsPlans(disk: Disk, heard: set<FileStatus>, t: Table, from: Path, to: Path)
    requires from in disk && to !in disk && !IsArchive(from)
    requires Shapes(heard, t) && PlansHold(disk, t)
    requires forall i :: i in t && t[i].archivePath == Some(to) ==>
      Sha256(disk[from].content) == t[i].hash || ClaimedByOther(t, i, to)
    ensures PlansHold(Rename(disk, from, to), t)
  {}

  lemma ToReviewKeeps(w: World, id: nat)
    requires Inv(w) && Enabled(w, ToReview(id))
    ensures Inv(Apply(w, ToReview(id)))
  {
    var w' := Apply(w, ToReview(id));
    var from, to := w.rows[id].path, ReviewOf(w.rows[id].path);
    assert RowShape(w.heard, w.rows[id]) && RowShape(w.heard, w.saved[id]);
    assert Advances(w.saved[id], w.rows[id]);
    RenameKeepsPlans(w.disk, w.heard, w.rows, from, to);
    RenameKeepsPlans(w.disk, w.heard, w.saved, from, to);
    ReviewMoveKeepsTable(w, id, w.rows, w'.moving);
    ReviewMoveKeepsTable(w, id, w.saved, None);
  }

  lemma ReviewMoveKeepsTable(w: World, id: nat, t: Table, moving: Option<nat>)
    requires Sound(w.disk, w.heard, w.matched, t, None)
    requires Enabled(w, ToReview(id)) && id in t && t[id].path == w.rows[id].path && t[id].hash == w.rows[id].hash
    requires moving == Some(id) || (moving.None? && t[id].state.Queued?)
    ensures Kept(Apply(w, ToReview(id)).disk, w.matched, t, moving)
    ensures NoRivals(Apply(w, ToReview(id)).disk, w.matched, t)
  {
    var disk' := Apply(w, ToReview(id)).disk;
    var from, to := t[id].path, ReviewOf(t[id].path);
    forall i | i in t && moving != Some(i)
      ensures if Trusted(w.matched, i, t[i]) then Located(disk', t[i]) else Mislabelled(disk', t[i])
    {
      assert RowShape(w.heard, t[i]);
      if i == id {
        assert Holds(disk', to, t[i].hash);
      } else {
        assert t[i].path != from;
      }
    }
    forall q, r | q in t && r in t && q in w.matched && t[q].state.Queued?
      && !Holds(disk', t[q].path, t[q].hash) && t[r].path == ReviewOf(t[q].path)
      ensures t[r].archivePath.Some? && t[r].archivePath.value in disk'
    {
      assert RowShape(w.heard, t[r]) && RowShape(w.heard, t[q]);
      if q == id {
        assert Located(w.disk, t[r]);
      } else {
        assert t[q].path != from;
      }
    }
  }

  lemma ToArchiveKeeps(w: World, id: nat)
    requires Inv(w) && Enabled(w, ToArchive(id))
    ensures Inv(Apply(w, ToArchive(id)))
  {
    var from, to := w.rows[id].path, w.rows[id].archivePath.value;
    assert RowShape(w.heard, w.rows[id]) && RowShape(w.heard, w.saved[id]);
    assert Advances(w.saved[id], w.rows[id]);
    ArchiveMoveKeepsTable(w, id, w.rows);
    ArchiveMoveKeepsTable(w, id, w.saved);
  }

  lemma ArchiveMoveKeepsTable(w: World, id: nat, t: Table)
    requires Sound(w.disk, w.heard, w.matched, t, None)
    requires Enabled(w, ToArchive(id)) && id in t && t[id].state.ArchivePending?
    requires t[id].path == w.rows[id].path && t[id].hash == w.rows[id].hash
    requires t[id].archivePath == w.rows[id].archivePath
    ensures Sound(Apply(w, ToArchive(id)).disk, w.heard, w.matched, t, None)
  {
    var disk' := Apply(w, ToArchive(id)).disk;
    var from, to := t[id].path, t[id].archivePath.value;
    assert RowShape(w.heard, t[id]);
    assert forall i :: i in t && i != id && t[i].archivePath == Some(to) ==> Claims(t[id], to);
    RenameKeepsPlans(w.disk, w.heard, t, from, to);
    forall i | i in t
      ensures if Trusted(w.matched, i, t[i]) then Located(disk', t[i]) else Mislabelled(disk', t[i])
    {
      assert RowShape(w.heard, t[i]);
      if i == id {
        assert Holds(disk', to, t[i].hash);
      } else {
        assert t[i].path != from;
        if t[i].state.Queued? && i in w.matched && !Holds(w.disk, t[i].path, t[i].hash) {
          assert ReviewOf(t[i].path) != from;
        }
      }
    }
  }

  lemma InboxKeeps(w: World, a: Action)
    requires Inv(w) && Enabled(w, a) && (a.Take? || a.Outside?)
    ensures Inv(Apply(w, a))
  {
    hide Sound;
    if a.Take? {
      TakeKeeps(w, a.from, a.to, w.rows, w.moving);
      TakeKeeps(w, a.from, a.to, w.saved, None);
    }
  }

  lemma HistoryKeeps(w: World, a: Action)
    requires Inv(w) && Enabled(w, a) && (a.Commit? || a.Crash? || a.Hear?)
    ensures Inv(Apply(w, a))
  {
    hide Sound;
    if a.Hear? {
      HearKeeps(w, a.reply, w.rows, w.moving);
      HearKeeps(w, a.reply, w.saved, None);
    }
  }

  lemma StepKeeps(w: World, a: Action)
    requires Inv(w) && Enabled(w, a)
    ensures Inv(Apply(w, a))
  {
    hide Inv, Enabled, Apply;
    match a {
      case Outside(_) => InboxKeeps(w, a);
      case Take(_, _) => InboxKeeps(w, a);
      case Insert(_, _, _) => InsertKeeps(w, a);
      case Commit => HistoryKeeps(w, a);
      case Hear(_) => HistoryKeeps(w, a);
      case Crash => HistoryKeeps(w, a);
      case ToReview(id) => ToReviewKeeps(w, id);
      case ToArchive(id) => ToArchiveKeeps(w, id);
      case Acknowledge(_, _) => AcknowledgeKeeps(w, a);
      case Repoint(_) => RepointKeeps(w, a);
      case Postpone(_, _) => PostponeKeeps(w, a);
      case Plan(_, _, _) => PlanKeeps(w, a);
      case Finish(_, _, _) => FinishKeeps(w, a);
      case Refresh(_, _) => RefreshKeeps(w, a);
    }
  }

  lemma {:induction false} RunKeeps(w: World, acts: seq<Action>)
    requires Inv(w) && Legal(w, acts)
    ensures Inv(Exec(w, acts))
    decreases |acts|
  {
    if acts != [] {
      var init := acts[..|acts| - 1];
      RunKeeps(w, init);
      StepKeeps(Exec(w, init), acts[|acts| - 1]);
    }
  }
}
