/**
 The promises of the agent over whole runs: nothing recorded is lost, contents
 are conserved, rows only move forward, and an interrupted archive finishes at
 its first planned destination.
 */
module AgentRuns {
  import opened Common
  import opened AgentWorld
  import opened AgentSafety

  /** Every world of every run satisfies the invariant. */
  lemma Reachable(w: World, acts: seq<Action>)
    requires Fresh(w) && Legal(w, acts)
    ensures Inv(Exec(w, acts))
  {
    RunKeeps(w, acts);
  }

  /**
   In any run, with any interference in the inbox and deaths anywhere: the file of
   a committed row is on disk, at one of its three places, exactly when the hash
   recorded for it was that of the file that was moved, or has been checked since,
   or a file of that very content sits in review under its name. The remaining
   rows are still queued and their file, unlike its recorded hash, stays in place.
   */
  lemma NothingLost(w: World, acts: seq<Action>, id: nat)
    requires Fresh(w) && Legal(w, acts) && id in Exec(w, acts).saved
    ensures var v := Exec(w, acts); var row := v.saved[id];
      && (Located(v.disk, row) <==>
            Trusted(v.matched, id, row) || Holds(v.disk, ReviewOf(row.path), row.hash))
      && (Trusted(v.matched, id, row) || Mislabelled(v.disk, row))
  {
    Reachable(w, acts);
    var v := Exec(w, acts);
    assert RowShape(v.heard, v.saved[id]);
  }

  /** The race exists: a file rewritten between its hashing and its move is recorded under a lost hash. */
  lemma InboxRace()
    ensures exists w, acts ::
      && Fresh(w) && Legal(w, acts)
      && 0 in Exec(w, acts).saved && !Located(Exec(w, acts).disk, Exec(w, acts).saved[0])
  {
    var entry, queued := Entry("prices", "a.csv"), Path(Processing, "x-a.csv");
    var w := World(map[], map[], map[], map[], None, {}, {});
    var a0, a1 := Outside(map[entry := File([1], 0)]), Outside(map[entry := File([2], 0)]);
    var a2, a3, a4 := Take(entry, queued), Insert(0, queued, Sha256([1])), Commit;
    hide Exec, Legal;
    var w1 := w.(inbox := map[entry := File([2], 0)]);
    assert entry in w1.inbox && w1.inbox[entry].content == [2];
    NoActions(w);
    ThenOne(w, [], a0);
    ThenOne(w, [] + [a0], a1);
    ThenOne(w, [] + [a0] + [a1], a2);
    ThenOne(w, [] + [a0] + [a1] + [a2], a3);
    ThenOne(w, [] + [a0] + [a1] + [a2] + [a3], a4);
    var w4 := Exec(w, [] + [a0] + [a1] + [a2] + [a3] + [a4]);
    assert w4.saved == map[0 := Row(queued, Sha256([1]), None, Queued, None, 0, 0)];
    assert w4.disk == map[queued := File([2], 0)];
    var before: Bytes, after: Bytes := [1], [2];
    assert before[0] != after[0] && Sha256(before) != Sha256(after);
    assert !Located(w4.disk, w4.saved[0]);
  }

  // --- conservation ---

  /** The places at which a given content lies. */
  function CopiesOf<P>(files: map<P, File>, content: Bytes): set<P> {
    set p | p in files && files[p].content == content
  }

  function Copies(w: World, content: Bytes): nat {
    |CopiesOf(w.inbox, content)| + |CopiesOf(w.disk, content)|
  }

  lemma RemoveCopy<P>(files: map<P, File>, p: P, content: Bytes)
    requires p in files
    ensures |CopiesOf(files - {p}, content)|
      == |CopiesOf(files, content)| - (if files[p].content == content then 1 else 0)
  {
    if files[p].content == content {
      assert CopiesOf(files - {p}, content) == CopiesOf(files, content) - {p};
    } else {
      assert CopiesOf(files - {p}, content) == CopiesOf(files, content);
    }
  }

  lemma AddCopy<P>(files: map<P, File>, p: P, f: File, content: Bytes)
    requires p !in files
    ensures |CopiesOf(files[p := f], content)|
      == |CopiesOf(files, content)| + (if f.content == content then 1 else 0)
  {
    if f.content == content {
      assert CopiesOf(files[p := f], content) == CopiesOf(files, content) + {p};
    } else {
      assert CopiesOf(files[p := f], content) == CopiesOf(files, content);
    }
  }

  lemma RenameConserves(disk: Disk, from: Path, to: Path, content: Bytes)
    requires from in disk && to !in disk
    ensures |CopiesOf(Rename(disk, from, to), content)| == |CopiesOf(disk, content)|
  {
    RemoveCopy(disk, from, content);
    AddCopy(disk - {from}, to, disk[from], content);
  }

  /** How often the outsiders put a content into the inbox during a run. */
  ghost function Added(acts: seq<Action>, content: Bytes): nat {
    if acts == [] then 0
    else
      var a := acts[|acts| - 1];
      Added(acts[..|acts| - 1], content) + (if a.Outside? then |CopiesOf(a.inbox, content)| else 0)
  }

  /** How often they took it out again. */
  ghost function Removed(w: World, acts: seq<Action>, content: Bytes): nat {
    if acts == [] then 0
    else
      var init := acts[..|acts| - 1];
      Removed(w, init, content) +
      (if acts[|acts| - 1].Outside? then |CopiesOf(Exec(w, init).inbox, content)| else 0)
  }

  lemma StepConserves(w: World, a: Action, content: Bytes)
    requires Enabled(w, a) && !a.Outside?
    ensures Copies(Apply(w, a), content) == Copies(w, content)
  {
    match a {
      case Take(from, to) =>
        RemoveCopy(w.inbox, from, content);
        AddCopy(w.disk, to, w.inbox[from], content);
      case ToReview(id) => RenameConserves(w.disk, w.rows[id].path, ReviewOf(w.rows[id].path), content);
      case ToArchive(id) => RenameConserves(w.disk, w.rows[id].path, w.rows[id].archivePath.value, content);
      case _ =>
    }
  }

  /**
   The agent neither creates nor destroys a copy of any content, dying or not:
   the number of files holding it changes only by what outsiders add and remove.
   */
  lemma {:induction false} Conservation(w: World, acts: seq<Action>, content: Bytes)
    requires Legal(w, acts)
    ensures Copies(Exec(w, acts), content) + Removed(w, acts, content)
      == Copies(w, content) + Added(acts, content)
    decreases |acts|
  {
    if acts != [] {
      var init, a := acts[..|acts| - 1], acts[|acts| - 1];
      Conservation(w, init, content);
      if !a.Outside? {
        StepConserves(Exec(w, init), a, content);
      }
    }
  }

  // --- rows over time ---

  lemma StepEvolves(w: World, a: Action)
    requires Evolves(w.saved, w.rows) && Enabled(w, a)
    ensures Evolves(w.saved, Apply(w, a).saved)
  {
    assert a.Commit? || Apply(w, a).saved == w.saved;
    if !a.Commit? {
      forall i | i in w.saved ensures Advances(w.saved[i], w.saved[i]) {}
    }
  }

  /** A committed row is never dropped, and every later version of it is a step forward. */
  lemma {:induction false} RowsAdvance(w: World, acts: seq<Action>)
    requires Inv(w) && Legal(w, acts)
    ensures Evolves(w.saved, Exec(w, acts).saved)
    decreases |acts|
  {
    if acts != [] {
      var init, a := acts[..|acts| - 1], acts[|acts| - 1];
      RowsAdvance(w, init);
      RunKeeps(w, init);
      StepEvolves(Exec(w, init), a);
      var s1, s2 := Exec(w, init).saved, Exec(w, acts).saved;
      forall i | i in w.saved ensures i in s2 && Advances(w.saved[i], s2[i]) {
        AdvancesTransitive(w.saved[i], s1[i], s2[i]);
      }
    }
  }

  /** The columns agree with the state, and nothing is archived without the server's word for that very file. */
  lemma RowColumns(w: World, acts: seq<Action>, id: nat)
    requires Fresh(w) && Legal(w, acts) && id in Exec(w, acts).saved
    ensures var v := Exec(w, acts); var row := v.saved[id];
      && (row.fileId.None? <==> row.state.Queued?)
      && (row.archivePath.Some? <==> row.state.ArchivePending?)
      && (row.state.LocalArchived? ==>
            && IsArchive(row.path) && Holds(v.disk, row.path, row.hash)
            && exists reply :: reply in v.heard && reply.state.Terminal()
                 && reply.hash == row.hash && row.fileId == Some(reply.id))
  {
    Reachable(w, acts);
    var v := Exec(w, acts);
    assert RowShape(v.heard, v.saved[id]);
  }
}
