/**
 The agent itself: an object that updates the files below its root, its SQLite
 table and its observations in place. `log` records every atomic action in
 order; each method states exactly which actions it adds, so everything proved
 about runs holds at every instant of every method, including the ones at which
 the process may die.
 */
module LocalAgent {
  import opened Common
  import opened AgentWorld
  import opened AgentSafety
  import opened AgentRuns
  import opened AgentScripts

  class Agent {
    var inbox: Inbox
    var disk: Disk
    var rows: Table
    var saved: Table
    var observed: map<Entry, Stamp>
    var errors: nat
    const archiveProcessed: bool

    ghost var moving: Option<nat>
    ghost var heard: set<FileStatus>
    ghost var matched: set<nat>
    ghost const begun: World
    ghost var log: seq<Action>

    ghost function Snapshot(): World
      reads this
    {
      World(inbox, disk, rows, saved, moving, heard, matched)
    }

    /** Row ids are given out in order and no row is ever deleted. */
    static predicate Numbered(t: Table) {
      forall i :: i in t ==> i < |t|
    }

    ghost predicate Valid()
      reads this
    {
      && Fresh(begun) && Legal(begun, log) && Exec(begun, log) == Snapshot()
      && Numbered(rows) && Numbered(saved)
    }

    /** Between two rows of a loop: no rename is half recorded. */
    ghost predicate Ready()
      reads this
    {
      Valid() && moving.None?
    }

    ghost predicate PlansCommitted()
      reads this
    {
      PlansIn(rows, saved)
    }

    constructor (inbox: Inbox, disk: Disk, archiveProcessed: bool)
      ensures Ready() && log == [] && rows == saved == map[] && this.disk == disk && this.inbox == inbox
    {
      this.inbox := inbox;
      this.disk, this.rows, this.saved := disk, map[], map[];
      this.observed, this.errors, this.archiveProcessed := map[], 0, archiveProcessed;
      this.moving, this.heard, this.matched := None, {}, {};
      this.begun, this.log := World(inbox, disk, map[], map[], None, {}, {}), [];
    }

    // --- the primitive effects ---

    method Outsiders(entries: Inbox)
      requires Valid()
      modifies `inbox, `log
      ensures Valid() && log == old(log) + [Outside(entries)] && inbox == entries
    {
      ThenOne(begun, log, Outside(entries));
      inbox := entries;
      log := log + [Outside(entries)];
    }

    /** `path.rename(target)` out of the inbox. */
    method MoveIn(from: Entry, to: Path)
      requires Valid() && Enabled(Snapshot(), Take(from, to))
      modifies `inbox, `disk, `log
      ensures Valid() && log == old(log) + [Take(from, to)]
      ensures inbox == old(inbox) - {from} && disk == old(disk)[to := old(inbox)[from]]
    {
      ThenOne(begun, log, Take(from, to));
      disk := disk[to := inbox[from]];
      inbox := inbox - {from};
      log := log + [Take(from, to)];
    }

    /** The other renames; the ghost argument says which of the two it is. */
    method Move(from: Path, to: Path, ghost a: Action)
      requires Valid() && Enabled(Snapshot(), a) && from in disk
      requires (a.ToReview? && from == rows[a.id].path && to == ReviewOf(from))
        || (a.ToArchive? && from == rows[a.id].path && Some(to) == rows[a.id].archivePath)
      modifies `disk, `moving, `log
      ensures Valid() && log == old(log) + [a] && Snapshot() == Apply(old(Snapshot()), a)
      ensures disk == Rename(old(disk), from, to)
    {
      ThenOne(begun, log, a);
      disk := Rename(disk, from, to);
      moving := if a.ToReview? then Some(a.id) else moving;
      log := log + [a];
    }

    /** One INSERT or UPDATE of one row, in the open transaction. */
    method Execute(id: nat, row: Row, ghost a: Action, ghost after: World)
      requires Valid() && Enabled(Snapshot(), a) && Apply(Snapshot(), a) == after
      requires id in rows || id == |rows|
      requires after == Snapshot().(rows := rows[id := row], moving := after.moving, matched := after.matched)
      modifies `rows, `moving, `matched, `log
      ensures Valid() && log == old(log) + [a] && Snapshot() == after
    {
      ThenOne(begun, log, a);
      StaysNumbered(rows, id, row);
      rows := rows[id := row];
      moving, matched := after.moving, after.matched;
      log := log + [a];
    }

    static lemma StaysNumbered(t: Table, id: nat, row: Row)
      requires Numbered(t) && (id in t || id == |t|)
      ensures Numbered(t[id := row])
      ensures |t[id := row]| == if id in t then |t| else |t| + 1
    {
      assert t[id := row].Keys == t.Keys + {id};
    }

    method CommitTransaction()
      requires Ready()
      modifies `saved, `log
      ensures Ready() && log == old(log) + [Commit] && saved == rows
    {
      ThenOne(begun, log, Commit);
      saved := rows;
      log := log + [Commit];
    }

    method Receive(reply: FileStatus)
      requires Ready()
      modifies `heard, `log
      ensures Ready() && log == old(log) + [Hear(reply)] && heard == old(heard) + {reply}
    {
      ThenOne(begun, log, Hear(reply));
      heard := heard + {reply};
      log := log + [Hear(reply)];
    }

    /** An uncaught `sqlite3.IntegrityError`, or any other end of the process, and the next start. */
    method Die()
      requires Valid()
      modifies `rows, `moving, `observed, `errors, `log
      ensures Ready() && log == old(log) + [Crash] && rows == saved && observed == map[] && errors == 0
    {
      ThenOne(begun, log, Crash);
      rows, observed, errors := saved, map[], 0;
      moving := None;
      log := log + [Crash];
    }

    // --- scan ---

    /** The file's move into processing and its new row. */
    method Enqueue(p: Entry, target: Path, hash: Digest) returns (outcome: Outcome)
      requires Ready() && p in inbox && target.folder.Processing? && target !in disk
      modifies this
      ensures Ready() && inbox == old(inbox) - {p} && disk == old(disk)[target := old(inbox)[p]]
      ensures var s := old(EnqueueScript(rows, p, target, hash, |rows|));
        log == old(log) + s.acts && outcome == s.outcome
      ensures outcome.Died? || (observed == old(observed) && errors == old(errors))
      ensures !outcome.Died? ==>
        rows == saved == old(rows)[|old(rows)| := Row(target, hash, None, Queued, None, 0, 0)]
      ensures !outcome.Died? ==> (|old(rows)| in matched <==> Sha256(old(inbox)[p].content) == hash)
    {
      hide Legal, Exec;
      MoveIn(p, target);
      if PathTaken(rows, target) {
        Die();
        return Died;
      }
      var row := Row(target, hash, None, Queued, None, 0, 0);
      ghost var insert := Insert(|rows|, target, hash);
      Execute(|rows|, row, insert, Apply(Snapshot(), insert));
      CommitTransaction();
      return Done;
    }

    method Relocate(p: Entry, target: Path, hash: Digest, m: Moments) returns (outcome: Outcome)
      requires Ready() && target.folder.Processing? && target !in disk
      modifies this
      ensures Ready()
      ensures var s := old(RelocateScript(rows, p, target, hash, m, |rows|));
        log == old(log) + s.acts && outcome == s.outcome
      ensures outcome.Died? || (observed == old(observed) && errors == old(errors))
      ensures rows == old(rows) || outcome.Died? || Queues(p, hash, m, |old(rows)|)
    {
      hide Legal, Exec, Enabled, Apply, EnqueueScript;
      Outsiders(m.move);
      if p !in inbox { return Raised; }
      outcome := Enqueue(p, target, hash);
    }

    /** Chooses the name of a hashed file and moves it. */
    method Place(p: Entry, hash: Digest, m: Moments, names: Naming) returns (outcome: Outcome)
      requires Ready() && names.ByTime(p) !in disk
      modifies this
      ensures Ready()
      ensures var sight := old(PlaceScript(disk, rows, p, hash, m, names, |rows|));
        && log == old(log) + sight.acts && outcome == sight.outcome
        && (outcome.Died? || (observed == old(observed)
              && errors == old(errors) + (if sight.collided then 1 else 0)))
      ensures rows == old(rows) || outcome.Died? || Queues(p, hash, m, |old(rows)|)
    {
      hide Legal, Exec, Enabled, Apply, RelocateScript, EnqueueScript;
      var target := names.ByDigest(hash, p);
      if target in disk {
        if !Holds(disk, target, hash) {
          errors := errors + 1;
          return Done;
        }
        target := names.ByTime(p);
      }
      outcome := Relocate(p, target, hash, m);
    }

    /** Reads a stable file, checks it once more and moves it. */
    method TakeStable(p: Entry, stamp: Stamp, m: Moments, names: Naming) returns (outcome: Outcome)
      requires Ready() && p in inbox && names.ByTime(p) !in disk
      modifies this
      ensures Ready()
      ensures var sight := old(ReadScript(disk, rows, p, stamp, m, names, |rows|));
        && log == old(log) + sight.acts && outcome == sight.outcome
        && (outcome.Died? || (observed == old(observed)
              && errors == old(errors) + (if sight.collided then 1 else 0)))
      ensures rows == old(rows) || outcome.Died?
        || (p in m.read && Queues(p, Sha256(m.read[p].content), m, |old(rows)|))
    {
      hide Legal, Exec, Enabled, Apply, PlaceScript, RelocateScript, EnqueueScript;
      Outsiders(m.read);
      if p !in inbox { return Raised; }
      var content := inbox[p].content;
      Outsiders(m.restat);
      assert log == old(log) + [Outside(m.read), Outside(m.restat)];
      if p !in inbox { return Raised; }
      if StampOf(inbox[p]) != stamp { return Done; }
      outcome := Place(p, Sha256(content), m, names);
    }

    /**
     Row `id` is new and committed, its file is the one that was moved, and it counts
     as matched exactly when that file is still the one that was hashed.
     */
    ghost predicate Queues(p: Entry, hash: Digest, m: Moments, id: nat)
      reads this
    {
      && rows == saved && id in rows && rows[id].path in disk
      && p in m.move && disk[rows[id].path] == m.move[p] && p !in inbox
      && rows[id].hash == hash && (id in matched <==> Sha256(m.move[p].content) == hash)
    }

    method ScanFile(p: Entry, m: Moments, names: Naming) returns (outcome: Outcome)
      requires Ready() && names.ByTime(p) !in disk
      modifies this
      ensures Ready()
      ensures var seen := old(ScanFileScript(Snapshot(), observed, p, m, names, |rows|));
        && log == old(log) + seen.script.acts && outcome == seen.script.outcome
        && (outcome.Died? || (observed == seen.observed
              && errors == old(errors) + (if seen.collided then 1 else 0)))
      ensures rows == old(rows) || outcome.Died?
        || (p in m.read && Queues(p, Sha256(m.read[p].content), m, |old(rows)|))
    {
      hide Legal, Exec, Enabled, Apply, ReadScript, PlaceScript, RelocateScript, EnqueueScript;
      Outsiders(m.stat);
      if p !in inbox { return Done; }
      var stamp := StampOf(inbox[p]);
      var stable := Stable(observed, p, stamp);
      observed := observed[p := stamp];
      if !stable { return Done; }
      outcome := TakeStable(p, stamp, m, names);
    }

    /** The agent's state is where the actions logged since `was` lead. */
    lemma Since(was: World, earlier: seq<Action>, acts: seq<Action>)
      requires Valid() && log == earlier + acts && Exec(begun, earlier) == was
      ensures Snapshot() == Exec(was, acts)
    {
      ExecAppend(begun, earlier, acts);
    }

    /** The loop over the inbox. */
    method SweepInbox(visits: seq<Visit>) returns (outcome: Outcome)
      requires Ready() && FreshNames(Snapshot(), observed, visits)
      modifies this
      ensures Ready()
      ensures var sweep := old(InboxSweep(Snapshot(), observed, visits));
        && log == old(log) + sweep.acts && outcome == sweep.outcome
        && (outcome.Died? || (observed == sweep.observed && errors == old(errors) + sweep.collisions))
    {
      hide Legal, Exec, Enabled, Apply, ScanFileScript, InboxSweep;
      ghost var was, earlier, seen := Snapshot(), log, observed;
      outcome := Done;
      var k := 0;
      assert visits[..k] == [];
      InboxSweepEmpty(was, seen);
      while k < |visits|
        invariant 0 <= k <= |visits| && Ready()
        invariant var sweep := InboxSweep(was, seen, visits[..k]);
          && log == earlier + sweep.acts && outcome == sweep.outcome && outcome.Done?
          && observed == sweep.observed && errors == old(errors) + sweep.collisions
      {
        ghost var sweep := InboxSweep(was, seen, visits[..k]);
        Since(was, earlier, sweep.acts);
        InboxSweepStep(was, seen, visits, k, Snapshot());
        outcome := ScanFile(visits[k].entry, visits[k].moments, visits[k].names);
        k := k + 1;
        if !outcome.Done? {
          InboxSweepStops(was, seen, visits, k);
          return;
        }
      }
      assert visits[..k] == visits;
    }

    /** `INSERT OR IGNORE` of a file found in processing. */
    method Adopt(p: Path)
      requires Ready() && p.folder.Processing?
      modifies this
      ensures Ready() && unchanged(`observed, `errors, `disk, `inbox)
      ensures log == old(log) + old(AdoptScript(disk, rows, p))
      ensures forall q :: old(PathTaken(rows, q)) || (q == p && q in disk) ==> PathTaken(rows, q)
    {
      hide Legal, Exec;
      if p in disk && !PathTaken(rows, p) {
        var row := Row(p, Sha256(disk[p].content), None, Queued, None, 0, 0);
        ghost var taken, id := rows, |rows|;
        ghost var insert := Insert(|rows|, p, row.hash);
        Execute(|rows|, row, insert, Apply(Snapshot(), insert));
        assert rows[id].path == p;
        forall q | PathTaken(taken, q) ensures PathTaken(rows, q) {
          var i :| i in taken && taken[i].path == q;
          assert i in rows && rows[i].path == q;
        }
      }
    }

    /** Recovery of files moved immediately before an interrupted queue commit. */
    method AdoptProcessing(listing: seq<Path>)
      requires Ready() && forall k :: 0 <= k < |listing| ==> listing[k].folder.Processing?
      modifies this
      ensures Ready() && rows == saved && unchanged(`observed, `errors, `disk, `inbox)
      ensures log == old(log) + old(AdoptSweep(Snapshot(), listing)) + [Commit]
      ensures forall k :: 0 <= k < |listing| && listing[k] in disk ==> PathTaken(rows, listing[k])
    {
      hide Legal, Exec, Enabled, Apply, AdoptScript, PathTaken;
      ghost var was, earlier := Snapshot(), log;
      var k := 0;
      while k < |listing|
        invariant 0 <= k <= |listing| && Ready() && unchanged(`observed, `errors, `disk, `inbox)
        invariant log == earlier + AdoptSweep(was, listing[..k])
        invariant forall j :: 0 <= j < k && listing[j] in disk ==> PathTaken(rows, listing[j])
      {
        Since(was, earlier, AdoptSweep(was, listing[..k]));
        assert listing[..k + 1][..k] == listing[..k];
        Adopt(listing[k]);
        k := k + 1;
      }
      assert listing[..k] == listing;
      CommitTransaction();
    }

    method Scan(visits: seq<Visit>, listing: seq<Path>) returns (outcome: Outcome)
      requires Ready() && FreshNames(Snapshot(), observed, visits)
      requires forall k :: 0 <= k < |listing| ==> listing[k].folder.Processing?
      modifies this
      ensures Ready()
      ensures var sweep := old(InboxSweep(Snapshot(), observed, visits));
        && outcome == sweep.outcome
        && log == old(log) + sweep.acts + if sweep.outcome.Done?
             then old(AdoptSweep(Exec(Snapshot(), InboxSweep(Snapshot(), observed, visits).acts), listing)) + [Commit]
             else []
      ensures outcome.Done? ==>
        rows == saved && forall k :: 0 <= k < |listing| && listing[k] in disk ==> PathTaken(saved, listing[k])
    {
      hide Legal, Exec, Enabled, Apply;
      ghost var was, earlier := Snapshot(), log;
      outcome := SweepInbox(visits);
      if !outcome.Done? { return; }
      ghost var acts := log[|earlier|..];
      Since(was, earlier, acts);
      AdoptProcessing(listing);
    }

    // --- upload ---

    /** A handled failure: count it and try again later. */
    method Retry(id: nat, now: int)
      requires Ready() && id in rows
      modifies this
      ensures Ready() && unchanged(`observed, `disk, `inbox, `saved, `heard) && errors == old(errors) + 1
      ensures log == old(log) + [Postpone(id, now)]
      ensures rows == old(rows)[id := Retried(old(rows)[id], now)]
      ensures OnlyTouched(old(rows), rows, id) && rows[id].attempts == old(rows)[id].attempts + 1
    {
      hide Legal, Exec;
      errors := errors + 1;
      ghost var a := Postpone(id, now);
      Execute(id, Retried(rows[id], now), a, Apply(Snapshot(), a));
    }

    /** A file the server has not finished with waits in review, unless its name is taken there. */
    method FileForReview(id: nat, e: UploadEvent) returns (outcome: Outcome)
      requires Ready() && id in rows && rows[id].state.Server? && !rows[id].state.state.Terminal()
      requires id in saved && saved[id].state.Queued? && saved[id].path == rows[id].path
      requires rows[id].path.folder.Processing? && Holds(disk, rows[id].path, rows[id].hash)
      modifies this
      ensures Ready()
      ensures var s := old(ReviewScript(disk, rows, id, e)); log == old(log) + s.acts && outcome == s.outcome
      ensures !outcome.Raised? && (outcome.Died? ==> rows == saved == old(saved))
      ensures outcome.Done? ==>
        && saved == old(saved) && id in rows && Holds(disk, rows[id].path, rows[id].hash)
        && (forall j :: j in old(rows) && j != id ==> j in rows && rows[j] == old(rows)[j])
        && rows.Keys == old(rows).Keys
        && rows[id].path == (if ReviewOf(old(rows)[id].path) in old(disk) || e.moveFails
                             then old(rows)[id].path else ReviewOf(old(rows)[id].path))
        && rows[id].fileId == old(rows)[id].fileId && rows[id].state == old(rows)[id].state
        && rows[id].hash == old(rows)[id].hash
    {
      hide Legal, Exec;
      var path := rows[id].path;
      var destination := ReviewOf(path);
      if destination in disk { return Done; }
      if e.moveFails {
        Retry(id, e.now);
        return Done;
      }
      Move(path, destination, ToReview(id));
      if PathTaken(rows, destination) {
        Die();
        return Died;
      }
      Execute(id, rows[id].(path := destination), Repoint(id), Apply(Snapshot(), Repoint(id)));
      return Done;
    }

    lemma ShapeOf(id: nat)
      requires Valid() && id in rows
      ensures RowShape(heard, rows[id])
    {
      Reachable(begun, log);
    }

    /** The server took the file: record it, file it, commit. */
    method RecordUpload(id: nat, e: UploadEvent) returns (outcome: Outcome)
      requires Ready() && rows == saved && id in rows && rows[id].state.Queued?
      requires rows[id].path.folder.Processing? && Hyphenated(rows[id].path)
      requires Accepted(rows[id], disk, e) && e.answer.value in heard
      modifies this
      ensures Ready() && rows == saved
      ensures var s := old(RecordScript(disk, rows, id, e)); log == old(log) + s.acts && outcome == s.outcome
      ensures outcome.Died? ==> rows == old(rows)
      ensures outcome.Done? ==>
        && rows.Keys == old(rows).Keys
        && (forall j :: j in old(rows) && j != id ==> rows[j] == old(rows)[j])
        && rows[id].fileId == Some(e.answer.value.id) && rows[id].state == Server(e.answer.value.state)
        && rows[id].hash == old(rows)[id].hash && Holds(disk, rows[id].path, rows[id].hash)
    {
      hide Legal, Exec, ReviewScript;
      var reply := e.answer.value;
      ghost var a := Acknowledge(id, reply);
      var row := rows[id].(fileId := Some(reply.id), state := Server(reply.state));
      Execute(id, row, a, Apply(Snapshot(), a));
      if !reply.state.Terminal() {
        outcome := FileForReview(id, e);
        if outcome.Died? { return; }
      }
      CommitTransaction();
      return Done;
    }

    /** The loop body of `upload`. */
    method UploadRow(id: nat, e: UploadEvent) returns (outcome: Outcome)
      requires Ready() && rows == saved && id in rows && rows[id].state.Queued?
      modifies this
      ensures Ready() && rows == saved
      ensures var s := old(UploadScript(disk, rows, id, e)); log == old(log) + s.acts && outcome == s.outcome
      ensures outcome.Died? ==> rows == old(rows)
      ensures outcome.Done? ==>
        rows.Keys == old(rows).Keys
        && forall j :: j in old(rows) && j != id ==> rows[j] == old(rows)[j]
      ensures old(Holds(disk, rows[id].path, rows[id].hash) && !Hyphenated(rows[id].path)) ==> outcome.Died?
      ensures outcome.Done? && !old(Accepted(rows[id], disk, e)) ==>
        && disk == old(disk) && rows[id].state.Queued? && rows[id].path == old(rows)[id].path
        && rows[id].attempts == old(rows)[id].attempts + 1
      ensures outcome.Done? && old(Accepted(rows[id], disk, e)) ==>
        && rows[id].fileId == Some(e.answer.value.id) && rows[id].state == Server(e.answer.value.state)
        && rows[id].hash == old(rows)[id].hash && Holds(disk, rows[id].path, rows[id].hash)
    {
      hide Legal, Exec, Enabled, Apply, RecordScript;
      assert rows[id].path.folder.Processing? by { ShapeOf(id); }
      if !Holds(disk, rows[id].path, rows[id].hash) {
        Retry(id, e.now);
        CommitTransaction();
        return Done;
      }
      if !Hyphenated(rows[id].path) {
        // An uncaught IndexError.
        Die();
        return Died;
      }
      if e.answer.None? {
        Retry(id, e.now);
        CommitTransaction();
        return Done;
      }
      Receive(e.answer.value);
      if e.answer.value.hash != rows[id].hash || e.answer.value.state.UPLOAD_FAILED? {
        Retry(id, e.now);
        CommitTransaction();
        return Done;
      }
      outcome := RecordUpload(id, e);
    }

    /** `upload`: every queued row whose time has come, in the order SQLite returns them. */
    method Upload(order: seq<nat>, events: seq<UploadEvent>, now: int) returns (outcome: Outcome)
      requires Ready() && rows == saved && |events| == |order|
      requires forall id :: id in order <==> id in rows && NeedsUpload(rows[id], now)
      requires forall j, k :: 0 <= j < k < |order| ==> order[j] != order[k]
      modifies this
      ensures Ready() && rows == saved
      ensures var s := old(UploadSweep(Snapshot(), order, events)); log == old(log) + s.acts && outcome == s.outcome
      ensures outcome.Done? ==>
        rows.Keys == old(rows).Keys && forall id :: id in rows && id !in order ==> rows[id] == old(rows)[id]
    {
      hide Legal, Exec, Enabled, Apply, UploadScript, UploadSweep, Accepted;
      ghost var was, earlier := Snapshot(), log;
      outcome := Done;
      UploadSweepEmpty(was);
      var k := 0;
      while k < |order|
        invariant 0 <= k <= |order| && Ready() && rows == saved && outcome.Done?
        invariant var s := UploadSweep(was, order[..k], events[..k]); log == earlier + s.acts && s.outcome.Done?
        invariant rows.Keys == was.rows.Keys
        invariant forall id :: id in rows && id !in order ==> rows[id] == was.rows[id]
        invariant forall j :: k <= j < |order| ==> order[j] in rows && rows[order[j]].state.Queued?
      {
        Since(was, earlier, UploadSweep(was, order[..k], events[..k]).acts);
        UploadSweepStep(was, order, events, k, Snapshot());
        outcome := UploadRow(order[k], events[k]);
        k := k + 1;
        if !outcome.Done? {
          UploadSweepStops(was, order, events, k);
          return;
        }
      }
      assert order[..k] == order && events[..k] == events;
    }

    // --- archive ---

    /** The file is in place and verified: confirm it with the server and record it. */
    method RecordArchive(id: nat, item: FileStatus, target: Path, e: ArchiveEvent) returns (outcome: Outcome)
      requires Ready() && id in rows && rows[id].state.ArchivePending? && rows[id].archivePath == Some(target)
      requires item in heard && TerminalFor(rows[id], item) && Holds(disk, target, rows[id].hash)
      modifies this
      ensures Ready() && disk == old(disk)
      ensures var s := old(RecordArchiveScript(rows, id, item, target, e));
        log == old(log) + s.acts && outcome == s.outcome
      ensures outcome.Raised? ==> rows == old(rows) && saved == old(saved)
      ensures outcome.Died? ==> rows == saved == old(saved)
      ensures outcome.Done? ==>
        var row := old(rows)[id];
        rows == saved == old(rows)[id := Row(target, row.hash, row.fileId, LocalArchived, None, 0, 0)]
      ensures !outcome.Died? ==> observed == old(observed) && errors == old(errors)
    {
      hide Legal, Exec;
      if item.state.IMPORTED? && !e.confirmed { return Raised; }
      if PathTakenByOther(rows, id, target) {
        Die();
        return Died;
      }
      ghost var a := Finish(id, item, e.confirmed);
      Execute(id, Row(target, rows[id].hash, rows[id].fileId, LocalArchived, None, 0, 0), a, Apply(Snapshot(), a));
      CommitTransaction();
      return Done;
    }

    /** The second half of `_archive`: the destination is on record and committed. */
    method MoveToArchive(id: nat, item: FileStatus, target: Path, e: ArchiveEvent) returns (outcome: Outcome)
      requires Ready() && id in rows && rows[id].state.ArchivePending? && rows[id].archivePath == Some(target)
      requires id in saved && saved[id].archivePath == Some(target)
      requires item in heard && TerminalFor(rows[id], item)
      modifies this
      ensures Ready()
      ensures var s := old(MoveScript(disk, rows, id, item, target, e));
        log == old(log) + s.acts && outcome == s.outcome
      ensures outcome.Raised? ==> rows == old(rows) && saved == old(saved)
      ensures outcome.Died? ==> rows == saved == old(saved)
      ensures outcome.Done? ==>
        && Holds(disk, target, old(rows)[id].hash)
        && var row := old(rows)[id];
           rows == saved == old(rows)[id := Row(target, row.hash, row.fileId, LocalArchived, None, 0, 0)]
      ensures !outcome.Died? ==> observed == old(observed) && errors == old(errors)
    {
      hide Legal, Exec, RecordArchiveScript;
      if target !in disk {
        if !Holds(disk, rows[id].path, rows[id].hash) || e.moveFails { return Raised; }
        Move(rows[id].path, target, ToArchive(id));
      }
      if !Holds(disk, target, rows[id].hash) { return Raised; }
      outcome := RecordArchive(id, item, target, e);
    }

    /** Chooses a free destination and commits the intent before any file is moved. */
    method PlanArchive(id: nat, item: FileStatus, e: ArchiveEvent) returns (target: Path)
      requires Ready() && id in rows && rows[id].state.Server?
      requires item in heard && TerminalFor(rows[id], item) && Holds(disk, rows[id].path, rows[id].hash)
      requires FreshDestination(disk, rows[id].path, item, e)
      modifies this
      ensures Ready() && unchanged(`disk, `observed, `errors, `heard)
      ensures target == TargetFor(disk, old(rows)[id].path, item.state, e) && target !in disk
      ensures log == old(log) + [Plan(id, item, target), Commit]
      ensures rows == saved == old(rows)[id := old(rows)[id].(archivePath := Some(target), state := ArchivePending)]
    {
      hide Legal, Exec;
      target := TargetFor(disk, rows[id].path, item.state, e);
      ghost var a := Plan(id, item, target);
      Execute(id, rows[id].(archivePath := Some(target), state := ArchivePending), a, Apply(Snapshot(), a));
      CommitTransaction();
    }

    /** `_archive`: commit the intent, then move, verify, confirm and record. */
    method Archive(id: nat, item: FileStatus, e: ArchiveEvent) returns (outcome: Outcome)
      requires Ready() && PlansCommitted() && id in rows
      requires rows[id].state.Server? || rows[id].state.ArchivePending?
      requires item in heard && rows[id].fileId == Some(item.id) && item.state.Terminal()
      requires FreshDestination(disk, rows[id].path, item, e)
      modifies this
      ensures Ready() && PlansCommitted()
      ensures var s := old(ArchiveScript(disk, rows, id, item, e));
        log == old(log) + s.acts && outcome == s.outcome
      ensures outcome.Died? ==> rows == saved
      ensures !outcome.Died? ==>
        && rows.Keys == old(rows).Keys && observed == old(observed) && errors == old(errors)
        && (forall j :: j in old(rows) && j != id ==> rows[j] == old(rows)[j])
        && rows[id].fileId == old(rows)[id].fileId && rows[id].hash == old(rows)[id].hash
        && rows[id].attempts == (if outcome.Done? then 0 else old(rows)[id].attempts)
      ensures outcome.Done? ==>
        && rows == saved && rows[id].state.LocalArchived? && Holds(disk, rows[id].path, rows[id].hash)
        && item.hash == rows[id].hash
        && (old(rows)[id].archivePath.Some? ==> Some(rows[id].path) == old(rows)[id].archivePath)
    {
      hide Legal, Exec, Enabled, Apply, MoveScript, TargetFor;
      assert RowShape(heard, rows[id]) by { ShapeOf(id); }
      if item.hash != rows[id].hash { return Raised; }
      var target;
      if rows[id].archivePath.None? {
        if !Holds(disk, rows[id].path, rows[id].hash) { return Raised; }
        target := PlanArchive(id, item, e);
      } else {
        target := rows[id].archivePath.value;
      }
      outcome := MoveToArchive(id, item, target, e);
    }

    // --- sync ---

    /** Reports are never forgotten. */
    lemma StillHeard(earlier: seq<Action>, was: World)
      requires Valid() && earlier <= log && was == Exec(begun, earlier)
      ensures was.heard <= heard
    {
      var acts := log[|earlier|..];
      assert log == earlier + acts;
      ExecAppend(begun, earlier, acts);
      HeardGrows(was, acts);
    }

    /** `_archive` inside the exception handler of `sync`. */
    method ArchiveOrRetry(id: nat, item: FileStatus, e: ArchiveEvent) returns (outcome: Outcome)
      requires Ready() && PlansCommitted() && id in rows
      requires rows[id].state.Server? || rows[id].state.ArchivePending?
      requires item in heard && rows[id].fileId == Some(item.id) && item.state.Terminal()
      requires FreshDestination(disk, rows[id].path, item, e)
      modifies this
      ensures Ready() && rows == saved
      ensures var s := old(AfterArchive(ArchiveScript(disk, rows, id, item, e), id, e.now));
        log == old(log) + s.acts && outcome == s.outcome && !outcome.Raised?
      ensures outcome.Done? ==>
        && OnlyTouched(old(rows), rows, id)
        && (|| (rows[id].state.LocalArchived? && Holds(disk, rows[id].path, item.hash) && errors == old(errors))
            || (rows[id].attempts == old(rows)[id].attempts + 1 && errors == old(errors) + 1))
    {
      hide Legal, Exec, Enabled, Apply, ArchiveScript, FreshDestination, Retried;
      outcome := Archive(id, item, e);
      if outcome.Died? { return; }
      if outcome.Raised? {
        Retry(id, e.now);
      }
      CommitTransaction();
      return Done;
    }

    /** The same rows for the same files; none but `id` has changed, and that one's identity has not. */
    static ghost predicate OnlyTouched(before: Table, after: Table, id: nat) {
      && after.Keys == before.Keys && id in before
      && (forall j :: j in before && j != id ==> after[j] == before[j])
      && after[id].fileId == before[id].fileId && after[id].hash == before[id].hash
    }

    method RefreshRow(id: nat, item: FileStatus)
      requires Ready() && id in rows && rows[id].state.Server?
      requires item in heard && rows[id].fileId == Some(item.id)
      requires item.hash == rows[id].hash && !item.state.Terminal()
      modifies this
      ensures Ready() && unchanged(`disk, `observed, `errors, `heard) && rows == saved
      ensures log == old(log) + [Refresh(id, item), Commit]
      ensures rows == old(rows)[id := old(rows)[id].(state := Server(item.state))]
    {
      hide Legal, Exec;
      ghost var a := Refresh(id, item);
      Execute(id, rows[id].(state := Server(item.state)), a, Apply(Snapshot(), a));
      CommitTransaction();
    }

    /** The loop body of `sync`. */
    method SyncRow(id: nat, item: FileStatus, e: ArchiveEvent) returns (outcome: Outcome)
      requires Ready() && PlansCommitted() && id in rows
      requires item in heard && rows[id].fileId == Some(item.id)
      requires FreshDestination(disk, rows[id].path, item, e)
      modifies this
      ensures Ready() && PlansCommitted()
      ensures var s := old(SyncScript(disk, rows, id, item, archiveProcessed, e));
        log == old(log) + s.acts && outcome == s.outcome && !outcome.Raised?
      ensures outcome.Done? ==> OnlyTouched(old(rows), rows, id)
      ensures outcome.Done? ==> Reconciled(old(rows)[id], rows[id], item, archiveProcessed, e.now)
    {
      hide Legal, Exec, Enabled, Apply, ArchiveScript, FreshDestination, Holds;
      assert rows[id].state != Queued by { ShapeOf(id); }
      if rows[id].state.LocalArchived? || rows[id].retryAt > e.now { return Done; }
      if item.hash != rows[id].hash {
        Retry(id, e.now);
        CommitTransaction();
        return Done;
      }
      if item.state.Terminal() {
        if archiveProcessed {
          outcome := ArchiveOrRetry(id, item, e);
        } else {
          CommitTransaction();
          return Done;
        }
      } else if !rows[id].state.ArchivePending? {
        RefreshRow(id, item);
        return Done;
      } else {
        CommitTransaction();
        return Done;
      }
    }

    /** What one status report does to one row of that file. */
    static predicate Reconciled(before: Row, after: Row, item: FileStatus, archiving: bool, now: int) {
      if before.state.LocalArchived? || before.retryAt > now then after == before
      else if item.hash != before.hash then
        after.attempts == before.attempts + 1 && after.state == before.state && after.path == before.path
      else if item.state.Terminal() then
        if archiving then after.state.LocalArchived? || after.attempts == before.attempts + 1
        else after == before
      else if before.state.ArchivePending? then after == before
      else after == before.(state := Server(item.state))
    }

    /** What the report on its file has done to this row, at some time. */
    static predicate Settled(before: Row, after: Row, item: FileStatus, archiving: bool, jobs: seq<Job>) {
      exists k :: 0 <= k < |jobs| && jobs[k].item == item
               && Reconciled(before, after, item, archiving, jobs[k].event.now)
    }

    /** The first `n` jobs are done and no other row has changed. */
    static ghost predicate DoneSoFar(before: Table, after: Table, jobs: seq<Job>, n: nat, archiving: bool) {
      && n <= |jobs| && after.Keys == before.Keys
      && (forall i :: i in before ==> after[i].fileId == before[i].fileId)
      && (forall k :: 0 <= k < n && jobs[k].id in before ==>
            Reconciled(before[jobs[k].id], after[jobs[k].id], jobs[k].item, archiving, jobs[k].event.now))
      && forall i :: i in before && (forall k :: 0 <= k < n ==> jobs[k].id != i) ==> after[i] == before[i]
    }

    static lemma OneJobMore(before: Table, was: Table, now: Table, jobs: seq<Job>, n: nat, archiving: bool)
      requires DoneSoFar(before, was, jobs, n, archiving) && n < |jobs| && jobs[n].id in was
      requires forall j, k :: 0 <= j < k < |jobs| ==> jobs[j].id != jobs[k].id
      requires OnlyTouched(was, now, jobs[n].id)
      requires Reconciled(was[jobs[n].id], now[jobs[n].id], jobs[n].item, archiving, jobs[n].event.now)
      ensures DoneSoFar(before, now, jobs, n + 1, archiving)
    {
      hide Reconciled;
    }

    /** The loops of `sync`: every row of every report is settled, and no other changes. */
    method SyncRows(jobs: seq<Job>, ghost items: seq<FileStatus>) returns (outcome: Outcome)
      requires Ready() && PlansCommitted() && FreshDestinations(Snapshot(), jobs, archiveProcessed)
      requires CoversReports(jobs, items, rows) && forall item :: item in items ==> item in heard
      modifies this
      ensures Ready() && PlansCommitted() && !outcome.Raised?
      ensures var s := old(SyncSweep(Snapshot(), jobs, archiveProcessed));
        log == old(log) + s.acts && outcome == s.outcome
      ensures outcome.Done? ==> AllSettled(old(rows), rows, jobs, items, archiveProcessed)
    {
      hide Legal, Exec, Enabled, Apply, SyncScript, SyncSweep, FreshDestination, Reconciled, PlansIn, OnlyTouched;
      hide DoneSoFar, AllSettled, CoversReports;
      ghost var was, earlier := Snapshot(), log;
      outcome := Done;
      SyncSweepEmpty(was, archiveProcessed);
      NothingDone(rows, jobs, archiveProcessed);
      assert jobs[..0] == [];
      var k := 0;
      while k < |jobs|
        invariant 0 <= k <= |jobs| && Ready() && PlansCommitted() && outcome.Done?
        invariant var s := SyncSweep(was, jobs[..k], archiveProcessed); log == earlier + s.acts && s.outcome.Done?
        invariant rows.Keys == was.rows.Keys && was.heard <= heard
        invariant forall i :: i in rows ==> rows[i].fileId == was.rows[i].fileId
        invariant DoneSoFar(was.rows, rows, jobs, k, archiveProcessed)
      {
        JobIsCovered(jobs, items, was.rows, k);
        Since(was, earlier, SyncSweep(was, jobs[..k], archiveProcessed).acts);
        SyncSweepStep(was, jobs, archiveProcessed, k, Snapshot());
        ghost var before := rows;
        outcome := SyncRow(jobs[k].id, jobs[k].item, jobs[k].event);
        k := k + 1;
        if !outcome.Done? {
          SyncSweepStops(was, jobs, archiveProcessed, k);
          return;
        }
        StillHeard(earlier, was);
        OneJobMore(was.rows, before, rows, jobs, k - 1, archiveProcessed);
        SameFiles(was.rows, rows, jobs, k, archiveProcessed);
      }
      assert jobs[..k] == jobs;
      Settles(was.rows, rows, jobs, items, archiveProcessed);
    }

    static lemma NothingDone(t: Table, jobs: seq<Job>, archiving: bool)
      ensures DoneSoFar(t, t, jobs, 0, archiving)
    {}

    static lemma SameFiles(before: Table, after: Table, jobs: seq<Job>, n: nat, archiving: bool)
      requires DoneSoFar(before, after, jobs, n, archiving)
      ensures after.Keys == before.Keys && forall i :: i in after ==> after[i].fileId == before[i].fileId
    {}

    static lemma JobIsCovered(jobs: seq<Job>, items: seq<FileStatus>, t: Table, k: nat)
      requires CoversReports(jobs, items, t) && k < |jobs|
      ensures jobs[k].item in items && jobs[k].id in t && t[jobs[k].id].fileId == Some(jobs[k].item.id)
      ensures forall j, l :: 0 <= j < l < |jobs| ==> jobs[j].id != jobs[l].id
    {}

    /** Every row of a reported file is settled; the others are as before. */
    static ghost predicate AllSettled(
      before: Table, after: Table, jobs: seq<Job>, items: seq<FileStatus>, archiving: bool)
    {
      after.Keys == before.Keys &&
      forall i :: i in before ==>
        if (forall item :: item in items ==> before[i].fileId != Some(item.id)) then after[i] == before[i]
        else exists item :: item in items && before[i].fileId == Some(item.id)
               && Settled(before[i], after[i], item, archiving, jobs)
    }

    static lemma Settles(before: Table, after: Table, jobs: seq<Job>, items: seq<FileStatus>, archiving: bool)
      requires CoversReports(jobs, items, before) && DoneSoFar(before, after, jobs, |jobs|, archiving)
      ensures AllSettled(before, after, jobs, items, archiving)
    {
      hide Reconciled;
      forall i, item | i in before && item in items && before[i].fileId == Some(item.id)
        ensures Settled(before[i], after[i], item, archiving, jobs)
      {
        assert JobIn(jobs, i, item);
        var k :| 0 <= k < |jobs| && jobs[k].id == i && jobs[k].item == item;
      }
    }

    /** The rows of one unreported file; they stay in the open transaction. */
    method RetryMissing(identifier: string, now: int)
      requires Ready() && PlansCommitted()
      modifies this
      ensures Ready() && PlansCommitted() && unchanged(`disk, `saved, `observed) && old(heard) <= heard
      ensures rows == AfterMissing(old(rows), {identifier}, now)
    {
      hide Legal, Exec, Enabled, Apply, RetriedAll, Retried, AfterMissing, PlansIn;
      ghost var was := Snapshot();
      var waiting := set i | i in rows && Unreported(rows[i], {identifier});
      var todo := waiting;
      RetriedAllKeepsPlans(was.rows, {}, now, saved);
      assert waiting - todo == {};
      while todo != {}
        invariant Ready() && unchanged(`disk, `saved, `observed, `heard) && todo <= waiting
        invariant rows == RetriedAll(was.rows, waiting - todo, now)
      {
        var id :| id in todo;
        RetriedAllStep(was.rows, waiting - todo, id, now);
        assert waiting - (todo - {id}) == (waiting - todo) + {id};
        Retry(id, now);
        todo := todo - {id};
      }
      assert waiting - todo == waiting;
      RetriedAllKeepsPlans(was.rows, waiting, now, saved);
      UnreportedRetried(was.rows, waiting, {identifier}, now);
    }

    method ReceiveAll(items: seq<FileStatus>)
      requires Ready()
      modifies this
      ensures Ready() && unchanged(`disk, `rows, `saved, `observed, `errors)
      ensures heard == old(heard) + set item | item in items
    {
      hide Legal, Exec;
      for k := 0 to |items|
        invariant Ready() && unchanged(`disk, `rows, `saved, `observed, `errors)
        invariant heard == old(heard) + set item | item in items[..k]
      {
        Receive(items[k]);
        assert items[..k + 1] == items[..k] + [items[k]];
      }
      assert items[..|items|] == items;
    }

    /** One request of at most a hundred identifiers; `None` is any refused or malformed answer. */
    method FetchBatch(batch: seq<string>, answer: Option<seq<FileStatus>>, now: int)
      returns (accepted: bool)
      requires Ready() && PlansCommitted()
      requires forall j, k :: 0 <= j < k < |batch| ==> batch[j] != batch[k]
      modifies this
      ensures Ready() && PlansCommitted() && unchanged(`disk, `saved, `observed) && old(heard) <= heard
      ensures accepted <==> answer.Some? && AnswersBatch(answer.value, batch)
      ensures accepted ==>
        && (forall item :: item in answer.value ==> item in heard)
        && rows == AfterMissing(old(rows), Listed(batch) - IdsOf(answer.value), now)
      ensures !accepted ==> rows == old(rows)
    {
      hide Legal, Exec, Enabled, Apply, AfterMissing, PlansIn, IdsOf, Listed, AnswersBatch, Inv;
      if answer.None? { return false; }
      ReceiveAll(answer.value);
      if !AnswersBatch(answer.value, batch) { return false; }
      RetryUnreported(batch, IdsOf(answer.value), now);
      return true;
    }

    /** The rows of every identifier the answer leaves out. */
    method RetryUnreported(batch: seq<string>, returned: set<string>, now: int)
      requires Ready() && PlansCommitted()
      requires forall j, k :: 0 <= j < k < |batch| ==> batch[j] != batch[k]
      modifies this
      ensures Ready() && PlansCommitted() && unchanged(`disk, `saved, `observed) && old(heard) <= heard
      ensures rows == AfterMissing(old(rows), Listed(batch) - returned, now)
    {
      hide Legal, Exec, Enabled, Apply, AfterMissing, PlansIn, Listed, Inv, Fresh, Numbered;
      ghost var was := rows;
      NoneMissing(was, now);
      var k := 0;
      ListedNone(batch, returned);
      while k < |batch|
        invariant 0 <= k <= |batch| && Ready() && PlansCommitted()
        invariant unchanged(`disk, `saved, `observed) && old(heard) <= heard
        invariant rows == AfterMissing(was, Listed(batch[..k]) - returned, now)
      {
        OneMoreUnreported(was, batch, k, returned, now);
        if batch[k] !in returned {
          RetryMissing(batch[k], now);
        }
        k := k + 1;
      }
      assert batch[..k] == batch;
    }

    /**
     The status requests of `sync`, a hundred identifiers at a time. On success every
     reported file was asked for and is reported once, and exactly the rows of the
     unreported ones wait for another attempt; on failure the caller gives up this turn.
     */
    method FetchStatuses(identifiers: seq<string>, answers: seq<Option<seq<FileStatus>>>, now: int)
      returns (items: Option<seq<FileStatus>>)
      requires Ready() && PlansCommitted() && |answers| * BATCH >= |identifiers|
      requires forall j, k :: 0 <= j < k < |identifiers| ==> identifiers[j] != identifiers[k]
      modifies this
      ensures Ready() && PlansCommitted() && unchanged(`disk, `saved, `observed)
      ensures items.Some? ==>
        && DistinctIds(items.value)
        && (forall item :: item in items.value ==> item in heard && item.id in identifiers)
        && rows == AfterMissing(old(rows), Listed(identifiers) - IdsOf(items.value), now)
      ensures items.None? ==>
        exists missing :: missing <= Listed(identifiers) && rows == AfterMissing(old(rows), missing, now)
    {
      hide Legal, Exec, Enabled, Apply, AfterMissing, PlansIn;
      ghost var was := rows;
      var found: seq<FileStatus> := [];
      var start, k := 0, 0;
      NoneMissing(was, now);
      assert Listed(identifiers[..0]) - IdsOf(found) == {};
      while start < |identifiers|
        invariant Ready() && PlansCommitted() && unchanged(`disk, `saved, `observed)
        invariant start == (if k * BATCH < |identifiers| then k * BATCH else |identifiers|)
        invariant k <= |answers|
        invariant DistinctIds(found)
        invariant forall item :: item in found ==> item in heard && item.id in identifiers[..start]
        invariant rows == AfterMissing(was, Listed(identifiers[..start]) - IdsOf(found), now)
        decreases |identifiers| - start
      {
        var end := if start + BATCH < |identifiers| then start + BATCH else |identifiers|;
        var batch := identifiers[start..end];
        var accepted := FetchBatch(batch, answers[k], now);
        if !accepted { return None; }
        CombineBatches(was, identifiers, start, end, found, answers[k].value, now);
        found := found + answers[k].value;
        start, k := end, k + 1;
      }
      assert identifiers[..start] == identifiers;
      return Some(found);
    }
  }
}
