/**
 The data-drop agent as a state machine: the files below its root, the queue
 table as the open SQLite transaction sees it, the table as last committed, and
 the atomic actions (one rename, one SQL statement, one commit, one reply) that
 its methods are made of. A process death drops the open transaction.
 */
module AgentWorld {
  import opened Common

  datatype Folder =
    | Processing
    | Review
    | Processed(month: string)
    | Rejected
    | Quarantine

  /** A file below the root, outside the inbox. */
  datatype Path = Path(folder: Folder, name: string)

  /** A file somewhere below the inbox. */
  datatype Entry = Entry(sub: string, name: string)

  datatype File = File(content: Bytes, modified: int)

  datatype ServerState =
    | IMPORTED | ARCHIVED | DUPLICATE | REJECTED | QUARANTINED
    | DETECTED | HASHING | UPLOADING | UPLOAD_FAILED | STORED_RAW | PREVIEWING
    | SCHEMA_DETECTED | MAPPING_REQUIRED | MAPPED | VALIDATING | VALIDATED
    | VALIDATED_WITH_WARNINGS | VALIDATION_FAILED | AWAITING_APPROVAL | IMPORTING
    | IMPORT_FAILED
  {
    predicate Terminal() {
      IMPORTED? || ARCHIVED? || DUPLICATE? || REJECTED? || QUARANTINED?
    }
  }

  datatype FileStatus = FileStatus(id: string, hash: Digest, state: ServerState)

  datatype State = Queued | Server(state: ServerState) | ArchivePending | LocalArchived

  datatype Row = Row(
    path: Path, hash: Digest, fileId: Option<string>, state: State,
    archivePath: Option<Path>, attempts: nat, retryAt: int)

  /** SQLite row id to row; `path` is the table's primary key. */
  type Table = map<nat, Row>

  type Disk = map<Path, File>

  type Inbox = map<Entry, File>

  /**
   Outsiders may change the inbox at any time and nothing else. `moving` is the row whose
   file has been renamed into review but whose path has not been updated yet. `heard` and
   `matched` are history: every status the server has reported, and the rows whose
   recorded hash was that of the file recorded.
   */
  datatype World = World(
    inbox: Inbox, disk: Disk, rows: Table, saved: Table, moving: Option<nat>,
    heard: set<FileStatus>, matched: set<nat>)

  datatype Action =
    | Outside(inbox: Inbox)
    | Take(from: Entry, to: Path)
    | Insert(id: nat, at: Path, hash: Digest)
    | Commit
    | Hear(reply: FileStatus)
    | Acknowledge(id: nat, reply: FileStatus)
    | ToReview(id: nat)
    | Repoint(id: nat)
    | Postpone(id: nat, now: int)
    | Plan(id: nat, reply: FileStatus, target: Path)
    | ToArchive(id: nat)
    | Finish(id: nat, reply: FileStatus, confirmed: bool)
    | Refresh(id: nat, reply: FileStatus)
    | Crash

  predicate IsArchive(p: Path) {
    p.folder.Processed? || p.folder.Rejected? || p.folder.Quarantine?
  }

  function ReviewOf(p: Path): Path { Path(Review, p.name) }

  predicate Holds(disk: Disk, p: Path, hash: Digest) {
    p in disk && Sha256(disk[p].content) == hash
  }

  predicate PathTaken(t: Table, p: Path) {
    exists i :: i in t && t[i].path == p
  }

  predicate PathTakenByOther(t: Table, id: nat, p: Path) {
    exists i :: i in t && i != id && t[i].path == p
  }

  /** Names made by `scan` are; `upload` finds the original name behind the hyphen, and dies if there is none. */
  predicate Hyphenated(p: Path) { '-' in p.name }

  /** `path.rename(target)`. */
  function Rename(disk: Disk, from: Path, to: Path): Disk
    requires from in disk
  {
    (disk - {from})[to := disk[from]]
  }

  function Doubled(n: nat): nat { if n == 0 then 1 else 2 * Doubled(n - 1) }

  /** Seconds until the next attempt after `attempts` failures. */
  function Backoff(attempts: nat): nat {
    var delay := Doubled(if attempts < 8 then attempts else 8);
    if delay < 300 then delay else 300
  }

  predicate TerminalFor(row: Row, reply: FileStatus) {
    row.fileId == Some(reply.id) && reply.hash == row.hash && reply.state.Terminal()
  }

  ghost predicate Enabled(w: World, a: Action) {
    && (w.moving.Some? ==> a.Outside? || a.Repoint? || a.Crash?)
    && match a
       case Outside(_) => true
       case Take(from, to) =>
         from in w.inbox && to.folder.Processing? && to !in w.disk
       case Insert(id, at, hash) =>
         at.folder.Processing? && at in w.disk && id !in w.rows && !PathTaken(w.rows, at)
       case Commit => true
       case Hear(_) => true
       case Acknowledge(id, reply) =>
         && id in w.rows && w.rows[id].state.Queued?
         && reply in w.heard && reply.hash == w.rows[id].hash && !reply.state.UPLOAD_FAILED?
         && Holds(w.disk, w.rows[id].path, w.rows[id].hash) && Hyphenated(w.rows[id].path)
       case ToReview(id) =>
         && id in w.rows && id in w.saved
         && w.rows[id].state.Server? && !w.rows[id].state.state.Terminal()
         && w.rows[id].path.folder.Processing?
         && w.saved[id].state.Queued? && w.saved[id].path == w.rows[id].path
         && Holds(w.disk, w.rows[id].path, w.rows[id].hash)
         && ReviewOf(w.rows[id].path) !in w.disk
       case Repoint(id) =>
         w.moving == Some(id) && id in w.rows && !PathTaken(w.rows, ReviewOf(w.rows[id].path))
       case Postpone(id, _) => id in w.rows
       case Plan(id, reply, target) =>
         && id in w.rows && w.rows[id].state.Server?
         && reply in w.heard && TerminalFor(w.rows[id], reply)
         && Holds(w.disk, w.rows[id].path, w.rows[id].hash)
         && IsArchive(target) && target !in w.disk
       case ToArchive(id) =>
         && id in w.rows && id in w.saved
         && w.rows[id].state.ArchivePending? && w.rows[id].archivePath.Some?
         && w.saved[id].archivePath == w.rows[id].archivePath
         && w.rows[id].archivePath.value !in w.disk
         && Holds(w.disk, w.rows[id].path, w.rows[id].hash)
       case Finish(id, reply, confirmed) =>
         && id in w.rows && w.rows[id].state.ArchivePending? && w.rows[id].archivePath.Some?
         && reply in w.heard && TerminalFor(w.rows[id], reply)
         && (reply.state.IMPORTED? ==> confirmed)
         && Holds(w.disk, w.rows[id].archivePath.value, w.rows[id].hash)
         && !PathTakenByOther(w.rows, id, w.rows[id].archivePath.value)
       case Refresh(id, reply) =>
         && id in w.rows && w.rows[id].state.Server?
         && reply in w.heard && w.rows[id].fileId == Some(reply.id)
         && reply.hash == w.rows[id].hash && !reply.state.Terminal()
       case Crash => true
  }

  ghost function Apply(w: World, a: Action): World
    requires Enabled(w, a)
  {
    match a
    case Outside(inbox) => w.(inbox := inbox)
    case Take(from, to) => w.(inbox := w.inbox - {from}, disk := w.disk[to := w.inbox[from]])
    case Insert(id, at, hash) =>
      w.(rows := w.rows[id := Row(at, hash, None, Queued, None, 0, 0)],
         matched := if Holds(w.disk, at, hash) then w.matched + {id} else w.matched - {id})
    case Commit => w.(saved := w.rows)
    case Hear(reply) => w.(heard := w.heard + {reply})
    case Acknowledge(id, reply) =>
      w.(rows := w.rows[id := w.rows[id].(fileId := Some(reply.id), state := Server(reply.state))])
    case ToReview(id) =>
      w.(disk := Rename(w.disk, w.rows[id].path, ReviewOf(w.rows[id].path)), moving := Some(id))
    case Repoint(id) =>
      w.(rows := w.rows[id := w.rows[id].(path := ReviewOf(w.rows[id].path))], moving := None)
    case Postpone(id, now) =>
      var attempts := w.rows[id].attempts + 1;
      w.(rows := w.rows[id := w.rows[id].(attempts := attempts, retryAt := now + Backoff(attempts))])
    case Plan(id, reply, target) =>
      w.(rows := w.rows[id := w.rows[id].(archivePath := Some(target), state := ArchivePending)])
    case ToArchive(id) =>
      w.(disk := Rename(w.disk, w.rows[id].path, w.rows[id].archivePath.value))
    case Finish(id, _, _) =>
      var row := w.rows[id];
      w.(rows := w.rows[id := Row(row.archivePath.value, row.hash, row.fileId, LocalArchived, None, 0, 0)])
    case Refresh(id, reply) =>
      w.(rows := w.rows[id := w.rows[id].(state := Server(reply.state))])
    case Crash => w.(rows := w.saved, moving := None)
  }

  /** The world after `acts`; an action that cannot be performed changes nothing. */
  ghost function Exec(w: World, acts: seq<Action>): World {
    if acts == [] then w
    else
      var before := Exec(w, acts[..|acts| - 1]);
      var a := acts[|acts| - 1];
      if Enabled(before, a) then Apply(before, a) else before
  }

  /** `acts` can be performed from `w`, one after the other. */
  ghost predicate Legal(w: World, acts: seq<Action>) {
    acts == [] ||
    (Legal(w, acts[..|acts| - 1]) && Enabled(Exec(w, acts[..|acts| - 1]), acts[|acts| - 1]))
  }

  /** A first start: an empty queue over whatever files already lie around. */
  ghost predicate Fresh(w: World) {
    w.rows == map[] && w.saved == map[] && w.moving.None? && w.heard == {} && w.matched == {}
  }

  lemma {:induction false} ExecAppend(w: World, before: seq<Action>, after: seq<Action>)
    ensures Exec(w, before + after) == Exec(Exec(w, before), after)
    ensures Legal(w, before + after) <==> Legal(w, before) && Legal(Exec(w, before), after)
    decreases |after|
  {
    if after == [] {
      assert before + after == before;
    } else {
      var init := after[..|after| - 1];
      ExecAppend(w, before, init);
      assert (before + after)[..|before + after| - 1] == before + init;
    }
  }

  lemma NoActions(w: World)
    ensures Exec(w, []) == w && Legal(w, [])
  {}

  lemma ThenOne(w: World, acts: seq<Action>, a: Action)
    requires Legal(w, acts) && Enabled(Exec(w, acts), a)
    ensures Legal(w, acts + [a]) && Exec(w, acts + [a]) == Apply(Exec(w, acts), a)
  {
    assert (acts + [a])[..|acts|] == acts;
  }
}
