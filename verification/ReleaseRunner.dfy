/**
 The release runner: gates in order, each a list of commands, the manifest rewritten at
 every step, and nothing after the first failure.
 */
module ReleaseRunner {
  import opened Common
  import opened ReleaseEvidence

  // --- what the runner cannot control ---

  /** How one command ends, and what it leaves in its log and result file. */
  datatype Outcome =
    | Unstarted
    | Exits(code: int, log: Bytes, results: Option<Bytes>)
    | TimesOut(log: Bytes, results: Option<Bytes>)
    | Interrupts(log: Bytes, results: Option<Bytes>)

  /**
   Clock readings never go back; a fingerprint may fail to be taken, by an error or because
   the user interrupts the reading; outcomes are given per gate and command, counted from
   one.
   */
  datatype World = World(
    times: nat -> int, fingerprints: nat -> Option<string>, interrupts: nat -> bool,
    outcomes: (nat, nat) -> Outcome, valid: Validator)

  /** What is wrong with a reading of the sources, the `look`-th, that should give `original`. */
  function Objection(w: World, look: nat, original: Option<string>): Option<Reason> {
    if w.fingerprints(look).None? then Some(if w.interrupts(look) then Interrupted else SystemError)
    else if w.fingerprints(look) != original then Some(SourceChanged)
    else None
  }

  ghost predicate ClockForward(w: World) { forall i: nat, j: nat :: i <= j ==> w.times(i) <= w.times(j) }

  // --- gate lists ---

  predicate NoEmptyGate(gates: seq<Gate>) { gates != [] && forall g :: g in gates ==> g.commands != [] }

  /** Every command names a program. */
  predicate Startable(gates: seq<Gate>) {
    forall i, k :: 0 <= i < |gates| && 0 <= k < |gates[i].commands| ==> gates[i].commands[k].argv != []
  }

  /** No two commands write the same result file. */
  predicate DistinctResults(gates: seq<Gate>) {
    forall i, k, j, l ::
      && 0 <= i < |gates| && 0 <= k < |gates[i].commands| && 0 <= j < |gates| && 0 <= l < |gates[j].commands|
      && (i, k) != (j, l) && gates[i].commands[k].resultFile.Some? ==>
        gates[i].commands[k].resultFile != gates[j].commands[l].resultFile
  }

  // --- the shape of every manifest ---

  function States(rows: seq<Row>): seq<GateState> { seq(|rows|, i requires 0 <= i < |rows| => rows[i].state) }

  /** Passes, then at most one that runs or failed, then gates not run. */
  predicate FailFast(states: seq<GateState>, at: nat) {
    && at <= |states|
    && (forall i :: 0 <= i < at ==> states[i] == PASS)
    && forall i :: at < i < |states| ==> states[i] == NOT_RUN
  }

  function OverallOf(rows: seq<Row>): Overall {
    if forall r :: r in rows ==> r.state == PASS then Passed
    else if exists r :: r in rows && r.state == FAIL then Failed
    else Incomplete
  }

  /** The fail-fast shape of a manifest, for any gates. */
  predicate Shaped(m: Manifest, gates: seq<Gate>) {
    && |m.gates| == |gates| && m.state == OverallOf(m.gates)
    && (exists at: nat :: at <= |gates| && FailFast(States(m.gates), at))
    && (forall i :: 0 <= i < |gates| ==> m.gates[i].number == i + 1 && m.gates[i].name == gates[i].name)
    && forall i :: 0 <= i < |gates| && m.gates[i].state == PASS ==> m.source.Some?
  }

  /** Every passed gate has its receipts and logs; its results too, if nobody else writes them. */
  predicate Evidenced(m: Manifest, gates: seq<Gate>, disk: Disk, valid: Validator)
    requires |m.gates| == |gates|
  {
    forall i :: 0 <= i < |gates| && m.gates[i].state == PASS ==>
      && RowRecorded(m.gates[i], gates[i], i + 1, disk)
      && (DistinctResults(gates) ==> RowStands(m.gates[i], gates[i], disk, valid))
  }

  /** What a manifest and the files beside it promise whenever it is written. */
  predicate Honest(m: Manifest, gates: seq<Gate>, disk: Disk, valid: Validator) {
    Shaped(m, gates) && Evidenced(m, gates, disk, valid)
  }

  /** The results of all gates but the last are still those of their receipts. */
  predicate ResultsStand(m: Manifest, gates: seq<Gate>, disk: Disk, valid: Validator) {
    |m.gates| == |gates| && forall i :: 0 <= i < |gates| - 1 ==> RowStands(m.gates[i], gates[i], disk, valid)
  }

  /**
   Producer meets checker, for any gates: while the last of several runs, the manifest that
   the runner wrote and the files beside it pass the evidence check exactly if there are as
   many gates as a release has, commit and branch were recorded, and no results have been
   replaced since; and none have if no two commands share a result file.
   */
  lemma ProducerMeetsChecker(m: Manifest, gates: seq<Gate>, disk: Disk, valid: Validator)
    requires Honest(m, gates, disk, valid) && |gates| > 1 && m.gates[|gates| - 1].state == RUNNING
    ensures Accepts(m, gates, disk, valid) <==>
      |gates| == RELEASE_GATES && Commit(m.commit) && m.branch != "" && ResultsStand(m, gates, disk, valid)
    ensures DistinctResults(gates) ==> ResultsStand(m, gates, disk, valid)
  {
    hide RowRecorded, RowStands, DistinctResults;
    var at: nat :| at <= |gates| && FailFast(States(m.gates), at);
    var last := |gates| - 1;
    assert States(m.gates)[last] == RUNNING;
    assert at == last;
    forall i | 0 <= i < last ensures m.gates[i].state == PASS { assert States(m.gates)[i] == PASS; }
    assert m.gates[last] in m.gates && m.gates[0].state == PASS;
    forall r | r in m.gates ensures r.state != FAIL {
      var i :| 0 <= i < |gates| && m.gates[i] == r;
    }
  }

  // --- one row while its gate runs ---

  /** The commands so far of a running gate. */
  predicate RowSoFar(row: Row, gate: Gate, number: nat, done: nat, now: int, disk: Disk) {
    && row.number == number && row.name == gate.name && row.state == RUNNING
    && row.startedAt.Some? && row.startedAt.value <= now && row.failureReason.None?
    && done <= |gate.commands| && |row.commands| == |row.logs| == done
    && (done > 0 ==> row.exitCode == Some(0))
    && forall k :: 0 <= k < done ==>
         && row.logs[k] == row.commands[k].log
         && ReceiptRecorded(row.commands[k], gate.commands[k], number, k + 1, disk)
         && InOrder(row.startedAt.value, row.commands[k], now)
  }

  /** A log once written stays. */
  predicate LogsStay(was: Disk, now: Disk, number: nat, done: nat) {
    forall k :: 0 < k <= done && Log(number, k) in was ==>
      Log(number, k) in now && now[Log(number, k)] == was[Log(number, k)]
  }

  lemma RowStays(row: Row, gate: Gate, number: nat, was: Disk, now: Disk)
    requires RowRecorded(row, gate, number, was) && LogsStay(was, now, number, |gate.commands|)
    ensures RowRecorded(row, gate, number, now)
  {
    forall k | 0 <= k < |row.commands|
      ensures ReceiptRecorded(row.commands[k], gate.commands[k], number, k + 1, now)
    {
      assert ReceiptRecorded(row.commands[k], gate.commands[k], number, k + 1, was);
    }
  }

  lemma SoFarStays(row: Row, gate: Gate, number: nat, done: nat, time: int, later: int, was: Disk, now: Disk)
    requires RowSoFar(row, gate, number, done, time, was) && time <= later && LogsStay(was, now, number, done)
    ensures RowSoFar(row, gate, number, done, later, now)
  {
    forall k | 0 <= k < done
      ensures ReceiptRecorded(row.commands[k], gate.commands[k], number, k + 1, now)
    {
      assert ReceiptRecorded(row.commands[k], gate.commands[k], number, k + 1, was);
    }
  }

  /** One command writes its own log and its own result file. */
  function AfterCommand(disk: Disk, c: Command, log: Path, content: Bytes, results: Option<Bytes>): Disk {
    var logged := disk[log := content];
    if c.resultFile.Some? && results.Some? then logged[Named(c.resultFile.value) := results.value] else logged
  }

  /** No command writes the log of an earlier one. */
  lemma OwnLogOnly(
    gates: seq<Gate>, g: nat, k: nat, i: nat, done: nat, disk: Disk, content: Bytes, results: Option<Bytes>)
    requires g < |gates| && k < |gates[g].commands| && (i < g || (i == g && done <= k))
    ensures LogsStay(disk, AfterCommand(disk, gates[g].commands[k], Log(g + 1, k + 1), content, results), i + 1, done)
  {}

  /** Nor its results, if no result file is shared. */
  lemma OwnResultsOnly(
    row: Row, gates: seq<Gate>, g: nat, k: nat, i: nat,
    disk: Disk, content: Bytes, results: Option<Bytes>, valid: Validator)
    requires DistinctResults(gates) && g < |gates| && k < |gates[g].commands| && i <= g
    requires RowStands(row, gates[i], disk, valid) && (i == g ==> |row.commands| <= k)
    ensures RowStands(
      row, gates[i], AfterCommand(disk, gates[g].commands[k], Log(g + 1, k + 1), content, results), valid)
  {
    forall l | 0 <= l < |row.commands| && l < |gates[i].commands|
      ensures ResultStands(
        row.commands[l], gates[i].commands[l],
        AfterCommand(disk, gates[g].commands[k], Log(g + 1, k + 1), content, results), valid)
    {
      assert ResultStands(row.commands[l], gates[i].commands[l], disk, valid);
      assert (i, l) != (g, k);
    }
  }

  // --- the run: rows and files ---

  /** The first `g` gates have passed and none later has begun. */
  predicate Progress(rows: seq<Row>, gates: seq<Gate>, g: nat, disk: Disk) {
    && |rows| == |gates| && g <= |gates|
    && (forall i :: 0 <= i < g ==> RowRecorded(rows[i], gates[i], i + 1, disk))
    && forall i :: g < i < |rows| ==> rows[i] == Initial(i, gates[i])
  }

  /** The results of the first `n` rows are those of their receipts. */
  predicate Standing(rows: seq<Row>, gates: seq<Gate>, n: nat, disk: Disk, valid: Validator) {
    |rows| == |gates| && forall i :: 0 <= i < n && i < |gates| ==> RowStands(rows[i], gates[i], disk, valid)
  }

  function Initial(i: nat, gate: Gate): Row {
    Row(i + 1, gate.name, NOT_RUN, None, None, None, None, None, [], [])
  }

  lemma ProgressIsHonest(rows: seq<Row>, gates: seq<Gate>, g: nat, disk: Disk, valid: Validator, m: Manifest)
    requires Progress(rows, gates, g, disk) && (DistinctResults(gates) ==> Standing(rows, gates, g, disk, valid))
    requires g < |rows| ==> rows[g].number == g + 1 && rows[g].name == gates[g].name
    requires g < |rows| && rows[g].state == PASS ==>
      && RowRecorded(rows[g], gates[g], g + 1, disk)
      && (DistinctResults(gates) ==> RowStands(rows[g], gates[g], disk, valid))
    requires g > 0 || (g < |rows| && rows[g].state == PASS) ==> m.source.Some?
    requires m.gates == rows && m.state == OverallOf(rows)
    ensures Honest(m, gates, disk, valid)
  {
    hide RowRecorded, RowStands, DistinctResults;
    forall i | 0 <= i < g ensures rows[i].state == PASS && rows[i].number == i + 1 && rows[i].name == gates[i].name {
      PassedRow(rows[i], gates[i], i + 1, disk);
    }
    assert FailFast(States(rows), g);
  }

  lemma PassedRow(row: Row, gate: Gate, number: nat, disk: Disk)
    requires RowRecorded(row, gate, number, disk)
    ensures row.state == PASS && row.number == number && row.name == gate.name
  {}

  // --- the run: what was read and executed ---

  /** How a command ended for the runner: an exit code, or an exception. */
  datatype Ended = Code(code: int) | Raised(reason: Reason)

  /** The runner read the sources' fingerprint, or executed a command. */
  datatype Event = Looked(seen: Option<string>) | Ran(gate: nat, command: nat, ended: Ended)

  function Prints(trace: seq<Event>): seq<Option<string>> {
    if trace == [] then []
    else
      var last := trace[|trace| - 1];
      Prints(trace[..|trace| - 1]) + if last.Looked? then [last.seen] else []
  }

  function Executed(trace: seq<Event>): seq<(nat, nat)> {
    if trace == [] then []
    else
      var last := trace[|trace| - 1];
      Executed(trace[..|trace| - 1]) + if last.Ran? then [(last.gate, last.command)] else []
  }

  /** All commands before command `k` of gate `g`, in order. */
  function CommandsBefore(gates: seq<Gate>, g: nat, k: nat): seq<(nat, nat)>
    requires g <= |gates|
    decreases g, k
  {
    if k > 0 then CommandsBefore(gates, g, k - 1) + [(g, k - 1)]
    else if g > 0 then CommandsBefore(gates, g - 1, |gates[g - 1].commands|)
    else []
  }

  /** The readings in the trace are those that the world gave, one after another. */
  predicate TrueReadings(trace: seq<Event>, w: World, looks: nat) {
    |Prints(trace)| == looks && forall j :: 0 <= j < looks ==> Prints(trace)[j] == w.fingerprints(j)
  }

  /** The command succeeded, and the sources were read right before and right after it: both times the original ones. */
  predicate Surrounded(trace: seq<Event>, original: Option<string>, g: nat, k: nat) {
    exists t :: 0 < t < |trace| - 1
      && trace[t] == Ran(g, k, Code(0)) && trace[t - 1] == trace[t + 1] == Looked(original)
  }

  /** The first `done` commands of the gate saw the original sources before and after. */
  predicate SawOriginal(trace: seq<Event>, original: Option<string>, g: nat, done: nat) {
    original.Some? && forall k: nat :: k < done ==> Surrounded(trace, original, g, k)
  }

  /** What the runner has read and executed by the time the first `g` gates have passed. */
  predicate Traced(
    trace: seq<Event>, w: World, looks: nat, original: Option<string>, gates: seq<Gate>, g: nat)
  {
    && TrueReadings(trace, w, looks)
    && (original.None? ==> g == 0)
    && (original.Some? ==> looks > 0 && original == w.fingerprints(0))
    && g <= |gates| && forall i :: 0 <= i < g ==> SawOriginal(trace, original, i, |gates[i].commands|)
  }

  lemma EventAdded(trace: seq<Event>, e: Event)
    ensures Prints(trace + [e]) == Prints(trace) + (if e.Looked? then [e.seen] else [])
    ensures Executed(trace + [e]) == Executed(trace) + (if e.Ran? then [(e.gate, e.command)] else [])
  {
    assert (trace + [e])[..|trace|] == trace;
  }

  lemma StillSurrounded(trace: seq<Event>, e: Event, original: Option<string>, g: nat, k: nat)
    requires Surrounded(trace, original, g, k)
    ensures Surrounded(trace + [e], original, g, k)
  {
    var t :| 0 < t < |trace| - 1
      && trace[t] == Ran(g, k, Code(0)) && trace[t - 1] == trace[t + 1] == Looked(original);
    var longer := trace + [e];
    assert longer[t] == trace[t] && longer[t - 1] == trace[t - 1] && longer[t + 1] == trace[t + 1];
  }

  lemma StillSaw(trace: seq<Event>, e: Event, original: Option<string>, g: nat, done: nat)
    requires SawOriginal(trace, original, g, done)
    ensures SawOriginal(trace + [e], original, g, done)
  {
    forall k: nat | k < done ensures Surrounded(trace + [e], original, g, k) {
      StillSurrounded(trace, e, original, g, k);
    }
  }

  /** One more event: a true reading, or an execution. */
  lemma StillTraced(
    trace: seq<Event>, e: Event, w: World, looks: nat, original: Option<string>, gates: seq<Gate>, g: nat)
    requires Traced(trace, w, looks, original, gates, g) && (e.Looked? ==> e.seen == w.fingerprints(looks))
    ensures Traced(trace + [e], w, if e.Looked? then looks + 1 else looks, original, gates, g)
  {
    hide SawOriginal;
    EventAdded(trace, e);
    forall i | 0 <= i < g ensures SawOriginal(trace + [e], original, i, |gates[i].commands|) {
      StillSaw(trace, e, original, i, |gates[i].commands|);
    }
  }

  /** The three events of a successful command add to what was seen. */
  lemma OneMoreSighting(trace: seq<Event>, longer: seq<Event>, original: Option<string>, g: nat, k: nat)
    requires SawOriginal(trace, original, g, k)
    requires longer == trace + [Looked(original)] + [Ran(g, k, Code(0))] + [Looked(original)]
    ensures SawOriginal(longer, original, g, k + 1)
  {
    hide Surrounded;
    StillSaw(trace, Looked(original), original, g, k);
    StillSaw(trace + [Looked(original)], Ran(g, k, Code(0)), original, g, k);
    StillSaw(trace + [Looked(original)] + [Ran(g, k, Code(0))], Looked(original), original, g, k);
    NewSighting(trace, longer, original, g, k);
  }

  lemma NewSighting(trace: seq<Event>, longer: seq<Event>, original: Option<string>, g: nat, k: nat)
    requires longer == trace + [Looked(original)] + [Ran(g, k, Code(0))] + [Looked(original)]
    ensures Surrounded(longer, original, g, k)
  {
    var t := |trace| + 1;
    assert longer[t] == Ran(g, k, Code(0)) && longer[t - 1] == Looked(original) && longer[t + 1] == Looked(original);
  }

  // --- the code ---

  const NOTE: Bytes := [10]

  ghost predicate AllHonest(
    written: seq<(Manifest, Disk)>, gates: seq<Gate>, valid: Validator, commit: string, branch: string)
  {
    forall w :: w in written ==> Honest(w.0, gates, w.1, valid) && w.0.commit == commit && w.0.branch == branch
  }

  /** The files that command `k` of the last gate finds: those of the manifest, and its own log. */
  function WithOwnLog(disk: Disk, gates: seq<Gate>, k: nat, content: Bytes): Disk { disk[Log(|gates|, k) := content] }

  predicate LastRuns(m: Manifest, gates: seq<Gate>) {
    1 < |gates| == |m.gates| && m.gates[|gates| - 1].state == RUNNING
  }

  /**
   Whichever manifest shows the last of several gates running, the evidence check accepts
   it exactly if there are as many gates as a release has, commit and branch were recorded,
   and no results have been replaced since; and none have if no two commands share a
   result file.
   */
  ghost predicate MeetsChecker(
    written: seq<(Manifest, Disk)>, gates: seq<Gate>, valid: Validator, commit: string, branch: string)
  {
    forall w :: w in written && LastRuns(w.0, gates) ==>
      && (DistinctResults(gates) ==> ResultsStand(w.0, gates, w.1, valid))
      && forall k: nat, content: Bytes ::
           Accepts(w.0, gates, WithOwnLog(w.1, gates, k, content), valid) <==>
             |gates| == RELEASE_GATES && Commit(commit) && branch != "" && ResultsStand(w.0, gates, w.1, valid)
  }

  lemma RunMeetsChecker(
    written: seq<(Manifest, Disk)>, gates: seq<Gate>, valid: Validator, commit: string, branch: string)
    requires AllHonest(written, gates, valid, commit, branch)
    ensures MeetsChecker(written, gates, valid, commit, branch)
  {
    hide Accepts, Honest, ResultsStand, Commit, DistinctResults;
    forall w | w in written && LastRuns(w.0, gates)
      ensures DistinctResults(gates) ==> ResultsStand(w.0, gates, w.1, valid)
    {
      ProducerMeetsChecker(w.0, gates, w.1, valid);
    }
    forall w, k: nat, content: Bytes | w in written && LastRuns(w.0, gates)
      ensures Accepts(w.0, gates, WithOwnLog(w.1, gates, k, content), valid) <==>
        |gates| == RELEASE_GATES && Commit(commit) && branch != "" && ResultsStand(w.0, gates, w.1, valid)
    {
      ProducerMeetsChecker(w.0, gates, w.1, valid);
      OwnLogIsNoEvidence(w.0, gates, w.1, valid, k, content);
    }
  }

  /** The exit code that a reason for failure leads to. */
  function CodeOf(reason: Reason): int {
    match reason
    case ExitCode(code) => code
    case Interrupted => 130
    case _ => 1
  }

  /** Some manifest showed this gate running. */
  ghost predicate ShownRunning(written: seq<(Manifest, Disk)>, g: nat) {
    exists w :: w in written && g < |w.0.gates| && w.0.gates[g].state == RUNNING
  }

  /** All commands of earlier gates were executed, then some of this gate's, in order, and no other. */
  predicate InTurn(trace: seq<Event>, gates: seq<Gate>, g: nat) {
    g < |gates| && exists j :: 0 <= j <= |gates[g].commands| && Executed(trace) == CommandsBefore(gates, g, j)
  }

  predicate ValidResults(c: Command, disk: Disk, valid: Validator) {
    c.resultFile.Some? ==> Named(c.resultFile.value) in disk && valid(disk[Named(c.resultFile.value)])
  }

  class ReleaseRun {
    const gates: seq<Gate>
    const world: World
    const commit: string
    const branch: string
    var rows: seq<Row>
    var original: Option<string>
    var disk: Disk
    var manifest: Option<Manifest>
    var readings: nat
    var looks: nat
    ghost var written: seq<(Manifest, Disk)>
    ghost var trace: seq<Event>

    constructor (gates: seq<Gate>, world: World, commit: string, branch: string, disk: Disk)
      ensures this.gates == gates && this.world == world && this.commit == commit && this.branch == branch
      ensures this.disk == disk && written == [] && trace == [] && original == None && looks == 0
    {
      this.gates, this.world, this.commit, this.branch := gates, world, commit, branch;
      rows, original, this.disk, manifest, readings, looks := [], None, disk, None, 0, 0;
      written, trace := [], [];
    }

    /** The first `g` gates have passed with their evidence, and every manifest so far was honest. */
    ghost predicate Recorded(g: nat)
      reads this
    {
      && |rows| == |gates| && g <= |gates| && Progress(rows, gates, g, disk)
      && (DistinctResults(gates) ==> Standing(rows, gates, g, disk, world.valid))
      && AllHonest(written, gates, world.valid, commit, branch)
    }

    ghost predicate Sound(g: nat)
      reads this
    {
      && Recorded(g) && Traced(trace, world, looks, original, gates, g)
      && ClockForward(world) && Startable(gates) && NoEmptyGate(gates)
    }

    /** Gate `g` is under way. */
    ghost predicate Underway(g: nat)
      reads this
    {
      && Sound(g) && g < |gates| == |rows| && rows[g].number == g + 1 && rows[g].name == gates[g].name
      && rows[g].state == RUNNING && InTurn(trace, gates, g)
    }

    /** Gate `g` is under way and its first `k` commands succeeded, the sources being the original ones around each. */
    ghost predicate Running(g: nat, k: nat)
      reads this
    {
      && Underway(g) && k <= |gates[g].commands| && SawOriginal(trace, original, g, k)
      && Executed(trace) == CommandsBefore(gates, g, k)
      && RowSoFar(rows[g], gates[g], g + 1, k, world.times(readings), disk)
      && (DistinctResults(gates) ==> RowStands(rows[g], gates[g], disk, world.valid))
    }

    /** Nothing of gate `g` or later has happened. */
    ghost predicate Ready(g: nat)
      reads this
    {
      && Sound(g) && g <= |gates| == |rows| && (g < |gates| ==> rows[g] == Initial(g, gates[g]))
      && Executed(trace) == CommandsBefore(gates, g, 0) && (original.None? ==> looks == 0)
    }

    /** The first gates passed and the next one failed: the run is over. */
    ghost predicate Stopped(g: nat)
      reads this
    {
      && Sound(g) && g < |gates| == |rows|
      && rows[g].state == FAIL && rows[g].exitCode.Some? && rows[g].exitCode != Some(0)
      && rows[g].failureReason.Some? && rows[g].exitCode.value == CodeOf(rows[g].failureReason.value)
      && rows[g].number == g + 1 && rows[g].name == gates[g].name && InTurn(trace, gates, g)
    }

    method Now() returns (t: int)
      requires ClockForward(world)
      modifies this`readings
      ensures t == world.times(old(readings)) && readings == old(readings) + 1
      ensures t <= world.times(readings)
    {
      t := world.times(readings);
      readings := readings + 1;
    }

    /** Read the fingerprint of the sources. */
    method Look() returns (f: Option<string>)
      modifies this`looks, this`trace
      ensures f == world.fingerprints(old(looks)) && looks == old(looks) + 1
      ensures trace == old(trace) + [Looked(f)]
    {
      f := world.fingerprints(looks);
      looks, trace := looks + 1, trace + [Looked(f)];
    }

    /** While a gate is under way: the sources must be the original ones. */
    method LookAgain(ghost g: nat) returns (problem: Option<Reason>)
      requires Underway(g)
      modifies this`looks, this`trace
      ensures Underway(g) && looks == old(looks) + 1
      ensures problem == Objection(world, old(looks), original)
      ensures trace == old(trace) + [Looked(world.fingerprints(old(looks)))]
    {
      hide Traced, Progress, Standing, AllHonest, DistinctResults, ClockForward, Startable, NoEmptyGate;
      var f := Look();
      StillTraced(old(trace), Looked(f), world, old(looks), original, gates, g);
      EventAdded(old(trace), Looked(f));
      if f.None? { return Some(if world.interrupts(looks - 1) then Interrupted else SystemError); }
      return if f != original then Some(SourceChanged) else None;
    }

    /** Rewrite the manifest, whole. */
    method Record(ghost g: nat)
      requires Recorded(g) && ClockForward(world)
      requires g < |rows| ==> rows[g].number == g + 1 && rows[g].name == gates[g].name
      requires g < |rows| && rows[g].state == PASS ==>
        && RowRecorded(rows[g], gates[g], g + 1, disk)
        && (DistinctResults(gates) ==> RowStands(rows[g], gates[g], disk, world.valid))
      requires g > 0 || (g < |rows| && rows[g].state == PASS) ==> original.Some?
      modifies this`manifest, this`readings, this`written
      ensures manifest.Some? && manifest.value.gates == rows && manifest.value.source == original
      ensures manifest.value.commit == commit && manifest.value.branch == branch
      ensures written == old(written) + [(manifest.value, disk)]
      ensures AllHonest(written, gates, world.valid, commit, branch)
      ensures readings == old(readings) + 1
    {
      var t := Now();
      var m := Manifest(original, t, commit, branch, OverallOf(rows), rows);
      ProgressIsHonest(rows, gates, g, disk, world.valid, m);
      manifest, written := Some(m), written + [(m, disk)];
    }

    /** Run a command into a new log; exit code 0 also takes valid results, where results are due. */
    method Execute(g: nat, k: nat) returns (r: Ended, ghost content: Bytes, ghost results: Option<Bytes>)
      requires g < |gates| && k < |gates[g].commands|
      modifies this`disk, this`trace
      ensures trace == old(trace) + [Ran(g, k, r)]
      ensures var c, log := gates[g].commands[k], Log(g + 1, k + 1);
        if log in old(disk) then r == Raised(SystemError) && disk == old(disk)
        else
          && disk == AfterCommand(old(disk), c, log, content, results)
          && match world.outcomes(g + 1, k + 1)
             case Unstarted => r == Code(127) && content == NOTE && results == None
             case TimesOut(bytes, found) => r == Code(124) && content == bytes + NOTE && results == found
             case Interrupts(bytes, found) => r == Raised(Interrupted) && content == bytes && results == found
             case Exits(code, bytes, found) =>
               && results == found
               && if code != 0 || ValidResults(c, disk, world.valid) then r == Code(code) && content == bytes
                  else r == Code(1) && content == bytes + NOTE
    {
      var c, log := gates[g].commands[k], Log(g + 1, k + 1);
      content, results := [], None;
      if log in disk {
        r := Raised(SystemError);
      } else {
        match world.outcomes(g + 1, k + 1) {
          case Unstarted =>
            content := NOTE;
            disk := disk[log := NOTE];
            r := Code(127);
          case Exits(code, bytes, found) =>
            content, results := bytes, found;
            disk := AfterCommand(disk, c, log, bytes, found);
            if code == 0 && !ValidResults(c, disk, world.valid) {
              content := bytes + NOTE;
              disk := disk[log := bytes + NOTE];
              assert disk == AfterCommand(old(disk), c, log, content, results);
              r := Code(1);
            } else {
              r := Code(code);
            }
          case TimesOut(bytes, found) =>
            content, results := bytes + NOTE, found;
            disk := AfterCommand(disk, c, log, bytes + NOTE, found);
            r := Code(124);
          case Interrupts(bytes, found) =>
            content, results := bytes, found;
            disk := AfterCommand(disk, c, log, bytes, found);
            r := Raised(Interrupted);
        }
      }
      trace := trace + [Ran(g, k, r)];
    }

    /** The manifest that a command finds is the last one written, about the files as they are. */
    ghost predicate UpToDate()
      reads this
    {
      && manifest.Some? && manifest.value.gates == rows
      && written != [] && written[|written| - 1] == (manifest.value, disk)
    }

    /** Up to the execution: the sources are still the original ones, and the manifest shows the command under way. */
    method Prepare(g: nat, k: nat) returns (problem: Option<Reason>)
      requires Running(g, k) && k < |gates[g].commands|
      modifies this
      ensures Underway(g) && original == old(original) && disk == old(disk)
      ensures old(written) <= written
      ensures problem == Objection(world, old(looks), original)
      ensures problem.None? ==>
        && UpToDate() && trace == old(trace) + [Looked(original)] && readings == old(readings) + 2
        && rows[g] == Started(
             old(rows)[g].(failedCommand := Some(gates[g].commands[k].argv)), gates[g].commands[k],
             Log(g + 1, k + 1), world.times(old(readings)))
    {
      hide Startable, NoEmptyGate, ClockForward, RowSoFar, AllHonest, SawOriginal, TrueReadings, DistinctResults;
      hide Standing;
      var c, log := gates[g].commands[k], Log(g + 1, k + 1);
      SameHead(rows[g], gates[g], g + 1, k, world.times(readings), disk);
      rows := rows[g := rows[g].(failedCommand := Some(c.argv))];
      OtherRows(old(rows), rows, gates, g, disk, world.valid);
      problem := LookAgain(g);
      if problem.Some? { return; }
      var started := Now();
      ghost var was := rows;
      rows := rows[g := Started(rows[g], c, log, started)];
      OtherRows(was, rows, gates, g, disk, world.valid);
      Record(g);
      return None;
    }

    /** After the execution: the receipt is completed from the log and the result file. */
    method Settle(g: nat, k: nat, code: int)
      requires Underway(g) && k < |gates[g].commands| && |rows[g].commands| == k + 1 && Log(g + 1, k + 1) in disk
      modifies this`rows, this`readings
      ensures Underway(g) && readings == old(readings) + 1 && rows[g] == WithReceipt(
        old(rows)[g],
        Finished(old(rows)[g].commands[k], code, world.times(old(readings)), disk[Log(g + 1, k + 1)],
                 Found(gates[g].commands[k], disk)), code)
    {
      hide Startable, NoEmptyGate, ClockForward, AllHonest, SawOriginal, TrueReadings, DistinctResults, Standing;
      hide InTurn;
      var finished := Now();
      var receipt := Finished(
        rows[g].commands[k], code, finished, disk[Log(g + 1, k + 1)], Found(gates[g].commands[k], disk));
      rows := rows[g := WithReceipt(rows[g], receipt, code)];
      OtherRows(old(rows), rows, gates, g, disk, world.valid);
    }

    method FailCode(g: nat, code: int)
      requires Underway(g) && code != 0 && rows[g].exitCode == Some(code)
      modifies this`rows
      ensures Stopped(g) && rows[g].exitCode == Some(code)
    {
      hide Startable, NoEmptyGate, ClockForward, AllHonest, Traced, DistinctResults, Standing, InTurn;
      rows := rows[g := rows[g].(state := FAIL, failureReason := Some(ExitCode(code)))];
      OtherRows(old(rows), rows, gates, g, disk, world.valid);
    }

    /** The command itself: the evidence of earlier ones is left alone. */
    method RunIt(g: nat, k: nat) returns (r: Ended, ghost content: Bytes, ghost results: Option<Bytes>)
      requires Underway(g) && UpToDate()
      requires k < |gates[g].commands| && Executed(trace) == CommandsBefore(gates, g, k)
      modifies this`disk, this`trace
      ensures Underway(g) && trace == old(trace) + [Ran(g, k, r)]
      ensures Executed(trace) == CommandsBefore(gates, g, k + 1)
      ensures r.Code? ==>
        disk == AfterCommand(old(disk), gates[g].commands[k], Log(g + 1, k + 1), content, results)
      ensures r == Code(0) ==> ValidResults(gates[g].commands[k], disk, world.valid)
      ensures r.Raised? ==> !r.reason.ExitCode?
    {
      hide Startable, NoEmptyGate, ClockForward, AllHonest, SawOriginal, TrueReadings, Progress, DistinctResults;
      hide Standing;
      r, content, results := Execute(g, k);
      StillTraced(old(trace), Ran(g, k, r), world, looks, original, gates, g);
      EventAdded(old(trace), Ran(g, k, r));
      assert Executed(trace) == CommandsBefore(gates, g, k + 1);
      assert InTurn(trace, gates, g);
      assert Traced(trace, world, looks, original, gates, g);
      ProgressAfterCommand(rows, gates, g, k, old(disk), disk, content, results, world.valid);
    }

    /** `None` when the next command may run; otherwise the gate ends here. */
    method RunCommand(g: nat, k: nat) returns (r: Option<Ended>)
      requires Running(g, k) && k < |gates[g].commands|
      modifies this
      ensures r.None? ==> Running(g, k + 1)
      ensures r.Some? && r.value.Raised? ==> Underway(g) && !r.value.reason.ExitCode?
      ensures r.Some? && r.value.Code? ==>
        r.value.code != 0 && Stopped(g) && rows[g].exitCode == Some(r.value.code)
      ensures original == old(original) && old(written) <= written
    {
      hide Startable, NoEmptyGate, ClockForward, RowSoFar, Recorded, SawOriginal, Traced, DistinctResults, InTurn;
      hide RowStands;
      SameHead(rows[g], gates[g], g + 1, k, world.times(readings), disk);
      var problem := Prepare(g, k);
      if problem.Some? { return Some(Raised(problem.value)); }
      assert Executed(trace) == CommandsBefore(gates, g, k) by { EventAdded(old(trace), Looked(original)); }
      ghost var disk0 := disk;
      var ended, content, results := RunIt(g, k);
      if ended.Raised? { return Some(ended); }
      LogIsThere(disk0, gates[g].commands[k], Log(g + 1, k + 1), content, results);
      Settle(g, k, ended.code);
      if ended.code != 0 {
        FailCode(g, ended.code);
        return Some(ended);
      }
      problem := LookAgain(g);
      if problem.Some? { return Some(Raised(problem.value)); }
      Succeeded(old(rows)[g], rows[g], old(readings), content, results, g, k, disk0);
      OneMoreSighting(old(trace), trace, original, g, k);
      return None;
    }

    lemma Succeeded(
      row0: Row, row: Row, readings0: nat, content: Bytes, results: Option<Bytes>, g: nat, k: nat, was: Disk)
      requires ClockForward(world) && Startable(gates) && g < |gates| && k < |gates[g].commands|
      requires readings == readings0 + 3
      requires RowSoFar(row0, gates[g], g + 1, k, world.times(readings0), was)
      requires DistinctResults(gates) ==> RowStands(row0, gates[g], was, world.valid)
      requires var c, log := gates[g].commands[k], Log(g + 1, k + 1);
        && disk == AfterCommand(was, c, log, content, results) && ValidResults(c, disk, world.valid)
        && row == WithReceipt(
             Started(row0.(failedCommand := Some(c.argv)), c, log, world.times(readings0)),
             Finished(Receipt(c.argv, c.cwd, log, world.times(readings0), None, None, None, c.resultFile, None), 0,
                      world.times(readings0 + 2), disk[log], Found(c, disk)), 0)
      ensures RowSoFar(row, gates[g], g + 1, k + 1, world.times(readings), disk)
      ensures DistinctResults(gates) ==> RowStands(row, gates[g], disk, world.valid)
    {
      hide DistinctResults, RowStands;
      OneMoreReceipt(row0, row, gates, g, k, world.times(readings0), world.times(readings0), world.times(readings0 + 2),
                     world.times(readings), was, disk, content, results, world.valid);
    }

    /** The original fingerprint is taken once, by the first gate. */
    method Begin(g: nat) returns (problem: Option<Reason>)
      requires Ready(g) && g < |gates|
      modifies this
      ensures Underway(g) && old(written) <= written && ShownRunning(written, g)
      ensures problem == if old(original).Some? then None else Objection(world, 0, world.fingerprints(0))
      ensures problem.None? ==> Running(g, 0)
    {
      hide Startable, NoEmptyGate, AllHonest, Progress, DistinctResults, Standing, TrueReadings;
      var started := Now();
      rows := rows[g := rows[g].(startedAt := Some(started), state := RUNNING)];
      OtherRows(old(rows), rows, gates, g, disk, world.valid);
      Record(g);
      assert ShownRunning(written, g) by { assert written[|written| - 1] in written; }
      assert world.times(old(readings)) <= world.times(readings);
      NoneStand(rows[g], gates[g], disk, world.valid);
      if original.None? {
        problem := ReadOriginal(g);
        if problem.Some? { return; }
      }
      return None;
    }

    method ReadOriginal(ghost g: nat) returns (problem: Option<Reason>)
      requires Underway(g) && original == None && looks == 0
      modifies this`original, this`looks, this`trace
      ensures Underway(g) && Executed(trace) == old(Executed(trace))
      ensures original == world.fingerprints(0) && problem == Objection(world, 0, original)
    {
      hide Progress, Standing, AllHonest, DistinctResults, ClockForward, Startable, NoEmptyGate, TrueReadings;
      original := Look();
      FirstReading(old(trace), world, original, gates);
      EventAdded(old(trace), Looked(original));
      if original.None? { return Some(if world.interrupts(0) then Interrupted else SystemError); }
      return None;
    }

    /** One gate, with its final entry in the manifest whichever way it ends. */
    method RunGate(g: nat) returns (failed: Option<int>)
      requires Ready(g) && g < |gates|
      modifies this
      ensures failed.None? ==> Ready(g + 1)
      ensures failed.Some? ==> Stopped(g) && failed == rows[g].exitCode
      ensures old(written) <= written && ShownRunning(written, g)
      ensures written != [] && manifest == Some(written[|written| - 1].0) && manifest.value.gates == rows
    {
      hide Startable, NoEmptyGate, Recorded, RowSoFar, SawOriginal, ShownRunning, ClockForward, Traced, InTurn;
      hide DistinctResults, RowStands;
      var problem := Begin(g);
      ghost var shown := written;
      if problem.Some? {
        failed := Fail(g, problem.value);
        StillShown(shown, written, g);
        return;
      }
      var k := 0;
      while k < |gates[g].commands|
        invariant 0 <= k <= |gates[g].commands| && Running(g, k) && shown <= written
      {
        var ended := RunCommand(g, k);
        if ended.Some? {
          match ended.value {
            case Raised(reason) => failed := Fail(g, reason);
            case Code(code) =>
              failed := Some(code);
              Finish(g);
          }
          StillShown(shown, written, g);
          return;
        }
        k := k + 1;
      }
      Pass(g);
      StillShown(shown, written, g);
      return None;
    }

    /** An exception: the gate fails, with the conventional code for an interrupt. */
    method Fail(g: nat, reason: Reason) returns (failed: Option<int>)
      requires Underway(g) && !reason.ExitCode?
      modifies this
      ensures Stopped(g) && failed == rows[g].exitCode && rows[g].failureReason == Some(reason)
      ensures old(written) <= written
      ensures written != [] && manifest == Some(written[|written| - 1].0) && manifest.value.gates == rows
    {
      hide Startable, NoEmptyGate, AllHonest, Traced, ClockForward, InTurn, DistinctResults, Standing, Progress;
      var code := if reason == Interrupted then 130 else 1;
      rows := rows[g := rows[g].(state := FAIL, exitCode := Some(code), failureReason := Some(reason))];
      OtherRows(old(rows), rows, gates, g, disk, world.valid);
      Finish(g);
      return Some(code);
    }

    method Finish(g: nat)
      requires Stopped(g)
      modifies this
      ensures Stopped(g) && rows[g].exitCode == old(rows[g].exitCode) && old(written) <= written
      ensures rows[g].failureReason == old(rows[g].failureReason)
      ensures written != [] && manifest == Some(written[|written| - 1].0) && manifest.value.gates == rows
    {
      hide Startable, NoEmptyGate, AllHonest, ClockForward, InTurn, DistinctResults, Standing, Progress;
      hide TrueReadings, SawOriginal;
      var finished := Now();
      rows := rows[g := rows[g].(finishedAt := Some(finished))];
      OtherRows(old(rows), rows, gates, g, disk, world.valid);
      Record(g);
    }

    method Pass(g: nat)
      requires g < |gates| && Running(g, |gates[g].commands|)
      modifies this
      ensures Ready(g + 1) && old(written) <= written
      ensures written != [] && manifest == Some(written[|written| - 1].0) && manifest.value.gates == rows
    {
      hide Startable, AllHonest, Progress, RowSoFar, SawOriginal, TrueReadings, DistinctResults, Standing, InTurn;
      hide RowStands, RowRecorded;
      ghost var was := rows;
      rows := rows[g := rows[g].(failedCommand := None, state := PASS)];
      var finished := Now();
      rows := rows[g := rows[g].(finishedAt := Some(finished))];
      OtherRows(was, rows, gates, g, disk, world.valid);
      assert gates[g] in gates;
      PassedHolds(was[g], gates[g], g + 1, finished, disk, world.valid);
      OriginalKnown(trace, original, g, |gates[g].commands|);
      PassedRow(rows[g], gates[g], g + 1, disk);
      Record(g);
      NextGate(rows, gates, g, disk, world.valid);
      NextTraced(trace, world, looks, original, gates, g);
    }

    method Initialise()
      requires ClockForward(world) && Startable(gates) && NoEmptyGate(gates)
      requires written == [] && trace == [] && looks == 0 && original == None
      modifies this
      ensures Ready(0) && manifest.Some? && manifest.value.gates == rows
    {
      rows := seq(|gates|, i requires 0 <= i < |gates| => Initial(i, gates[i]));
      NothingWritten(gates, world.valid, commit, branch);
      Record(0);
    }

    /**
     The whole checkpoint, for any gates whose commands name a program. The result is 0
     exactly if every gate passed. Every manifest ever written was honest, and the last one
     shows the final rows. The trace holds the true fingerprint readings, of which the
     original is the first; a gate that passed read it right before and right after each of
     its commands; and no command was executed out of turn or after the first failure.
     */
    method RunGates() returns (code: Option<int>)
      requires ClockForward(world) && Startable(gates)
      requires written == [] && trace == [] && looks == 0 && original == None
      modifies this
      ensures code.None? <==> !NoEmptyGate(gates)
      ensures code.Some? ==>
        && AllHonest(written, gates, world.valid, commit, branch)
        && MeetsChecker(written, gates, world.valid, commit, branch)
      ensures code.Some? ==>
        && |rows| == |gates| && manifest.Some? && manifest.value.gates == rows
        && (code.value == 0 <==> forall r :: r in rows ==> r.state == PASS)
        && (forall i :: 0 <= i < |gates| && rows[i].state == FAIL ==> rows[i].exitCode == code)
        && (forall i :: 0 <= i < |gates| && rows[i].state != NOT_RUN ==> ShownRunning(written, i))
      ensures code.Some? ==>
        && TrueReadings(trace, world, looks) && (original.Some? ==> looks > 0 && original == world.fingerprints(0))
        && (forall i :: 0 <= i < |gates| && rows[i].state == PASS ==>
              SawOriginal(trace, original, i, |gates[i].commands|))
      ensures code == Some(0) ==> Executed(trace) == CommandsBefore(gates, |gates|, 0)
      ensures code.Some? && code.value != 0 ==>
        exists g :: 0 <= g < |gates| && rows[g].state == FAIL && InTurn(trace, gates, g)
          && rows[g].failureReason.Some? && code.value == CodeOf(rows[g].failureReason.value)
    {
      hide Startable, AllHonest, SawOriginal, ShownRunning, ClockForward, Progress, DistinctResults, Standing;
      hide InTurn, TrueReadings, MeetsChecker, CodeOf;
      if !NoEmptyGate(gates) { return None; }
      Initialise();
      var g := 0;
      while g < |gates|
        invariant 0 <= g <= |gates| && Ready(g)
        invariant manifest.Some? && manifest.value.gates == rows
        invariant forall i :: 0 <= i < g ==> ShownRunning(written, i)
      {
        ghost var shown := written;
        var failed := RunGate(g);
        forall i | 0 <= i < g ensures ShownRunning(written, i) { StillShown(shown, written, i); }
        if failed.Some? {
          AtTheEnd(rows, gates, g, disk);
          RunMeetsChecker(written, gates, world.valid, commit, branch);
          return failed;
        }
        g := g + 1;
      }
      AtTheEnd(rows, gates, g, disk);
      RunMeetsChecker(written, gates, world.valid, commit, branch);
      return Some(0);
    }
  }

  // --- steps of the proof ---

  /** The result file, if there is one. */
  function Found(c: Command, disk: Disk): Option<Bytes> {
    if c.resultFile.Some? && Named(c.resultFile.value) in disk then Some(disk[Named(c.resultFile.value)]) else None
  }

  lemma LogIsThere(was: Disk, c: Command, log: Path, content: Bytes, results: Option<Bytes>)
    requires log.Log?
    ensures log in AfterCommand(was, c, log, content, results)
  {}

  function Started(row: Row, c: Command, log: Path, t: int): Row {
    row.(logs := row.logs + [log],
         commands := row.commands + [Receipt(c.argv, c.cwd, log, t, None, None, None, c.resultFile, None)])
  }

  function Finished(r: Receipt, code: int, t: int, content: Bytes, results: Option<Bytes>): Receipt {
    r.(exitCode := Some(code), finishedAt := Some(t), sha256 := Some(Sha256(content)),
       resultSha256 := if results.Some? then Some(Sha256(results.value)) else None)
  }

  function WithReceipt(row: Row, r: Receipt, code: int): Row
    requires row.commands != []
  {
    row.(exitCode := Some(code), commands := row.commands[..|row.commands| - 1] + [r])
  }

  lemma SameHead(row: Row, gate: Gate, number: nat, done: nat, now: int, disk: Disk)
    requires RowSoFar(row, gate, number, done, now, disk)
    ensures row.number == number && row.name == gate.name && row.state == RUNNING && row.startedAt.Some?
    ensures |row.commands| == |row.logs| == done <= |gate.commands|
  {}

  /** What is kept of the other rows does not depend on row `g`. */
  lemma OtherRows(was: seq<Row>, now: seq<Row>, gates: seq<Gate>, g: nat, disk: Disk, valid: Validator)
    requires g < |was| == |now| && forall i :: 0 <= i < |was| && i != g ==> now[i] == was[i]
    ensures Progress(was, gates, g, disk) ==> Progress(now, gates, g, disk)
    ensures Standing(was, gates, g, disk, valid) ==> Standing(now, gates, g, disk, valid)
  {
    hide RowRecorded, RowStands;
  }

  lemma ProgressAfterCommand(
    rows: seq<Row>, gates: seq<Gate>, g: nat, k: nat, was: Disk, now: Disk, content: Bytes, results: Option<Bytes>,
    valid: Validator)
    requires Progress(rows, gates, g, was) && g < |gates| && k < |gates[g].commands|
    requires now == was || now == AfterCommand(was, gates[g].commands[k], Log(g + 1, k + 1), content, results)
    ensures Progress(rows, gates, g, now)
    ensures DistinctResults(gates) && Standing(rows, gates, g, was, valid) ==> Standing(rows, gates, g, now, valid)
  {
    hide RowRecorded, RowStands, LogsStay, DistinctResults, AfterCommand;
    if now != was {
      forall i | 0 <= i < g ensures RowRecorded(rows[i], gates[i], i + 1, now) {
        OwnLogOnly(gates, g, k, i, |gates[i].commands|, was, content, results);
        RowStays(rows[i], gates[i], i + 1, was, now);
      }
      if DistinctResults(gates) && Standing(rows, gates, g, was, valid) {
        forall i | 0 <= i < g ensures RowStands(rows[i], gates[i], now, valid) {
          OwnResultsOnly(rows[i], gates, g, k, i, was, content, results, valid);
        }
      }
    }
  }

  lemma OneMoreReceipt(
    row0: Row, row: Row, gates: seq<Gate>, g: nat, k: nat, time0: int, started: int, finished: int, now: int,
    was: Disk, disk: Disk, content: Bytes, results: Option<Bytes>, valid: Validator)
    requires Startable(gates) && g < |gates| && k < |gates[g].commands|
    requires RowSoFar(row0, gates[g], g + 1, k, time0, was)
    requires DistinctResults(gates) ==> RowStands(row0, gates[g], was, valid)
    requires time0 <= started <= finished <= now
    requires var c, log := gates[g].commands[k], Log(g + 1, k + 1);
      && disk == AfterCommand(was, c, log, content, results) && ValidResults(c, disk, valid)
      && row == WithReceipt(
           Started(row0.(failedCommand := Some(c.argv)), c, log, started),
           Finished(Receipt(c.argv, c.cwd, log, started, None, None, None, c.resultFile, None), 0, finished, disk[log],
                    Found(c, disk)), 0)
    ensures RowSoFar(row, gates[g], g + 1, k + 1, now, disk)
    ensures DistinctResults(gates) ==> RowStands(row, gates[g], disk, valid)
  {
    hide LogsStay, DistinctResults;
    OwnLogOnly(gates, g, k, g, k, was, content, results);
    SoFarStays(row0, gates[g], g + 1, k, time0, now, was, disk);
    if DistinctResults(gates) { OwnResultsOnly(row0, gates, g, k, g, was, content, results, valid); }
  }

  lemma NoneStand(row: Row, gate: Gate, disk: Disk, valid: Validator)
    ensures row.commands == [] ==> RowStands(row, gate, disk, valid)
  {}

  lemma StillShown(was: seq<(Manifest, Disk)>, now: seq<(Manifest, Disk)>, g: nat)
    requires ShownRunning(was, g) && was <= now
    ensures ShownRunning(now, g)
  {}

  lemma NothingWritten(gates: seq<Gate>, valid: Validator, commit: string, branch: string)
    ensures AllHonest([], gates, valid, commit, branch)
  {}

  /** Before the first gate has its reading nothing has been read. */
  lemma FirstReading(trace: seq<Event>, w: World, original: Option<string>, gates: seq<Gate>)
    requires Traced(trace, w, 0, None, gates, 0) && original == w.fingerprints(0)
    ensures Traced(trace + [Looked(original)], w, 1, original, gates, 0)
  {
    EventAdded(trace, Looked(original));
  }

  lemma PassedHolds(row: Row, gate: Gate, number: nat, finished: int, disk: Disk, valid: Validator)
    requires RowSoFar(row, gate, number, |gate.commands|, finished, disk) && gate.commands != []
    ensures var passed := row.(failedCommand := None, state := PASS, finishedAt := Some(finished));
      && RowRecorded(passed, gate, number, disk)
      && (RowStands(row, gate, disk, valid) ==> RowStands(passed, gate, disk, valid))
  {}

  lemma OriginalKnown(trace: seq<Event>, original: Option<string>, g: nat, done: nat)
    requires SawOriginal(trace, original, g, done)
    ensures original.Some?
  {}

  lemma NextGate(rows: seq<Row>, gates: seq<Gate>, g: nat, disk: Disk, valid: Validator)
    requires Progress(rows, gates, g, disk) && g < |gates| && RowRecorded(rows[g], gates[g], g + 1, disk)
    ensures Progress(rows, gates, g + 1, disk)
    ensures g + 1 < |gates| ==> rows[g + 1] == Initial(g + 1, gates[g + 1])
    ensures Standing(rows, gates, g, disk, valid) && RowStands(rows[g], gates[g], disk, valid) ==>
      Standing(rows, gates, g + 1, disk, valid)
  {
    hide RowRecorded, RowStands;
  }

  lemma NextTraced(trace: seq<Event>, w: World, looks: nat, original: Option<string>, gates: seq<Gate>, g: nat)
    requires Traced(trace, w, looks, original, gates, g) && g < |gates|
    requires SawOriginal(trace, original, g, |gates[g].commands|)
    ensures Traced(trace, w, looks, original, gates, g + 1)
  {
    hide TrueReadings;
  }

  /** What the rows say at the end. */
  lemma AtTheEnd(rows: seq<Row>, gates: seq<Gate>, g: nat, disk: Disk)
    requires Progress(rows, gates, g, disk) && (g < |rows| ==> rows[g].state == FAIL)
    ensures (g == |gates|) <==> forall r :: r in rows ==> r.state == PASS
    ensures forall i :: 0 <= i < |gates| ==> (rows[i].state == PASS <==> i < g) && (rows[i].state == FAIL <==> i == g)
    ensures forall i :: 0 <= i < |gates| && rows[i].state != NOT_RUN ==> i <= g
  {
    hide RowRecorded;
    if g < |rows| { assert rows[g] in rows; }
    forall i | 0 <= i < g ensures rows[i].state == PASS { PassedRow(rows[i], gates[i], i + 1, disk); }
  }
}
