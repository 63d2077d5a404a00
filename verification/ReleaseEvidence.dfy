/**
 The release manifest and the evidence check that accepts or rejects it.
 */
module ReleaseEvidence {
  import opened Common

  /** Files of a checkpoint: a log per command, and named test results. */
  datatype Path = Log(gate: nat, command: nat) | Named(name: string)

  type Disk = map<Path, Bytes>

  datatype Command = Command(argv: seq<string>, cwd: string, resultFile: Option<string>)

  datatype Gate = Gate(name: string, commands: seq<Command>)

  datatype Receipt = Receipt(
    argv: seq<string>, cwd: string, log: Path, startedAt: int, finishedAt: Option<int>, exitCode: Option<int>,
    sha256: Option<Digest>, resultFile: Option<string>, resultSha256: Option<Digest>)

  datatype GateState = NOT_RUN | RUNNING | PASS | FAIL

  datatype Reason = ExitCode(code: int) | SourceChanged | SystemError | Interrupted

  datatype Row = Row(
    number: nat, name: string, state: GateState, startedAt: Option<int>, finishedAt: Option<int>,
    exitCode: Option<int>, failedCommand: Option<seq<string>>, failureReason: Option<Reason>,
    logs: seq<Path>, commands: seq<Receipt>)

  datatype Overall = Passed | Failed | Incomplete

  datatype Manifest = Manifest(
    source: Option<string>, observedAt: int, commit: string, branch: string, state: Overall, gates: seq<Row>)

  const RELEASE_GATES := 29

  /** `validate_results`: nonempty, unskipped and unfailed test results. */
  type Validator = Bytes -> bool

  predicate Hex(c: char) { '0' <= c <= '9' || 'a' <= c <= 'f' }

  predicate Commit(s: string) { |s| == 40 && forall c :: c in s ==> Hex(c) }

  // --- one command ---

  /** The command's receipt, and the log it speaks of. */
  predicate ReceiptRecorded(r: Receipt, definition: Command, gate: nat, command: nat, disk: Disk) {
    && r.argv == definition.argv != [] && r.cwd == definition.cwd
    && r.log == Log(gate, command) && r.log in disk && r.sha256 == Some(Sha256(disk[r.log]))
    && r.finishedAt.Some? && r.exitCode == Some(0)
    && r.resultFile == definition.resultFile && (r.resultSha256.Some? <==> definition.resultFile.Some?)
  }

  /** The results lie there, valid, as they were when the receipt was completed. */
  predicate ResultStands(r: Receipt, definition: Command, disk: Disk, valid: Validator) {
    definition.resultFile.Some? ==>
      var results := Named(definition.resultFile.value);
      results in disk && valid(disk[results]) && r.resultSha256 == Some(Sha256(disk[results]))
  }

  predicate ReceiptHolds(
    r: Receipt, definition: Command, gate: nat, command: nat, disk: Disk, valid: Validator)
  {
    ReceiptRecorded(r, definition, gate, command, disk) && ResultStands(r, definition, disk, valid)
  }

  predicate InOrder(from: int, r: Receipt, until: int) {
    r.finishedAt.Some? && from <= r.startedAt <= r.finishedAt.value <= until
  }

  // --- one gate ---

  /** A passed gate with its receipts. */
  predicate RowRecorded(row: Row, gate: Gate, number: nat, disk: Disk) {
    && row.number == number && row.name == gate.name && row.state == PASS
    && row.startedAt.Some? && row.finishedAt.Some? && row.startedAt.value <= row.finishedAt.value
    && row.exitCode == Some(0) && row.failedCommand.None? && row.failureReason.None?
    && |row.commands| == |gate.commands| > 0
    && |row.logs| == |row.commands|
    && forall k :: 0 <= k < |row.commands| ==>
         && row.logs[k] == row.commands[k].log
         && ReceiptRecorded(row.commands[k], gate.commands[k], number, k + 1, disk)
         && InOrder(row.startedAt.value, row.commands[k], row.finishedAt.value)
  }

  predicate RowStands(row: Row, gate: Gate, disk: Disk, valid: Validator) {
    forall k :: 0 <= k < |row.commands| && k < |gate.commands| ==>
      ResultStands(row.commands[k], gate.commands[k], disk, valid)
  }

  /** A finished gate as the evidence wants it. */
  predicate RowHolds(row: Row, gate: Gate, number: nat, disk: Disk, valid: Validator) {
    RowRecorded(row, gate, number, disk) && RowStands(row, gate, disk, valid)
  }

  /** What `evidence` accepts while the last gate runs. */
  predicate Accepts(m: Manifest, gates: seq<Gate>, disk: Disk, valid: Validator) {
    && m.source.Some? && Commit(m.commit) && m.branch != "" && m.state == Incomplete
    && |m.gates| == RELEASE_GATES == |gates|
    && var last := |m.gates| - 1;
       && m.gates[last].number == |gates| && m.gates[last].name == gates[last].name && m.gates[last].state == RUNNING
       && forall i :: 0 <= i < last ==> RowHolds(m.gates[i], gates[i], i + 1, disk, valid)
  }

  // --- the check itself ---

  /** The loop over one row's commands. */
  method CheckCommands(row: Row, gate: Gate, number: nat, disk: Disk, valid: Validator) returns (ok: bool)
    requires |row.commands| == |gate.commands| == |row.logs| && row.startedAt.Some? && row.finishedAt.Some?
    ensures ok <==> forall k :: 0 <= k < |row.commands| ==>
      && row.logs[k] == row.commands[k].log
      && ReceiptHolds(row.commands[k], gate.commands[k], number, k + 1, disk, valid)
      && InOrder(row.startedAt.value, row.commands[k], row.finishedAt.value)
  {
    var k := 0;
    while k < |row.commands|
      invariant 0 <= k <= |row.commands|
      invariant forall i :: 0 <= i < k ==>
        && row.logs[i] == row.commands[i].log
        && ReceiptHolds(row.commands[i], gate.commands[i], number, i + 1, disk, valid)
        && InOrder(row.startedAt.value, row.commands[i], row.finishedAt.value)
    {
      var r, definition := row.commands[k], gate.commands[k];
      var log := Log(number, k + 1);
      if row.logs[k] != r.log || r.argv == [] || r.finishedAt.None? || r.exitCode != Some(0) { return false; }
      if r.argv != definition.argv || r.cwd != definition.cwd { return false; }
      if r.log != log { return false; }
      if !InOrder(row.startedAt.value, r, row.finishedAt.value) { return false; }
      if log !in disk || r.sha256 != Some(Sha256(disk[log])) { return false; }
      if definition.resultFile.Some? {
        if r.resultFile != definition.resultFile { return false; }
        var results := Named(definition.resultFile.value);
        if results !in disk || !valid(disk[results]) { return false; }
        if r.resultSha256 != Some(Sha256(disk[results])) { return false; }
      } else if r.resultFile.Some? || r.resultSha256.Some? {
        return false;
      }
      k := k + 1;
    }
    return true;
  }

  method CheckEvidence(m: Manifest, gates: seq<Gate>, disk: Disk, valid: Validator) returns (ok: bool)
    ensures ok <==> Accepts(m, gates, disk, valid)
  {
    hide ReceiptRecorded, ResultStands, InOrder;
    if m.source.None? || !Commit(m.commit) || m.branch == "" || m.state != Incomplete { return false; }
    if |m.gates| != RELEASE_GATES || |gates| != RELEASE_GATES { return false; }
    var last := |m.gates| - 1;
    var pending := m.gates[last];
    if pending.number != |gates| || pending.name != gates[last].name || pending.state != RUNNING { return false; }
    var i := 0;
    while i < last
      invariant 0 <= i <= last && forall j :: 0 <= j < i ==> RowHolds(m.gates[j], gates[j], j + 1, disk, valid)
    {
      var row, gate := m.gates[i], gates[i];
      if row.state != PASS || row.startedAt.None? || row.finishedAt.None? || row.exitCode != Some(0)
        || row.failedCommand.Some? || row.failureReason.Some? || row.commands == []
      {
        return false;
      }
      if row.number != i + 1 || row.name != gate.name || |row.commands| != |gate.commands| { return false; }
      if |row.logs| != |row.commands| || row.finishedAt.value < row.startedAt.value { return false; }
      var ok := CheckCommands(row, gate, i + 1, disk, valid);
      if !ok { return false; }
      i := i + 1;
    }
    return true;
  }

  /** The log of a command of the last gate, such as the check itself, is no evidence. */
  lemma OwnLogIsNoEvidence(m: Manifest, gates: seq<Gate>, disk: Disk, valid: Validator, k: nat, content: Bytes)
    ensures Accepts(m, gates, disk[Log(|gates|, k) := content], valid) <==> Accepts(m, gates, disk, valid)
  {
    hide RowHolds;
    var more := disk[Log(|gates|, k) := content];
    forall i | 0 <= i < |gates| - 1 && i < |m.gates|
      ensures RowHolds(m.gates[i], gates[i], i + 1, more, valid) <==> RowHolds(m.gates[i], gates[i], i + 1, disk, valid)
    {
      OtherLogIsNoEvidence(m.gates[i], gates[i], i + 1, disk, valid, Log(|gates|, k), content);
    }
  }

  lemma OtherLogIsNoEvidence(
    row: Row, gate: Gate, number: nat, disk: Disk, valid: Validator, log: Path, content: Bytes)
    requires log.Log? && log.gate != number
    ensures RowHolds(row, gate, number, disk[log := content], valid) <==> RowHolds(row, gate, number, disk, valid)
  {
    hide InOrder;
    var more := disk[log := content];
    if |row.commands| == |gate.commands| {
      forall k | 0 <= k < |row.commands|
        ensures ReceiptRecorded(row.commands[k], gate.commands[k], number, k + 1, more)
           <==> ReceiptRecorded(row.commands[k], gate.commands[k], number, k + 1, disk)
        ensures ResultStands(row.commands[k], gate.commands[k], more, valid)
           <==> ResultStands(row.commands[k], gate.commands[k], disk, valid)
      {}
    }
  }

  // --- evidence cannot be edited afterwards ---

  predicate Differs(was: Disk, now: Disk, path: Path) {
    path in was && (path in now ==> now[path] != was[path])
  }

  /** Changing or removing a log or a result file of a finished gate makes the check reject. */
  lemma EditsAreNoticed(
    m: Manifest, gates: seq<Gate>, disk: Disk, edited: Disk, valid: Validator, i: nat, k: nat)
    requires Accepts(m, gates, disk, valid) && i < |gates| - 1 && k < |gates[i].commands|
    requires
      || Differs(disk, edited, Log(i + 1, k + 1))
      || (gates[i].commands[k].resultFile.Some?
          && Differs(disk, edited, Named(gates[i].commands[k].resultFile.value)))
    ensures !Accepts(m, gates, edited, valid)
  {
    assert RowHolds(m.gates[i], gates[i], i + 1, disk, valid);
    var r := m.gates[i].commands[k];
    assert ReceiptHolds(r, gates[i].commands[k], i + 1, k + 1, disk, valid);
    assert !ReceiptHolds(r, gates[i].commands[k], i + 1, k + 1, edited, valid);
  }
}
