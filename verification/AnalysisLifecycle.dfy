/**
 Status transitions of a persisted analysis run, raced by any number of workers.
 A transition reads status and history together, and later writes the whole
 history back on condition that the status is still the one it read.
 */
module AnalysisLifecycle {
  import opened Common

  datatype Status = QUEUED | RUNNING | SUCCEEDED | FAILED | CANCELLED

  /** The states a transition can be asked for. */
  type Target = s: Status | s != QUEUED witness RUNNING

  function Predecessors(target: Target): set<Status> {
    match target
    case RUNNING => {QUEUED}
    case SUCCEEDED => {RUNNING}
    case FAILED => {QUEUED, RUNNING}
    case CANCELLED => {QUEUED, RUNNING}
  }

  function DefaultMessage(target: Target): string {
    match target
    case RUNNING => "Validated template executing in isolated process"
    case SUCCEEDED => "Result persisted"
    case FAILED => "Analysis failed"
    case CANCELLED => "Cancellation requested; worker result will be discarded"
  }

  datatype Entry = Entry(state: Status, at: int, message: string)

  datatype Run = Run(
    status: Status, history: seq<Entry>, startedAt: Option<int>, finishedAt: Option<int>,
    result: Option<string>, error: Option<string>)

  datatype Request = Request(
    target: Target, result: Option<string>, error: Option<string>, expected: Option<Status>)

  /** The check made on the status that was read. */
  predicate Permitted(status: Status, r: Request) {
    status in Predecessors(r.target) && (r.expected.None? || r.expected == Some(status))
  }

  function EntryFor(r: Request, now: int): Entry {
    Entry(r.target, now,
          if r.error.Some? && r.error.value != "" then r.error.value else DefaultMessage(r.target))
  }

  /** The UPDATE: the history is the one read earlier plus one entry, whatever the row holds now. */
  function Overwritten(run: Run, history: seq<Entry>, r: Request, now: int): Run {
    var written := run.(status := r.target, history := history + [EntryFor(r, now)]);
    if r.target == RUNNING then written.(startedAt := Some(now))
    else written.(
      finishedAt := Some(now),
      result := if r.target == SUCCEEDED then r.result else None,
      error := if r.target == FAILED then r.error else None)
  }

  // --- the intended meaning: transitions that happen all at once ---

  datatype Win = Win(request: Request, at: int)

  /** The run after an uninterrupted sequence of permitted transitions. */
  function Replay(run: Run, wins: seq<Win>): Run {
    if wins == [] then run
    else
      var before := Replay(run, wins[..|wins| - 1]);
      var win := wins[|wins| - 1];
      Overwritten(before, before.history, win.request, win.at)
  }

  predicate AllPermitted(run: Run, wins: seq<Win>) {
    forall k :: 0 <= k < |wins| ==> Permitted(Replay(run, wins[..k]).status, wins[k].request)
  }

  function Rank(s: Status): nat {
    match s
    case QUEUED => 0
    case RUNNING => 1
    case _ => 2
  }

  predicate Finished(s: Status) { Rank(s) == 2 }

  lemma ReplayOne(run: Run, wins: seq<Win>, win: Win)
    requires AllPermitted(run, wins) && Permitted(Replay(run, wins).status, win.request)
    ensures AllPermitted(run, wins + [win])
    ensures Replay(run, wins + [win]) == Overwritten(Replay(run, wins), Replay(run, wins).history, win.request, win.at)
  {
    hide Overwritten, Permitted;
    var all := wins + [win];
    assert all[..|wins|] == wins;
    forall k | 0 <= k < |wins| ensures Permitted(Replay(run, all[..k]).status, all[k].request) {
      assert all[..k] == wins[..k];
    }
  }

  /** Each transition goes up in rank: a status that has been left never comes back. */
  lemma {:induction false} RanksClimb(run: Run, wins: seq<Win>, j: nat, k: nat)
    requires AllPermitted(run, wins) && j <= k <= |wins|
    ensures Rank(Replay(run, wins[..k]).status) >= Rank(Replay(run, wins[..j]).status) + (k - j)
    decreases k - j
  {
    if j < k {
      RanksClimb(run, wins, j, k - 1);
      assert wins[..k][..k - 1] == wins[..k - 1];
      assert Permitted(Replay(run, wins[..k - 1]).status, wins[k - 1].request);
    }
  }

  function Entries(wins: seq<Win>): seq<Entry> {
    seq(|wins|, k requires 0 <= k < |wins| => EntryFor(wins[k].request, wins[k].at))
  }

  lemma {:induction false} HistoryOfReplay(run: Run, wins: seq<Win>)
    ensures Replay(run, wins).history == run.history + Entries(wins)
    decreases |wins|
  {
    if wins != [] {
      var init, win := wins[..|wins| - 1], wins[|wins| - 1];
      HistoryOfReplay(run, init);
      assert Entries(wins) == Entries(init) + [EntryFor(win.request, win.at)];
    }
  }

  /** At most one transition finishes the run, it is the last one, and at most one claims it before. */
  lemma OneFinisher(run: Run, wins: seq<Win>)
    requires AllPermitted(run, wins)
    ensures |wins| <= 2 - Rank(run.status)
    ensures forall k :: 0 <= k < |wins| - 1 ==> wins[k].request.target == RUNNING
    ensures wins != [] ==> Replay(run, wins).status == wins[|wins| - 1].request.target
  {
    RanksClimb(run, wins, 0, |wins|);
    assert wins[..|wins|] == wins && wins[..0] == [];
    forall k | 0 <= k < |wins| - 1 ensures wins[k].request.target == RUNNING {
      RanksClimb(run, wins, k + 1, |wins|);
      assert wins[..k + 1][..k] == wins[..k];
      assert Replay(run, wins[..k + 1]).status == wins[k].request.target;
    }
  }

  /** A result belongs to a success and an error to a failure, and they are the winner's own. */
  lemma Evidence(run: Run, wins: seq<Win>)
    requires AllPermitted(run, wins) && run.result.None? && run.error.None?
    ensures var end := Replay(run, wins);
      && (end.result.Some? ==> end.status == SUCCEEDED)
      && (end.error.Some? ==> end.status == FAILED)
      && (wins != [] && end.status == SUCCEEDED ==> end.result == wins[|wins| - 1].request.result)
      && (wins != [] && end.status == FAILED ==> end.error == wins[|wins| - 1].request.error)
  {}

  // --- what actually happens: reads and conditional writes of many workers ---

  datatype Look = Look(request: Request, status: Status, history: seq<Entry>)

  /** `wins` is history: the writes that took effect, in order. */
  datatype System = System(run: Option<Run>, looking: map<nat, Look>, wins: seq<Win>)

  datatype Step =
    | Read(worker: nat, request: Request)
    | Write(worker: nat, now: int)
    | Delete

  predicate Possible(s: System, step: Step) {
    match step
    case Read(worker, _) => worker !in s.looking
    case Write(worker, _) => worker in s.looking
    case Delete => true
  }

  /** The write takes effect: the returned row count is one. */
  predicate Hits(run: Option<Run>, look: Look) {
    run.Some? && run.value.status == look.status
  }

  function Next(s: System, step: Step): System
    requires Possible(s, step)
  {
    match step
    case Read(worker, r) =>
      if s.run.None? || !Permitted(s.run.value.status, r) then s
      else s.(looking := s.looking[worker := Look(r, s.run.value.status, s.run.value.history)])
    case Write(worker, now) =>
      var look := s.looking[worker];
      var s' := s.(looking := s.looking - {worker});
      if Hits(s.run, look)
      then s'.(run := Some(Overwritten(s.run.value, look.history, look.request, now)),
               wins := s.wins + [Win(look.request, now)])
      else s'
    case Delete => s.(run := None)
  }

  function After(s: System, steps: seq<Step>): System {
    if steps == [] then s
    else
      var before := After(s, steps[..|steps| - 1]);
      var step := steps[|steps| - 1];
      if Possible(before, step) then Next(before, step) else before
  }

  /** The row is what its winners, one at a time, make of it; nobody who may still write holds a stale history. */
  predicate Consistent(start: Run, s: System) {
    && AllPermitted(start, s.wins)
    && (s.run.Some? ==> s.run.value == Replay(start, s.wins))
    && forall w :: w in s.looking ==>
         var look := s.looking[w];
         && Permitted(look.status, look.request)
         && Rank(look.status) <= Rank(Replay(start, s.wins).status)
         && (look.status == Replay(start, s.wins).status ==> look.history == Replay(start, s.wins).history)
  }

  lemma StepConsistent(start: Run, s: System, step: Step)
    requires Consistent(start, s) && Possible(s, step)
    ensures Consistent(start, Next(s, step))
  {
    if step.Write? && Hits(s.run, s.looking[step.worker]) {
      var look := s.looking[step.worker];
      ReplayOne(start, s.wins, Win(look.request, step.now));
    }
  }

  /**
   Under every interleaving of reads, writes and deletion, the row is exactly what
   its winning transitions give when performed one after the other: its history is
   the initial one plus one entry per winner, in order.
   */
  lemma {:induction false} Linearises(start: Run, steps: seq<Step>)
    ensures var s := After(System(Some(start), map[], []), steps);
      && Consistent(start, s)
      && (s.run.Some? ==>
            && s.run.value == Replay(start, s.wins)
            && s.run.value.history == start.history + Entries(s.wins))
    decreases |steps|
  {
    var s := After(System(Some(start), map[], []), steps);
    if steps != [] {
      var init := steps[..|steps| - 1];
      Linearises(start, init);
      var before := After(System(Some(start), map[], []), init);
      if Possible(before, steps[|steps| - 1]) { StepConsistent(start, before, steps[|steps| - 1]); }
    }
    HistoryOfReplay(start, s.wins);
  }

  // --- the table that one call of `transition_run` works on ---

  class AnalysisRuns {
    var rows: map<string, Run>

    /** What other sessions commit between this call's read and its write. */
    method Others(id: string, wins: seq<Win>, removed: bool)
      requires id in rows && AllPermitted(rows[id], wins)
      modifies this
      ensures rows == if removed then old(rows) - {id} else old(rows)[id := Replay(old(rows[id]), wins)]
    {
      var run := rows[id];
      var k := 0;
      while k < |wins|
        invariant 0 <= k <= |wins| && run == Replay(rows[id], wins[..k]) && rows == old(rows)
      {
        assert wins[..k + 1][..k] == wins[..k];
        run := Overwritten(run, run.history, wins[k].request, wins[k].at);
        k := k + 1;
      }
      assert wins[..k] == wins;
      rows := if removed then rows - {id} else rows[id := run];
    }

    /**
     True exactly when the run existed, the request was permitted and no other
     session got in between; then the row has gained exactly this call's entry on
     top of everything it held, and otherwise this call has changed nothing.
     */
    method TransitionRun(id: string, r: Request, now: int, others: seq<Win>, removed: bool)
      returns (won: bool)
      requires id in rows ==> AllPermitted(rows[id], others)
      modifies this
      ensures won <==>
        id in old(rows) && Permitted(old(rows[id]).status, r) && !removed && others == []
      ensures won ==>
        && AllPermitted(old(rows[id]), [Win(r, now)])
        && rows == old(rows)[id := Replay(old(rows[id]), [Win(r, now)])]
      ensures id !in old(rows) || !Permitted(old(rows[id]).status, r) ==> rows == old(rows)
      ensures !won && id in old(rows) && Permitted(old(rows[id]).status, r) ==>
        rows == (if removed then old(rows) - {id} else old(rows)[id := Replay(old(rows[id]), others)])
    {
      if id !in rows { return false; }
      var observed, history := rows[id].status, rows[id].history;
      if !Permitted(observed, r) { return false; }
      ghost var start := rows[id];
      Others(id, others, removed);
      if id !in rows || rows[id].status != observed {
        LeftForGood(start, others);
        return false;
      }
      LeftForGood(start, others);
      rows := rows[id := Overwritten(rows[id], history, r, now)];
      assert [Win(r, now)][..0] == [];
      return true;
    }
  }

  /** No ABA: after any transition the status differs from the one before, for good. */
  lemma LeftForGood(run: Run, wins: seq<Win>)
    requires AllPermitted(run, wins)
    ensures Replay(run, wins).status == run.status <==> wins == []
  {
    RanksClimb(run, wins, 0, |wins|);
    assert wins[..|wins|] == wins && wins[..0] == [];
  }
}
