/**
 Line credit against a baseline: each normalised line that is new to the repository is
 credited once, to the first file (by path) that contains it.
 */
module LineCredit {
  import opened Common

  datatype Category = Backend | Frontend | Workers | Tests

  const CATEGORIES := [Backend, Frontend, Workers, Tests]

  function Minimum(c: Category): nat {
    match c
    case Backend => 9000
    case Frontend => 6000
    case Workers => 3000
    case Tests => 7000
  }

  datatype Source = Source(path: string, category: Category, physical: nat, lines: seq<string>, digest: Digest)

  /** One row of the `files` list. */
  datatype Row = Row(path: string, category: Category, added: nat, physical: nat, long: bool)

  datatype Inventory = Inventory(files: nat, physical: nat, eligible: nat)

  datatype Report = Report(
    added: map<Category, nat>, passed: map<Category, bool>, total: nat, gatesPassed: bool, files: seq<Row>,
    baseline: map<Category, Inventory>, current: map<Category, Inventory>)

  // --- the simple count ---

  function Seen(sources: seq<Source>): set<string> { set s, l | s in sources && l in s.lines :: l }

  /** The distinct lines of `current` that occur nowhere in `baseline`. */
  function Novel(baseline: seq<Source>, current: seq<Source>): set<string> { Seen(current) - Seen(baseline) }

  /** The new lines that this file is the first to contain. */
  function Firsts(baseline: seq<Source>, before: seq<Source>, s: Source): set<string> {
    (set l | l in s.lines) - Seen(baseline) - Seen(before)
  }

  /** The file at a path; with several, the last one. */
  function Previous(baseline: seq<Source>, path: string): Option<Source> {
    if baseline == [] then None
    else
      var last := baseline[|baseline| - 1];
      if last.path == path then Some(last) else Previous(baseline[..|baseline| - 1], path)
  }

  function RowOf(baseline: seq<Source>, before: seq<Source>, s: Source): seq<Row> {
    var count := |Firsts(baseline, before, s)|;
    var prior := Previous(baseline, s.path);
    if count > 0 || prior.None? || prior.value.digest != s.digest
    then [Row(s.path, s.category, count, s.physical, s.physical > 1200)] else []
  }

  function Rows(baseline: seq<Source>, sources: seq<Source>): seq<Row> {
    if sources == [] then []
    else
      var before, s := sources[..|sources| - 1], sources[|sources| - 1];
      Rows(baseline, before) + RowOf(baseline, before, s)
  }

  function Credit(baseline: seq<Source>, sources: seq<Source>, c: Category): nat {
    if sources == [] then 0
    else
      var before, s := sources[..|sources| - 1], sources[|sources| - 1];
      Credit(baseline, before, c) + (if s.category == c then |Firsts(baseline, before, s)| else 0)
  }

  function RowSum(rows: seq<Row>): nat {
    if rows == [] then 0 else RowSum(rows[..|rows| - 1]) + rows[|rows| - 1].added
  }

  function CategoryRowSum(rows: seq<Row>, c: Category): nat {
    if rows == [] then 0
    else
      var last := rows[|rows| - 1];
      CategoryRowSum(rows[..|rows| - 1], c) + (if last.category == c then last.added else 0)
  }

  // --- sorting by path ---

  /** Code-point order of paths. */
  predicate AtMost(a: string, b: string) {
    || a == []
    || (b != [] && (a[0] < b[0] || (a[0] == b[0] && AtMost(a[1..], b[1..]))))
  }

  lemma {:induction false} AtMostIsTotal(a: string, b: string)
    ensures AtMost(a, b) || AtMost(b, a)
    ensures AtMost(a, b) && AtMost(b, a) ==> a == b
  {
    if a != [] && b != [] {
      AtMostIsTotal(a[1..], b[1..]);
      if AtMost(a, b) && AtMost(b, a) { assert a == [a[0]] + a[1..] && b == [b[0]] + b[1..]; }
    }
  }

  lemma {:induction false} AtMostIsTransitive(a: string, b: string, c: string)
    requires AtMost(a, b) && AtMost(b, c)
    ensures AtMost(a, c)
  {
    if a != [] && a[0] == b[0] == c[0] { AtMostIsTransitive(a[1..], b[1..], c[1..]); }
  }

  predicate SortedByPath(sources: seq<Source>) {
    forall i, j :: 0 <= i < j < |sources| ==> AtMost(sources[i].path, sources[j].path)
  }

  /** Insert after every source whose path is at most this one's: the sort is stable. */
  function Insert(sorted: seq<Source>, s: Source): (r: seq<Source>) {
    if sorted == [] || AtMost(sorted[|sorted| - 1].path, s.path) then sorted + [s]
    else Insert(sorted[..|sorted| - 1], s) + [sorted[|sorted| - 1]]
  }

  function Sorted(sources: seq<Source>): (r: seq<Source>) {
    if sources == [] then []
    else Insert(Sorted(sources[..|sources| - 1]), sources[|sources| - 1])
  }

  predicate AllAtMost(sources: seq<Source>, path: string) { forall s :: s in sources ==> AtMost(s.path, path) }

  lemma AppendKeepsOrder(sorted: seq<Source>, s: Source)
    requires SortedByPath(sorted) && AllAtMost(sorted, s.path)
    ensures SortedByPath(sorted + [s])
  {}

  lemma LastIsGreatest(sorted: seq<Source>)
    requires SortedByPath(sorted) && sorted != []
    ensures AllAtMost(sorted[..|sorted| - 1], sorted[|sorted| - 1].path)
  {}

  lemma {:induction false} InsertKeepsOrder(sorted: seq<Source>, s: Source)
    requires SortedByPath(sorted)
    ensures SortedByPath(Insert(sorted, s)) && multiset(Insert(sorted, s)) == multiset(sorted + [s])
    decreases |sorted|
  {
    if sorted != [] {
      hide SortedByPath, AllAtMost, AtMost;
      var n := |sorted| - 1;
      var init, last := sorted[..n], sorted[n];
      assert sorted == init + [last];
      LastIsGreatest(sorted);
      if AtMost(last.path, s.path) {
        Raise(init, last.path, s.path);
        AppendAtMost(init, last, s.path);
        AppendKeepsOrder(sorted, s);
      } else {
        assert SortedByPath(init) by { Shorter(sorted); }
        InsertKeepsOrder(init, s);
        AtMostIsTotal(last.path, s.path);
        AppendAtMost(init, s, last.path);
        SameAtMost(init + [s], Insert(init, s), last.path);
        AppendKeepsOrder(Insert(init, s), last);
      }
    } else {
      assert SortedByPath([s]);
    }
  }

  lemma Shorter(sorted: seq<Source>)
    requires SortedByPath(sorted) && sorted != []
    ensures SortedByPath(sorted[..|sorted| - 1])
  {}

  lemma Raise(sources: seq<Source>, low: string, high: string)
    requires AllAtMost(sources, low) && AtMost(low, high)
    ensures AllAtMost(sources, high)
  {
    forall s | s in sources ensures AtMost(s.path, high) { AtMostIsTransitive(s.path, low, high); }
  }

  lemma AppendAtMost(sources: seq<Source>, s: Source, path: string)
    requires AllAtMost(sources, path) && AtMost(s.path, path)
    ensures AllAtMost(sources + [s], path)
  {}

  lemma SameAtMost(a: seq<Source>, b: seq<Source>, path: string)
    requires AllAtMost(a, path) && multiset(a) == multiset(b)
    ensures AllAtMost(b, path)
  {
    SameSources(a, b);
  }

  lemma {:induction false} SortedIsSorted(sources: seq<Source>)
    ensures SortedByPath(Sorted(sources)) && multiset(Sorted(sources)) == multiset(sources)
    decreases |sources|
  {
    if sources != [] {
      var n := |sources| - 1;
      SortedIsSorted(sources[..n]);
      InsertKeepsOrder(Sorted(sources[..n]), sources[n]);
      assert sources == sources[..n] + [sources[n]];
    }
  }

  lemma SameSources(a: seq<Source>, b: seq<Source>)
    requires multiset(a) == multiset(b)
    ensures forall s :: s in a <==> s in b
    ensures Seen(a) == Seen(b)
  {
    forall s ensures s in a <==> s in b {
      assert s in multiset(a) <==> s in multiset(b);
    }
  }

  // --- the greedy loop ---

  function Pool(sources: seq<Source>): multiset<string> {
    if sources == [] then multiset{}
    else Pool(sources[..|sources| - 1]) + multiset(sources[|sources| - 1].lines)
  }

  lemma {:induction false} PoolIsSeen(sources: seq<Source>)
    ensures forall l :: l in Pool(sources) <==> l in Seen(sources)
    decreases |sources|
  {
    if sources != [] {
      var n := |sources| - 1;
      PoolIsSeen(sources[..n]);
      SeenOneMore(sources[..n], sources[n]);
      assert sources == sources[..n] + [sources[n]];
    }
  }

  lemma SeenOneMore(before: seq<Source>, s: Source)
    ensures Seen(before + [s]) == Seen(before) + set l | l in s.lines
  {}

  /** `Counter(line for source in sources for line in source.eligible_lines)`. */
  method CountLines(sources: seq<Source>) returns (pool: multiset<string>)
    ensures pool == Pool(sources) && forall l :: l in pool <==> l in Seen(sources)
  {
    pool := multiset{};
    var k := 0;
    while k < |sources|
      invariant 0 <= k <= |sources| && pool == Pool(sources[..k])
    {
      assert sources[..k + 1][..k] == sources[..k];
      pool := pool + multiset(sources[k].lines);
      k := k + 1;
    }
    assert sources[..k] == sources;
    PoolIsSeen(sources);
  }

  /** `novel` after some files: every line new to the repository and to those files, once. */
  ghost predicate StillNovel(
    novel: multiset<string>, baseline: seq<Source>, current: seq<Source>, before: seq<Source>)
  {
    forall l :: novel[l] == if l in Novel(baseline, current) && l !in Seen(before) then 1 else 0
  }

  method NovelLines(oldPool: multiset<string>, newPool: multiset<string>) returns (novel: multiset<string>)
    ensures forall l :: novel[l] == if l in newPool && l !in oldPool then 1 else 0
  {
    novel := multiset(set l | l in newPool && l !in oldPool);
  }

  /** Credit one file's surplus lines against what is still novel, whatever the order of the lines. */
  method CreditFile(candidates: multiset<string>, novel: multiset<string>)
    returns (count: nat, left: multiset<string>)
    requires forall l :: novel[l] <= 1
    ensures count == |set l | l in candidates && l in novel|
    ensures forall l :: left[l] == if l in candidates then 0 else novel[l]
  {
    hide Both;
    assert Both({}, novel) == {} by { NoneOf(novel); }
    count, left := 0, novel;
    var todo := set l | l in candidates;
    ghost var done: set<string> := {};
    while todo != {}
      invariant todo !! done && todo + done == set l | l in candidates
      invariant count == |Both(done, novel)| && Without(left, novel, done)
    {
      var line :| line in todo;
      var accepted := if candidates[line] <= left[line] then candidates[line] else left[line];
      count := count + accepted;
      left := left[line := left[line] - accepted];
      Counted(done, line, novel);
      todo, done := todo - {line}, done + {line};
    }
    assert done == set l | l in candidates;
    AllOf(candidates, novel, done);
  }

  function Both(done: set<string>, novel: multiset<string>): set<string> { set l | l in done && l in novel }

  ghost predicate Without(left: multiset<string>, novel: multiset<string>, done: set<string>) {
    forall l :: left[l] == if l in done then 0 else novel[l]
  }

  lemma AllOf(candidates: multiset<string>, novel: multiset<string>, done: set<string>)
    requires done == set l | l in candidates
    ensures Both(done, novel) == set l | l in candidates && l in novel
  {}

  lemma NoneOf(novel: multiset<string>)
    ensures Both({}, novel) == {}
  {}

  lemma Counted(done: set<string>, line: string, novel: multiset<string>)
    requires line !in done
    ensures |Both(done + {line}, novel)| == |Both(done, novel)| + (if line in novel then 1 else 0)
  {
    var was, now := Both(done, novel), Both(done + {line}, novel);
    assert now == if line in novel then was + {line} else was;
  }

  /** The lines of a file beyond those its earlier version had. */
  function Surplus(baseline: seq<Source>, s: Source): multiset<string> {
    var prior := Previous(baseline, s.path);
    multiset(s.lines) - (if prior.Some? then multiset(prior.value.lines) else multiset{})
  }

  /** A line that is new to the repository is surplus in every file that contains it. */
  lemma NovelIsSurplus(baseline: seq<Source>, s: Source, line: string)
    requires line !in Seen(baseline)
    ensures line in Surplus(baseline, s) <==> line in s.lines
  {
    var prior := Previous(baseline, s.path);
    PreviousIsThere(baseline, s.path);
    if prior.Some? { assert line !in prior.value.lines; }
  }

  lemma SurplusIsFirst(
    baseline: seq<Source>, current: seq<Source>, before: seq<Source>, s: Source, novel: multiset<string>)
    requires StillNovel(novel, baseline, current, before) && s in current
    ensures (set l | l in Surplus(baseline, s) && l in novel) == Firsts(baseline, before, s)
  {
    hide Surplus;
    assert forall l :: l in s.lines ==> l in Seen(current);
    forall l | l !in Seen(baseline) ensures l in Surplus(baseline, s) <==> l in s.lines {
      NovelIsSurplus(baseline, s, l);
    }
  }

  lemma CreditedNext(
    baseline: seq<Source>, current: seq<Source>, before: seq<Source>, s: Source, novel: multiset<string>,
    left: multiset<string>)
    requires StillNovel(novel, baseline, current, before) && s in current
    requires forall l :: left[l] == if l in Surplus(baseline, s) then 0 else novel[l]
    ensures StillNovel(left, baseline, current, before + [s])
  {
    hide Surplus, Seen;
    SeenOneMore(before, s);
    forall l | l in Novel(baseline, current) ensures l in Surplus(baseline, s) <==> l in s.lines {
      NovelIsSurplus(baseline, s, l);
    }
  }

  lemma {:induction false} PreviousIsThere(baseline: seq<Source>, path: string)
    ensures Previous(baseline, path).Some? ==>
      Previous(baseline, path).value in baseline && Previous(baseline, path).value.path == path
    ensures Previous(baseline, path).None? ==> forall s :: s in baseline ==> s.path != path
    decreases |baseline|
  {
    if baseline != [] {
      var n := |baseline| - 1;
      PreviousIsThere(baseline[..n], path);
      assert baseline == baseline[..n] + [baseline[n]];
    }
  }

  /** `{source.path: source for source in baseline}`. */
  method ByPath(baseline: seq<Source>) returns (previous: map<string, Source>)
    ensures forall p ::
      (if p in previous then Some(previous[p]) else None) == Previous(baseline, p)
  {
    previous := map[];
    var k := 0;
    while k < |baseline|
      invariant 0 <= k <= |baseline|
      invariant forall p :: (if p in previous then Some(previous[p]) else None) == Previous(baseline[..k], p)
    {
      assert baseline[..k + 1][..k] == baseline[..k];
      previous := previous[baseline[k].path := baseline[k]];
      k := k + 1;
    }
    assert baseline[..k] == baseline;
  }

  // --- totals ---

  function InventoryFor(sources: seq<Source>, c: Category): Inventory {
    if sources == [] then Inventory(0, 0, 0)
    else
      var before, s := InventoryFor(sources[..|sources| - 1], c), sources[|sources| - 1];
      if s.category == c
      then Inventory(before.files + 1, before.physical + s.physical, before.eligible + |s.lines|)
      else before
  }

  method Totals(sources: seq<Source>) returns (result: map<Category, Inventory>)
    ensures forall c :: c in result && result[c] == InventoryFor(sources, c)
  {
    result := map c: Category | c in CATEGORIES :: Inventory(0, 0, 0);
    assert forall c: Category :: c in CATEGORIES by { AllCategories(); }
    var k := 0;
    while k < |sources|
      invariant 0 <= k <= |sources|
      invariant forall c :: c in result && result[c] == InventoryFor(sources[..k], c)
    {
      assert sources[..k + 1][..k] == sources[..k];
      var s := sources[k];
      var group := result[s.category];
      result := result[s.category :=
        Inventory(group.files + 1, group.physical + s.physical, group.eligible + |s.lines|)];
      k := k + 1;
    }
    assert sources[..k] == sources;
  }

  lemma AllCategories()
    ensures forall c: Category :: c in CATEGORIES
  {
    forall c: Category ensures c in CATEGORIES {
      match c {
        case Backend => assert CATEGORIES[0] == c;
        case Frontend => assert CATEGORIES[1] == c;
        case Workers => assert CATEGORIES[2] == c;
        case Tests => assert CATEGORIES[3] == c;
      }
    }
  }

  // --- the report ---

  function CreditTotal(added: map<Category, nat>): nat
    requires forall c: Category :: c in added
  {
    added[Backend] + added[Frontend] + added[Workers] + added[Tests]
  }

  predicate GatesPassed(added: map<Category, nat>)
    requires forall c: Category :: c in added
  {
    CreditTotal(added) >= 25000 && forall c: Category :: added[c] >= Minimum(c)
  }

  method Delta(baseline: seq<Source>, current: seq<Source>) returns (r: Report)
    ensures r.total == |Novel(baseline, current)| == RowSum(r.files)
    ensures forall c :: c in r.added && r.added[c] == Credit(baseline, Sorted(current), c) == CategoryRowSum(r.files, c)
    ensures r.total == CreditTotal(r.added)
    ensures r.files == Rows(baseline, Sorted(current))
    ensures forall c :: c in r.passed && (r.passed[c] <==> r.added[c] >= Minimum(c))
    ensures r.gatesPassed <==> GatesPassed(r.added)
    ensures forall c :: c in r.baseline && r.baseline[c] == InventoryFor(baseline, c)
    ensures forall c :: c in r.current && r.current[c] == InventoryFor(current, c)
  {
    hide Novel, Seen, Sorted, Pool;
    var sources := Sorted(current);
    SortedIsSorted(current);
    SameSources(sources, current);
    var added, files := CreditAll(baseline, current, sources);
    CreditsAreNovel(baseline, sources);
    RowsAddUp(baseline, sources);
    RowsAddUpByCategory(baseline, sources);
    assert Novel(baseline, sources) == Novel(baseline, current) by { NovelOfSame(baseline, sources, current); }
    var passed := map c: Category | c in CATEGORIES :: added[c] >= Minimum(c);
    AllCategories();
    var total := added[Backend] + added[Frontend] + added[Workers] + added[Tests];
    var gates := total >= 25000 && passed[Backend] && passed[Frontend] && passed[Workers] && passed[Tests];
    var before := Totals(baseline);
    var now := Totals(current);
    r := Report(added, passed, total, gates, files, before, now);
    assert GatesPassed(added) <==> gates by { Gates(added); }
  }

  lemma Gates(added: map<Category, nat>)
    requires forall c: Category :: c in added
    ensures GatesPassed(added) <==>
      && CreditTotal(added) >= 25000 && added[Backend] >= Minimum(Backend) && added[Frontend] >= Minimum(Frontend)
      && added[Workers] >= Minimum(Workers) && added[Tests] >= Minimum(Tests)
  {}

  lemma NovelOfSame(baseline: seq<Source>, a: seq<Source>, b: seq<Source>)
    requires Seen(a) == Seen(b)
    ensures Novel(baseline, a) == Novel(baseline, b)
  {}

  /** Where the loop stands once the files of `before` have been credited. */
  ghost predicate Progress(
    novel: multiset<string>, added: map<Category, nat>, files: seq<Row>,
    baseline: seq<Source>, current: seq<Source>, before: seq<Source>)
  {
    && StillNovel(novel, baseline, current, before)
    && files == Rows(baseline, before)
    && forall c :: c in added && added[c] == Credit(baseline, before, c)
  }

  method CreditNext(
    s: Source, prior: Option<Source>, novel: multiset<string>, added: map<Category, nat>, files: seq<Row>,
    ghost baseline: seq<Source>, ghost current: seq<Source>, ghost before: seq<Source>)
    returns (left: multiset<string>, sums: map<Category, nat>, rows: seq<Row>)
    requires s in current && prior == Previous(baseline, s.path)
    requires Progress(novel, added, files, baseline, current, before)
    ensures Progress(left, sums, rows, baseline, current, before + [s])
  {
    hide Novel, Seen, Previous, Firsts, StillNovel, Surplus, Rows, Credit;
    var candidates := multiset(s.lines) - (if prior.Some? then multiset(prior.value.lines) else multiset{});
    assert candidates == Surplus(baseline, s) by { SurplusOf(baseline, s); }
    SurplusIsFirst(baseline, current, before, s, novel);
    AtMostOnce(novel, baseline, current, before);
    var count;
    count, left := CreditFile(candidates, novel);
    CreditedNext(baseline, current, before, s, novel, left);
    OneMoreRow(baseline, before, s);
    sums := added[s.category := added[s.category] + count];
    rows := files;
    if count > 0 || (prior.Some? && s.digest != prior.value.digest) || prior.None? {
      rows := files + [Row(s.path, s.category, count, s.physical, s.physical > 1200)];
    }
  }

  method CreditAll(baseline: seq<Source>, current: seq<Source>, sources: seq<Source>)
    returns (added: map<Category, nat>, files: seq<Row>)
    requires forall s :: s in sources ==> s in current
    ensures forall c :: c in added && added[c] == Credit(baseline, sources, c)
    ensures files == Rows(baseline, sources)
  {
    hide Novel, Seen, Pool, Previous, StillNovel, Rows, Credit;
    var previous := ByPath(baseline);
    var oldPool := CountLines(baseline);
    var newPool := CountLines(current);
    var novel := NovelLines(oldPool, newPool);
    NothingCredited(novel, baseline, current, oldPool, newPool);
    added := map c: Category | c in CATEGORIES :: 0;
    AllCategories();
    files := [];
    NoRows(baseline);
    var k := 0;
    assert sources[..0] == [];
    while k < |sources|
      invariant 0 <= k <= |sources| && Progress(novel, added, files, baseline, current, sources[..k])
    {
      var s := sources[k];
      assert s in sources && sources[..k + 1] == sources[..k] + [s];
      var prior := if s.path in previous then Some(previous[s.path]) else None;
      novel, added, files := CreditNext(s, prior, novel, added, files, baseline, current, sources[..k]);
      k := k + 1;
    }
    assert sources[..k] == sources;
  }

  lemma SurplusOf(baseline: seq<Source>, s: Source)
    ensures var prior := Previous(baseline, s.path);
      Surplus(baseline, s) == multiset(s.lines) - (if prior.Some? then multiset(prior.value.lines) else multiset{})
  {}

  lemma AtMostOnce(novel: multiset<string>, baseline: seq<Source>, current: seq<Source>, before: seq<Source>)
    requires StillNovel(novel, baseline, current, before)
    ensures forall l :: novel[l] <= 1
  {}

  lemma NoRows(baseline: seq<Source>)
    ensures Rows(baseline, []) == [] && forall c :: Credit(baseline, [], c) == 0
  {}

  lemma OneMoreRow(baseline: seq<Source>, before: seq<Source>, s: Source)
    ensures Rows(baseline, before + [s]) == Rows(baseline, before) + RowOf(baseline, before, s)
    ensures forall c ::
      var share := if s.category == c then |Firsts(baseline, before, s)| else 0;
      Credit(baseline, before + [s], c) == Credit(baseline, before, c) + share
  {
    assert (before + [s])[..|before|] == before;
  }

  lemma NothingCredited(
    novel: multiset<string>, baseline: seq<Source>, current: seq<Source>,
    oldPool: multiset<string>, newPool: multiset<string>)
    requires forall l :: novel[l] == if l in newPool && l !in oldPool then 1 else 0
    requires forall l :: l in oldPool <==> l in Seen(baseline)
    requires forall l :: l in newPool <==> l in Seen(current)
    ensures StillNovel(novel, baseline, current, [])
  {}

  // --- what the credit means ---

  function AllCredit(baseline: seq<Source>, sources: seq<Source>): nat {
    Credit(baseline, sources, Backend) + Credit(baseline, sources, Frontend)
    + Credit(baseline, sources, Workers) + Credit(baseline, sources, Tests)
  }

  /** Greedy credit over the categories is the simple count. */
  lemma {:induction false} CreditsAreNovel(baseline: seq<Source>, sources: seq<Source>)
    ensures AllCredit(baseline, sources) == |Novel(baseline, sources)|
    decreases |sources|
  {
    hide AllCredit, Novel, Firsts;
    if sources == [] {
      NothingNovel(baseline);
    } else {
      var n := |sources| - 1;
      var before, s := sources[..n], sources[n];
      CreditsAreNovel(baseline, before);
      CreditOneMore(baseline, before, s);
      NovelOneMore(baseline, before, s);
      assert sources == before + [s];
    }
  }

  lemma NothingNovel(baseline: seq<Source>)
    ensures AllCredit(baseline, []) == 0 == |Novel(baseline, [])|
  {
    assert Novel(baseline, []) == {};
  }

  lemma CreditOneMore(baseline: seq<Source>, before: seq<Source>, s: Source)
    ensures AllCredit(baseline, before + [s]) == AllCredit(baseline, before) + |Firsts(baseline, before, s)|
  {}

  lemma NovelOneMore(baseline: seq<Source>, before: seq<Source>, s: Source)
    ensures |Novel(baseline, before + [s])| == |Novel(baseline, before)| + |Firsts(baseline, before, s)|
  {
    hide Seen;
    SeenOneMore(before, s);
    assert Novel(baseline, before + [s]) == Novel(baseline, before) + Firsts(baseline, before, s);
    assert Novel(baseline, before) !! Firsts(baseline, before, s);
  }

  /** The listed files account for all of it: a file that is not listed earned nothing. */
  lemma {:induction false} RowsAddUp(baseline: seq<Source>, sources: seq<Source>)
    ensures RowSum(Rows(baseline, sources)) == AllCredit(baseline, sources)
    decreases |sources|
  {
    if sources != [] {
      var n := |sources| - 1;
      var before, s := sources[..n], sources[n];
      RowsAddUp(baseline, before);
      var rows := Rows(baseline, before);
      if RowOf(baseline, before, s) == [] {
        assert Rows(baseline, sources) == rows;
      } else {
        assert (rows + RowOf(baseline, before, s))[..|rows|] == rows;
      }
    }
  }

  lemma {:induction false} RowsAddUpByCategory(baseline: seq<Source>, sources: seq<Source>)
    ensures forall c :: CategoryRowSum(Rows(baseline, sources), c) == Credit(baseline, sources, c)
    decreases |sources|
  {
    if sources != [] {
      var n := |sources| - 1;
      var before, s := sources[..n], sources[n];
      RowsAddUpByCategory(baseline, before);
      var rows := Rows(baseline, before);
      if RowOf(baseline, before, s) == [] {
        assert Rows(baseline, sources) == rows;
      } else {
        assert (rows + RowOf(baseline, before, s))[..|rows|] == rows;
      }
    }
  }

  /** Of all files, only this one earns the line. */
  predicate OnlyEarner(baseline: seq<Source>, sources: seq<Source>, line: string, i: nat)
    requires i < |sources|
  {
    forall j :: 0 <= j < |sources| ==> (line in Firsts(baseline, sources[..j], sources[j]) <==> j == i)
  }

  /** A new line is credited to exactly one file: the one with the first path among those that contain it. */
  lemma CreditedOnce(baseline: seq<Source>, current: seq<Source>, line: string) returns (i: nat)
    requires line in Novel(baseline, current)
    ensures var sources := Sorted(current);
      && i < |sources| && line in sources[i].lines && OnlyEarner(baseline, sources, line, i)
      && forall s :: s in current && line in s.lines ==> AtMost(sources[i].path, s.path)
  {
    hide OnlyEarner, Sorted, Seen;
    var sources := Sorted(current);
    SortedIsSorted(current);
    SameSources(sources, current);
    i := FirstWith(sources, line);
    assert OnlyEarner(baseline, sources, line, i) by { FirstEarns(baseline, sources, line, i); }
    forall s | s in current && line in s.lines ensures AtMost(sources[i].path, s.path) {
      var j :| 0 <= j < |sources| && sources[j] == s;
      NotBefore(sources, line, i, j);
      AtMostIsTotal(s.path, s.path);
    }
  }

  lemma NotBefore(sources: seq<Source>, line: string, i: nat, j: nat)
    requires i < |sources| && j < |sources| && line !in Seen(sources[..i]) && line in sources[j].lines
    ensures i <= j
  {
    forall k | 0 <= k < i ensures line !in sources[k].lines { assert sources[k] in sources[..i]; }
  }

  lemma FirstEarns(baseline: seq<Source>, sources: seq<Source>, line: string, i: nat)
    requires i < |sources| && line !in Seen(baseline)
    requires line in sources[i].lines && line !in Seen(sources[..i])
    ensures OnlyEarner(baseline, sources, line, i)
  {}

  lemma {:induction false} FirstWith(sources: seq<Source>, line: string) returns (i: nat)
    requires line in Seen(sources)
    ensures i < |sources| && line in sources[i].lines && line !in Seen(sources[..i])
    decreases |sources|
  {
    var n := |sources| - 1;
    if line in Seen(sources[..n]) {
      i := FirstWith(sources[..n], line);
      assert sources[..n][..i] == sources[..i];
    } else {
      i := n;
      assert sources == sources[..n] + [sources[n]];
    }
  }

  /** Renames, moves between categories, reordering, splitting and joining of files leave the total alone. */
  lemma OnlyLinesMatter(baseline: seq<Source>, was: seq<Source>, now: seq<Source>)
    requires Seen(was) == Seen(now)
    ensures AllCredit(baseline, Sorted(was)) == AllCredit(baseline, Sorted(now))
  {
    forall x ensures AllCredit(baseline, Sorted(x)) == |Novel(baseline, x)| {
      SortedIsSorted(x);
      SameSources(Sorted(x), x);
      CreditsAreNovel(baseline, Sorted(x));
    }
  }

  /** Files made only of lines the repository already had, in the baseline or elsewhere, earn nothing. */
  lemma CopiesEarnNothing(baseline: seq<Source>, current: seq<Source>, copies: seq<Source>)
    requires Seen(copies) <= Seen(baseline) + Seen(current)
    ensures AllCredit(baseline, Sorted(current + copies)) == AllCredit(baseline, Sorted(current))
  {
    forall x ensures AllCredit(baseline, Sorted(x)) == |Novel(baseline, x)| {
      SortedIsSorted(x);
      SameSources(Sorted(x), x);
      CreditsAreNovel(baseline, Sorted(x));
    }
    assert Seen(current + copies) == Seen(current) + Seen(copies);
    assert Novel(baseline, current + copies) == Novel(baseline, current);
  }
}
