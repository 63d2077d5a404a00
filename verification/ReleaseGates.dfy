/**
 The shipped list of release gates, and that it is one the runner and the evidence check
 are made for.
 */
module ReleaseGates {
  import opened Common
  import opened ReleaseEvidence
  import opened ReleaseRunner

  /** The paths and tools that `release_gates` is given or looks up; paths are texts. */
  datatype Setup = Setup(
    output: string, envFile: string, container: string, python: string, corepack: string, root: string)

  function Under(base: string, name: string): string { base + "/" + name }

  /** The command can be started and leaves the given report, or none. */
  predicate Runs(s: Setup, c: Command, report: Option<string>) {
    && c.argv != []
    && c.resultFile == if report.Some? then Some(Under(s.output, report.value)) else None
  }

  function Plain(s: Setup, argv: seq<string>): (c: Command)
    requires argv != []
    ensures Runs(s, c, None)
  {
    Command(argv, s.root, None)
  }

  function Py(s: Setup, args: seq<string>): (c: Command)
    ensures Runs(s, c, None)
  {
    Plain(s, [s.python] + args)
  }

  /** A test command that leaves a JUnit report. */
  function Tests(s: Setup, args: seq<string>, report: string): (c: Command)
    ensures Runs(s, c, Some(report))
  {
    Command([s.python, "-m", "pytest"] + args + ["--junitxml", Under(s.output, report)], s.root,
            Some(Under(s.output, report)))
  }

  function Pnpm(s: Setup, args: seq<string>): (argv: seq<string>)
    ensures argv != []
  {
    [s.corepack, "pnpm"] + args
  }

  function Compose(s: Setup, args: seq<string>): (c: Command)
    ensures Runs(s, c, None)
  {
    Plain(s, ["docker", "compose", "--env-file", s.envFile] + args)
  }

  function Check(s: Setup, action: string): (c: Command)
    ensures Runs(s, c, None)
  {
    Plain(s, [s.python, "-m", "scripts.release_checks", action, "--output", s.output,
              "--env-file", s.envFile, "--pg-container", s.container])
  }

  function Vitest(s: Setup, suite: string, cwd: string, report: string): (c: Command)
    ensures Runs(s, c, Some(report))
  {
    Command(
      Pnpm(s, ["dlx", "node@22", Under(s.root, "node_modules/vitest/vitest.mjs"), "run", suite,
               "--reporter=default", "--reporter=junit", "--outputFile=" + Under(s.output, report)]),
      cwd, Some(Under(s.output, report)))
  }

  function Playwright(s: Setup, args: seq<string>, report: string): (c: Command)
    ensures Runs(s, c, Some(report))
  {
    Command(Pnpm(s, ["exec", "playwright", "test"] + args + ["--workers=1", "--retries=0"]), s.root,
            Some(Under(s.output, report)))
  }

  const PYTHON_ROOTS := ["services", "packages", "scripts", "tests", "typings", "infrastructure", "migrations"]

  function Web(s: Setup): string { Under(s.root, "apps/terminal-web") }

  function NextBuild(s: Setup): (c: Command)
    ensures Runs(s, c, None)
  {
    Command(Pnpm(s, ["dlx", "node@22", "node_modules/next/dist/bin/next", "build"]), Web(s), None)
  }

  // The tests of single gates, by their names.
  const ROUNDTRIP_UPGRADE_TEST :=
    "tests/sprint/test_ledger_migrations.py::test_upgrade_downgrade_upgrade_preserves_existing_portfolio_rows"
  const ROUNDTRIP_POSTGRES_TEST :=
    "tests/integration/test_postgres_lifecycle.py::test_postgres_latest_downgrade_upgrade_retains_existing_book"
  const TRANSITIONS_TEST :=
    "tests/integration/test_postgres_lifecycle.py::test_postgres_analysis_transitions_preserve_the_committed_winner"
  const SECURITY_TEST :=
    "services/api/tests/test_terminal_only_security.py"
  const PERSISTENCE_TEST :=
    "tests/integration/test_postgres_lifecycle.py::test_api_and_worker_restart_preserve_ledger_nav_and_private_report"

  /** The gates by position, from zero. */
  function GateAt(s: Setup, i: nat): Gate
    requires i < RELEASE_GATES
  {
    if i < 5 then FirstGates(s, i) else if i < 10 then SecondGates(s, i) else if i < 15 then ThirdGates(s, i)
    else if i < 20 then FourthGates(s, i) else if i < 25 then FifthGates(s, i) else SixthGates(s, i)
  }

  function FirstGates(s: Setup, i: nat): Gate
    requires i < 5
  {
    match i
    case 0 => Gate("Environment validation", [Check(s, "environment")])
    case 1 => Gate("Secret scan", [Py(s, ["scripts/scan_release_secrets.py"])])
    case 2 => Gate("No-execution scan", [Plain(s, ["node", "tests/security/no-execution-methods.mjs"])])
    case 3 => Gate("Dependency installation check",
      [Py(s, ["-m", "pip", "check"]), Plain(s, Pnpm(s, ["install", "--frozen-lockfile"]))])
    case _ => Gate("Database migration upgrade",
      [Tests(s, ["tests/sprint/test_ledger_migrations.py", "-k", "not downgrade",
                 "--basetemp", Under(s.output, "migration-upgrade"), "-q"], "migration-upgrade.xml")])
  }

  function SecondGates(s: Setup, i: nat): Gate
    requires 5 <= i < 10
  {
    match i
    case 5 => Gate("Database downgrade/upgrade test",
      [Tests(s, [ROUNDTRIP_UPGRADE_TEST,
                 ROUNDTRIP_POSTGRES_TEST,
                 "--basetemp", Under(s.output, "migration-roundtrip"), "-q"], "migration-roundtrip.xml")])
    case 6 => Gate("Backend formatting", [Py(s, ["-m", "ruff", "format", "--check"] + PYTHON_ROOTS)])
    case 7 => Gate("Ruff", [Py(s, ["-m", "ruff", "check"] + PYTHON_ROOTS)])
    case 8 => Gate("Strict first-party mypy",
      [Py(s, ["scripts/check_python_types.py", "--output", Under(s.output, "types")])])
    case _ => Gate("Backend unit tests",
      [Tests(s, ["tests/sprint", "--cov=services/api/app", "--cov-report=term", "-q"], "backend-unit.xml")])
  }

  function ThirdGates(s: Setup, i: nat): Gate
    requires 10 <= i < 15
  {
    match i
    case 10 => Gate("Backend integration tests",
      [Tests(s, ["services/api/tests", "tests/integration/test_managed_backup.py",
                 "tests/integration/test_excel_dcf.py", TRANSITIONS_TEST,
                 "--cov=services/api/app", "--cov-append", "--cov-report=term", "-q"], "backend-integration.xml")])
    case 11 => Gate("Coverage", [Py(s, ["-m", "coverage", "report", "--fail-under=86.58"])])
    case 12 => Gate("Frontend lint", [Plain(s, Pnpm(s, ["lint"]))])
    case 13 => Gate("TypeScript", [Plain(s, Pnpm(s, ["typecheck"]))])
    case _ => Gate("Frontend unit tests", [Vitest(s, "tests", Web(s), "frontend-unit.xml")])
  }

  function FourthGates(s: Setup, i: nat): Gate
    requires 15 <= i < 20
  {
    match i
    case 15 => Gate("Shared package tests", [Vitest(s, "packages", s.root, "shared-unit.xml")])
    case 16 => Gate("Frontend build",
      [NextBuild(s)])
    case 17 => Gate("Docker build", [Compose(s, ["build"])])
    case 18 => Gate("Docker startup",
      [Compose(s, ["up", "-d", "--no-build", "--wait", "--wait-timeout", "240"])])
    case _ => Gate("Health checks",
      [Py(s, ["scripts/overnight_watchdog.py", "--once", "--observe-only", "--env-file", s.envFile])])
  }

  function FifthGates(s: Setup, i: nat): Gate
    requires 20 <= i < 25
  {
    match i
    case 20 => Gate("Report generation smoke",
      [Compose(s, ["exec", "-T", "api", "python", "scripts/report_smoke.py", "--isolated-postgres"])])
    case 21 => Gate("Full Playwright suite", [Playwright(s, [], "browser-full.json")])
    case 22 => Gate("Visual comparison",
      [Playwright(s, ["tests/e2e/terminal.spec.ts", "--grep", "visual workspace|mobile monitoring"],
                  "browser-visual.json")])
    case 23 => Gate("Security tests",
      [Tests(s, ["tests/sprint/test_auth_enrollment.py", SECURITY_TEST,
                 "services/api/tests/test_no_execution_strings.py", "-q"], "security.xml")])
    case _ => Gate("Backup", [Check(s, "backup")])
  }

  function SixthGates(s: Setup, i: nat): Gate
    requires 25 <= i < 29
  {
    match i
    case 25 => Gate("Backup verification", [Check(s, "verify")])
    case 26 => Gate("Isolated restore", [Check(s, "restore-test")])
    case 27 => Gate("API and worker persistence smoke",
      [Tests(s, [PERSISTENCE_TEST,
                 "--basetemp", Under(s.output, "persistence"), "-q"], "persistence.xml")])
    case _ => Gate("Build evidence", [Check(s, "evidence")])
  }

  function AllGates(s: Setup): seq<Gate> { seq(RELEASE_GATES, i requires 0 <= i < RELEASE_GATES => GateAt(s, i)) }

  /** The only report a gate leaves, if any. */
  function Report(i: nat): Option<string> {
    match i
    case 4 => Some("migration-upgrade.xml")
    case 5 => Some("migration-roundtrip.xml")
    case 9 => Some("backend-unit.xml")
    case 10 => Some("backend-integration.xml")
    case 14 => Some("frontend-unit.xml")
    case 15 => Some("shared-unit.xml")
    case 21 => Some("browser-full.json")
    case 22 => Some("browser-visual.json")
    case 23 => Some("security.xml")
    case 27 => Some("persistence.xml")
    case _ => None
  }

  /** Whose report it is. */
  function Owner(report: string): nat {
    if report == "migration-upgrade.xml" then 4
    else if report == "migration-roundtrip.xml" then 5
    else if report == "backend-unit.xml" then 9
    else if report == "backend-integration.xml" then 10
    else if report == "frontend-unit.xml" then 14
    else if report == "shared-unit.xml" then 15
    else if report == "browser-full.json" then 21
    else if report == "browser-visual.json" then 22
    else if report == "security.xml" then 23
    else 27
  }

  lemma OneOwner(i: nat)
    requires Report(i).Some?
    ensures Owner(Report(i).value) == i
  {}

  lemma SameName(base: string, a: string, b: string)
    requires Under(base, a) == Under(base, b)
    ensures a == b
  {
    var x, y := Under(base, a), Under(base, b);
    assert a == x[|base| + 1..] && b == y[|base| + 1..];
  }

  /** A gate with a report has one command, which leaves it; the commands of the others leave none. */
  predicate LeavesReport(s: Setup, g: Gate, report: Option<string>) {
    && g.commands != [] && (report.Some? ==> |g.commands| == 1)
    && forall k :: 0 <= k < |g.commands| ==> Runs(s, g.commands[k], report)
  }

  lemma FirstReports(s: Setup, i: nat)
    requires i < 5
    ensures LeavesReport(s, FirstGates(s, i),
      if i == 4 then Some("migration-upgrade.xml") else None)
  {
    hide Plain, Py, Tests, Pnpm, Check, Compose, Vitest, Playwright, NextBuild, Under, Web, Runs;
    hide PYTHON_ROOTS, ROUNDTRIP_UPGRADE_TEST, ROUNDTRIP_POSTGRES_TEST, TRANSITIONS_TEST, SECURITY_TEST;
    hide PERSISTENCE_TEST;
  }

  lemma SecondReports(s: Setup, i: nat)
    requires 5 <= i < 10
    ensures LeavesReport(s, SecondGates(s, i),
      if i == 5 then Some("migration-roundtrip.xml") else if i == 9 then Some("backend-unit.xml") else None)
  {
    hide Plain, Py, Tests, Pnpm, Check, Compose, Vitest, Playwright, NextBuild, Under, Web, Runs;
    hide PYTHON_ROOTS, ROUNDTRIP_UPGRADE_TEST, ROUNDTRIP_POSTGRES_TEST, TRANSITIONS_TEST, SECURITY_TEST;
    hide PERSISTENCE_TEST;
  }

  lemma ThirdReports(s: Setup, i: nat)
    requires 10 <= i < 15
    ensures LeavesReport(s, ThirdGates(s, i),
      if i == 10 then Some("backend-integration.xml") else if i == 14 then Some("frontend-unit.xml") else None)
  {
    hide Plain, Py, Tests, Pnpm, Check, Compose, Vitest, Playwright, NextBuild, Under, Web, Runs;
    hide PYTHON_ROOTS, ROUNDTRIP_UPGRADE_TEST, ROUNDTRIP_POSTGRES_TEST, TRANSITIONS_TEST, SECURITY_TEST;
    hide PERSISTENCE_TEST;
  }

  lemma FourthReports(s: Setup, i: nat)
    requires 15 <= i < 20
    ensures LeavesReport(s, FourthGates(s, i),
      if i == 15 then Some("shared-unit.xml") else None)
  {
    hide Plain, Py, Tests, Pnpm, Check, Compose, Vitest, Playwright, NextBuild, Under, Web, Runs;
    hide PYTHON_ROOTS, ROUNDTRIP_UPGRADE_TEST, ROUNDTRIP_POSTGRES_TEST, TRANSITIONS_TEST, SECURITY_TEST;
    hide PERSISTENCE_TEST;
  }

  lemma FifthReports(s: Setup, i: nat)
    requires 20 <= i < 25
    ensures LeavesReport(s, FifthGates(s, i),
      if i == 21 then Some("browser-full.json") else if i == 22 then Some("browser-visual.json")
      else if i == 23 then Some("security.xml") else None)
  {
    hide Plain, Py, Tests, Pnpm, Check, Compose, Vitest, Playwright, NextBuild, Under, Web, Runs;
    hide PYTHON_ROOTS, ROUNDTRIP_UPGRADE_TEST, ROUNDTRIP_POSTGRES_TEST, TRANSITIONS_TEST, SECURITY_TEST;
    hide PERSISTENCE_TEST;
  }

  lemma SixthReports(s: Setup, i: nat)
    requires 25 <= i < 29
    ensures LeavesReport(s, SixthGates(s, i),
      if i == 27 then Some("persistence.xml") else None)
  {
    hide Plain, Py, Tests, Pnpm, Check, Compose, Vitest, Playwright, NextBuild, Under, Web, Runs;
    hide PYTHON_ROOTS, ROUNDTRIP_UPGRADE_TEST, ROUNDTRIP_POSTGRES_TEST, TRANSITIONS_TEST, SECURITY_TEST;
    hide PERSISTENCE_TEST;
  }

  lemma EachReport(s: Setup, i: nat)
    requires i < RELEASE_GATES
    ensures LeavesReport(s, GateAt(s, i), Report(i))
  {
    hide FirstGates, SecondGates, ThirdGates, FourthGates, FifthGates, SixthGates, LeavesReport;
    if i < 5 { FirstReports(s, i); }
    else if i < 10 { SecondReports(s, i); }
    else if i < 15 { ThirdReports(s, i); }
    else if i < 20 { FourthReports(s, i); }
    else if i < 25 { FifthReports(s, i); }
    else { SixthReports(s, i); }
  }

  /**
   The shipped gates: as many as the evidence wants, none empty, every command runnable, no
   result file used twice.
   */
  lemma ShippedGatesAreRunnable(s: Setup)
    ensures |AllGates(s)| == RELEASE_GATES && NoEmptyGate(AllGates(s))
    ensures Startable(AllGates(s)) && DistinctResults(AllGates(s))
  {
    hide GateAt, Report, Owner, Under;
    var gates := AllGates(s);
    forall i | 0 <= i < RELEASE_GATES ensures LeavesReport(s, gates[i], Report(i)) { EachReport(s, i); }
    forall i, k, j, l |
      && 0 <= i < |gates| && 0 <= k < |gates[i].commands| && 0 <= j < |gates| && 0 <= l < |gates[j].commands|
      && (i, k) != (j, l) && gates[i].commands[k].resultFile.Some?
      ensures gates[i].commands[k].resultFile != gates[j].commands[l].resultFile
    {
      if gates[i].commands[k].resultFile == gates[j].commands[l].resultFile {
        SameName(s.output, Report(i).value, Report(j).value);
        OneOwner(i);
        OneOwner(j);
      }
    }
    forall g | g in gates ensures g.commands != [] {
      var i :| 0 <= i < |gates| && gates[i] == g;
    }
  }

  /**
   A release with the shipped gates, all of whose manifests are honest as a run leaves them,
   is accepted by its own evidence gate exactly if commit and branch were recorded.
   */
  lemma ShippedReleaseIsAccepted(
    s: Setup, written: seq<(Manifest, Disk)>, valid: Validator, commit: string, branch: string,
    m: Manifest, disk: Disk, k: nat, content: Bytes)
    requires AllHonest(written, AllGates(s), valid, commit, branch) && (m, disk) in written
    requires m.gates[RELEASE_GATES - 1].state == RUNNING
    ensures Accepts(m, AllGates(s), WithOwnLog(disk, AllGates(s), k, content), valid)
      <==> Commit(commit) && branch != ""
  {
    hide Accepts, ResultsStand, AllGates;
    ShippedGatesAreRunnable(s);
    RunMeetsChecker(written, AllGates(s), valid, commit, branch);
    assert (m, disk).0 == m && (m, disk).1 == disk;
  }
}
