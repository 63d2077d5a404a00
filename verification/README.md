# Verified models of the terminal's crash-sensitive protocols

The repository is a private portfolio terminal. Around its screens and data providers sit a
few protocols whose correctness is not visible in any one function: files that follow a
database row through renames and crashes, a backup taken while the object store changes,
status rows fought over by many workers, one-time codes, a release checkpoint and the
checker that reads it, and the numeric chain from prices to orders. This project models
them in Dafny 4.11 and proves what they keep, over every input and every run.

`dafny verify dfyconfig.toml` checks everything.

## How it is built

| files | what they model |
|---|---|
| `Common` | options, bytes, SHA-256 as a collision-free function |
| `AgentWorld`, `AgentSafety`, `AgentRuns`, `AgentScripts`, `AgentStuck`, `LocalAgent` | the local data-drop agent: disk, open and committed queue table, server replies, crashes |
| `AnalysisLifecycle` | status transitions of analysis runs by read and compare-and-swap |
| `ArchiveContracts`, `ManagedBackup`, `BackupConsistency`, `BackupHealth` | the managed backup, its restore test and the health report made from its receipts |
| `LocalArchive` | the SQLite/object-file backup and its restoration |
| `Authenticator` | authenticator steps, recovery codes and the account endpoints |
| `EligibleLines`, `CommentCredit`, `LineCredit` | which lines can earn credit, what comments earn, and line credit against a baseline |
| `BacktestSignals`, `BacktestWeights`, `BacktestOrders`, `BacktestRun`, `BacktestReturns` | signals, weights, caps, orders, equity curve, returns |
| `ReleaseEvidence`, `ReleaseRunner`, `ReleaseGates` | the release runner, its evidence check, and the shipped list of gates |

Code that updates things in place is a class or a method with loops, proved against
specification functions; the theorems are lemmas about those functions. The agent is a
state machine whose actions are single renames, SQL statements, commits and replies. Each
method of the class `LocalAgent.Agent` logs the actions it performs and keeps
`Snapshot() == Exec(begun, log)`, so what is proved of every legal run, crashes after any
action included, holds of the code.

## What does not hold, and exactly when it does

Each entry has a lemma with an input or a run at which it fails, and its condition for all
inputs, both ways.

* **A queued row's file may not have the row's hash.** `scan` hashes a file and renames it
  later; whoever writes into the inbox in between makes the row wrong. `AgentRuns.InboxRace`
  is such a run. `AgentRuns.NothingLost` gives the condition: the file is on record
  correctly if and only if it was still the hashed one when it was renamed, or has been
  checked since, or lies in review; otherwise it lies, unchanged, at the row's own path.
* **A queued row can be stuck.** A crash between the rename into review and the commit
  leaves a QUEUED row whose path has no file (`AgentStuck.UploadIsStranded` is such a run).
  `AgentStuck.LeavesQueueExactly`: after a start a queued row can leave the queue, without a
  new file of its very name, if and only if its path holds the content it records and its
  name has a hyphen. So rows made wrong by the inbox race are stuck as well, and at a file
  without a hyphen every upload dies of an uncaught `IndexError`.
* **An archive can be blocked for good.** A file dropped twice can be archived under the
  planned path of its first copy while that waits for a restart. The uncaught
  `sqlite3.IntegrityError` then ends the process (`AgentStuck.ArchiveIsBlocked` is such a
  run), and it does so after every later start (`AgentStuck.BlockedStays`).
  `AgentScripts.ArchiveFinishesExactly` states when rerunning succeeds.
* **A stale secret can accept a step a second time.** A verification that read its secret
  before another request disabled and re-enrolled the authenticator meets a counter that was
  reset. `Authenticator.ReplayAcrossEnrollments` is such a history;
  `Authenticator.ReplayNeedsAnotherSecret`: a step accepted before is accepted again if and
  only if the counter is below it, and then the secret is not the active one.
* **Comments can earn line credit.** The counter's own description says they earn none. The
  scanner sees a block comment only where it begins a line. `CommentCredit.NotedLineEarns`
  and `CommentCredit.BracedCommentEarns` (a comment in a brace, as in JSX) are inputs.
  `CommentCredit.BlockCommentsExactly`, `CommentCredit.InlineCommentsExactly` and
  `CommentCredit.LineCommentsExactly` compare any comment with the same lines without it:
  every line earns alike if and only if the comment begins its line (and is not opened by
  slash-star-slash, nor followed at once by another comment), or nothing on its lines is
  creditable as code: each is empty, a line comment, or without letter and digit.
* **A replaced archive can pass as verified.** The report looks at the modification time
  only, and a file moved or copied into place keeps an old one. `BackupHealth.OldArchivePasses`
  is such a run, hours later. `BackupHealth.GoodExactly`: a report is good, if nothing newer
  failed, if and only if the archive itself lies under its name, or anything else whose
  modification time is at most a second after the verification.
  `BackupHealth.ReplacedArchivePasses` carries that out for a replacement at any instant.

## Model

| member | source | states |
|---|---|---|
| AgentSafety.StepKeeps | services/local-agent/agent.py:159-352 | no rename, statement, commit, reply, inbox change or crash breaks the invariant: every row's file is where the row, its archive plan or the review folder says, paths are unique, plans are free or hold the row's own file |
| AgentSafety.TakeKeeps | services/local-agent/agent.py:182-191 | moving an inbox file into processing under a free name disturbs no other row's file |
| AgentSafety.InsertKeeps | services/local-agent/agent.py:192-204 | a new row keeps the invariant whether or not its hash is that of the file moved |
| AgentSafety.AcknowledgeKeeps | services/local-agent/agent.py:215-229 | recording the server's answer leaves a row whose file was just checked against its hash |
| AgentSafety.ToReviewKeeps | services/local-agent/agent.py:230-233 | between the rename into review and its commit, both the open and the committed table can still find the file |
| AgentSafety.RepointKeeps | services/local-agent/agent.py:234-236 | the row follows its file into review |
| AgentSafety.PlanKeeps | services/local-agent/agent.py:251-270 | recording the archive destination keeps file and row together and the destination free |
| AgentSafety.ToArchiveKeeps | services/local-agent/agent.py:273-277 | the rename into the archive keeps both tables right, because the plan was committed first |
| AgentSafety.FinishKeeps | services/local-agent/agent.py:278-290 | the archived row's path holds content of its hash and some terminal reply named that hash |
| AgentSafety.RefreshKeeps | services/local-agent/agent.py:340-343 | a state refresh never undoes an archive plan |
| AgentSafety.PostponeKeeps | services/local-agent/agent.py:238-245 | a retry changes attempts and time only |
| AgentSafety.RunKeeps | services/local-agent/agent.py:159-352 | the invariant holds after every legal run |
| AgentRuns.Reachable | services/local-agent/agent.py:129-352 | from an empty queue over any disk, every reachable state satisfies the invariant |
| AgentRuns.NothingLost | services/local-agent/agent.py:159-290 | after any run, crashes anywhere: a committed row's content is at its path, its archive path or (QUEUED) in review, if and only if the row was true when inserted or was checked since, or the file lies in review; otherwise the file lies at the row's path with another hash |
| AgentRuns.InboxRace | services/local-agent/agent.py:178-195 | a run in which the row's content is at none of these places, because the inbox file changed after it was hashed |
| AgentRuns.Conservation | services/local-agent/agent.py:182-195 | for every content: copies under the root after any run equal copies before plus those outsiders put into the inbox minus those they took out |
| AgentRuns.StepConserves | services/local-agent/agent.py:230-277 | no action of the agent and no crash changes how many files have a given content |
| AgentRuns.RowsAdvance | services/local-agent/agent.py:192-352 | over any run rows never vanish, hashes and file ids never change, states only advance, and an archive plan is kept or carried out |
| AgentRuns.RowColumns | services/local-agent/agent.py:207-343 | file id is null iff QUEUED, archive path is set iff ARCHIVE_PENDING, LOCAL_ARCHIVED means the file is there with the row's hash and a terminal reply named id and hash |
| AgentStuck.LeavesQueueExactly | services/local-agent/agent.py:196-245 | after a start a queued row can be committed in a later state, in some run without a new file of its name, iff its path holds the content it records under a hyphenated name |
| AgentStuck.UnheldStays | services/local-agent/agent.py:207-245 | otherwise it stays queued in every such run |
| AgentStuck.UploadIsStranded | services/local-agent/agent.py:226-245 | a run, dying between rename and commit, that ends with such a row, its file in review |
| AgentStuck.BlockedStays | services/local-agent/agent.py:271-290 | a pending row whose planned path another row has stays so in every later state |
| AgentStuck.ArchiveIsBlocked | services/local-agent/agent.py:247-290 | a run of a file dropped twice that ends there, the next archive step dying |
| AgentScripts.ArchiveFinishesExactly | services/local-agent/agent.py:247-290 | after a restart and with a cooperative server, rerunning the archive step succeeds iff no other row has the planned path and whatever lies there is the row's own file; other rows may plan the same path |
| AgentScripts.ArchiveRecovers | services/local-agent/agent.py:247-290 | exactly then it ends LOCAL_ARCHIVED, at the planned path with the right content, moving the file at most once |
| AgentScripts.PlanIsKept | services/local-agent/agent.py:264-290 | once a destination is committed, every later state has that very plan or the file archived there |
| AgentScripts.InterruptedArchiveRecovers | services/local-agent/agent.py:247-351 | whatever happens after the plan, crash included, rerunning ends archived iff the same condition holds by then, and if so at the first planned path with the original content |
| AgentScripts.CountedIdsAreDistinct | services/local-agent/agent.py:308-311 | comparing a set's size with a list's length detects every repeated identifier |
| AgentScripts.CombineBatches | services/local-agent/agent.py:299-325 | statuses collected batch by batch are those of all identifiers together, each at most once |
| LocalAgent.Agent.constructor | services/local-agent/agent.py:129-152 | starts with an empty table over whatever lies on the disk |
| LocalAgent.Agent.Scan | services/local-agent/agent.py:159-205 | performs exactly the scan's actions and, if it ends normally, every listed file in processing has a committed row |
| LocalAgent.Agent.ScanFile | services/local-agent/agent.py:160-195 | one inbox file at four instants: it is queued under a free name, skipped, counted as a collision, or raises |
| LocalAgent.Agent.Enqueue | services/local-agent/agent.py:191-195 | the moved file and its committed row; the row counts as true iff the file moved is the one hashed |
| LocalAgent.Agent.AdoptProcessing | services/local-agent/agent.py:196-205 | files left in processing by an interrupted scan get rows; no existing row changes |
| LocalAgent.Agent.UploadRow | services/local-agent/agent.py:212-245 | accepted iff file, hash and answer agree; then id and state are recorded and the content is at the row's path, otherwise the row waits and nothing moved; at a name without a hyphen the process dies |
| LocalAgent.Agent.Upload | services/local-agent/agent.py:207-245 | every due row once, all others untouched, the table committed |
| LocalAgent.Agent.FileForReview | services/local-agent/agent.py:230-236 | the file goes to review unless the name is taken there or the rename fails; row and file stay together |
| LocalAgent.Agent.RecordUpload | services/local-agent/agent.py:226-245 | one row gets id and state, no other row changes, the content stays with its row |
| LocalAgent.Agent.PlanArchive | services/local-agent/agent.py:251-270 | the destination is free, in the folder of the final state, and committed before any move |
| LocalAgent.Agent.MoveToArchive | services/local-agent/agent.py:272-290 | the file is moved only if the destination is free, checked there, and the row finished only then |
| LocalAgent.Agent.Archive | services/local-agent/agent.py:247-290 | planning and moving together perform exactly the archive script |
| LocalAgent.Agent.ArchiveOrRetry | services/local-agent/agent.py:334-351 | the row ends archived with the reported hash, or with one attempt more; nothing else changes |
| LocalAgent.Agent.SyncRow | services/local-agent/agent.py:331-351 | what one status report does to one row: nothing, a new state, an archive or a retry |
| LocalAgent.Agent.SyncRows | services/local-agent/agent.py:326-352 | over the rows of all reported files, each once: every one of them is settled by its file's report, no other row changes, plans are always committed |
| LocalAgent.Agent.FetchBatch | services/local-agent/agent.py:301-325 | an answer is accepted iff it names requested identifiers, each once; exactly the rows of unreported files wait |
| LocalAgent.Agent.FetchStatuses | services/local-agent/agent.py:293-325 | over any number of batches: each report is of a requested file, once, and exactly the rows of all unreported files wait; on a refused batch only rows of unreported requested files do |
| AnalysisLifecycle.Linearises | services/api/app/analysis_lifecycle.py:37-70 | under any interleaving of reads, conditional writes and deletion the row equals its winning transitions performed one after another; its history is the initial one plus one entry per winner, in order |
| AnalysisLifecycle.StepConsistent | services/api/app/analysis_lifecycle.py:54-70 | each single read, write or deletion keeps that consistency |
| AnalysisLifecycle.LeftForGood | services/api/app/analysis_lifecycle.py:13-18 | no ABA: after at least one transition the status differs from the one before |
| AnalysisLifecycle.RanksClimb | services/api/app/analysis_lifecycle.py:13-18 | every permitted transition raises the status rank |
| AnalysisLifecycle.OneFinisher | services/api/app/analysis_lifecycle.py:13-18 | at most two transitions win, only the last can be terminal, and it gives the final status |
| AnalysisLifecycle.Evidence | services/api/app/analysis_lifecycle.py:62-69 | a result is present only in SUCCEEDED and an error only in FAILED, and they are the winner's |
| AnalysisLifecycle.AnalysisRuns.TransitionRun | services/api/app/analysis_lifecycle.py:27-70 | returns true iff the run existed, the request was permitted and nobody came in between; then exactly this entry was added, otherwise this call changed nothing |
| ArchiveContracts.MembersAreInjective | infrastructure/scripts/managed_backup_contracts.py:88-118 | different keys never share an archive member, nor a reserved name |
| ArchiveContracts.ReferencesAreArchived | infrastructure/scripts/managed_backup_contracts.py:101-106 | in a verified archive every database reference is answered by stored bytes of that digest and size |
| ArchiveContracts.Fingerprint | infrastructure/scripts/managed_backup_contracts.py:125-133 | block by block, the digest and size of the whole stream, or a refusal above the limit |
| ArchiveContracts.VerifyArchive | infrastructure/scripts/managed_backup_contracts.py:136-164 | returns a manifest iff the archive meets every offline condition with it |
| ManagedBackup.TakeInventory | infrastructure/scripts/managed_backup.py:88-107 | succeeds iff rows are complete, included keys unrepeated and limits met; the inventory then holds exactly the included rows |
| ManagedBackup.Download | infrastructure/scripts/managed_backup.py:177-203 | one object is accepted iff size, ETag and second of modification are as listed and the total fits |
| ManagedBackup.DownloadAll | infrastructure/scripts/managed_backup.py:176-214 | all objects in order, or none at the first that fails |
| ManagedBackup.ManifestIsValid | infrastructure/scripts/managed_backup.py:219-229 | the manifest built from complete downloads is consistent iff tables are present and distinct, keys have legal length and every reference is answered |
| ManagedBackup.OwnArchiveVerifies | infrastructure/scripts/managed_backup.py:215-234 | the writer meets its own checker: an assembled archive passes verification iff its manifest is describable and its dump is a PostgreSQL one |
| ManagedBackup.BuildBackup | infrastructure/scripts/managed_backup.py:156-234 | returns an archive iff listings, downloads, equality of both inventories, manifest and dump allow it; it is then the assembled archive and verified |
| BackupConsistency.SameStampSameObject | infrastructure/scripts/managed_backup.py:176-217 | if versions never come back, equal stamps at two instants mean one object at every instant between |
| BackupConsistency.StableSnapshot | infrastructure/scripts/managed_backup.py:164-218 | with arbitrary concurrent writers, each archived key holds the bytes, ETag, content type and metadata live at every instant between its two listings, the database snapshot included, and no other key is archived |
| BackupConsistency.ReferencesWereLive | infrastructure/scripts/managed_backup.py:164-229 | every database reference was live, with its digest and size, at the instant of the dump |
| BackupConsistency.PutObjects | infrastructure/scripts/managed_backup.py:287-314 | succeeds iff every key was absent and what the store kept reads back with the archived digest, size, content type and metadata |
| BackupConsistency.RestoreTest | infrastructure/scripts/managed_backup.py:255-320 | returns a manifest iff archive, hash, bucket, database, objects and the final listing all meet it |
| BackupConsistency.RestoredIsArchived | infrastructure/scripts/managed_backup.py:287-317 | if it returns, the new bucket is the archive, key for key and byte for byte, health probes aside |
| BackupConsistency.BackupThenRestore | infrastructure/scripts/managed_backup.py:164-320 | backup then restore: each restored object equals the live one at every instant between the key's two listings |
| BackupHealth.StepKeeps | infrastructure/scripts/managed_backup.py:110-145 | no step of an attempt, no death and no outsider's deletion, replacement or new file, whatever its modification time, breaks what receipts and files mean |
| BackupHealth.RunKeeps | infrastructure/scripts/managed_backup.py:118-145 | so after every sequence of attempts, each dying anywhere |
| BackupHealth.GoodIsHonest | services/api/app/backup_health.py:31-76 | VERIFIED or STALE, for any reader's clock: the named archive was published after verification with that digest, no recorded attempt began later, and the file is unaltered or was replaced by one whose modification time is at most a second after it |
| BackupHealth.GoodExactly | services/api/app/backup_health.py:31-76 | for a reader whose clock is not behind, the report is good iff there is a receipt, no attempt began after its verification, and under its name lies the archive itself or anything else whose modification time is at most a second after the verification |
| BackupHealth.ReplacedArchivePasses | services/api/app/backup_health.py:62-76 | after a completed attempt, another archive put in its place at any later instant, over it or after its removal, is reported as good iff its modification time is at most a second after the verification (`BackupHealth.VerifiedArchiveExists`: there are archives to verify) |
| BackupHealth.OldArchivePasses | services/api/app/backup_health.py:62-76 | a run: an older archive moved into place half a minute later is reported as VERIFIED ten hours later |
| BackupHealth.NotGoodBecause | services/api/app/backup_health.py:46-71 | otherwise FAILED or NOT_VERIFIED, by what the latest attempt left behind |
| BackupHealth.BackupDirectory.CreateBackup | infrastructure/scripts/managed_backup.py:118-145 | whatever one attempt reads and wherever it dies, the directory is as the first steps of its script leave it; it is done iff all steps happened |
| BackupHealth.BackupDirectory.WriteAttempt | infrastructure/scripts/managed_backup.py:110-115 | the attempt receipt is replaced as a whole |
| BackupHealth.BackupDirectory.LinkArchive | infrastructure/scripts/managed_backup.py:234-236 | an archive appears under a name nothing had |
| BackupHealth.BackupDirectory.WriteRecord | infrastructure/scripts/managed_backup.py:237-252 | the receipt names archive, digest, file count and time of the verification |
| LocalArchive.SafeMembers | infrastructure/scripts/backup_archive.py:237-268 | true iff names are distinct under case folding, few and small enough, safe in every component, expected and not links |
| LocalArchive.SafeStaysInside | infrastructure/scripts/backup_archive.py:244-262 | a safe name leads, lexically, to its own components below any directory |
| LocalArchive.SplitIsInjective | infrastructure/scripts/backup_archive.py:310-316 | different member names are different paths |
| LocalArchive.RestoredInside | infrastructure/scripts/backup_archive.py:301-316 | every restored file is strictly below the target and no two names differ only in case |
| LocalArchive.VerifyBackup | infrastructure/scripts/backup_archive.py:271-298 | returns a manifest iff the archive is safe, complete, checksummed and its database has the stated tables |
| LocalArchive.CreateBackup | infrastructure/scripts/backup_archive.py:153-221 | an archive iff all objects are steady and unlinked, sizes fit, and the archive passes its own verification |
| LocalArchive.ReadAll | infrastructure/scripts/backup_archive.py:200-219 | evidence of every file, or nothing if one changed while it was read |
| LocalArchive.RestoreBackup | infrastructure/scripts/backup_archive.py:301-326 | succeeds iff the target is new, the archive verifies and no member is a file where another needs a directory; every restored file then has its digest and the restored database the manifest's tables |
| LocalArchive.RoundTrip | infrastructure/scripts/backup_archive.py:153-326 | backup then restore: below the target lie the snapshot and the objects, byte for byte, and nothing else |
| Authenticator.StepFor | services/api/app/auth_security.py:95-106 | the step is one of the three around now and has the code; the current step has precedence, then the earlier one |
| Authenticator.NothingTwice | services/api/app/auth_security.py:107-136 | over all runs of the endpoints with fresh secrets and codes, no step of a secret and no recovery code is accepted twice (section 5.2 of RFC 6238) |
| Authenticator.RunKeeps | services/api/app/auth_api.py:106-223 | steps of one secret only climb, each within one of its clock; the counter is the last accepted step of the active secret; an enabled secret has been proved once |
| Authenticator.CallKeeps | services/api/app/auth_api.py:106-223 | each endpoint keeps that, rollbacks included |
| Authenticator.ConfirmKeeps | services/api/app/auth_api.py:135-169 | confirming an enrolment keeps that |
| Authenticator.TriedKeeps | services/api/app/auth_security.py:107-114 | consuming a step keeps that and leaves secrets and recovery codes alone |
| Authenticator.SpendKeeps | services/api/app/auth_security.py:117-136 | spending a recovery code keeps that and leaves the authenticator alone |
| Authenticator.AcceptsExactly | services/api/app/auth_security.py:92-114 | a code of the active secret is accepted iff it is clean, of a step around now, and later than every step accepted for the secret |
| Authenticator.ReplayNeedsAnotherSecret | services/api/app/auth_security.py:107-114 | a step accepted before is accepted again iff the counter is below it, and then the secret is not the active one |
| Authenticator.ReplayAcrossEnrollments | services/api/app/auth_api.py:115-121 | a history in which a stale secret is accepted at a step accepted before, because re-enrolment reset the counter |
| Authenticator.RivalsOnlyUse | services/api/app/auth_security.py:139-153 | concurrent verifications only mark codes used and at most re-encrypt the secret |
| Authenticator.AuthRows.TotpState | services/api/app/auth_security.py:74-86 | the counter row exists afterwards; nothing else changes |
| Authenticator.AuthRows.ConsumeTotp | services/api/app/auth_security.py:89-114 | whatever rivals do between the check of the code and the conditional update, the result is as if they had come first |
| Authenticator.AuthRows.ConsumeRecovery | services/api/app/auth_security.py:117-136 | the same for a recovery code found in a stale list |
| Authenticator.AuthRows.VerifyFactor | services/api/app/auth_security.py:139-153 | concurrent verifications take effect one after the other |
| Authenticator.AuthRows.ReplaceRecoveryCodes | services/api/app/auth_security.py:156-161 | the old codes are gone and exactly the new ones are there, unused |
| Authenticator.AuthRows.Login | services/api/app/main.py:416-445 | the rows after a login, and when it succeeds |
| Authenticator.AuthRows.Enroll | services/api/app/auth_api.py:106-128 | refused while enabled; otherwise a fresh pending secret and a reset counter |
| Authenticator.AuthRows.Confirm | services/api/app/auth_api.py:131-170 | enabled only by an accepted, unexpired code of the pending secret; otherwise everything is as before |
| Authenticator.AuthRows.Disable | services/api/app/auth_api.py:173-187 | disabled only with an accepted proof; otherwise everything is as before |
| Authenticator.AuthRows.RegenerateCodes | services/api/app/auth_api.py:190-204 | new codes only with an accepted proof on an enabled authenticator |
| Authenticator.AuthRows.ChangePassword | services/api/app/auth_api.py:207-223 | a refused new password takes back the consumption of its proof |
| EligibleLines.Eligible | scripts/count_25k_delta.py:133-165 | the loop credits nothing for a generated file and otherwise exactly what the scan credits |
| EligibleLines.IsGenerated | scripts/count_25k_delta.py:134-137 | true iff one of the first twenty lines is a comment with a marker |
| EligibleLines.SilentLinesEarnNothing | scripts/count_25k_delta.py:143-165 | lines that earn nothing by themselves and leave no comment open can be put anywhere outside comments without effect |
| EligibleLines.IndentationEarnsNothing | scripts/count_25k_delta.py:144-144 | indenting lines anew changes nothing |
| CommentCredit.BlockCommentsExactly | scripts/count_25k_delta.py:147-165 | a block comment over several lines, anywhere on its first line and with anything behind its end, against its lines blanked out: all lines earn alike and leave comments open alike iff it begins its line, or nothing of it is creditable as code |
| CommentCredit.InlineCommentsExactly | scripts/count_25k_delta.py:153-165 | the same for a block comment within one line |
| CommentCredit.LineCommentsExactly | scripts/count_25k_delta.py:158-165 | the same for line comments: they earn nothing iff they begin the line or the line earns nothing |
| CommentCredit.CommentMayBeBlanked | scripts/count_25k_delta.py:143-165 | under that condition a whole file earns the same with the comment and without it |
| CommentCredit.BracedCommentEarns | scripts/count_25k_delta.py:1-5 | a brace earns nothing, a comment opened behind it does |
| CommentCredit.NotedLineEarns | scripts/count_25k_delta.py:1-5 | a line of code with a note behind it is credited as another line |
| LineCredit.Delta | scripts/count_25k_delta.py:229-275 | the total is the number of distinct lines of current that occur nowhere in the baseline, and equals the sum over categories and over the listed files; inventories and gates as specified |
| LineCredit.CreditAll | scripts/count_25k_delta.py:230-256 | the greedy loop over a shrinking multiset gives every file the lines it is the first to contain |
| LineCredit.CreditFile | scripts/count_25k_delta.py:240-245 | in any order of lines, the surplus lines still novel are credited once and used up |
| LineCredit.CreditsAreNovel | scripts/count_25k_delta.py:233-265 | credit summed over categories is the size of a set difference |
| LineCredit.CreditedOnce | scripts/count_25k_delta.py:237-246 | each new line is credited to exactly one file, the first by path that contains it |
| LineCredit.RowsAddUp | scripts/count_25k_delta.py:247-256 | a file that is not listed earned nothing |
| LineCredit.OnlyLinesMatter | scripts/count_25k_delta.py:1-5 | renaming, reordering, splitting and joining files leaves the total alone |
| LineCredit.CopiesEarnNothing | scripts/count_25k_delta.py:1-5 | files made only of lines seen before add nothing |
| LineCredit.SortedIsSorted | scripts/count_25k_delta.py:237-237 | the files in path order, none lost |
| LineCredit.Totals | scripts/count_25k_delta.py:217-226 | files, physical and eligible lines of every category |
| BacktestSignals.NoLookAhead | services/api/app/backtest_engine.py:70-116 | for all eleven strategies, forgetting the prices after day n leaves signal, returns and volatility of the days before as they were |
| BacktestSignals.OwnSignalCut | services/api/app/backtest_engine.py:78-115 | the same for each security's own signal |
| BacktestSignals.RsiCut | services/api/app/backtest_engine.py:80-97 | the same for RSI, through two exponential means |
| BacktestSignals.MacdCut | services/api/app/backtest_engine.py:98-103 | the same for MACD, an exponential mean of exponential means |
| BacktestSignals.BreakoutCut | services/api/app/backtest_engine.py:104-107 | the same for breakouts, through shifted rolling extremes |
| BacktestSignals.MultiFactorsCut | services/api/app/backtest_engine.py:112-113 | the same for the cross-sectional ranks |
| BacktestSignals.DecisionsDoNotLookAhead | services/api/app/backtest_engine.py:295-300 | two price histories that agree up to a day choose the same weights on that day |
| BacktestWeights.RankedIsRanked | services/api/app/backtest_engine.py:159-159 | ranking loses nothing and descends |
| BacktestWeights.BestAndWorst | services/api/app/backtest_engine.py:158-166 | wherever a ranking is cut, everyone above has at least the signal of everyone below |
| BacktestWeights.NormalisedMeetsCap | services/api/app/backtest_engine.py:191-196 | before clipping the gross exposure is exactly the cap and every weight is on its signal's side |
| BacktestWeights.TargetsWithinLimits | services/api/app/backtest_engine.py:151-198 | weights are absent or one per selected security, on its side, within the position limit, together within min(gross limit, 1 - minimum cash), exactly at it if nothing is clipped |
| BacktestWeights.WeightsFollowMagnitudes | services/api/app/backtest_engine.py:182-197 | larger magnitudes never get smaller weights, equal ones equal weights |
| BacktestOrders.SectorTotals | services/api/app/backtest_engine.py:302-305 | the loop's totals are the sectors' absolute weights |
| BacktestOrders.SectorsCapped | services/api/app/backtest_engine.py:301-309 | after scaling a sector holds the lesser of its total and its limit; no weight grows or changes side |
| BacktestOrders.TruncatedExposure | services/api/app/backtest_engine.py:312-319 | a truncated quantity is worth the intended exposure or less, by less than a share, and never changes side |
| BacktestOrders.PositionWithinCap | services/api/app/backtest_engine.py:312-319 | each planned position is within the position limit |
| BacktestOrders.SectorPlanWithinCap | services/api/app/backtest_engine.py:301-319 | the planned positions of a sector are within its limit |
| BacktestOrders.ByDeltaKeeps | services/api/app/backtest_engine.py:320-320 | sorting by change of position loses no order and no cost |
| BacktestOrders.CashNeverDips | services/api/app/backtest_engine.py:320-329 | because reductions come first, cash on the way is never below the lower of start and end |
| BacktestOrders.OrdersKeepTheCaps | services/api/app/backtest_engine.py:311-329 | filled at sizing prices, orders end within the gross cap with at least the minimum cash |
| BacktestOrders.OrdersKeepEnoughCash | services/api/app/backtest_engine.py:311-329 | and after every single order cash is at least the lower of its start and the minimum |
| BacktestRun.SelectedSymbols | services/api/app/backtest_engine.py:157-170 | no security is on both sides |
| BacktestRun.DayKeepsTheCaps | services/api/app/backtest_engine.py:295-310 | the recorded weights of a day meet gross, position and sector limits and keep every side |
| BacktestRun.RebalancingKeepsTheCaps | services/api/app/backtest_engine.py:295-329 | signal to orders in one statement: gross, position and cash limits, and cash on the way |
| BacktestRun.RebalancingKeepsSectorCaps | services/api/app/backtest_engine.py:301-319 | the same for sectors |
| BacktestRun.ResearchStrategy.Next | services/api/app/backtest_engine.py:251-329 | one bar: the curve gains one point and the holdings one list; weights and orders appear iff rebalancing is due, and are the day's; non-positive value ends the run; the first point is at the capital |
| BacktestRun.ResearchStrategy.RecordPoint | services/api/app/backtest_engine.py:255-265 | the running peak gives the drawdown from the highest value so far, capital included |
| BacktestRun.ResearchStrategy.ScaleSectors | services/api/app/backtest_engine.py:302-309 | the loops compute the scaled weights |
| BacktestRun.ResearchStrategy.Submit | services/api/app/backtest_engine.py:320-329 | one outstanding order per nonzero change, with a reference of its own |
| BacktestRun.ResearchStrategy.Rebalance | services/api/app/backtest_engine.py:294-329 | one snapshot of the day's weights, never two in a row of one week, and one outstanding order per change |
| BacktestRun.ResearchStrategy.NotifyOrder | services/api/app/backtest_engine.py:331-352 | exactly the finished order stops being outstanding; a completed one is recorded as a fill, a refused one as rejected |
| BacktestRun.MaxDrawdown | services/api/app/backtest_engine.py:399-399 | the least drawdown of the curve |
| BacktestRun.WorstFall | services/api/app/backtest_engine.py:255-265 | that is the worst fall from any point in time to any later one, starting from the capital, and one such pair attains it |
| BacktestReturns.DaysChain | services/api/app/backtest_engine.py:389-389 | daily returns compound to last value over first |
| BacktestReturns.PeriodsCompound | services/api/app/backtest_engine.py:442-450 | grouping by any labels loses nothing: the periods compound to what the days do |
| BacktestReturns.PeriodsChain | services/api/app/backtest_engine.py:386-450 | the reported monthly or annual returns chain to last over first |
| BacktestRun.TotalReturnAgrees | services/api/app/backtest_engine.py:414-450 | for every curve of the strategy and any periods, total return equals the chained returns, because the first point is recorded before any order, at the capital |
| ReleaseEvidence.CheckEvidence | scripts/release_checks.py:151-189 | accepts iff numbering, names, commands, logs, nested timestamps, digests, results and the RUNNING tail all hold |
| ReleaseEvidence.CheckCommands | scripts/release_checks.py:171-189 | the same for the commands of one gate |
| ReleaseEvidence.EditsAreNoticed | scripts/release_checks.py:181-187 | changing or removing a log or result file of a finished gate makes the check reject |
| ReleaseRunner.ProducerMeetsChecker | scripts/release_candidate.py:165-248 | for any gates: while the last one runs, an honest manifest and its files pass the check iff there are 29 gates, commit and branch were recorded and no results were replaced since; none were if no two commands share a result file |
| ReleaseRunner.RunMeetsChecker | scripts/release_checks.py:151-189 | so whichever manifest of a run shows the last gate running, the check accepts it, its own new log among the files, iff there are 29 gates, commit and branch were recorded and no results were replaced since |
| ReleaseEvidence.OwnLogIsNoEvidence | scripts/release_checks.py:171-183 | a log of the last gate does not change what the check accepts |
| ReleaseRunner.ProgressIsHonest | scripts/release_candidate.py:165-191 | a manifest written while gates pass in order has the fail-fast shape and true evidence of every passed gate |
| ReleaseRunner.OwnLogOnly | scripts/release_candidate.py:113-114 | a command writes no earlier command's log |
| ReleaseRunner.OwnResultsOnly | scripts/release_candidate.py:33-40 | nor its results, if no result file is shared |
| ReleaseRunner.ReleaseRun.Execute | scripts/release_candidate.py:113-147 | only the command's own log and result file change; which outcome gives which exit code and log; exit code 0 also takes valid results |
| ReleaseRunner.ReleaseRun.Look | scripts/release_candidate.py:194-198 | one true reading of the sources, put on the trace |
| ReleaseRunner.ReleaseRun.RunCommand | scripts/release_candidate.py:195-231 | the gate goes on only if the command succeeded and the readings right before and right after it, on the trace, were the original one; its receipt then matches log and results; the command finds the manifest that shows it under way, about the files as they are |
| ReleaseRunner.ReleaseRun.RunGate | scripts/release_candidate.py:188-247 | the gate passes with all its evidence, or has failed with a nonzero code, and the manifest shows it either way |
| ReleaseRunner.ReleaseRun.RunGates | scripts/release_candidate.py:150-248 | for any gates: returns 0 iff every gate passed, else the code of the failed gate's reason (the command's own, 130 for an interrupt, 1); every manifest written was honest; every one that shows the last of several gates running meets the evidence check, as in RunMeetsChecker; the trace holds the true readings, each command of a passed gate stands between two of the original, and commands ran in turn with none after the failure; each gate begun was shown running |
| ReleaseRunner.ReleaseRun.LookAgain | scripts/release_candidate.py:198-236 | the sources are objected to iff the reading failed, by an error or an interrupt, or is not the original one |
| ReleaseRunner.ReleaseRun.Record | scripts/release_candidate.py:165-185 | the manifest is replaced as a whole and is honest about the files beside it |
| ReleaseGates.ShippedGatesAreRunnable | scripts/release_candidate.py:251-523 | the shipped list has 29 gates, none empty, every command has something to run and no result file is written twice |
| ReleaseGates.ShippedReleaseIsAccepted | scripts/release_checks.py:151-189 | so every manifest that a run of the shipped gates writes while the last one runs is accepted by that gate, whatever its own log, iff commit and branch were recorded |

## Left out

- Screens, routes, chart and formatting code, providers and thin wrappers: nothing spans functions there.
- HTTP, keyring, logging, subprocesses, Docker, `pg_dump` and `pg_restore`: replies and outcomes are arbitrary values that meet the checks the code makes.
- SQLAlchemy models, migrations, configuration, attachments, alpha API, broker reader, secret scanner, probes and watchdog: declarations and single checks.
- SHA-256 and object-key digests are collision-free functions; Argon2 and Fernet are exact; ZIP, JSON and pydantic parsing are a manifest that an archive does or does not decode to.
- Floating point: backtest numbers are exact reals. Square roots are an arbitrary function, and pandas operators follow their documentation; pandas itself is not part of this model.
- Backtrader fills, SciPy risk parity and statsmodels: account values and positive risk-parity magnitudes are inputs; a risk-parity optimisation that does not converge is not modelled.
- Sharpe, Sortino, VaR, beta, turnover and the other single-formula metrics of a simulation.
- LocalAgent.Agent.Scan: the files of the inbox and of processing come as lists, in any order and at any instants; that the directory walks list every file is the file system's part.
- LocalAgent.Agent.constructor: a first start; later starts are what `Die` leaves.
- LocalAgent.Agent.SyncRows: together with FetchStatuses this is `sync`; `tick`, the heartbeat and the pause file are not modelled, and the row check on inbox paths (line 175) never applies because rows never lie in the inbox.
- LocalAgent.Agent.ScanFile: names from `time_ns()` and `uuid4()` are taken as fresh, symbolic links and file extensions are not modelled, and outsiders act only on the inbox.
- AgentRuns.Conservation: counts files below the root; the queue database and the log are not files of the model.
- AnalysisLifecycle.Linearises: atomic conditional updates; other isolation effects of the database are not modelled.
- ManagedBackup.BuildBackup: the compressed size of the ZIP file, which verification also limits, is not modelled; pages of a listing are one list.
- BackupConsistency.StableSnapshot: assumes a store that answers truthfully and never gives a key an earlier (size, ETag, modification time) again; without that the code cannot tell versions apart.
- BackupConsistency.RestoreTest: database import and privacy probing are yes-or-no outcomes.
- BackupHealth.GoodIsHonest: receipts are read whole or not at all; their size limit and JSON validation are met by what the code writes, and receipts of the local engine are not modelled. Outsiders touch archives only, not receipts, and the clock does not go back.
- LocalArchive.RestoreBackup: case folding, reserved names and database inspection are arbitrary functions; the archive does not change between verification and extraction.
- Authenticator.NothingTwice: endpoints run one after another; verifications may interleave within them only through the conditional updates (AuthRows methods). Sessions, rate limits and audit rows are not modelled, and `generate_otp` is any function of secret and step.
- LineCredit.Delta: takes each file's eligible lines as given; `category_for` and the git commands are not modelled, and the four categories are an enumeration.
- CommentCredit.BlockCommentsExactly: comments are told by their marks; a mark inside a string literal counts as one, since the scanner does not look at literals. The marks themselves are taken not to be alphanumeric.
- EligibleLines.Eligible: which lines are docstrings, lower case and alphanumeric characters are inputs; white space is the blank, the tab and the line ends.
- BacktestSignals.NoLookAhead: prices are positive; the rule that nothing is rebalanced on the last bar does depend on the length of the grid, so cutting it there removes that day's orders though not its weights.
- BacktestRun.ResearchStrategy.Next: takes the account to be worth the capital until this strategy has submitted an order; an order the simulator does not accept at all, closed trades and the benchmark's own values are not modelled.
- ReleaseRunner.ReleaseRun.RunGates: every command names a program; a command changes no file but its own log and result file, result files are not logs, an exception outside those the code catches is not modelled, and interrupts come while a command runs or the sources are read.
- ReleaseGates.ShippedGatesAreRunnable: environment variables and time limits of the commands are not modelled; paths are texts joined with a slash.
- ReleaseEvidence.CheckEvidence: the lexical form of timestamps and digests is not modelled; the report it writes at the end is left out.
