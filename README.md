# Coding platform grading pipeline, modelled in Dafny

This project models the core of a coding-practice backend written in Kotlin.
Users register behind an e-mail code and submit solutions to problems. Each
submission is graded by running the problem's tests against it in a Docker
sandbox. The model covers these parts:

- **Path validator** (`SecurityManager`, module `SecurityManager`). Every key
  of a file map is normalised the way `Path.normalize()` does it, and the
  whole map is refused if any normalised key starts with `..`.
- **Sandbox** (`DockerManager`, module `Sandbox`). A class over the live
  workspace directories, the listed images and the existing containers.
  `executeCode` validates the files, stages the workspace, makes sure the
  image exists, creates and runs the container, classifies the exit code,
  turns every engine exception into an ERROR result and always deletes the
  workspace. What the container engine does is an input (`DockerScript`).
- **Language runners** (module `Runners`). The build, test and run command
  table of the Kotlin, Java and Python runners.
- **Grading** (`DockerExecutorService`, module `Grading`). Covers the
  per-language path rewriting of user files and the right-biased merge with
  tests and scaffolding. It also covers the grading command, the integer
  score (passed/total as a percentage, rounded half up), the three-way
  message and the feedback record.
- **Test-report interpreter** (`TestRunnerService`, module `TestRunner`). The
  JUnit branch runs over the `testcase` nodes an abstract XML parser returns.
  The line-scan fallback has its counter, and there is test-name and
  coverage extraction.
- **Submission lifecycle** (`SubmissionService`, module `Submissions`).
  Rows go PENDING → RUNNING → COMPLETED | FAILED. The background evaluation
  is one synchronous step, and which of its database calls throw is an input.
- **Problem catalogue** (`ProblemService`, module `Problems`). Covers the
  test-file rule, slug normalisation and uniqueness, the comma-joined tag
  column, partial update, delete and one-time seeding.
- **E-mail verification and accounts** (`EmailVerificationService` and
  `AuthService`, modules `EmailVerification`, `Auth`, `Hashing`). One code
  per lower-cased address, with expiry, single use and the checks in order.
  Registration consumes a code before inserting. Login stamps the
  last-login time. BCrypt is an abstract salted hasher whose only assumed
  property is that a value verifies against its own hash.
- **Leaderboard** (`DashboardService.getLeaderboard`, module `Dashboard`).
  Submissions are grouped by user in first-appearance order. Each user gets
  the truncated mean of their scores and a name from the users table
  ("Unknown" if none). Entries get a stable descending sort and are then cut
  to `limit`.

Supporting modules: `Base` (Option, Result, Outcome), `Strings` (the
Kotlin string functions the core uses: trim, lowercase, split, join,
indexOf, lines, replace, number printing) and `Models` (the records of
`models/Execution.kt`, `models/Submission.kt`, `models/Problem.kt`,
`models/User.kt`).

Clocks, UUIDs, random digits, salts, the container engine, the XML parser
and the database's faults are all parameters. Times are integers
(milliseconds).

Two behaviours of the code that a reader might not expect, both modelled as
the code has them:

- An evaluation does not always end with the submission COMPLETED or FAILED.
  The submission stays RUNNING when something throws after the RUNNING
  update and the FAILED write in the catch block throws as well
  (`Submissions.SettleStuck`). When the row is deleted between the RUNNING
  update and the re-read, the evaluation returns quietly and the row is gone,
  together with its executions (`Submissions.SettleRemoved`).
- Addresses are lower-cased for verification records only; the users table
  is matched exactly, so two addresses that differ only in case are two
  accounts sharing one verification record (`Auth.CaseSplitsAccounts`).

## Model

| member | source | states |
|---|---|---|
| SecurityManager.ValidateFiles | src/main/kotlin/com/codingplatform/executor/SecurityManager.kt:7-12 | the map passes iff every key is accepted; a failure carries exactly the non-empty set of rejected keys |
| SecurityManager.PathAcceptedIff | src/main/kotlin/com/codingplatform/executor/SecurityManager.kt:8-18 | a key is accepted iff it has no NUL and is absolute, normalises to nothing, or its first remaining name does not start with ".." |
| SecurityManager.AcceptedHasNoParentName | src/main/kotlin/com/codingplatform/executor/SecurityManager.kt:9-10 | an accepted key has no ".." name left after normalisation, so it cannot leave the workspace |
| SecurityManager.PlainPathAccepted | src/main/kotlin/com/codingplatform/executor/SecurityManager.kt:9-10 | a key without NUL none of whose names starts with ".." is accepted |
| SecurityManager.NormalizeFromWellFormed | src/main/kotlin/com/codingplatform/executor/SecurityManager.kt:15 | normalisation leaves no "." or empty name, keeps ".." only at the front, and none at all in an absolute path |
| SecurityManager.NormalNamesWellFormed | src/main/kotlin/com/codingplatform/executor/SecurityManager.kt:15 | the same for the names of any path |
| SecurityManager.NormalizeWithoutDotDot | src/main/kotlin/com/codingplatform/executor/SecurityManager.kt:15 | names without ".." are only stripped of "." |
| SecurityManager.CancelledParentAccepted | src/main/kotlin/com/codingplatform/executor/SecurityManager.kt:15 | `x/../y` normalises to `y` and is accepted |
| SecurityManager.EscapingParentRejected | src/main/kotlin/com/codingplatform/executor/SecurityManager.kt:15 | `x/../../y` normalises to `../y` and is rejected |
| SecurityManager.DotDotPrefixedNameRejected | src/main/kotlin/com/codingplatform/executor/SecurityManager.kt:10 | the check is a string prefix: the plain name `..hidden` is rejected |
| SecurityManager.BackslashParentRejected | src/main/kotlin/com/codingplatform/executor/SecurityManager.kt:15 | backslashes become slashes before the check: `..\x` reads as `../x` and is rejected |
| SecurityManager.NulCharacterRejected | src/main/kotlin/com/codingplatform/executor/SecurityManager.kt:14-17 | a syntactically invalid path fails as an invalid path |
| SecurityManager.ContentsIgnored | src/main/kotlin/com/codingplatform/executor/SecurityManager.kt:8 | two maps with the same keys get the same verdict whatever their contents |
| SecurityManager.Normalize | src/main/kotlin/com/codingplatform/executor/SecurityManager.kt:14-18 | `Path.normalize`, then backslashes to slashes; its meaning is stated by NormalizeFromWellFormed, NormalizeWithoutDotDot and NulCharacterRejected |
| SecurityManager.PathAccepted | src/main/kotlin/com/codingplatform/executor/SecurityManager.kt:8-10 | the per-key test; its meaning is stated by PathAcceptedIff and AcceptedHasNoParentName |
| Runners.MainClassRoundTrip | src/main/kotlin/com/codingplatform/executor/runners/KotlinRunner.kt:15-16 | the entry point can be read back out of every runner's run command |
| Runners.RunCommandInjective | src/main/kotlin/com/codingplatform/executor/runners/JavaRunner.kt:15-16 | different entry points give different run commands |
| Runners.JvmRunnersShareBuildAndTest | src/main/kotlin/com/codingplatform/executor/runners/JavaRunner.kt:9-16 | Java and Kotlin share build and test commands but not run commands |
| Runners.BuildCommand | src/main/kotlin/com/codingplatform/executor/runners/KotlinRunner.kt:9-10 | each runner's build vector; related by JvmRunnersShareBuildAndTest |
| Runners.TestCommand | src/main/kotlin/com/codingplatform/executor/runners/PythonRunner.kt:11-12 | each runner's test vector; related to the grading command by Grading.GradingCommandVersusRunners |
| Runners.RunCommand | src/main/kotlin/com/codingplatform/executor/runners/JavaRunner.kt:15-16 | each runner's run vector; its meaning is stated by MainClassRoundTrip and RunCommandInjective |
| Sandbox.ImageNameSpelled | src/main/kotlin/com/codingplatform/executor/DockerManager.kt:118-122 | each image is `coding-platform-<language>:latest` |
| Sandbox.ImageNameShape | src/main/kotlin/com/codingplatform/executor/DockerManager.kt:118-122 | splitting an image name gives its repository and the tag `latest` |
| Sandbox.ImageNamesDistinct | src/main/kotlin/com/codingplatform/executor/DockerManager.kt:118-122 | different languages never share an image |
| Sandbox.ImageTagRejoins | src/main/kotlin/com/codingplatform/executor/DockerManager.kt:144-150 | the repository and tag an image is tagged with rejoin to the image name |
| Sandbox.SplitTagUntagged | src/main/kotlin/com/codingplatform/executor/DockerManager.kt:144-146 | a name without `:` splits to itself and `latest` |
| Sandbox.SplitTagJoin | src/main/kotlin/com/codingplatform/executor/DockerManager.kt:144-148 | `repo:tag` splits back to `repo` and `tag` |
| Sandbox.SplitTagDropsRest | src/main/kotlin/com/codingplatform/executor/DockerManager.kt:147 | pieces after a second `:` are dropped |
| Sandbox.HostPathSameRoot | src/main/kotlin/com/codingplatform/executor/DockerManager.kt:160 | with the host workspace defaulting to the workspace root, the bind path is the workspace path |
| Sandbox.HostPathOfWorkspace | src/main/kotlin/com/codingplatform/executor/DockerManager.kt:160 | a workspace is mounted from `<host>/<executionId>` when the id does not repeat the root |
| Sandbox.ContainerNamesDistinct | src/main/kotlin/com/codingplatform/executor/DockerManager.kt:174 | container names `exec-<id>` are distinct for distinct ids |
| Sandbox.WrapLong | src/main/kotlin/com/codingplatform/executor/DockerManager.kt:37 | the result is in the Long range and congruent to the input modulo 2^64 |
| Sandbox.MemoryLimitExact | src/main/kotlin/com/codingplatform/executor/DockerManager.kt:37 | below 2^43 MB the limit is MB × 1048576; the default 512 MB is 536870912 bytes |
| Sandbox.MemoryLimitOverflows | src/main/kotlin/com/codingplatform/executor/DockerManager.kt:37 | 2^43 MB wraps around to the most negative Long |
| Sandbox.ClassifyIff | src/main/kotlin/com/codingplatform/executor/DockerManager.kt:228-232 | exit code 0 iff SUCCESS, -1 iff TIMEOUT, any other iff FAILED; never ERROR |
| Sandbox.ExpectedResultShape | src/main/kotlin/com/codingplatform/executor/DockerManager.kt:76-97 | the result has the execution id and memory 0; it is ERROR iff an engine call threw, with empty output, exit -1, time 0 and the exception's message; otherwise its status classifies its exit code, which is -1 after a failed wait |
| Sandbox.ExitMinusOneReadsAsTimeout | src/main/kotlin/com/codingplatform/executor/DockerManager.kt:210-232 | a container exiting with -1 by itself is reported as TIMEOUT |
| Sandbox.FailedStartLeavesContainer | src/main/kotlin/com/codingplatform/executor/DockerManager.kt:189-226 | a start that throws after a successful listing leaves the created container behind and gives ERROR |
| Sandbox.PresentImageIgnoresBuild | src/main/kotlin/com/codingplatform/executor/DockerManager.kt:124-130 | a listed image is never built or tagged, so those calls' behaviour does not matter |
| Sandbox.ImageName | src/main/kotlin/com/codingplatform/executor/DockerManager.kt:118-122 | the image of a language; its meaning is stated by ImageNameSpelled, ImageNameShape and ImageNamesDistinct |
| Sandbox.SplitTag | src/main/kotlin/com/codingplatform/executor/DockerManager.kt:144-149 | the repository and tag of a name; its meaning is stated by SplitTagUntagged, SplitTagJoin and SplitTagDropsRest |
| Sandbox.MemoryLimitBytes | src/main/kotlin/com/codingplatform/executor/DockerManager.kt:37 | MB times 1048576 in Long arithmetic; its meaning is stated by MemoryLimitExact and MemoryLimitOverflows |
| Sandbox.Classify | src/main/kotlin/com/codingplatform/executor/DockerManager.kt:228-232 | the status of an exit code; its meaning is stated by ClassifyIff |
| Sandbox.ExpectedResult | src/main/kotlin/com/codingplatform/executor/DockerManager.kt:62-97 | the result a run has for a given engine behaviour; its meaning is stated by ExpectedResultShape, and ExecuteCode returns it |
| Sandbox.DockerManager.constructor | src/main/kotlin/com/codingplatform/executor/DockerManager.kt:34-38 | the configured roots, timeout and CPU shares; memory limit is MB converted in 64-bit arithmetic; no workspace, container or creation yet |
| Sandbox.DockerManager.CreateWorkspace | src/main/kotlin/com/codingplatform/executor/DockerManager.kt:106-115 | the directory `<root>/<id>` holds its earlier files overwritten by all the given files; nothing else changes |
| Sandbox.DockerManager.EnsureImageBuilt | src/main/kotlin/com/codingplatform/executor/DockerManager.kt:117-151 | a failing listing's exception is returned; a listed image is returned untouched; a missing one is built, or the build's exception is returned; a built image stays even when the tag then throws, whose exception is returned |
| Sandbox.DockerManager.CreateContainer | src/main/kotlin/com/codingplatform/executor/DockerManager.kt:153-183 | on success the container `exec-<id>` exists, created from the full specification (bind mount, limits, user, env); otherwise nothing changes |
| Sandbox.DockerManager.RunContainer | src/main/kotlin/com/codingplatform/executor/DockerManager.kt:185-242 | start, follow the logs, wait (kill and -1 on a failed wait), drain the log callback, force-remove, classify; the first exception is returned, a drain exception replacing the kill's, and the container then stays |
| Sandbox.DockerManager.CleanupWorkspace | src/main/kotlin/com/codingplatform/executor/DockerManager.kt:244-246 | the directory is gone, nothing else changes |
| Sandbox.DockerManager.ExecuteCode | src/main/kotlin/com/codingplatform/executor/DockerManager.kt:41-104 | a refused map is rethrown before any state changes; otherwise the result is the expected one, the workspace is deleted on every path, and images, containers and creations change exactly as the engine's behaviour implies |
| Sandbox.DockerManager.RunInEngine | src/main/kotlin/com/codingplatform/executor/DockerManager.kt:62-99 | the try block with its catch: image, container, run, every exception as an ERROR result, workspaces untouched |
| Grading.ScoreRounds | src/main/kotlin/com/codingplatform/services/DockerExecutorService.kt:40-41 | the score is passed/total × 100 rounded half up |
| Grading.ScoreUnique | src/main/kotlin/com/codingplatform/services/DockerExecutorService.kt:40-41 | the rounding condition determines the score uniquely |
| Grading.ScoreBounds | src/main/kotlin/com/codingplatform/services/DockerExecutorService.kt:40-41 | with passed ≤ total the score is in 0..100, 0 when none pass, 100 when all pass |
| Grading.ScoreMonotone | src/main/kotlin/com/codingplatform/services/DockerExecutorService.kt:40-41 | more passes never lower the score |
| Grading.FullScoreDespiteFailure | src/main/kotlin/com/codingplatform/services/DockerExecutorService.kt:40-46 | 399 of 400 passing scores 100 while the message still reports a failure |
| Grading.MessageCases | src/main/kotlin/com/codingplatform/services/DockerExecutorService.kt:42-46 | "no tests" iff total is 0; "all passed" iff total ≠ 0 and failed is 0; a failure message determines the failure count |
| Grading.RewritePathInverse | src/main/kotlin/com/codingplatform/services/DockerExecutorService.kt:90-111 | a moved path can be traced back, rewriting is idempotent, JVM keys start with `src/`, Python keys start with `src/` or end in `.py` |
| Grading.RewriteCollision | src/main/kotlin/com/codingplatform/services/DockerExecutorService.kt:90-111 | two user paths meet on one key only if exactly one of them was already in place |
| Grading.PrepareUserSolutionFiles | src/main/kotlin/com/codingplatform/services/DockerExecutorService.kt:90-111 | the keys are exactly the rewritten user paths |
| Grading.PreparedContents | src/main/kotlin/com/codingplatform/services/DockerExecutorService.kt:90-111 | every file keeps its content under its new key unless another file was already there |
| Grading.BuildFileKeys | src/main/kotlin/com/codingplatform/services/DockerExecutorService.kt:113-126 | Gradle projects get the four scaffolding files, Python the two |
| Grading.MergeIsRightBiased | src/main/kotlin/com/codingplatform/services/DockerExecutorService.kt:74 | the merge keeps every key; scaffolding beats tests, tests beat user files |
| Grading.TestsSurviveMerge | src/main/kotlin/com/codingplatform/services/DockerExecutorService.kt:74 | a user file can never replace a test file |
| Grading.GradingCommandVersusRunners | src/main/kotlin/com/codingplatform/services/DockerExecutorService.kt:68-71 | grading runs Python tests as the Python runner does, but JVM tests with `gradle` instead of the runners' `./gradlew` |
| Grading.GradeFailsOnlyBeforeRunning | src/main/kotlin/com/codingplatform/services/DockerExecutorService.kt:33-59 | grading fails iff the problem has no tests or the merged files are refused; the feedback's status is the run's |
| Grading.EvaluateSubmission | src/main/kotlin/com/codingplatform/services/DockerExecutorService.kt:33-88 | the result is the grade of the merged files run under the submission's id, and is Ok exactly when the problem has tests and the path check passes (`Runs`); `SandboxAfterGrading` states the sandbox's new state: unchanged before a run, otherwise the workspace is gone and images, containers and created specifications change as the engine's behaviour implies |
| Grading.ExecuteCommand | src/main/kotlin/com/codingplatform/services/DockerExecutorService.kt:23-31 | an ad hoc run passes the command as `sh -c <command>`; a refused map changes nothing; otherwise the full new sandbox state of `executeCode` |
| Grading.FeedbackShape | src/main/kotlin/com/codingplatform/services/DockerExecutorService.kt:48-58 | passed + failed = total, score in 0..100, all passing gives 100 and "all passed", ERROR status iff the sandbox threw |
| Grading.ErroredRunHasNoTests | src/main/kotlin/com/codingplatform/services/DockerExecutorService.kt:40-46 | a run that threw is graded as no tests, score 0 |
| Grading.Score | src/main/kotlin/com/codingplatform/services/DockerExecutorService.kt:40-41 | the integer score; its meaning is stated by ScoreRounds, ScoreUnique, ScoreBounds and ScoreMonotone |
| Grading.Message | src/main/kotlin/com/codingplatform/services/DockerExecutorService.kt:42-46 | the feedback message; its meaning is stated by MessageCases |
| Grading.RewritePath | src/main/kotlin/com/codingplatform/services/DockerExecutorService.kt:91-110 | where a user file is placed; its meaning is stated by RewritePathInverse and RewriteCollision |
| Grading.Feedback | src/main/kotlin/com/codingplatform/services/DockerExecutorService.kt:48-58 | the feedback record of a run and its report; its meaning is stated by FeedbackShape |
| Grading.Grade | src/main/kotlin/com/codingplatform/services/DockerExecutorService.kt:33-59 | the outcome of grading; its meaning is stated by GradeFailsOnlyBeforeRunning, and EvaluateSubmission returns it |
| TestRunner.ExtractTestName | src/main/kotlin/com/codingplatform/services/TestRunnerService.kt:95-98 | the result is "UnknownTest" or a non-empty run of `[A-Za-z0-9_.$]` |
| TestRunner.TestNameRoundTrip | src/main/kotlin/com/codingplatform/services/TestRunnerService.kt:95-98 | "Test", white space and a name give back the name |
| TestRunner.NoTestNameWithoutTest | src/main/kotlin/com/codingplatform/services/TestRunnerService.kt:95-98 | a line without "Test" gives "UnknownTest" |
| TestRunner.ToIntOrNull | src/main/kotlin/com/codingplatform/services/TestRunnerService.kt:103-104 | digits give their value when it fits an Int, and nothing iff it does not |
| TestRunner.Percentage | src/main/kotlin/com/codingplatform/services/TestRunnerService.kt:100-104 | a coverage figure is always in 0..Int.MAX_VALUE |
| TestRunner.ExtractCoverage | src/main/kotlin/com/codingplatform/services/TestRunnerService.kt:100-106 | line and branch figures are in range and uncovered lines are empty |
| TestRunner.PercentageRoundTrip | src/main/kotlin/com/codingplatform/services/TestRunnerService.kt:100-104 | output opening with "<marker> <n>%" reports n, or 0 if n does not fit an Int |
| TestRunner.ParseFromLogs | src/main/kotlin/com/codingplatform/services/TestRunnerService.kt:66-93 | the counter loop yields the records of the lines, numbered in order |
| TestRunner.LogRecordsShape | src/main/kotlin/com/codingplatform/services/TestRunnerService.kt:66-93 | one record per line mentioning PASSED (PASSED) or else FAILED (FAILED, fixed error text); counts match the lines; ids "0", "1", … ; duration 0 |
| TestRunner.QuietLinesYieldNothing | src/main/kotlin/com/codingplatform/services/TestRunnerService.kt:90 | lines mentioning neither word yield no record |
| TestRunner.FirstFailureFrom | src/main/kotlin/com/codingplatform/services/TestRunnerService.kt:47-57 | the position of the first `failure` or `error` element child, or none iff there is none |
| TestRunner.ParseTestCases | src/main/kotlin/com/codingplatform/services/TestRunnerService.kt:40-60 | the nested loops with `break` yield exactly the JUnit records |
| TestRunner.JUnitRecordsShape | src/main/kotlin/com/codingplatform/services/TestRunnerService.kt:40-60 | one record per test case numbered by position, FAILED iff it has a failure or error child, name defaulting to "Unknown" |
| TestRunner.ParseJUnitXml | src/main/kotlin/com/codingplatform/services/TestRunnerService.kt:29-64 | computes the records of the output: JUnit if an XML declaration parses, the line scan otherwise |
| TestRunner.FallbackRouting | src/main/kotlin/com/codingplatform/services/TestRunnerService.kt:29-63 | no `<?xml`, or XML that does not parse, goes to the line scan; parsed XML gives the JUnit records |
| TestRunner.ParseTestResults | src/main/kotlin/com/codingplatform/services/TestRunnerService.kt:14-27 | computes the report: tallies of the records, their number, and the coverage |
| TestRunner.TallyPassOrFail | src/main/kotlin/com/codingplatform/services/TestRunnerService.kt:16-17 | records that are all PASSED or FAILED tally to their number |
| TestRunner.ReportTally | src/main/kotlin/com/codingplatform/services/TestRunnerService.kt:14-27 | total is the number of records, passed + failed = total, records numbered in order |
| TestRunner.RecordsPassOrFail | src/main/kotlin/com/codingplatform/services/TestRunnerService.kt:29-64 | both parsers emit only PASSED or FAILED, numbered in order |
| TestRunner.JUnitPassOrFail | src/main/kotlin/com/codingplatform/services/TestRunnerService.kt:45-58 | the JUnit branch emits only PASSED or FAILED |
| TestRunner.LogPassOrFail | src/main/kotlin/com/codingplatform/services/TestRunnerService.kt:68-92 | the line scan emits only PASSED or FAILED |
| TestRunner.LogRecord | src/main/kotlin/com/codingplatform/services/TestRunnerService.kt:69-90 | the record of one log line, if any; its meaning is stated by LogRecordsShape and QuietLinesYieldNothing |
| TestRunner.JUnitRecord | src/main/kotlin/com/codingplatform/services/TestRunnerService.kt:40-59 | the record of one test case; its meaning is stated by JUnitRecordsShape |
| TestRunner.Records | src/main/kotlin/com/codingplatform/services/TestRunnerService.kt:29-64 | the records of a run's output; its meaning is stated by FallbackRouting and RecordsPassOrFail, and ParseJUnitXml computes it |
| TestRunner.Report | src/main/kotlin/com/codingplatform/services/TestRunnerService.kt:14-27 | the report of a run's output; its meaning is stated by ReportTally, and ParseTestResults computes it |
| Submissions.SettleCompleted | src/main/kotlin/com/codingplatform/services/SubmissionService.kt:84-116 | COMPLETED iff grading was reached and succeeded and its write went through; then the feedback and its score are stored |
| Submissions.SettleFailed | src/main/kotlin/com/codingplatform/services/SubmissionService.kt:105-114 | FAILED iff something threw and the FAILED write went through; no feedback, score untouched |
| Submissions.SettleStuck | src/main/kotlin/com/codingplatform/services/SubmissionService.kt:105-114 | a row still there stays RUNNING iff the RUNNING write went through, something later threw, and the FAILED write threw too; it stays PENDING, unchanged, iff the RUNNING and FAILED writes both throw |
| Submissions.SettleRemoved | src/main/kotlin/com/codingplatform/services/SubmissionService.kt:87-91 | the evaluation ends with no row iff the RUNNING write went through and the row was deleted before the re-read |
| Submissions.SettleWithoutFaults | src/main/kotlin/com/codingplatform/services/SubmissionService.kt:84-116 | with no database fault a graded submission completes and an ungradable one fails, keeping its identity |
| Submissions.SettleKeepsKeys | src/main/kotlin/com/codingplatform/services/SubmissionService.kt:96-114 | evaluation changes no identifying column, so the table written back stays keyed by id |
| Submissions.SubmissionStore.ListSubmissions | src/main/kotlin/com/codingplatform/services/SubmissionService.kt:46-50 | exactly the rows of the given user |
| Submissions.SubmissionStore.GetSubmission | src/main/kotlin/com/codingplatform/services/SubmissionService.kt:77-81 | the row with the id, present iff it exists |
| Submissions.SubmissionStore.CreateSubmission | src/main/kotlin/com/codingplatform/services/SubmissionService.kt:52-75 | an unknown problem inserts nothing; otherwise exactly one PENDING row with score 0 and no feedback |
| Submissions.SubmissionStore.UpdateStatus | src/main/kotlin/com/codingplatform/services/SubmissionService.kt:119-127 | only this row's status and update time change |
| Submissions.SubmissionStore.MarkCompleted | src/main/kotlin/com/codingplatform/services/SubmissionService.kt:96-103 | status, feedback, score and update time in one write to this row |
| Submissions.SubmissionStore.MarkFailed | src/main/kotlin/com/codingplatform/services/SubmissionService.kt:107-114 | FAILED, feedback cleared, score kept, only this row |
| Submissions.SubmissionStore.TryEvaluate | src/main/kotlin/com/codingplatform/services/SubmissionService.kt:85-104 | the try block: RUNNING, re-read, grade, COMPLETED; reports a throw exactly when one happened; the sandbox is untouched unless grading is reached, and is then left as `SandboxAfterGrading` states for the RUNNING row |
| Submissions.SubmissionStore.RereadAndGrade | src/main/kotlin/com/codingplatform/services/SubmissionService.kt:88-103 | a failing read throws; a row deleted meanwhile is gone with its executions and the step ends quietly; a visible row is graded and completed, and the sandbox is left as `SandboxAfterGrading` states; otherwise it is untouched |
| Submissions.SubmissionStore.GradeAndComplete | src/main/kotlin/com/codingplatform/services/SubmissionService.kt:93-103 | the row completes with the grade or the step reports a throw; the sandbox is left as `SandboxAfterGrading` states |
| Submissions.SubmissionStore.Evaluate | src/main/kotlin/com/codingplatform/services/SubmissionService.kt:83-117 | only this row changes, to its settled state, or goes with its executions when deleted meanwhile; the table stays valid; the sandbox is untouched unless grading is reached, and is then left as `SandboxAfterGrading` states for the RUNNING row |
| Submissions.SubmissionStore.RecordExecution | src/main/kotlin/com/codingplatform/services/SubmissionService.kt:129-150 | exactly one execution row copying status, output, error, exit code, time and memory |
| Submissions.Cascade | src/main/kotlin/com/codingplatform/database/tables/Executions.kt:8 | the executions left after deleting submissions are exactly those not referencing a deleted one, each from the old table |
| Submissions.CascadeKeepsReferences | src/main/kotlin/com/codingplatform/database/tables/Executions.kt:8 | after the cascade every execution still references an existing submission |
| Submissions.SubmissionStore.DeleteSubmissions | src/main/kotlin/com/codingplatform/database/tables/Executions.kt:8 | the submissions go, their executions with them, and the table stays valid |
| Submissions.Settle | src/main/kotlin/com/codingplatform/services/SubmissionService.kt:84-116 | the row after one evaluation; its meaning is stated by SettleCompleted, SettleFailed, SettleStuck and SettleRemoved |
| Problems.NormalizeSlugIdempotent | src/main/kotlin/com/codingplatform/services/ProblemService.kt:227 | a normalised slug has no surrounding white space and no upper-case letter, and normalising again changes nothing |
| Problems.CheckTestFilesIff | src/main/kotlin/com/codingplatform/services/ProblemService.kt:229-233 | passes iff there is a file and no path or content is blank; fails with "none" iff the map is empty |
| Problems.DecodeTags | src/main/kotlin/com/codingplatform/services/ProblemService.kt:215 | every tag read back is non-blank and comma-free |
| Problems.TagsRoundTrip | src/main/kotlin/com/codingplatform/services/ProblemService.kt:215 | non-blank comma-free tags, joined as stored, read back exactly |
| Problems.TagsDecodeStable | src/main/kotlin/com/codingplatform/services/ProblemService.kt:215 | storing what was read and reading again gives the same tags |
| Problems.NewRowReadsBack | src/main/kotlin/com/codingplatform/services/ProblemService.kt:59-73 | a created problem reads back with the normalised slug, its tags and files, default criteria and target 150 |
| Problems.ApplyUpdateProperties | src/main/kotlin/com/codingplatform/services/ProblemService.kt:81-94 | an update never touches id, slug, criteria, target or creation time, always refreshes updatedAt, and is idempotent |
| Problems.ApplyUpdateReadsBack | src/main/kotlin/com/codingplatform/services/ProblemService.kt:81-94 | named columns read back as requested, unnamed ones as they were |
| Problems.InsertKeepsKeys | src/main/kotlin/com/codingplatform/services/ProblemService.kt:55-59 | a row with a free id and slug keeps the table keyed and slugs unique |
| Problems.UpdateKeepsKeys | src/main/kotlin/com/codingplatform/services/ProblemService.kt:81-94 | updates keep the table keyed and slugs unique |
| Problems.SeedIdempotent | src/main/kotlin/com/codingplatform/services/ProblemService.kt:183-186 | seeding a second time changes nothing; a non-empty table is left alone |
| Problems.SeedReadsBack | src/main/kotlin/com/codingplatform/services/ProblemService.kt:187-203 | the seeded table is well keyed and its problem has the three sample tags |
| Problems.NormalizeSlug | src/main/kotlin/com/codingplatform/services/ProblemService.kt:227 | trim then lower-case; its meaning is stated by NormalizeSlugIdempotent |
| Problems.CheckTestFiles | src/main/kotlin/com/codingplatform/services/ProblemService.kt:229-233 | the test-file rule; its meaning is stated by CheckTestFilesIff |
| Problems.ToProblem | src/main/kotlin/com/codingplatform/services/ProblemService.kt:207-222 | a row read as a problem; its meaning is stated by NewRowReadsBack, ApplyUpdateReadsBack and TagsRoundTrip |
| Problems.NewRow | src/main/kotlin/com/codingplatform/services/ProblemService.kt:59-73 | the inserted row; its meaning is stated by NewRowReadsBack and InsertKeepsKeys |
| Problems.ApplyUpdate | src/main/kotlin/com/codingplatform/services/ProblemService.kt:81-94 | the updated row; its meaning is stated by ApplyUpdateProperties, ApplyUpdateReadsBack and UpdateKeepsKeys |
| Problems.Seeded | src/main/kotlin/com/codingplatform/services/ProblemService.kt:183-204 | the table after seeding; its meaning is stated by SeedIdempotent and SeedReadsBack |
| Problems.ProblemCatalogue.GetProblem | src/main/kotlin/com/codingplatform/services/ProblemService.kt:37-40 | the problem with the id, present iff the row exists |
| Problems.ProblemCatalogue.ListProblems | src/main/kotlin/com/codingplatform/services/ProblemService.kt:32-35 | exactly the problems of all rows |
| Problems.ProblemCatalogue.CreateProblem | src/main/kotlin/com/codingplatform/services/ProblemService.kt:47-77 | test files checked first, then the slug must be free; then exactly one new row, returned as read back |
| Problems.ProblemCatalogue.UpdateProblem | src/main/kotlin/com/codingplatform/services/ProblemService.kt:79-98 | bad test files change nothing; absent iff no row has the id; otherwise only that row is updated |
| Problems.ProblemCatalogue.DeleteProblem | src/main/kotlin/com/codingplatform/services/ProblemService.kt:100-103 | true iff a row had the id, which is then gone; the submissions to a deleted problem go too, with their executions, as the schema's cascade says |
| Problems.ProblemCatalogue.SeedDefaults | src/main/kotlin/com/codingplatform/services/ProblemService.kt:105-205 | the sample goes into an empty table only |
| EmailVerification.GenerateCodeDigits | src/main/kotlin/com/codingplatform/services/EmailVerificationService.kt:66-67 | a code has one decimal digit per draw, each the draw's value |
| EmailVerification.CheckOrder | src/main/kotlin/com/codingplatform/services/EmailVerificationService.kt:46-59 | each failure holds iff the earlier checks passed and its own failed: missing, expired, used, wrong code |
| EmailVerification.IssueWellFormed | src/main/kotlin/com/codingplatform/services/EmailVerificationService.kt:26-41 | requesting keeps one unverified record per lower-cased address |
| EmailVerification.ConsumeWellFormed | src/main/kotlin/com/codingplatform/services/EmailVerificationService.kt:46-63 | consuming keeps the table well formed and only removes |
| EmailVerification.IssuedCodeAccepted | src/main/kotlin/com/codingplatform/services/EmailVerificationService.kt:26-59 | an issued code checks, under any casing of the address, until its expiry |
| EmailVerification.IssuedCodeExpires | src/main/kotlin/com/codingplatform/services/EmailVerificationService.kt:57 | from its expiry on every code is refused as expired |
| EmailVerification.ReissueSupersedes | src/main/kotlin/com/codingplatform/services/EmailVerificationService.kt:32-40 | a second request replaces the first |
| EmailVerification.SingleUse | src/main/kotlin/com/codingplatform/services/EmailVerificationService.kt:61-63 | after a successful consume the address has no code |
| EmailVerification.NeverAlreadyUsed | src/main/kotlin/com/codingplatform/services/EmailVerificationService.kt:58 | no record is ever verified, so the "already used" check never fires |
| EmailVerification.GenerateCode | src/main/kotlin/com/codingplatform/services/EmailVerificationService.kt:66-67 | the code from six random draws; its meaning is stated by GenerateCodeDigits |
| EmailVerification.Issue | src/main/kotlin/com/codingplatform/services/EmailVerificationService.kt:26-41 | the table after a request; its meaning is stated by IssueWellFormed, IssuedCodeAccepted and ReissueSupersedes |
| EmailVerification.Check | src/main/kotlin/com/codingplatform/services/EmailVerificationService.kt:46-59 | the verdict on a code; its meaning is stated by CheckOrder, IssuedCodeAccepted and IssuedCodeExpires |
| EmailVerification.Consume | src/main/kotlin/com/codingplatform/services/EmailVerificationService.kt:46-63 | the table after consuming; its meaning is stated by ConsumeWellFormed and SingleUse |
| EmailVerification.VerificationCodes.constructor | src/main/kotlin/com/codingplatform/services/EmailVerificationService.kt:21-25 | empty table, expiry defaulting to 10 minutes |
| EmailVerification.VerificationCodes.RequestCode | src/main/kotlin/com/codingplatform/services/EmailVerificationService.kt:26-44 | a six-digit code; the address's record is replaced by an unverified one with its hash and expiry |
| EmailVerification.VerificationCodes.ConsumeCode | src/main/kotlin/com/codingplatform/services/EmailVerificationService.kt:46-64 | the checks in order; the record is deleted only when all pass |
| Auth.ToModel | src/main/kotlin/com/codingplatform/services/AuthService.kt:116-125 | the user is the row without its password hash |
| Auth.FindByEmailExact | src/main/kotlin/com/codingplatform/services/AuthService.kt:89-92 | found iff some row has exactly that address |
| Auth.Authenticate | src/main/kotlin/com/codingplatform/services/AuthService.kt:68-70 | a row iff the address exists and the password verifies; unknown address and wrong password alike |
| Auth.InsertKeepsKeys | src/main/kotlin/com/codingplatform/services/AuthService.kt:44-53 | inserting a free address and id keeps addresses and ids unique |
| Auth.RegisterThenLogin | src/main/kotlin/com/codingplatform/services/AuthService.kt:31-70 | a registered user logs in with its password; the row has its role, no login and equal times |
| Auth.LoginStamps | src/main/kotlin/com/codingplatform/services/AuthService.kt:72-80 | login sets last-login and update time to one instant and keeps everything else |
| Auth.TouchKeepsKeys | src/main/kotlin/com/codingplatform/services/AuthService.kt:73-78 | the login write keeps the table keyed |
| Auth.CaseSplitsAccounts | src/main/kotlin/com/codingplatform/services/AuthService.kt:89-92 | "A@x.io" and "a@x.io" are separate accounts but one verification record |
| Auth.FindByEmail | src/main/kotlin/com/codingplatform/services/AuthService.kt:89-92 | the account with exactly that address, if any; its meaning is stated by FindByEmailExact |
| Auth.NewUser | src/main/kotlin/com/codingplatform/services/AuthService.kt:41-53 | the inserted account; its meaning is stated by RegisterThenLogin and InsertKeepsKeys |
| Auth.Touched | src/main/kotlin/com/codingplatform/services/AuthService.kt:72-80 | the account after a login; its meaning is stated by LoginStamps and TouchKeepsKeys |
| Auth.AuthService.RequestVerificationCode | src/main/kotlin/com/codingplatform/services/AuthService.kt:26-29 | refused for a registered address; otherwise a code is issued |
| Auth.AuthService.Register | src/main/kotlin/com/codingplatform/services/AuthService.kt:31-66 | address free, then the code is consumed, then exactly one row is inserted; a rejected code inserts nothing |
| Auth.AuthService.Login | src/main/kotlin/com/codingplatform/services/AuthService.kt:68-82 | one error for both failures; on success only this row is stamped and the returned user carries the stamp |
| Dashboard.UserOrderIsSubmitters | src/main/kotlin/com/codingplatform/services/DashboardService.kt:44-45 | the grouping keys are each submitter once |
| Dashboard.SubmitterHasScores | src/main/kotlin/com/codingplatform/services/DashboardService.kt:44-50 | a user has scores iff it submitted |
| Dashboard.TruncatedMeanBracket | src/main/kotlin/com/codingplatform/services/DashboardService.kt:50-54 | the mean is the exact quotient truncated toward zero |
| Dashboard.TruncatedMeanWithin | src/main/kotlin/com/codingplatform/services/DashboardService.kt:50-54 | scores within a range average within it |
| Dashboard.Entries | src/main/kotlin/com/codingplatform/services/DashboardService.kt:49-55 | one entry per grouping key, in grouping order |
| Dashboard.SortDescCorrect | src/main/kotlin/com/codingplatform/services/DashboardService.kt:56 | sorted by descending score, a permutation, ties kept in order |
| Dashboard.SortDescDistinct | src/main/kotlin/com/codingplatform/services/DashboardService.kt:56 | sorting keeps users distinct |
| Dashboard.RankedMembers | src/main/kotlin/com/codingplatform/services/DashboardService.kt:49-56 | every ranked entry is a submitter's own entry |
| Dashboard.RankedCovers | src/main/kotlin/com/codingplatform/services/DashboardService.kt:49-56 | every submitter is ranked |
| Dashboard.RankedEntries | src/main/kotlin/com/codingplatform/services/DashboardService.kt:44-56 | the ranking is sorted, one entry per submitter, and nothing else |
| Dashboard.LeaderboardErrors | src/main/kotlin/com/codingplatform/services/DashboardService.kt:39-57 | no submissions gives an empty board; otherwise a negative limit is refused, and nothing else is |
| Dashboard.LeaderboardCorrect | src/main/kotlin/com/codingplatform/services/DashboardService.kt:39-58 | min(limit, submitters) distinct entries, sorted, each a submitter's name and truncated mean |
| Dashboard.LeaderboardTop | src/main/kotlin/com/codingplatform/services/DashboardService.kt:56-57 | anyone left off the board scores no more than anyone on it |
| Dashboard.LeaderboardComplete | src/main/kotlin/com/codingplatform/services/DashboardService.kt:44-57 | with room for everyone, every submitter is on the board |
| Dashboard.Leaderboard | src/main/kotlin/com/codingplatform/services/DashboardService.kt:39-58 | the leaderboard; its meaning is stated by LeaderboardErrors, LeaderboardCorrect, LeaderboardTop and LeaderboardComplete |
| Strings.TrimIdempotent | src/main/kotlin/com/codingplatform/services/ProblemService.kt:227 | trimming twice is trimming once |
| Strings.TrimEnds | src/main/kotlin/com/codingplatform/services/ProblemService.kt:227 | a trimmed string starts and ends with non-white space |
| Strings.LowerIdempotent | src/main/kotlin/com/codingplatform/services/EmailVerificationService.kt:27 | lower-casing twice is lower-casing once |
| Strings.SplitJoin | src/main/kotlin/com/codingplatform/services/ProblemService.kt:215 | splitting undoes joining for separator-free pieces |
| Strings.IndexOf | src/main/kotlin/com/codingplatform/services/TestRunnerService.kt:30 | -1 iff absent, else the first occurrence |
| Strings.Lines | src/main/kotlin/com/codingplatform/services/TestRunnerService.kt:68 | `lines()`: the pieces have no line break; LinesSplitNormalized, LinesRejoin and LinesBreak state which pieces they are |
| Strings.LinesSplitNormalized | src/main/kotlin/com/codingplatform/services/TestRunnerService.kt:68 | the lines are the pieces between the "\n"s of the text with "\r\n" and lone "\r" written as "\n" |
| Strings.LinesRejoin | src/main/kotlin/com/codingplatform/services/TestRunnerService.kt:68 | joining the lines with "\n" gives the text back with its breaks written as "\n", and exactly the text when it has no "\r" |
| Strings.LinesBreak | src/main/kotlin/com/codingplatform/services/TestRunnerService.kt:68 | a line ended by "\n", "\r\n" or a lone "\r" is one line and the rest are the lines of what follows |
| Strings.NatToStringInjective | src/main/kotlin/com/codingplatform/services/TestRunnerService.kt:72 | distinct counters print as distinct ids |
| Strings.DigitsValueOfNatToString | src/main/kotlin/com/codingplatform/services/TestRunnerService.kt:103 | reading a printed number gives it back |
| Strings.IntToStringInjective | src/main/kotlin/com/codingplatform/services/DockerExecutorService.kt:45 | distinct counts print differently |
| Strings.ReplaceChar | src/main/kotlin/com/codingplatform/executor/SecurityManager.kt:15 | each character is replaced exactly where it matched |
| Strings.ReplaceWithItself | src/main/kotlin/com/codingplatform/executor/DockerManager.kt:160 | replacing a string by itself changes nothing |
| Strings.ReplaceAbsent | src/main/kotlin/com/codingplatform/executor/DockerManager.kt:160 | where the pattern does not occur nothing is replaced |

## Left out

- Docker client calls (image list/build/tag, container create/start/logs/wait/kill/remove, and the log callback's `awaitCompletion`/`close`) are a foreign library. They are modelled as an abstract script of outcomes (`DockerScript`), in which each call may return or throw; the wait may also give an exit code. The resource limits are recorded in the container specification but not enforced.
- Log streaming into the stdout/stderr builders is callback-driven. The captured text is an input string of the script.
- Coroutines, dispatchers and the background launch of evaluation are concurrency. The evaluation body is one synchronous step (`Submissions.SubmissionStore.Evaluate`). A delete by another transaction during it appears only as `Vanished`, a row deleted between the RUNNING update and the re-read. Races between concurrent evaluations, image builds or registrations of one address are not modelled.
- The DOM XML parser is a foreign library. It is a function from text to the list of `testcase` nodes, or nothing when it throws. The seconds-to-milliseconds conversion of `time` happens inside it.
- Floating point is left out. `passRate` is not stored in the feedback. `getStats` and its formatted success rate are not modelled.
- Grading.Score: uses exact rational half-up rounding rather than `Double` division and `roundToInt`. These agree except where the Double quotient is not exact.
- BCrypt, JWT issuing and SMTP sending are foreign code. Hashing is an abstract salted hasher, `register` and `login` return no token, and the requested code is returned instead of e-mailed.
- HTTP routes, plugins, configuration wiring, connection pooling, `AdminService` and `UserService` are transport with no rules of their own. The table declarations are modelled only through their unique keys and the two `ON DELETE CASCADE` references to a submission's problem and an execution's submission. The cascade from a deleted user is not modelled, since no modelled operation deletes users.
- The JSON encoding of file maps, feedback and criteria columns is left out. These columns hold the values directly.
- The text of the Gradle and pytest scaffolding files and of the sample problem is constant text. It is a parameter (`ScaffoldText`, `SampleText`).
- `AuthService.findById` and `ProblemService.getProblemBySlug` are simple lookups not used by the modelled core. They are not modelled.
- `buildImage`'s check that the Dockerfile directory exists is one of the ways the build can throw. It is folded into the script's build outcome.
- Strings.Lower: lower-cases ASCII letters only. `lowercase(Locale.getDefault())` also folds other scripts and depends on the default locale.
- TestRunner.LogRecord: `contains(..., ignoreCase = true)` is modelled over the ASCII-only `Strings.Lower`. Kotlin's per-character case-insensitive match also accepts characters such as 'ſ' for 'S' or 'ı' for 'I', so a line spelling PASSED or FAILED with them is not recognised by the model.
- Sandbox.WorkspaceDir: is `<root>/<id>`, which is `File(root, id).absolutePath` only for an absolute root without a trailing '/'. Relative roots and trailing slashes are not modelled. `Sandbox.HostPathOfWorkspace` holds under the same assumption.
- SecurityManager.ValidateFiles: fails with the set of all offending keys. The source's exception names the first offending key in the map's iteration order, which is not modelled.
- Grading.PrepareUserSolutionFiles: when a moved key lands on a key already in place, it keeps the file already in place. `mapKeys` keeps whichever comes last in the map's iteration order, which is not modelled.
- Grading.PreparedContents: when a moved key lands on a key already in place, it states the content of the file already in place. The source keeps whichever comes last in `mapKeys`' iteration order, which is not modelled.
- Sandbox.DockerManager.CreateWorkspace: paths are keys of one flat map per directory. Nested directory creation and file-system errors are not modelled.
- Submissions.SubmissionStore.ListSubmissions: returns a set, since the query's row order is not specified.
- Problems.ProblemCatalogue.ListProblems: returns a set, since the query's row order is not specified.
- Submissions.SubmissionStore.CreateSubmission: returns the inserted row. The source re-reads it after launching the evaluation, which may have moved it on already.
- A statement that a submission's status never moves backwards across separate calls is not modelled. Only a single evaluation is.
- The leaderboard averages every submission of a user, including PENDING, RUNNING and FAILED ones with their stored score. This is the source's behaviour and is modelled as such.
