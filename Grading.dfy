/**
 * Grading a submission: the user's files are moved to where the build expects
 * them, merged with the problem's tests and the build scaffolding, run in the
 * sandbox under the language's test command, and the parsed report is turned
 * into a score out of 100 and a message.
 */
module Grading {
  import opened Base
  import opened Strings
  import opened Models
  import opened SecurityManager
  import opened Sandbox
  import opened TestRunner
  import Runners

  const MaxScore: int := 100

  // ---------------------------------------------------------------------------
  // Score and message

  /**
   * `(passed / total * 100).roundToInt()` in exact arithmetic: the percentage
   * rounded half up, and 0 when there are no tests.
   */
  function Score(passed: int, total: int): int
  {
    if total == 0 then 0 else (2 * MaxScore * passed + total) / (2 * total)
  }

  /** The score is the nearest integer to the pass percentage, halves going up. */
  lemma ScoreRounds(passed: nat, total: nat)
    requires total > 0
    ensures 2 * total * Score(passed, total) <= 200 * passed + total < 2 * total * (Score(passed, total) + 1)
  {
  }

  lemma MulLe(a: int, b: int, c: nat)
    requires a <= b
    ensures c * a <= c * b
  {
    assert c * b - c * a == c * (b - a);
  }

  /** The rounding condition pins the score down. */
  lemma ScoreUnique(passed: nat, total: nat, s: int)
    requires total > 0
    requires 2 * total * s <= 200 * passed + total < 2 * total * (s + 1)
    ensures Score(passed, total) == s
  {
    var r := Score(passed, total);
    ScoreRounds(passed, total);
    if r < s {
      MulLe(r + 1, s, 2 * total);
    } else if r > s {
      MulLe(s + 1, r, 2 * total);
    }
  }

  /** With no more passes than tests the score lies in 0..100: 0 when none pass, 100 when all do. */
  lemma ScoreBounds(passed: nat, total: nat)
    requires passed <= total
    ensures 0 <= Score(passed, total) <= MaxScore
    ensures passed == 0 ==> Score(passed, total) == 0
    ensures total > 0 && passed == total ==> Score(passed, total) == MaxScore
  {
    if total > 0 {
      var s := Score(passed, total);
      ScoreRounds(passed, total);
      if s > MaxScore {
        MulLe(MaxScore + 1, s, 2 * total);
      }
      if s < 0 {
        MulLe(s + 1, 0, 2 * total);
      }
      if passed == 0 {
        ScoreUnique(passed, total, 0);
      }
      if passed == total {
        ScoreUnique(passed, total, MaxScore);
      }
    }
  }

  /** More passes never lower the score. */
  lemma ScoreMonotone(p1: nat, p2: nat, total: nat)
    requires p1 <= p2
    ensures Score(p1, total) <= Score(p2, total)
  {
    if total > 0 {
      var s1, s2 := Score(p1, total), Score(p2, total);
      ScoreRounds(p1, total);
      ScoreRounds(p2, total);
      if s1 > s2 {
        MulLe(s2 + 1, s1, 2 * total);
      }
    }
  }

  /** Rounding can hide a failure: 399 of 400 tests score full marks. */
  lemma FullScoreDespiteFailure()
    ensures Score(399, 400) == MaxScore
    ensures Message(400, 1) != AllPassedMessage
  {
    assert (200 * 399 + 400) / 800 == 100;
    assert Message(400, 1) == IntToString(1) + FailedSuffix;
  }

  const NoTestsMessage: string := "등록된 테스트가 없어 평가할 수 없습니다."
  const AllPassedMessage: string := "모든 테스트를 통과했습니다."
  const FailedSuffix: string := "개의 테스트가 실패했습니다."

  /** The message: no tests first, then no failures, then the number of failures. */
  function Message(total: int, failed: int): string
  {
    if total == 0 then NoTestsMessage
    else if failed == 0 then AllPassedMessage
    else IntToString(failed) + FailedSuffix
  }

  /** The three messages are told apart, and a failure message gives back its count. */
  lemma MessageCases(total: int, failed: int, total2: int, failed2: int)
    ensures Message(total, failed) == NoTestsMessage <==> total == 0
    ensures Message(total, failed) == AllPassedMessage <==> total != 0 && failed == 0
    ensures total != 0 && failed != 0 && total2 != 0 && failed2 != 0 && Message(total, failed) == Message(total2, failed2)
      ==> failed == failed2
  {
    var m := Message(total, failed);
    if total != 0 && failed != 0 {
      var digits := IntToString(failed);
      IntToStringSign(failed);
      assert m[0] == digits[0];
      assert m[0] == '-' || IsDigit(m[0]);
      assert m[0] != NoTestsMessage[0] && m[0] != AllPassedMessage[0];
      if total2 != 0 && failed2 != 0 && m == Message(total2, failed2) {
        var digits2 := IntToString(failed2);
        assert m == digits2 + FailedSuffix;
        assert digits == m[..|m| - |FailedSuffix|] == digits2;
        IntToStringInjective(failed, failed2);
      }
    }
    assert NoTestsMessage != AllPassedMessage by { assert NoTestsMessage[0] != AllPassedMessage[0]; }
  }

  /** `SubmissionFeedback`: counts from the report, status and output from the run. */
  function Feedback(execution: ExecutionResult, results: TestResults): SubmissionFeedback
  {
    SubmissionFeedback(
      results.total, results.passed, results.failed, Score(results.passed, results.total),
      execution.status, results, execution.output, Message(results.total, results.failed))
  }

  // ---------------------------------------------------------------------------
  // Files

  const KotlinSourceRoot: string := "src/main/kotlin/"

  /** Where a user file goes: JVM sources under src/main/kotlin/, Python modules get a .py suffix. */
  function RewritePath(language: Language, path: string): string
  {
    match language
    case KOTLIN => if !StartsWith(path, "src/") then KotlinSourceRoot + path else path
    case JAVA => if !StartsWith(path, "src/") then KotlinSourceRoot + path else path
    case PYTHON => if !StartsWith(path, "src/") && !EndsWith(path, ".py") then path + ".py" else path
  }

  /** The path a moved key came from. */
  function OriginalPath(language: Language, key: string): string
  {
    match language
    case PYTHON => if |key| >= 3 then key[..|key| - 3] else key
    case _ => if |key| >= |KotlinSourceRoot| then key[|KotlinSourceRoot|..] else key
  }

  /** A moved path can be traced back; a rewritten path is never moved again. */
  lemma RewritePathInverse(language: Language, path: string)
    ensures RewritePath(language, path) != path ==> OriginalPath(language, RewritePath(language, path)) == path
    ensures RewritePath(language, RewritePath(language, path)) == RewritePath(language, path)
    ensures language != PYTHON ==> StartsWith(RewritePath(language, path), "src/")
    ensures language == PYTHON ==>
      StartsWith(RewritePath(language, path), "src/") || EndsWith(RewritePath(language, path), ".py")
  {
    if language == PYTHON {
      PythonRewrite(path);
    } else {
      JvmRewrite(language, path);
    }
  }

  lemma JvmRewrite(language: Language, path: string)
    requires language != PYTHON
    ensures var r := RewritePath(language, path);
      StartsWith(r, "src/") && RewritePath(language, r) == r
      && (r != path ==> OriginalPath(language, r) == path)
  {
    if !StartsWith(path, "src/") {
      var r := KotlinSourceRoot + path;
      assert r[..4] == KotlinSourceRoot[..4];
      assert r[|KotlinSourceRoot|..] == path;
    }
  }

  lemma PythonRewrite(path: string)
    ensures var r := RewritePath(PYTHON, path);
      (StartsWith(r, "src/") || EndsWith(r, ".py")) && RewritePath(PYTHON, r) == r
      && (r != path ==> OriginalPath(PYTHON, r) == path)
  {
    if !StartsWith(path, "src/") && !EndsWith(path, ".py") {
      var r := path + ".py";
      assert r[..|path|] == path;
      assert r[|r| - 3..] == ".py";
    }
  }

  /** Two user paths that land on the same key: one was already in place and the other is moved onto it. */
  lemma RewriteCollision(language: Language, p: string, q: string)
    requires p != q && RewritePath(language, p) == RewritePath(language, q)
    ensures (RewritePath(language, p) == p) != (RewritePath(language, q) == q)
  {
    RewritePathInverse(language, p);
    RewritePathInverse(language, q);
  }

  /**
   * `prepareUserSolutionFiles`: every key is moved. When a moved key lands on
   * a key that was already in place, the file already in place is kept.
   */
  function PrepareUserSolutionFiles(files: FileMap, language: Language): (r: FileMap)
    ensures r.Keys == set p | p in files :: RewritePath(language, p)
  {
    map key | key in (set p | p in files :: RewritePath(language, p)) ::
      if key in files && RewritePath(language, key) == key then files[key]
      else
        var p :| p in files && RewritePath(language, p) == key;
        RewritePathInverse(language, p);
        files[OriginalPath(language, key)]
  }

  /** Every file keeps its content under its moved key, unless another file already sat there. */
  lemma PreparedContents(files: FileMap, language: Language, p: string)
    requires p in files
    requires RewritePath(language, p) == p || RewritePath(language, p) !in files
    ensures var r := PrepareUserSolutionFiles(files, language);
      RewritePath(language, p) in r && r[RewritePath(language, p)] == files[p]
  {
    RewritePathInverse(language, p);
    var key := RewritePath(language, p);
    if key in files && RewritePath(language, key) == key && key != p {
      RewriteCollision(language, p, key);
    }
  }

  /** The text of the build scaffolding; only which files exist matters to the model. */
  datatype ScaffoldText = ScaffoldText(
    kotlinBuild: string, javaBuild: string, gradlew: string, wrapperProperties: string,
    requirements: string, pytestIni: string)

  /** `prepareBuildFiles`. */
  function BuildFiles(language: Language, text: ScaffoldText): FileMap
  {
    match language
    case KOTLIN => GradleFiles(text.kotlinBuild, text)
    case JAVA => GradleFiles(text.javaBuild, text)
    case PYTHON => map["requirements.txt" := text.requirements, "pytest.ini" := text.pytestIni]
  }

  function GradleFiles(build: string, text: ScaffoldText): FileMap
  {
    map["settings.gradle.kts" := "rootProject.name = \"solution\"",
        "build.gradle.kts" := build,
        "gradlew" := text.gradlew,
        "gradle/wrapper/gradle-wrapper.properties" := text.wrapperProperties]
  }

  /** Gradle projects get four scaffolding files, Python projects two. */
  lemma BuildFileKeys(language: Language, text: ScaffoldText)
    ensures language != PYTHON ==>
      BuildFiles(language, text).Keys
        == {"settings.gradle.kts", "build.gradle.kts", "gradlew", "gradle/wrapper/gradle-wrapper.properties"}
    ensures language == PYTHON ==> BuildFiles(language, text).Keys == {"requirements.txt", "pytest.ini"}
  {
  }

  /** `userSolutionFiles + testFiles + buildFiles`. */
  function AllFiles(user: FileMap, tests: FileMap, build: FileMap): FileMap
  {
    user + tests + build
  }

  /** Every key of the three maps is kept; on a clash scaffolding beats tests and tests beat user files. */
  lemma MergeIsRightBiased(user: FileMap, tests: FileMap, build: FileMap, k: string)
    ensures var all := AllFiles(user, tests, build);
      all.Keys == user.Keys + tests.Keys + build.Keys
      && (k in build ==> all[k] == build[k])
      && (k !in build && k in tests ==> all[k] == tests[k])
      && (k !in build && k !in tests && k in user ==> all[k] == user[k])
  {
  }

  /** A user file can never replace a test file or the scaffolding. */
  lemma TestsSurviveMerge(user: FileMap, tests: FileMap, build: FileMap)
    requires tests.Keys !! build.Keys
    ensures forall k :: k in tests ==> k in AllFiles(user, tests, build) && AllFiles(user, tests, build)[k] == tests[k]
  {
  }

  // ---------------------------------------------------------------------------
  // Commands

  /** The command the grading run uses. */
  function GradingTestCommand(language: Language): seq<string>
  {
    match language
    case KOTLIN => Runners.Shell("gradle test --no-daemon")
    case JAVA => Runners.Shell("gradle test --no-daemon")
    case PYTHON => Runners.Shell(Runners.PytestCommand)
  }

  /**
   * Grading runs Python tests exactly as the Python runner would, but runs
   * JVM tests with a `gradle` on the image's path instead of the runners'
   * `./gradlew` wrapper.
   */
  lemma GradingCommandVersusRunners(language: Language)
    ensures language == PYTHON ==> GradingTestCommand(language) == Runners.TestCommand(Runners.RunnerFor(language))
    ensures language != PYTHON ==> GradingTestCommand(language) != Runners.TestCommand(Runners.RunnerFor(language))
  {
    if language != PYTHON {
      assert GradingTestCommand(language)[2] == "gradle test --no-daemon";
      assert Runners.TestCommand(Runners.RunnerFor(language))[2] == Runners.GradleTest;
      assert |Runners.GradleTest| != |"gradle test --no-daemon"|;
    }
  }

  // ---------------------------------------------------------------------------
  // The service

  datatype EvaluationError =
    | NoTestFiles          // the problem has no tests: nothing runs in the sandbox
    | UnsafePaths(paths: set<string>)   // the sandbox refused the merged file map

  /** The files a submission is graded with. */
  function GradingFiles(submission: Submission, problem: Problem, text: ScaffoldText): FileMap
  {
    AllFiles(PrepareUserSolutionFiles(submission.files, problem.language), problem.testFiles,
             BuildFiles(problem.language, text))
  }

  /** The outcome of grading a submission, given whether the language's image is already there. */
  function Grade(submission: Submission, problem: Problem, text: ScaffoldText, imagePresent: bool,
                 script: DockerScript, parse: XmlParser): Result<SubmissionFeedback, EvaluationError>
  {
    if problem.testFiles == map[] then Err(NoTestFiles)
    else
      match ValidateFiles(GradingFiles(submission, problem, text))
      case Fail(paths) => Err(UnsafePaths(paths))
      case Pass =>
        var execution := ExpectedResult(submission.id, imagePresent, script);
        Ok(Feedback(execution, Report(execution.output, parse)))
  }

  /**
   * Grading fails only for a problem without tests or a merged file map the
   * path check refuses; a run that went wrong in the sandbox is still graded.
   */
  lemma GradeFailsOnlyBeforeRunning(submission: Submission, problem: Problem, text: ScaffoldText, imagePresent: bool,
                                    script: DockerScript, parse: XmlParser)
    ensures var r := Grade(submission, problem, text, imagePresent, script, parse);
      (r == Err(NoTestFiles) <==> problem.testFiles == map[])
      && (r.Err? <==> problem.testFiles == map[] || exists k :: k in GradingFiles(submission, problem, text) && !PathAccepted(k))
      && (r.Ok? ==> r.value.status == ExpectedResult(submission.id, imagePresent, script).status)
  {
  }

  /** Whether grading reaches the sandbox run: the problem has tests and the merged files pass the path check. */
  predicate Runs(submission: Submission, problem: Problem, text: ScaffoldText)
  {
    problem.testFiles != map[] && ValidateFiles(GradingFiles(submission, problem, text)).Pass?
  }

  /**
   * The sandbox after grading `submission` from the state `before`: nothing
   * changes when grading stops before the run; otherwise the workspace is
   * gone, the image is added when it is built, the container's spec is
   * recorded when it is created, and the container is still there when a
   * later engine call threw.
   */
  ghost predicate SandboxAfterGrading(manager: DockerManager, before: SandboxState, submission: Submission,
                                      problem: Problem, text: ScaffoldText, script: DockerScript)
    reads manager
  {
    var imagePresent := ImageName(problem.language) in before.images;
    if !Runs(submission, problem, text) then manager.State() == before
    else
      manager.workspaces == before.workspaces - {WorkspaceDir(manager.workspaceRoot, submission.id)}
      && manager.images == before.images + (if Builds(imagePresent, script) then {ImageName(problem.language)} else {})
      && manager.containers == (if LeavesContainer(imagePresent, script) then before.containers + {ContainerName(submission.id)}
                                else if Created(imagePresent, script) then before.containers - {ContainerName(submission.id)}
                                else before.containers)
      && manager.created == before.created
           + (if Created(imagePresent, script)
              then [manager.Spec(submission.id, ImageName(problem.language), GradingTestCommand(problem.language))] else [])
  }

  /**
   * `evaluateSubmission`: refuses a problem without tests, runs the merged
   * files in the sandbox under the submission's id, and grades the report.
   * A refusal by the sandbox's path check is passed on as an error.
   */
  method EvaluateSubmission(manager: DockerManager, submission: Submission, problem: Problem, text: ScaffoldText,
                            script: DockerScript, parse: XmlParser)
    returns (r: Result<SubmissionFeedback, EvaluationError>)
    modifies manager
    ensures r == Grade(submission, problem, text, ImageName(problem.language) in old(manager.images), script, parse)
    ensures r.Ok? <==> Runs(submission, problem, text)
    ensures SandboxAfterGrading(manager, old(manager.State()), submission, problem, text, script)
  {
    if problem.testFiles == map[] {
      return Err(NoTestFiles);
    }
    var buildFiles := BuildFiles(problem.language, text);
    var userFiles := PrepareUserSolutionFiles(submission.files, problem.language);
    var command := GradingTestCommand(problem.language);
    var allFiles := AllFiles(userFiles, problem.testFiles, buildFiles);
    assert allFiles == GradingFiles(submission, problem, text);
    ghost var imagePresent := ImageName(problem.language) in manager.images;
    var execution := manager.ExecuteCode(submission.id, problem.language, allFiles, command, script);
    if execution.Err? {
      return Err(UnsafePaths(execution.error));
    }
    assert execution.value == ExpectedResult(submission.id, imagePresent, script);
    var results := ParseTestResults(execution.value, parse);
    r := Ok(Feedback(execution.value, results));
  }

  /** `executeCode`: an ad hoc run of one shell command under a fresh id. */
  method ExecuteCommand(manager: DockerManager, executionId: string, language: Language, files: FileMap,
                        command: string, script: DockerScript)
    returns (r: Result<ExecutionResult, set<string>>)
    modifies manager
    ensures ValidateFiles(files).Fail? ==>
      r == Err(ValidateFiles(files).error)
      && manager.workspaces == old(manager.workspaces) && manager.images == old(manager.images)
      && manager.containers == old(manager.containers) && manager.created == old(manager.created)
    ensures ValidateFiles(files).Pass? ==>
      var imagePresent := ImageName(language) in old(manager.images);
      r == Ok(ExpectedResult(executionId, imagePresent, script))
      && manager.workspaces == old(manager.workspaces) - {WorkspaceDir(manager.workspaceRoot, executionId)}
      && manager.images == old(manager.images) + (if Builds(imagePresent, script) then {ImageName(language)} else {})
      && manager.containers == (if LeavesContainer(imagePresent, script) then old(manager.containers) + {ContainerName(executionId)}
                                else if Created(imagePresent, script) then old(manager.containers) - {ContainerName(executionId)}
                                else old(manager.containers))
      && manager.created == old(manager.created)
           + (if Created(imagePresent, script) then [manager.Spec(executionId, ImageName(language), ["sh", "-c", command])] else [])
  {
    r := manager.ExecuteCode(executionId, language, files, Runners.Shell(command), script);
  }

  /**
   * The graded feedback is consistent: its counts add up, its score is within
   * 0..100 and is 100 when everything passed, and it is an ERROR run's
   * feedback exactly when the sandbox call threw.
   */
  lemma FeedbackShape(executionId: string, imagePresent: bool, script: DockerScript, parse: XmlParser)
    ensures var execution := ExpectedResult(executionId, imagePresent, script);
      var f := Feedback(execution, Report(execution.output, parse));
      f.passedTests + f.failedTests == f.totalTests
      && 0 <= f.score <= MaxScore
      && (f.totalTests > 0 && f.failedTests == 0 ==> f.score == MaxScore && f.message == AllPassedMessage)
      && (f.status == ERROR <==> FirstFault(imagePresent, script).Some?)
  {
    var execution := ExpectedResult(executionId, imagePresent, script);
    ReportTally(execution.output, parse);
    var results := Report(execution.output, parse);
    ScoreBounds(results.passed, results.total);
    ExpectedResultShape(executionId, imagePresent, script);
  }

  /** A run that threw has empty output, so it is graded as having no tests. */
  lemma ErroredRunHasNoTests(executionId: string, imagePresent: bool, script: DockerScript, parse: XmlParser)
    requires FirstFault(imagePresent, script).Some?
    ensures var execution := ExpectedResult(executionId, imagePresent, script);
      var f := Feedback(execution, Report(execution.output, parse));
      f.totalTests == 0 && f.score == 0 && f.message == NoTestsMessage
  {
    var execution := ExpectedResult(executionId, imagePresent, script);
    assert execution.output == "";
    assert !Contains("", "<?xml") by {
      assert !OccursAt("", "<?xml", 0);
    }
    assert Lines("") == [""] by { LinesOfOneLine(""); }
    assert !ContainsIgnoreCase("", "PASSED") by { assert |Lower("")| == 0; }
    assert !ContainsIgnoreCase("", "FAILED") by { assert |Lower("")| == 0; }
    QuietLinesYieldNothing([""]);
  }
}
