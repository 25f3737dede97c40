/**
 * The values that flow through the grading pipeline: languages, execution
 * results, test reports, submissions, problems and users. Identifiers (UUIDs)
 * are strings and instants are integers (milliseconds since the epoch).
 */
module Models {
  import opened Base

  /** Relative path to file content. */
  type FileMap = map<string, string>

  datatype Language = KOTLIN | JAVA | PYTHON

  datatype ExecutionStatus = SUCCESS | FAILED | ERROR | TIMEOUT

  /** What one sandbox run produced. `memoryUsed` is in bytes, `executionTime` in ms. */
  datatype ExecutionResult = ExecutionResult(
    executionId: string,
    status: ExecutionStatus,
    output: string,
    error: Option<string>,
    exitCode: int,
    executionTime: int,
    memoryUsed: int)

  datatype TestStatus = PASSED | FAILED | SKIPPED

  datatype TestResult = TestResult(
    testId: string,
    name: string,
    status: TestStatus,
    error: Option<string>,
    duration: int)

  datatype CoverageReport = CoverageReport(line: int, branch: int, uncoveredLines: seq<int>)

  datatype TestResults = TestResults(
    passed: int,
    failed: int,
    total: int,
    details: seq<TestResult>,
    coverage: CoverageReport)

  datatype SubmissionStatus = PENDING | RUNNING | COMPLETED | FAILED

  /** The graded outcome stored with a completed submission (the pass rate is left out). */
  datatype SubmissionFeedback = SubmissionFeedback(
    totalTests: int,
    passedTests: int,
    failedTests: int,
    score: int,
    status: ExecutionStatus,
    testResults: TestResults,
    output: string,
    message: string)

  datatype Submission = Submission(
    id: string,
    userId: string,
    problemId: string,
    status: SubmissionStatus,
    files: FileMap,
    score: int,
    feedback: Option<SubmissionFeedback>,
    createdAt: int,
    updatedAt: int)

  datatype EvaluationCriteria = EvaluationCriteria(
    functional: int,
    codeQuality: int,
    testCoverage: int,
    performance: int)

  datatype Problem = Problem(
    id: string,
    slug: string,
    title: string,
    description: string,
    difficulty: string,
    language: Language,
    tags: seq<string>,
    testFiles: FileMap,
    starterCode: Option<string>,
    evaluationCriteria: EvaluationCriteria,
    performanceTarget: Option<int>,
    createdAt: int,
    updatedAt: int)

  datatype UserRole = ADMIN | USER

  datatype User = User(
    id: string,
    email: string,
    name: string,
    role: UserRole,
    createdAt: int,
    updatedAt: int,
    lastLoginAt: Option<int>)
}
