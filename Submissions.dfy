/**
 * The submissions table and its lifecycle. A submission is inserted PENDING;
 * its evaluation marks it RUNNING, re-reads it, grades it and marks it
 * COMPLETED with the feedback, or FAILED if anything on the way threw. The
 * evaluation runs in the background in the service; here it is one
 * synchronous step, and which of its database calls throw is an input.
 * Rows of the executions table reference their submission and go with it
 * when it is deleted (the schema's `ON DELETE CASCADE`).
 */
module Submissions {
  import opened Base
  import opened Models
  import opened Sandbox
  import opened TestRunner
  import opened Grading

  datatype CreateError = ProblemNotFound | DuplicateId

  /** What the re-read after the RUNNING update sees. */
  datatype Reread =
    | Visible      // the row as it is in the table (nothing if it is not there)
    | Vanished     // another transaction deletes the row between the RUNNING update and the re-read
    | ReadThrows   // the query or the decoding of the row throws

  /** Which of the evaluation's database calls throw. */
  datatype DbFaults = DbFaults(runningWriteThrows: bool, reread: Reread, completedWriteThrows: bool, failedWriteThrows: bool)

  /** A row of the executions table. */
  datatype ExecutionRow = ExecutionRow(
    id: string,
    submissionId: Option<string>,
    language: Language,
    status: ExecutionStatus,
    output: string,
    error: Option<string>,
    exitCode: int,
    executionTime: int,
    memoryUsed: int,
    createdAt: int)

  datatype RecordError = UnknownSubmission | DuplicateExecutionId

  function NewSubmission(id: string, userId: string, problemId: string, files: FileMap, now: int): Submission
  {
    Submission(id, userId, problemId, PENDING, files, 0, None, now, now)
  }

  function Running(row: Submission, now: int): Submission
  {
    row.(status := RUNNING, updatedAt := now)
  }

  /** The feedback stored, with its score, once grading has succeeded. */
  function Completed(row: Submission, feedback: SubmissionFeedback, now: int): Submission
  {
    row.(status := COMPLETED, feedback := Some(feedback), score := feedback.score, updatedAt := now)
  }

  /** FAILED and no feedback, the score left as it was. */
  function FailedRow(row: Submission, now: int): Submission
  {
    row.(status := SubmissionStatus.FAILED, feedback := None, updatedAt := now)
  }

  /** The catch block, which changes nothing if its own write throws. */
  function MarkedFailed(row: Submission, faults: DbFaults, now: int): Submission
  {
    if faults.failedWriteThrows then row else FailedRow(row, now)
  }

  /** Whether the evaluation gets as far as grading. */
  predicate ReachesGrading(faults: DbFaults)
  {
    !faults.runningWriteThrows && faults.reread == Visible
  }

  /**
   * Where the try block ends: normally, with the row as it then is; by an
   * exception, with the row as it then is; or quietly after the re-read found
   * no row because it had been deleted.
   */
  datatype Staged = Finished(row: Submission) | Raised(row: Submission) | Removed

  /** The grading stage on a row that is in the table, given the outcome grading would have. */
  function GradeStep(row: Submission, faults: DbFaults, grade: Result<SubmissionFeedback, EvaluationError>, now: int): Staged
  {
    match faults.reread
    case ReadThrows => Raised(row)
    case Vanished => Removed
    case Visible =>
      if grade.Err? || faults.completedWriteThrows then Raised(row)
      else Finished(Completed(row, grade.value, now))
  }

  /** The try block: the RUNNING update, then the grading stage. */
  function Attempt(row: Submission, faults: DbFaults, grade: Result<SubmissionFeedback, EvaluationError>, now: int): Staged
  {
    if faults.runningWriteThrows then Raised(row)
    else GradeStep(Running(row, now), faults, grade, now)
  }

  /** The row a stage leaves in the table, if any. */
  function StagedRow(s: Staged): Option<Submission>
  {
    if s.Removed? then None else Some(s.row)
  }

  /**
   * The row after its evaluation, given that it is in the table and the
   * outcome grading would have; nothing when it was deleted meanwhile.
   */
  function Settle(row: Submission, faults: DbFaults, grade: Result<SubmissionFeedback, EvaluationError>, now: int): Option<Submission>
  {
    match Attempt(row, faults, grade, now)
    case Finished(r) => Some(r)
    case Raised(r) => Some(MarkedFailed(r, faults, now))
    case Removed => None
  }

  /** The table with one row written back, or removed when there is none. */
  function WriteBack(rows: map<string, Submission>, id: string, r: Option<Submission>): map<string, Submission>
  {
    if r.None? then rows - {id} else rows[id := r.value]
  }

  /** A submission is COMPLETED exactly when grading ran and succeeded and the write went through; it then carries the feedback and its score. */
  lemma SettleCompleted(row: Submission, faults: DbFaults, grade: Result<SubmissionFeedback, EvaluationError>, now: int)
    requires row.status == PENDING
    ensures var r := Settle(row, faults, grade, now);
      (r.Some? && r.value.status == COMPLETED <==> ReachesGrading(faults) && grade.Ok? && !faults.completedWriteThrows)
      && (r.Some? && r.value.status == COMPLETED ==> r.value.feedback == Some(grade.value) && r.value.score == grade.value.score)
  {
  }

  /** A FAILED submission has no feedback and keeps the score it had. */
  lemma SettleFailed(row: Submission, faults: DbFaults, grade: Result<SubmissionFeedback, EvaluationError>, now: int)
    requires row.status == PENDING
    ensures var r := Settle(row, faults, grade, now);
      r.Some? && r.value.status == SubmissionStatus.FAILED ==> r.value.feedback == None && r.value.score == row.score
    ensures var r := Settle(row, faults, grade, now);
      r.Some? && r.value.status == SubmissionStatus.FAILED <==>
        !faults.failedWriteThrows
        && (faults.runningWriteThrows || faults.reread == ReadThrows
            || (faults.reread == Visible && (grade.Err? || faults.completedWriteThrows)))
  {
  }

  /** The evaluation ends with no row exactly when the row is deleted before the re-read. */
  lemma SettleRemoved(row: Submission, faults: DbFaults, grade: Result<SubmissionFeedback, EvaluationError>, now: int)
    ensures Settle(row, faults, grade, now).None? <==> !faults.runningWriteThrows && faults.reread == Vanished
  {
  }

  /**
   * A submission that is still there is left RUNNING exactly when something
   * throws after the RUNNING update and the FAILED write throws as well; it
   * stays PENDING only when both the RUNNING and the FAILED writes throw.
   */
  lemma SettleStuck(row: Submission, faults: DbFaults, grade: Result<SubmissionFeedback, EvaluationError>, now: int)
    requires row.status == PENDING
    ensures var r := Settle(row, faults, grade, now);
      (r.Some? && r.value.status == RUNNING <==>
        !faults.runningWriteThrows && faults.failedWriteThrows
        && (faults.reread == ReadThrows
            || (faults.reread == Visible && (grade.Err? || faults.completedWriteThrows))))
      && (r.Some? && r.value.status == PENDING <==> faults.runningWriteThrows && faults.failedWriteThrows)
      && (r.Some? && r.value.status == PENDING ==> r.value == row)
  {
  }

  /** With no database fault, a graded submission completes and an ungradable one fails. */
  lemma SettleWithoutFaults(row: Submission, grade: Result<SubmissionFeedback, EvaluationError>, now: int)
    ensures var r := Settle(row, DbFaults(false, Visible, false, false), grade, now);
      r.Some?
      && (grade.Ok? ==> r.value.status == COMPLETED && r.value.feedback == Some(grade.value))
      && (grade.Err? ==> r.value.status == SubmissionStatus.FAILED && r.value.feedback == None)
      && r.value.id == row.id && r.value.userId == row.userId && r.value.problemId == row.problemId
      && r.value.files == row.files && r.value.createdAt == row.createdAt && r.value.updatedAt == now
  {
  }

  /** Every row is stored under its own id. */
  ghost predicate KeyedById(rows: map<string, Submission>)
  {
    forall id :: id in rows ==> rows[id].id == id
  }

  /** Evaluation changes no identifying column, so the table stays keyed by id. */
  lemma SettleKeepsKeys(rows: map<string, Submission>, id: string, faults: DbFaults,
                        grade: Result<SubmissionFeedback, EvaluationError>, now: int)
    requires KeyedById(rows) && id in rows
    ensures var r := Settle(rows[id], faults, grade, now);
      KeyedById(WriteBack(rows, id, r))
      && (r.Some? ==>
            r.value.id == id && r.value.userId == rows[id].userId && r.value.problemId == rows[id].problemId
            && r.value.files == rows[id].files && r.value.createdAt == rows[id].createdAt)
  {
  }

  lemma OverwriteTwice(m: map<string, Submission>, k: string, a: Submission, b: Submission)
    ensures m[k := a][k := b] == m[k := b]
  {
  }

  lemma OverwriteThenRemove(m: map<string, Submission>, k: string, a: Submission)
    ensures m[k := a] - {k} == m - {k}
  {
  }

  // ---------------------------------------------------------------------------
  // The executions table's reference to its submission

  /** Whether an execution row goes when the submissions in `gone` are deleted. */
  predicate CascadesFrom(e: ExecutionRow, gone: set<string>)
  {
    e.submissionId.Some? && e.submissionId.value in gone
  }

  /** The executions table after the submissions in `gone` are deleted: the rows referencing them go, in order. */
  function Cascade(executions: seq<ExecutionRow>, gone: set<string>): (r: seq<ExecutionRow>)
    ensures forall k :: 0 <= k < |r| ==> r[k] in executions && !CascadesFrom(r[k], gone)
    ensures forall k :: 0 <= k < |executions| ==> CascadesFrom(executions[k], gone) || executions[k] in r
  {
    if executions == [] then []
    else
      var rest := Cascade(executions[1..], gone);
      assert forall k :: 1 <= k < |executions| ==> executions[k] == executions[1..][k - 1];
      if CascadesFrom(executions[0], gone) then rest else [executions[0]] + rest
  }

  /** Every execution that names a submission names one in the table. */
  ghost predicate References(rows: map<string, Submission>, executions: seq<ExecutionRow>)
  {
    forall k :: 0 <= k < |executions| && executions[k].submissionId.Some? ==> executions[k].submissionId.value in rows
  }

  /** Deleting submissions with the cascade leaves no execution pointing at a missing one. */
  lemma CascadeKeepsReferences(rows: map<string, Submission>, executions: seq<ExecutionRow>, gone: set<string>)
    requires References(rows, executions)
    ensures References(rows - gone, Cascade(executions, gone))
  {
    var r := Cascade(executions, gone);
    forall k | 0 <= k < |r| && r[k].submissionId.Some?
      ensures r[k].submissionId.value in rows - gone
    {
      var j :| 0 <= j < |executions| && executions[j] == r[k];
    }
  }

  class SubmissionStore {
    /** The submissions table, by id. */
    var rows: map<string, Submission>
    /** The executions table, in insertion order. */
    var executions: seq<ExecutionRow>

    /** Rows are keyed by their id, and the executions' references resolve. */
    ghost predicate Valid()
      reads this
    {
      KeyedById(rows) && References(rows, executions)
    }

    constructor()
      ensures rows == map[] && executions == [] && Valid()
    {
      rows := map[];
      executions := [];
    }

    /** `listSubmissions`: the submissions of one user (the query's order is not modelled). */
    function ListSubmissions(userId: string): (r: set<Submission>)
      reads this
      ensures forall s :: s in r <==> s in rows.Values && s.userId == userId
    {
      set id | id in rows && rows[id].userId == userId :: rows[id]
    }

    /** `getSubmission`. */
    function GetSubmission(id: string): (r: Option<Submission>)
      reads this
      ensures r.Some? <==> id in rows
      ensures r.Some? ==> r.value == rows[id]
    {
      if id in rows then Some(rows[id]) else None
    }

    /** The ids of the submissions to a problem. */
    function SubmissionsOf(problemId: string): (r: set<string>)
      reads this
      ensures forall id :: id in r <==> id in rows && rows[id].problemId == problemId
    {
      set id | id in rows && rows[id].problemId == problemId
    }

    /**
     * `createSubmission`: the problem must exist; the new row is PENDING with
     * score 0 and no feedback. Inserting an id that is already taken throws.
     */
    method CreateSubmission(userId: string, problemId: string, files: FileMap, problems: map<string, Problem>,
                            id: string, now: int)
      returns (r: Result<Submission, CreateError>)
      requires Valid()
      modifies this
      ensures Valid() && executions == old(executions)
      ensures problemId !in problems ==> r == Err(ProblemNotFound) && rows == old(rows)
      ensures problemId in problems && id in old(rows) ==> r == Err(DuplicateId) && rows == old(rows)
      ensures problemId in problems && id !in old(rows) ==>
        r == Ok(NewSubmission(id, userId, problemId, files, now)) && rows == old(rows)[id := r.value]
    {
      if problemId !in problems {
        return Err(ProblemNotFound);
      }
      if id in rows {
        return Err(DuplicateId);
      }
      var row := NewSubmission(id, userId, problemId, files, now);
      rows := rows[id := row];
      r := Ok(row);
    }

    /** Deletes the given submissions; their executions go with them. */
    method DeleteSubmissions(gone: set<string>)
      requires Valid()
      modifies this
      ensures Valid()
      ensures rows == old(rows) - gone
      ensures executions == Cascade(old(executions), gone)
    {
      CascadeKeepsReferences(rows, executions, gone);
      rows := rows - gone;
      executions := Cascade(executions, gone);
    }

    /** `updateStatus`: an update keyed by id touches no row when there is none. */
    method UpdateStatus(id: string, status: SubmissionStatus, now: int)
      requires Valid()
      modifies this
      ensures Valid()
      ensures id in old(rows) ==> rows == old(rows)[id := old(rows)[id].(status := status, updatedAt := now)]
      ensures id !in old(rows) ==> rows == old(rows)
      ensures executions == old(executions)
    {
      if id in rows {
        rows := rows[id := rows[id].(status := status, updatedAt := now)];
      }
    }

    method MarkCompleted(id: string, feedback: SubmissionFeedback, now: int)
      requires Valid()
      modifies this
      ensures Valid()
      ensures id in old(rows) ==> rows == old(rows)[id := Completed(old(rows)[id], feedback, now)]
      ensures id !in old(rows) ==> rows == old(rows)
      ensures executions == old(executions)
    {
      if id in rows {
        rows := rows[id := Completed(rows[id], feedback, now)];
      }
    }

    method MarkFailed(id: string, now: int)
      requires Valid()
      modifies this
      ensures Valid()
      ensures id in old(rows) ==> rows == old(rows)[id := FailedRow(old(rows)[id], now)]
      ensures id !in old(rows) ==> rows == old(rows)
      ensures executions == old(executions)
    {
      if id in rows {
        rows := rows[id := FailedRow(rows[id], now)];
      }
    }

    /**
     * The try block of `enqueueEvaluation`: mark the row RUNNING, re-read it,
     * grade it and mark it COMPLETED. Reports whether something threw; a
     * re-read that finds nothing ends the evaluation quietly.
     */
    method TryEvaluate(id: string, problem: Problem, manager: DockerManager, text: ScaffoldText,
                       script: DockerScript, parse: XmlParser, faults: DbFaults, now: int)
      returns (failure: bool)
      requires Valid()
      modifies this, manager
      ensures Valid()
      ensures id in old(rows) ==>
        var grade := Grade(Running(old(rows)[id], now), problem, text, ImageName(problem.language) in old(manager.images),
                           script, parse);
        var staged := Attempt(old(rows)[id], faults, grade, now);
        (failure <==> staged.Raised?)
        && rows == WriteBack(old(rows), id, StagedRow(staged))
        && executions == (if staged.Removed? then Cascade(old(executions), {id}) else old(executions))
      ensures id !in old(rows) ==> rows == old(rows) && executions == old(executions)
      ensures !(ReachesGrading(faults) && id in old(rows)) ==> unchanged(manager)
      ensures ReachesGrading(faults) && id in old(rows) ==>
        SandboxAfterGrading(manager, old(manager.State()), Running(old(rows)[id], now), problem, text, script)
    {
      if faults.runningWriteThrows {
        return true;
      }
      UpdateStatus(id, RUNNING, now);
      ghost var mid := rows;
      failure := RereadAndGrade(id, problem, manager, text, script, parse, faults, now);
      if id in old(rows) {
        var running := Running(old(rows)[id], now);
        assert mid == old(rows)[id := running] && mid[id] == running;
        if faults.reread == Visible {
          OverwriteTwice(old(rows), id, running, rows[id]);
        } else if faults.reread == Vanished {
          OverwriteThenRemove(old(rows), id, running);
        }
      }
    }

    /**
     * The try block after the RUNNING update: re-read the row, then grade it.
     * When the row is deleted meanwhile, the re-read finds nothing and the
     * evaluation ends quietly.
     */
    method RereadAndGrade(id: string, problem: Problem, manager: DockerManager, text: ScaffoldText,
                          script: DockerScript, parse: XmlParser, faults: DbFaults, now: int)
      returns (failure: bool)
      requires Valid()
      modifies this, manager
      ensures Valid()
      ensures id in old(rows) ==>
        var grade := Grade(old(rows)[id], problem, text, ImageName(problem.language) in old(manager.images), script, parse);
        var staged := GradeStep(old(rows)[id], faults, grade, now);
        (failure <==> staged.Raised?)
        && rows == WriteBack(old(rows), id, StagedRow(staged))
        && executions == (if staged.Removed? then Cascade(old(executions), {id}) else old(executions))
      ensures !(id in old(rows) && faults.reread == Visible) ==> unchanged(manager)
      ensures id in old(rows) && faults.reread == Visible ==>
        SandboxAfterGrading(manager, old(manager.State()), old(rows)[id], problem, text, script)
      ensures id !in old(rows) ==>
        (failure <==> faults.reread == ReadThrows) && rows == old(rows) && executions == old(executions)
    {
      if faults.reread == ReadThrows {
        return true;
      }
      if faults.reread == Vanished && id in rows {
        DeleteSubmissions({id});
      }
      var submission := GetSubmission(id);
      if submission.None? {
        return false;
      }
      failure := GradeAndComplete(id, submission.value, problem, manager, text, script, parse, faults, now);
    }

    /** Grading the re-read row and storing the feedback, the last steps of the try block. */
    method GradeAndComplete(id: string, submission: Submission, problem: Problem, manager: DockerManager,
                            text: ScaffoldText, script: DockerScript, parse: XmlParser, faults: DbFaults, now: int)
      returns (failure: bool)
      requires Valid() && id in rows && rows[id] == submission
      modifies this, manager
      ensures Valid()
      ensures executions == old(executions)
      ensures SandboxAfterGrading(manager, old(manager.State()), submission, problem, text, script)
      ensures var grade := Grade(submission, problem, text, ImageName(problem.language) in old(manager.images), script, parse);
        (failure <==> grade.Err? || faults.completedWriteThrows)
        && rows == old(rows)[id := if failure then submission else Completed(submission, grade.value, now)]
    {
      var graded := EvaluateSubmission(manager, submission, problem, text, script, parse);
      if graded.Err? || faults.completedWriteThrows {
        assert rows == rows[id := submission];
        return true;
      }
      MarkCompleted(id, graded.value, now);
      failure := false;
    }

    /**
     * The body of `enqueueEvaluation`: RUNNING, re-read, grade, then
     * COMPLETED; any exception on the way leads to FAILED. Only this
     * submission's row changes (or goes, with its executions, when it is
     * deleted meanwhile), and the sandbox is used only when grading is
     * reached.
     */
    method Evaluate(id: string, problem: Problem, manager: DockerManager, text: ScaffoldText,
                    script: DockerScript, parse: XmlParser, faults: DbFaults, now: int)
      requires Valid()
      modifies this, manager
      ensures Valid()
      ensures id !in old(rows) ==> rows == old(rows) && executions == old(executions)
      ensures id in old(rows) ==>
        var r := Settle(old(rows)[id], faults,
                        Grade(Running(old(rows)[id], now), problem, text,
                              ImageName(problem.language) in old(manager.images), script, parse),
                        now);
        rows == WriteBack(old(rows), id, r)
        && executions == (if r.None? then Cascade(old(executions), {id}) else old(executions))
      ensures !(ReachesGrading(faults) && id in old(rows)) ==> unchanged(manager)
      ensures ReachesGrading(faults) && id in old(rows) ==>
        SandboxAfterGrading(manager, old(manager.State()), Running(old(rows)[id], now), problem, text, script)
    {
      var failure := TryEvaluate(id, problem, manager, text, script, parse, faults, now);
      ghost var mid := rows;
      if failure && !faults.failedWriteThrows {
        MarkFailed(id, now);
        if id in old(rows) {
          OverwriteTwice(old(rows), id, mid[id], rows[id]);
        }
      }
    }

    function ExecutionIds(): set<string>
      reads this
    {
      set k | 0 <= k < |executions| :: executions[k].id
    }

    /**
     * `recordExecution`: inserts one row copying the run's outcome. The
     * submission reference, when given, must name an existing submission.
     */
    method RecordExecution(submissionId: Option<string>, language: Language, result: ExecutionResult,
                           executionRowId: string, now: int)
      returns (r: Outcome<RecordError>)
      requires Valid()
      modifies this
      ensures Valid()
      ensures rows == old(rows)
      ensures submissionId.Some? && submissionId.value !in rows ==>
        r == Fail(UnknownSubmission) && executions == old(executions)
      ensures (submissionId.None? || submissionId.value in rows) && executionRowId in old(ExecutionIds()) ==>
        r == Fail(DuplicateExecutionId) && executions == old(executions)
      ensures (submissionId.None? || submissionId.value in rows) && executionRowId !in old(ExecutionIds()) ==>
        r == Pass
        && executions == old(executions) + [ExecutionRow(executionRowId, submissionId, language, result.status,
                                                         result.output, result.error, result.exitCode,
                                                         result.executionTime, result.memoryUsed, now)]
    {
      if submissionId.Some? && submissionId.value !in rows {
        return Fail(UnknownSubmission);
      }
      if executionRowId in ExecutionIds() {
        return Fail(DuplicateExecutionId);
      }
      executions := executions + [ExecutionRow(executionRowId, submissionId, language, result.status,
                                               result.output, result.error, result.exitCode,
                                               result.executionTime, result.memoryUsed, now)];
      r := Pass;
    }
  }
}
