/** The records exchanged with the auth, document and analysis services
    (src/types/index.ts). Field names follow the wire names in camel case. */
module Types {
  import opened Common

  datatype User = User(
    id: Option<int>,
    username: string,
    isAdmin: Option<bool>,
    isVerified: Option<bool>,
    firstName: Option<string>,
    lastName: Option<string>,
    email: Option<string>)

  /** `user.id` is truthy: the pages refuse to call the backend otherwise. */
  predicate HasId(u: User) {
    PresentId(u.id)
  }

  /** Reply of the token and refresh endpoints. */
  datatype AuthResponse = AuthResponse(accessToken: string, refreshToken: string, tokenType: string)

  /** The job states a task-status endpoint reports. */
  datatype TaskState = Pending | Started | Success | Failure {
    /** The wire spelling of the state. */
    function Name(): string {
      match this
      case Pending => "PENDING"
      case Started => "STARTED"
      case Success => "SUCCESS"
      case Failure => "FAILURE"
    }

    /** SUCCESS and FAILURE end a poll loop. */
    predicate IsTerminal() {
      this == Success || this == Failure
    }
  }

  /** `result` of an upload-processing task. */
  datatype TaskResult = TaskResult(status: string, progress: int, documentId: int, numChunks: int)

  /** Reply of the document service's task-status endpoint (`TaskStatus`). */
  datatype TaskStatus = TaskStatus(
    taskId: string,
    state: TaskState,
    status: string,
    result: Option<TaskResult>,
    error: Option<string>)

  /** Reply of the upload endpoint (`DocumentUploadResponse`). */
  datatype UploadResponse = UploadResponse(taskId: string, message: string, status: string)

  /** Reply of the analysis start endpoint (`AnalysisStatusResponse`). */
  datatype AnalysisStartResponse = AnalysisStartResponse(status: string, message: string, documentId: int, taskId: string)

  /** Reply of the analysis service's task-status endpoint. */
  datatype TaskStatusResponse = TaskStatusResponse(
    taskId: string,
    taskStatus: TaskState,
    documentId: Option<int>,
    analysisResult: Option<string>,
    issuesFound: Option<bool>,
    error: Option<string>)

  /** Analysis state of one document. */
  datatype AnalysisState = NotAnalyzed | InProgress | Completed {
    function Name(): string {
      match this
      case NotAnalyzed => "not_analyzed"
      case InProgress => "in_progress"
      case Completed => "completed"
    }
  }

  /** Reply of the per-document analysis status endpoint. */
  datatype DocumentAnalysisStatus = DocumentAnalysisStatus(
    documentId: int,
    analyzed: bool,
    issuesCount: int,
    status: AnalysisState,
    lastAnalyzed: Option<string>,
    sampleIssues: Option<seq<string>>)

  datatype Language = Ru | En

  datatype Severity = Critical | Warning | Info

  datatype AnalysisIssue = AnalysisIssue(id: int, documentId: int, issue: string, severity: Severity)

  /** A stored analysis result. `issues` is None when the object the
      service returned has no issue array. */
  datatype AnalysisResult = AnalysisResult(
    documentId: int,
    issues: Option<seq<AnalysisIssue>>,
    summary: Option<string>,
    language: Option<Language>)

  datatype Document = Document(
    id: int,
    filename: string,
    ownerId: int,
    status: string,
    createdAt: string,
    updatedAt: string,
    fileSize: Option<int>,
    fileType: Option<string>)
}
