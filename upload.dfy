/** The upload page (src/pages/UploadPage.tsx): which files it admits, and
    the progress machine idle -> uploading -> processing -> completed | error
    driven by the upload call and a status poll capped at 60 requests. */
module Upload {
  import opened Common
  import opened Types

  const PdfMime := "application/pdf"
  const DocxMime := "application/vnd.openxmlformats-officedocument.wordprocessingml.document"
  /** 10 MB. */
  const MaxFileSize: nat := 10 * 1024 * 1024
  /** Status requests one upload may issue. */
  const MaxAttempts: nat := 60
  /** Delay between two status requests, in milliseconds. */
  const PollIntervalMs := 5000

  const WrongTypeAlert := "Пожалуйста, выберите PDF или DOCX файл"
  const TooLargeAlert := "Размер файла не должен превышать 10MB"
  const MissingIdAlert := "Ошибка: ID пользователя не найден. Попробуйте войти заново."
  const UnknownError := "Неизвестная ошибка"
  const UploadingMessage := "Загрузка файла..."
  const ProcessingMessage := "Обработка документа..."
  const UploadFailedMessage := "Ошибка загрузки"
  const CompletedMessage := "Документ успешно обработан"
  const ProcessingFailedMessage := "Ошибка обработки документа"
  const TimeoutMessage := "Превышено время ожидания"
  const TimeoutError := "Обработка документа занимает больше времени, чем ожидалось"
  const StatusCheckFailedMessage := "Ошибка проверки статуса"

  /** The parts of a browser `File` the page looks at. */
  datatype FileInfo = FileInfo(name: string, size: nat, mimeType: string)

  datatype ProgressStatus = Idle | Uploading | Processing | Completed | Error

  datatype UploadProgress = UploadProgress(
    status: ProgressStatus,
    message: string,
    taskId: Option<string>,
    error: Option<string>)

  const IdleProgress := UploadProgress(Idle, "", None, None)

  /** The alert a selected or dropped file raises, or None when the file is
      admitted. The type is checked before the size. */
  function Rejection(f: FileInfo): (r: Option<string>)
    ensures r.None? <==> (f.mimeType == PdfMime || f.mimeType == DocxMime) && f.size <= MaxFileSize
    ensures r == Some(WrongTypeAlert) <==> f.mimeType != PdfMime && f.mimeType != DocxMime
    ensures r == Some(TooLargeAlert) <==> (f.mimeType == PdfMime || f.mimeType == DocxMime) && f.size > MaxFileSize
  {
    if f.mimeType != PdfMime && f.mimeType != DocxMime then Some(WrongTypeAlert)
    else if f.size > MaxFileSize then Some(TooLargeAlert)
    else None
  }

  /** The size limit is inclusive: exactly 10485760 bytes passes, one byte
      more does not. */
  lemma SizeLimitIsInclusive(name: string)
    ensures Rejection(FileInfo(name, 10485760, PdfMime)).None?
    ensures Rejection(FileInfo(name, 10485761, PdfMime)) == Some(TooLargeAlert)
  {
  }

  /** A status reply that neither ends the loop nor failed to arrive. */
  predicate IsPending(reply: Fetch<TaskStatus>) {
    reply.Ok? && !reply.value.state.IsTerminal()
  }

  function TimedOut(taskId: string): UploadProgress {
    UploadProgress(Error, TimeoutMessage, Some(taskId), Some(TimeoutError))
  }

  /** What one status reply does, given the number of non-terminal replies
      already seen: None schedules the next request; Some(p) ends the loop
      with progress p. */
  function PollStep(taskId: string, reply: Fetch<TaskStatus>, attempts: nat): (next: Option<UploadProgress>)
    ensures next.None? <==> IsPending(reply) && attempts + 1 < MaxAttempts
    ensures next.Some? ==> next.value.taskId == Some(taskId)
    ensures reply.Ok? && reply.value.state == Success ==> next.Some? && next.value.status == ProgressStatus.Completed && next.value.error.None?
    ensures reply.Ok? && reply.value.state == Failure ==>
              next.Some? && next.value.status == Error && next.value.error == Some(OrElse(reply.value.error, UnknownError))
    ensures reply.Thrown? ==>
              next.Some? && next.value.status == Error && next.value.error == Some(OrElse(reply.error.message, UnknownError))
    ensures IsPending(reply) && attempts + 1 >= MaxAttempts ==> next == Some(TimedOut(taskId))
  {
    match reply
    case Thrown(e) =>
      Some(UploadProgress(Error, StatusCheckFailedMessage, Some(taskId), Some(OrElse(e.message, UnknownError))))
    case Ok(st) =>
      if st.state == Success then Some(UploadProgress(ProgressStatus.Completed, CompletedMessage, Some(taskId), None))
      else if st.state == Failure then
        Some(UploadProgress(Error, ProcessingFailedMessage, Some(taskId), Some(OrElse(st.error, UnknownError))))
      else if attempts + 1 < MaxAttempts then None
      else Some(TimedOut(taskId))
  }

  /** The status loop over a finite stretch of replies: how many requests it
      made, the progress it left, and whether it settled. When the replies run
      out first the loop is still scheduled and progress is as it was. */
  datatype PollRun = PollRun(requests: nat, progress: UploadProgress, settled: bool)

  function UploadPoll(taskId: string, replies: seq<Fetch<TaskStatus>>, attempts: nat, current: UploadProgress): (r: PollRun)
    requires attempts < MaxAttempts
    ensures r.requests <= |replies| && r.requests <= MaxAttempts - attempts
    ensures !r.settled ==> r.progress == current && r.requests == |replies|
    ensures r.settled ==> r.requests >= 1 && r.progress.taskId == Some(taskId)
                          && (r.progress.status == ProgressStatus.Completed || r.progress.status == Error)
    decreases |replies|
  {
    if replies == [] then PollRun(0, current, false)
    else
      match PollStep(taskId, replies[0], attempts)
      case Some(p) => PollRun(1, p, true)
      case None =>
        var rest := UploadPoll(taskId, replies[1..], attempts + 1, current);
        PollRun(rest.requests + 1, rest.progress, rest.settled)
  }

  /** Non-terminal replies only count attempts: skipping k of them shifts the
      run by k requests. */
  lemma {:induction false} SkipPending(taskId: string, replies: seq<Fetch<TaskStatus>>, attempts: nat, current: UploadProgress, k: nat)
    requires attempts + k < MaxAttempts && k <= |replies|
    requires forall i :: 0 <= i < k ==> IsPending(replies[i])
    ensures var whole := UploadPoll(taskId, replies, attempts, current);
            var rest := UploadPoll(taskId, replies[k..], attempts + k, current);
            whole == PollRun(rest.requests + k, rest.progress, rest.settled)
    decreases k
  {
    if k > 0 {
      assert replies[1..][k - 1..] == replies[k..];
      SkipPending(taskId, replies[1..], attempts + 1, current, k - 1);
    }
  }

  /** The first reply that is not pending, if it comes before the cap,
      decides the outcome: SUCCESS completes, FAILURE or a failed request
      ends in error, after exactly k + 1 requests. */
  lemma SettlesAtFirstNonPending(taskId: string, replies: seq<Fetch<TaskStatus>>, current: UploadProgress, k: nat)
    requires k < MaxAttempts && k < |replies|
    requires forall i :: 0 <= i < k ==> IsPending(replies[i])
    requires !IsPending(replies[k])
    ensures UploadPoll(taskId, replies, 0, current) == PollRun(k + 1, PollStep(taskId, replies[k], k).value, true)
  {
    SkipPending(taskId, replies, 0, current, k);
  }

  /** Sixty non-terminal replies in a row time the upload out, and no 61st
      request is made. */
  lemma TimesOutAfterMaxAttempts(taskId: string, replies: seq<Fetch<TaskStatus>>, current: UploadProgress)
    requires |replies| >= MaxAttempts
    requires forall i :: 0 <= i < MaxAttempts ==> IsPending(replies[i])
    ensures UploadPoll(taskId, replies, 0, current) == PollRun(MaxAttempts, TimedOut(taskId), true)
  {
    SkipPending(taskId, replies, 0, current, MaxAttempts - 1);
  }

  /** The scenario of an upload whose task reports STARTED three times and
      then SUCCESS: completed, with its task id, after four requests. */
  lemma ThreeStartedThenSuccess(taskId: string, current: UploadProgress)
    ensures var started := Ok(TaskStatus(taskId, Started, "processing", None, None));
            var done := Ok(TaskStatus(taskId, Success, "done", None, None));
            UploadPoll(taskId, [started, started, started, done], 0, current)
              == PollRun(4, UploadProgress(ProgressStatus.Completed, CompletedMessage, Some(taskId), None), true)
  {
    var started := Ok(TaskStatus(taskId, Started, "processing", None, None));
    var done := Ok(TaskStatus(taskId, Success, "done", None, None));
    SettlesAtFirstNonPending(taskId, [started, started, started, done], current, 3);
  }

  /** The state of one upload page. */
  class UploadPage {
    /** The signed-in user, from the session hook. */
    const user: Option<User>
    var selectedFile: Option<FileInfo>
    var isUploading: bool
    var progress: UploadProgress
    /** The alerts shown so far, oldest first. */
    var alerts: seq<string>

    constructor (user: Option<User>)
      ensures this.user == user && selectedFile == None && !isUploading && progress == IdleProgress && alerts == []
    {
      this.user := user;
      selectedFile := None;
      isUploading := false;
      progress := IdleProgress;
      alerts := [];
    }

    /** The validation shared by file selection and drop. */
    method Admit(file: FileInfo)
      modifies this
      ensures isUploading == old(isUploading)
      ensures Rejection(file).None? ==> selectedFile == Some(file) && progress == IdleProgress && alerts == old(alerts)
      ensures Rejection(file).Some? ==>
                selectedFile == old(selectedFile) && progress == old(progress) && alerts == old(alerts) + [Rejection(file).value]
    {
      if file.mimeType != PdfMime && file.mimeType != DocxMime {
        alerts := alerts + [WrongTypeAlert];
        return;
      }
      if file.size > MaxFileSize {
        alerts := alerts + [TooLargeAlert];
        return;
      }
      selectedFile := Some(file);
      progress := IdleProgress;
    }

    /** `handleFileSelect`: the first chosen file, if any, is validated. */
    method HandleFileSelect(files: seq<FileInfo>)
      modifies this
      ensures isUploading == old(isUploading)
      ensures files == [] ==> selectedFile == old(selectedFile) && progress == old(progress) && alerts == old(alerts)
      ensures files != [] && Rejection(files[0]).None? ==>
                selectedFile == Some(files[0]) && progress == IdleProgress && alerts == old(alerts)
      ensures files != [] && Rejection(files[0]).Some? ==>
                selectedFile == old(selectedFile) && progress == old(progress) && alerts == old(alerts) + [Rejection(files[0]).value]
    {
      if files != [] {
        Admit(files[0]);
      }
    }

    /** `handleDrop`: the first dropped file, if any, is validated. */
    method HandleDrop(files: seq<FileInfo>)
      modifies this
      ensures isUploading == old(isUploading)
      ensures files == [] ==> selectedFile == old(selectedFile) && progress == old(progress) && alerts == old(alerts)
      ensures files != [] && Rejection(files[0]).None? ==>
                selectedFile == Some(files[0]) && progress == IdleProgress && alerts == old(alerts)
      ensures files != [] && Rejection(files[0]).Some? ==>
                selectedFile == old(selectedFile) && progress == old(progress) && alerts == old(alerts) + [Rejection(files[0]).value]
    {
      if |files| > 0 {
        Admit(files[0]);
      }
    }

    /** `resetUpload`. */
    method ResetUpload()
      modifies this
      ensures selectedFile == None && progress == IdleProgress
      ensures isUploading == old(isUploading) && alerts == old(alerts)
    {
      selectedFile := None;
      progress := IdleProgress;
    }

    /** `pollTaskStatus(taskId)`: one status request for `taskId` per reply
        the service gives for it, stopping on SUCCESS, on FAILURE, on a
        failed request, or after the 60th non-terminal reply. */
    method PollTaskStatus(taskId: string, statusReplies: string -> seq<Fetch<TaskStatus>>) returns (requests: nat, settled: bool)
      modifies this`progress
      ensures var run := UploadPoll(taskId, statusReplies(taskId), 0, old(progress));
              requests == run.requests && progress == run.progress && settled == run.settled
    {
      var replies := statusReplies(taskId);
      var attempts: nat := 0;
      requests, settled := 0, false;
      while !settled && requests < |replies|
        invariant requests <= |replies|
        invariant !settled ==> attempts == requests < MaxAttempts && progress == old(progress)
        invariant !settled ==> var rest := UploadPoll(taskId, replies[requests..], attempts, old(progress));
                               UploadPoll(taskId, replies, 0, old(progress)) == PollRun(rest.requests + requests, rest.progress, rest.settled)
        invariant settled ==> UploadPoll(taskId, replies, 0, old(progress)) == PollRun(requests, progress, true)
        decreases |replies| - requests, if settled then 0 else 1
      {
        var reply := replies[requests];
        assert replies[requests..][1..] == replies[requests + 1..];
        requests := requests + 1;
        match reply
        case Thrown(e) =>
          progress := UploadProgress(Error, StatusCheckFailedMessage, Some(taskId), Some(OrElse(e.message, UnknownError)));
          settled := true;
        case Ok(st) =>
          if st.state == Success {
            progress := UploadProgress(ProgressStatus.Completed, CompletedMessage, Some(taskId), None);
            settled := true;
          } else if st.state == Failure {
            progress := UploadProgress(Error, ProcessingFailedMessage, Some(taskId), Some(OrElse(st.error, UnknownError)));
            settled := true;
          } else {
            attempts := attempts + 1;
            if attempts >= MaxAttempts {
              progress := TimedOut(taskId);
              settled := true;
            }
          }
      }
    }

    /** `handleUpload`: with a file and a user with an id, upload the file
        under that id and poll the task the upload starts. The upload service
        answers for a file and an owner id; `uploads` is 1 when the upload
        call was made, `statusRequests` counts the status calls. */
    method HandleUpload(upload: (FileInfo, int) -> Fetch<UploadResponse>, statusReplies: string -> seq<Fetch<TaskStatus>>)
      returns (uploads: nat, statusRequests: nat)
      modifies this
      ensures selectedFile == old(selectedFile)
      ensures old(selectedFile).None? || user.None? ==>
                uploads == 0 && statusRequests == 0 && progress == old(progress)
                && isUploading == old(isUploading) && alerts == old(alerts)
      ensures old(selectedFile).Some? && user.Some? && !HasId(user.value) ==>
                uploads == 0 && statusRequests == 0 && progress == old(progress)
                && isUploading == old(isUploading) && alerts == old(alerts) + [MissingIdAlert]
      ensures old(selectedFile).Some? && user.Some? && HasId(user.value) ==>
                var reply := upload(old(selectedFile).value, user.value.id.value);
                && uploads == 1 && !isUploading && alerts == old(alerts)
                && (reply.Thrown? ==>
                      statusRequests == 0
                      && progress == UploadProgress(Error, UploadFailedMessage, None, Some(OrElse(reply.error.message, UnknownError))))
                && (reply.Ok? ==>
                      var run := UploadPoll(reply.value.taskId, statusReplies(reply.value.taskId), 0,
                                            UploadProgress(Processing, ProcessingMessage, Some(reply.value.taskId), None));
                      statusRequests == run.requests && progress == run.progress)
    {
      uploads, statusRequests := 0, 0;
      if selectedFile.None? || user.None? {
        return;
      }
      if !HasId(user.value) {
        alerts := alerts + [MissingIdAlert];
        return;
      }
      isUploading := true;
      progress := UploadProgress(Uploading, UploadingMessage, None, None);
      uploads := 1;
      match upload(selectedFile.value, user.value.id.value) {
        case Thrown(e) =>
          progress := UploadProgress(Error, UploadFailedMessage, None, Some(OrElse(e.message, UnknownError)));
        case Ok(response) =>
          progress := UploadProgress(Processing, ProcessingMessage, Some(response.taskId), None);
          var settled;
          statusRequests, settled := PollTaskStatus(response.taskId, statusReplies);
      }
      isUploading := false;
    }
  }
}
