/** The analysis page (src/pages/AnalysisPage.tsx): finding the document
    named in the route, loading its analysis status and result, starting or
    retrying an analysis job and polling it until SUCCESS or FAILURE, with no
    cap on the number of polls; plus the page's pure helpers. */
module Analysis {
  import opened Common
  import opened Types
  import opened Decimal

  /** Delay between two status requests, in milliseconds. */
  const PollIntervalMs := 3000
  const UnknownText := "Неизвестно"

  // ---------------------------------------------------------------------------
  // getStatusText, getTaskStatusText
  // ---------------------------------------------------------------------------

  /** `getStatusText`: the label of a document's analysis state. */
  function StatusText(status: string): (text: string)
    ensures text == UnknownText <==> status != "completed" && status != "in_progress" && status != "not_analyzed"
  {
    match status
    case "completed" => "Завершен"
    case "in_progress" => "В процессе"
    case "not_analyzed" => "Не анализирован"
    case _ => UnknownText
  }

  /** `getTaskStatusText`: the label of an analysis job's state; it also
      knows PROGRESS, a state the backend may report. */
  function TaskStatusText(status: string): (text: string)
    ensures text == UnknownText <==>
              status != "PENDING" && status != "STARTED" && status != "PROGRESS" && status != "SUCCESS" && status != "FAILURE"
  {
    match status
    case "PENDING" => "Ожидает"
    case "STARTED" => "Выполняется"
    case "PROGRESS" => "В процессе"
    case "SUCCESS" => "Завершен"
    case "FAILURE" => "Ошибка"
    case _ => UnknownText
  }

  /** Every state the status endpoint can report has its own label. */
  lemma StatusTextDistinguishesStates(a: AnalysisState, b: AnalysisState)
    ensures StatusText(a.Name()) != UnknownText
    ensures StatusText(a.Name()) == StatusText(b.Name()) ==> a == b
  {
  }

  /** Every job state has its own label. */
  lemma TaskStatusTextDistinguishesStates(a: TaskState, b: TaskState)
    ensures TaskStatusText(a.Name()) != UnknownText
    ensures TaskStatusText(a.Name()) == TaskStatusText(b.Name()) ==> a == b
  {
  }

  // ---------------------------------------------------------------------------
  // calculateEstimatedTime
  // ---------------------------------------------------------------------------

  const MinutesSeparator := " мин "
  const SecondsSuffix := " сек"

  /** An estimate as it reads: the minutes part when one is shown, and the
      seconds. */
  datatype Estimate = Estimate(minutes: Option<nat>, seconds: nat)

  function ShownMinutes(e: Estimate): nat {
    if e.minutes.Some? then e.minutes.value else 0
  }

  /** `calculateEstimatedTime`: 30 seconds per chunk plus 10, shown as
      "m мин s сек", or "s сек" when under a minute. The text reads back as
      that total split into whole minutes and remaining seconds, with a
      minutes part exactly when there is at least one minute. */
  function EstimatedTime(numChunks: nat): (t: string)
    ensures var e := DecodeEstimate(t);
            && e.Some?
            && ShownMinutes(e.value) * 60 + e.value.seconds == numChunks * 30 + 10
            && e.value.seconds < 60
            && (e.value.minutes.Some? ==> e.value.minutes.value > 0)
            && (e.value.minutes.Some? <==> numChunks * 30 + 10 >= 60)
  {
    var total := numChunks * 30 + 10;
    var minutes := total / 60;
    var seconds := total % 60;
    if minutes > 0 then
      DecodeMinutes(minutes, seconds);
      EstimateText(minutes, seconds)
    else
      DecodeSeconds(seconds);
      EstimateText(minutes, seconds)
  }

  /** Reads an estimate back. */
  function DecodeEstimate(t: string): Option<Estimate> {
    var k := DigitSpan(t);
    if k == 0 then None else DecodeAfterLead(Value(t[..k]), t[k..])
  }

  /** Reads what follows the leading number of an estimate. */
  function DecodeAfterLead(lead: nat, rest: string): Option<Estimate> {
    if rest == SecondsSuffix then Some(Estimate(None, lead))
    else if MinutesSeparator <= rest then
      var tail := rest[|MinutesSeparator|..];
      var k := DigitSpan(tail);
      if k > 0 && tail[k..] == SecondsSuffix then Some(Estimate(Some(lead), Value(tail[..k]))) else None
    else None
  }

  /** An estimate under a minute reads back as its seconds alone. */
  lemma DecodeSeconds(seconds: nat)
    ensures DecodeEstimate(Show(seconds) + SecondsSuffix) == Some(Estimate(None, seconds))
  {
    ShowThenRead(seconds, SecondsSuffix);
  }

  /** An estimate with minutes reads back as those minutes and seconds. */
  lemma DecodeMinutes(minutes: nat, seconds: nat)
    ensures DecodeEstimate(Show(minutes) + MinutesSeparator + Show(seconds) + SecondsSuffix)
            == Some(Estimate(Some(minutes), seconds))
  {
    var rest := MinutesSeparator + Show(seconds) + SecondsSuffix;
    assert Show(minutes) + MinutesSeparator + Show(seconds) + SecondsSuffix == Show(minutes) + rest;
    ShowThenRead(minutes, rest);
    DecodeSecondsAfterMinutes(minutes, seconds);
  }

  lemma DecodeSecondsAfterMinutes(minutes: nat, seconds: nat)
    ensures DecodeAfterLead(minutes, MinutesSeparator + Show(seconds) + SecondsSuffix)
            == Some(Estimate(Some(minutes), seconds))
  {
    var rest := MinutesSeparator + Show(seconds) + SecondsSuffix;
    assert rest[1] != SecondsSuffix[1];
    assert MinutesSeparator <= rest;
    assert rest[|MinutesSeparator|..] == Show(seconds) + SecondsSuffix;
    ShowThenRead(seconds, SecondsSuffix);
  }

  /** The text of an estimate of the given minutes and seconds. */
  function EstimateText(minutes: nat, seconds: nat): string {
    if minutes > 0 then Show(minutes) + MinutesSeparator + Show(seconds) + SecondsSuffix
    else Show(seconds) + SecondsSuffix
  }

  lemma EstimateTextExamples()
    ensures EstimateText(0, 10) == "10 сек" && EstimateText(0, 40) == "40 сек"
    ensures EstimateText(1, 10) == "1 мин 10 сек" && EstimateText(2, 40) == "2 мин 40 сек"
  {
    assert Show(10) == "10" by { assert Show(10) == Show(1) + [DigitChar(0)]; }
    assert Show(40) == "40" by { assert Show(40) == Show(4) + [DigitChar(0)]; }
    assert Show(1) == "1" && Show(2) == "2";
  }

  /** Minutes appear exactly when the estimate reaches a minute, that is
      from two chunks on. */
  lemma EstimatedTimeExamples()
    ensures EstimatedTime(0) == "10 сек"
    ensures EstimatedTime(1) == "40 сек"
    ensures EstimatedTime(2) == "1 мин 10 сек"
    ensures EstimatedTime(5) == "2 мин 40 сек"
  {
    EstimateTextExamples();
    assert EstimatedTime(0) == EstimateText(0, 10) by { assert 10 / 60 == 0 && 10 % 60 == 10; }
    assert EstimatedTime(1) == EstimateText(0, 40) by { assert 40 / 60 == 0 && 40 % 60 == 40; }
    assert EstimatedTime(2) == EstimateText(1, 10) by { assert 70 / 60 == 1 && 70 % 60 == 10; }
    assert EstimatedTime(5) == EstimateText(2, 40) by { assert 160 / 60 == 2 && 160 % 60 == 40; }
  }

  // ---------------------------------------------------------------------------
  // loadAnalysisResult, loadAnalysisStatus, the document lookup
  // ---------------------------------------------------------------------------

  /** The `issues` member of a reply object, as JavaScript sees it: an
      array, absent, or some other value. */
  datatype IssuesMember = IssueList(items: seq<AnalysisIssue>) | Absent | NotAList

  /** The body of the analysis result reply, as JavaScript sees it: a falsy
      value (null, undefined, ...), an array, or an object. */
  datatype ResultBody =
    | Falsy
    | ArrayBody(elements: seq<AnalysisIssue>)
    | ObjectBody(documentId: int, issues: IssuesMember, summary: Option<string>, language: Option<Language>)

  predicate Truthy(body: ResultBody) {
    !body.Falsy?
  }

  /** `Array.isArray(result)`. */
  predicate IsArray(body: ResultBody) {
    body.ArrayBody?
  }

  /** `Array.isArray(result.issues)`: an array has no `issues` member. */
  predicate IssuesIsArray(body: ResultBody) {
    body.ObjectBody? && body.issues.IssueList?
  }

  /** A reply object stored as it is. */
  function AsStored(body: ResultBody): AnalysisResult
    requires body.ObjectBody?
  {
    AnalysisResult(body.documentId, if body.issues.IssueList? then Some(body.issues.items) else None,
                   body.summary, body.language)
  }

  /** What `loadAnalysisResult` stores for a reply body, or None when it
      stores nothing: a falsy body is dropped, a bare array is wrapped as the
      page document's issue list, and an object is kept as it is. */
  function NormalizeResult(docId: int, body: ResultBody): (r: Option<AnalysisResult>)
    ensures r.None? <==> body.Falsy?
    ensures body.ArrayBody? ==> r == Some(AnalysisResult(docId, Some(body.elements), None, None))
    ensures body.ObjectBody? ==> r == Some(AsStored(body))
  {
    if !Truthy(body) then None
    else if !IssuesIsArray(body) && IsArray(body) then Some(AnalysisResult(docId, Some(body.elements), None, None))
    else Some(AsStored(body))
  }

  /** A stored result has an issue list exactly when the service sent an
      array, or an object whose `issues` is one; a wrapped array belongs to
      the page's document, an object keeps its own. */
  lemma NormalizedResultHasIssues(docId: int, body: ResultBody)
    requires Truthy(body)
    ensures var r := NormalizeResult(docId, body).value;
            && (r.issues.Some? <==> IsArray(body) || IssuesIsArray(body))
            && (IsArray(body) ==> r.documentId == docId && r.issues.value == body.elements)
            && (body.ObjectBody? ==> r.documentId == body.documentId && r.summary == body.summary)
  {
  }

  /** `analysisResult` after the result call answers with `reply`. */
  function StoreResult(docId: int, reply: Fetch<ResultBody>, prior: Option<AnalysisResult>): Option<AnalysisResult> {
    if reply.Ok? && Truthy(reply.value) then NormalizeResult(docId, reply.value) else prior
  }

  /** The result is worth fetching only for a document analysed to completion. */
  predicate ResultReady(s: DocumentAnalysisStatus) {
    s.analyzed && s.status == Completed
  }

  /** Status, result, and whether the result was requested, after
      `loadAnalysisStatus`. */
  datatype Loaded = Loaded(status: Option<DocumentAnalysisStatus>, result: Option<AnalysisResult>, resultRequested: bool)

  function LoadStatus(
    docId: int, status: Option<DocumentAnalysisStatus>, result: Option<AnalysisResult>,
    statusReply: Fetch<DocumentAnalysisStatus>, resultReply: Fetch<ResultBody>): (l: Loaded)
    ensures l.resultRequested <==> statusReply.Ok? && ResultReady(statusReply.value)
    ensures statusReply.Thrown? ==> l.status == status
    ensures statusReply.Ok? ==> l.status == Some(statusReply.value)
    ensures l.resultRequested ==> l.result == StoreResult(docId, resultReply, result)
    ensures !l.resultRequested ==> l.result == result
  {
    match statusReply
    case Thrown(_) => Loaded(status, result, false)
    case Ok(s) =>
      if ResultReady(s) then Loaded(Some(s), StoreResult(docId, resultReply, result), true)
      else Loaded(Some(s), result, false)
  }

  /** `documents.find(d => d.id === id)`. */
  function FindDocument(docs: seq<Document>, id: int): (r: Option<Document>)
    ensures r.None? <==> forall i :: 0 <= i < |docs| ==> docs[i].id != id
    ensures r.Some? ==> exists i :: 0 <= i < |docs| && docs[i] == r.value && r.value.id == id
                                     && forall j :: 0 <= j < i ==> docs[j].id != id
    decreases |docs|
  {
    if docs == [] then None
    else if docs[0].id == id then Some(docs[0])
    else
      var r := FindDocument(docs[1..], id);
      assert r.Some? ==> exists i :: 0 < i < |docs| && docs[i] == r.value && r.value.id == id
                                     && forall j :: 0 <= j < i ==> docs[j].id != id by {
        if r.Some? {
          var i :| 0 <= i < |docs[1..]| && docs[1..][i] == r.value && r.value.id == id
                   && forall j :: 0 <= j < i ==> docs[1..][j].id != id;
          assert docs[i + 1] == r.value;
          assert forall j :: 1 <= j < i + 1 ==> docs[j] == docs[1..][j - 1];
        }
      }
      r
  }

  // ---------------------------------------------------------------------------
  // The analysis job poll
  // ---------------------------------------------------------------------------

  /** `currentTask`. */
  datatype CurrentTask = CurrentTask(taskId: string, status: Option<TaskStatusResponse>, polling: bool)

  /** `setCurrentTask(prev => prev ? {...prev, status} : null)`. */
  function WithStatus(task: Option<CurrentTask>, st: TaskStatusResponse): Option<CurrentTask> {
    if task.Some? then Some(task.value.(status := Some(st))) else None
  }

  /** `setCurrentTask(prev => prev ? {...prev, polling: false} : null)`. */
  function Stopped(task: Option<CurrentTask>): Option<CurrentTask> {
    if task.Some? then Some(task.value.(polling := false)) else None
  }

  predicate IsPending(reply: Fetch<TaskStatusResponse>) {
    reply.Ok? && !reply.value.taskStatus.IsTerminal()
  }

  /** How a stretch of the poll loop ended: still scheduled when the replies
      ran out, settled on a terminal reply, or aborted by a failed request. */
  datatype PollEnd = StillPolling | Settled(final: TaskStatusResponse) | Aborted

  datatype PollRun = PollRun(requests: nat, task: Option<CurrentTask>, end: PollEnd)

  /** The poll loop over a finite stretch of replies, starting from `task`. */
  function AnalysisPoll(task: Option<CurrentTask>, replies: seq<Fetch<TaskStatusResponse>>): (r: PollRun)
    ensures r.requests <= |replies|
    ensures r.end.StillPolling? ==> r.requests == |replies|
    ensures !r.end.StillPolling? ==> r.requests >= 1
    ensures forall i :: 0 <= i < r.requests - 1 ==> IsPending(replies[i])
    ensures r.end.StillPolling? ==> forall i :: 0 <= i < |replies| ==> IsPending(replies[i])
    ensures r.end.Settled? ==> r.end.final.taskStatus.IsTerminal() && replies[r.requests - 1] == Ok(r.end.final)
    ensures r.end.Aborted? ==> replies[r.requests - 1].Thrown?
    ensures r.task.Some? <==> task.Some?
    ensures task.Some? ==> r.task.value.taskId == task.value.taskId
    ensures task.Some? && r.end.Settled? ==> r.task.value.status == Some(r.end.final)
    decreases |replies|
  {
    if replies == [] then PollRun(0, task, StillPolling)
    else
      match replies[0]
      case Thrown(_) => PollRun(1, Stopped(task), Aborted)
      case Ok(st) =>
        var next := WithStatus(task, st);
        if st.taskStatus.IsTerminal() then PollRun(1, Stopped(next), Settled(st))
        else
          var rest := AnalysisPoll(next, replies[1..]);
          PollRun(rest.requests + 1, rest.task, rest.end)
  }

  /** Starting from a task that is polling, `polling` is false at the end
      exactly when the loop stopped: on SUCCESS, FAILURE or a failed request. */
  lemma {:induction false} PollingFlagTracksEnd(task: Option<CurrentTask>, replies: seq<Fetch<TaskStatusResponse>>)
    requires task.Some? && task.value.polling
    ensures var r := AnalysisPoll(task, replies);
            r.task.value.polling <==> r.end.StillPolling?
    decreases |replies|
  {
    if replies != [] && replies[0].Ok? && !replies[0].value.taskStatus.IsTerminal() {
      PollingFlagTracksEnd(WithStatus(task, replies[0].value), replies[1..]);
    }
  }

  /** There is no cap: any number of non-terminal replies keeps the loop
      polling, one request per reply, with the latest reply stored. */
  lemma {:induction false} NoAttemptCap(task: Option<CurrentTask>, replies: seq<Fetch<TaskStatusResponse>>)
    requires replies != []
    requires forall i :: 0 <= i < |replies| ==> IsPending(replies[i])
    ensures var r := AnalysisPoll(task, replies);
            && r.requests == |replies| && r.end.StillPolling?
            && r.task == (if task.Some? then Some(task.value.(status := Some(replies[|replies| - 1].value))) else None)
    decreases |replies|
  {
    if |replies| > 1 {
      NoAttemptCap(WithStatus(task, replies[0].value), replies[1..]);
    }
  }

  /** A null `currentTask` stays null whatever the replies. */
  lemma NullTaskStaysNull(replies: seq<Fetch<TaskStatusResponse>>)
    ensures AnalysisPoll(None, replies).task == None
  {
  }

  /** The FAILURE scenario: the backend's error string reaches the page
      unchanged, and polling stops after that one request. */
  lemma FailureSurfacesError(taskId: string, docId: int, error: string)
    ensures var failed := TaskStatusResponse(taskId, Failure, Some(docId), None, None, Some(error));
            var r := AnalysisPoll(Some(CurrentTask(taskId, None, true)), [Ok(failed)]);
            && r.requests == 1 && r.end == Settled(failed)
            && r.task == Some(CurrentTask(taskId, Some(failed), false))
            && r.task.value.status.value.error == Some(error)
  {
  }

  /** What starting an analysis asks the service for. */
  datatype StartRequest = StartRequest(docId: int, language: Language, retry: bool)

  /** The state of one analysis page. */
  class AnalysisPage {
    /** The route's document id, already parsed; None when the route has none. */
    const docId: Option<int>
    /** The signed-in user, from the session hook. */
    const user: Option<User>
    var document: Option<Document>
    var analysisStatus: Option<DocumentAnalysisStatus>
    var analysisResult: Option<AnalysisResult>
    var currentTask: Option<CurrentTask>
    var selectedLanguage: Language
    var retryLanguage: Language
    var showRetryModal: bool
    /** Set when the page navigated back to the document list. */
    var redirected: bool

    constructor (docId: Option<int>, user: Option<User>)
      ensures this.docId == docId && this.user == user
      ensures document.None? && analysisStatus.None? && analysisResult.None? && currentTask.None?
      ensures selectedLanguage == Ru && retryLanguage == Ru && !showRetryModal && !redirected
    {
      this.docId := docId;
      this.user := user;
      document, analysisStatus, analysisResult, currentTask := None, None, None, None;
      selectedLanguage, retryLanguage := Ru, Ru;
      showRetryModal, redirected := false, false;
    }

    /** Start and retry call the service only with a document id and a user
        that has an id. */
    predicate CanStart() {
      docId.Some? && user.Some? && HasId(user.value)
    }

    /** `loadAnalysisResult`. */
    method LoadAnalysisResult(id: int, reply: Fetch<ResultBody>)
      modifies this`analysisResult
      ensures analysisResult == StoreResult(id, reply, old(analysisResult))
    {
      match reply {
        case Thrown(_) =>
        case Ok(body) =>
          if !Truthy(body) {
            return;
          }
          if !IssuesIsArray(body) {
            if IsArray(body) {
              analysisResult := Some(AnalysisResult(id, Some(body.elements), None, None));
              return;
            }
          }
          analysisResult := Some(AsStored(body));
      }
    }

    /** `loadAnalysisStatus`: store the status and, for a completed
        analysis, load the result. */
    method LoadAnalysisStatus(id: int, statusReply: Fetch<DocumentAnalysisStatus>, resultReply: Fetch<ResultBody>)
      returns (resultRequested: bool)
      modifies this`analysisStatus, this`analysisResult
      ensures Loaded(analysisStatus, analysisResult, resultRequested)
                == LoadStatus(id, old(analysisStatus), old(analysisResult), statusReply, resultReply)
    {
      resultRequested := false;
      match statusReply {
        case Thrown(_) =>
        case Ok(status) =>
          analysisStatus := Some(status);
          if status.analyzed && status.status == Completed {
            resultRequested := true;
            LoadAnalysisResult(id, resultReply);
          }
      }
    }

    /** The effect that runs when the document list changes: find the
        route's document and load its status, or leave for the document
        list when it is not there; an empty list is waited for. */
    method OnDocumentsChanged(documents: seq<Document>, statusReply: Fetch<DocumentAnalysisStatus>, resultReply: Fetch<ResultBody>)
      modifies this`document, this`analysisStatus, this`analysisResult, this`redirected
      ensures docId.None? || documents == [] ==> unchanged(this)
      ensures docId.Some? && documents != [] && FindDocument(documents, docId.value).None? ==>
                redirected && document == old(document)
                && analysisStatus == old(analysisStatus) && analysisResult == old(analysisResult)
      ensures docId.Some? && documents != [] && FindDocument(documents, docId.value).Some? ==>
                var d := FindDocument(documents, docId.value).value;
                var l := LoadStatus(d.id, old(analysisStatus), old(analysisResult), statusReply, resultReply);
                document == Some(d) && d.id == docId.value && redirected == old(redirected)
                && analysisStatus == l.status && analysisResult == l.result
      ensures currentTask == old(currentTask) && showRetryModal == old(showRetryModal)
    {
      if docId.None? || |documents| == 0 {
        return;
      }
      var found := FindDocument(documents, docId.value);
      match found {
        case Some(d) =>
          document := Some(d);
          var _ := LoadAnalysisStatus(d.id, statusReply, resultReply);
        case None =>
          redirected := true;
      }
    }

    /** `pollTaskStatus(taskId)`: one status request for `taskId` per reply
        the service gives for it, until a terminal state or a failed request;
        on a terminal state the document's analysis status is reloaded once. */
    method PollTaskStatus(
      taskId: string, statusReplies: string -> seq<Fetch<TaskStatusResponse>>,
      statusReply: Fetch<DocumentAnalysisStatus>, resultReply: Fetch<ResultBody>)
      returns (requests: nat, end: PollEnd, reloaded: bool)
      modifies this`currentTask, this`analysisStatus, this`analysisResult
      ensures var run := AnalysisPoll(old(currentTask), statusReplies(taskId));
              requests == run.requests && currentTask == run.task && end == run.end
      ensures reloaded <==> end.Settled? && docId.Some?
      ensures reloaded ==>
                var l := LoadStatus(docId.value, old(analysisStatus), old(analysisResult), statusReply, resultReply);
                analysisStatus == l.status && analysisResult == l.result
      ensures !reloaded ==> analysisStatus == old(analysisStatus) && analysisResult == old(analysisResult)
    {
      var replies := statusReplies(taskId);
      requests, end := 0, StillPolling;
      while end.StillPolling? && requests < |replies|
        invariant requests <= |replies|
        invariant end.StillPolling? ==>
                    var rest := AnalysisPoll(currentTask, replies[requests..]);
                    AnalysisPoll(old(currentTask), replies) == PollRun(rest.requests + requests, rest.task, rest.end)
        invariant !end.StillPolling? ==> AnalysisPoll(old(currentTask), replies) == PollRun(requests, currentTask, end)
        invariant analysisStatus == old(analysisStatus) && analysisResult == old(analysisResult)
        decreases |replies| - requests, if end.StillPolling? then 1 else 0
      {
        var reply := replies[requests];
        assert replies[requests..][1..] == replies[requests + 1..];
        requests := requests + 1;
        match reply {
          case Thrown(_) =>
            currentTask := Stopped(currentTask);
            end := Aborted;
          case Ok(status) =>
            currentTask := WithStatus(currentTask, status);
            if status.taskStatus == Success || status.taskStatus == Failure {
              currentTask := Stopped(currentTask);
              end := Settled(status);
            }
        }
      }
      reloaded := end.Settled? && docId.Some?;
      if reloaded {
        var _ := LoadAnalysisStatus(docId.value, statusReply, resultReply);
      }
    }

    /** `handleStartAnalysis`. */
    method HandleStartAnalysis(
      start: Fetch<AnalysisStartResponse>, statusReplies: string -> seq<Fetch<TaskStatusResponse>>,
      statusReply: Fetch<DocumentAnalysisStatus>, resultReply: Fetch<ResultBody>)
      returns (request: Option<StartRequest>, statusRequests: nat)
      modifies this`currentTask, this`analysisStatus, this`analysisResult
      ensures !CanStart() ==> request.None? && statusRequests == 0 && unchanged(this)
      ensures CanStart() ==> request == Some(StartRequest(docId.value, old(selectedLanguage), false))
      ensures CanStart() && start.Thrown? ==> statusRequests == 0 && unchanged(this)
      ensures CanStart() && start.Ok? ==>
                var run := AnalysisPoll(Some(CurrentTask(start.value.taskId, None, true)), statusReplies(start.value.taskId));
                var l := LoadStatus(docId.value, old(analysisStatus), old(analysisResult), statusReply, resultReply);
                && currentTask == run.task && statusRequests == run.requests
                && (if run.end.Settled? then analysisStatus == l.status && analysisResult == l.result
                    else analysisStatus == old(analysisStatus) && analysisResult == old(analysisResult))
                && document == old(document) && showRetryModal == old(showRetryModal)
    {
      request, statusRequests := None, 0;
      if docId.None? || user.None? {
        return;
      }
      if !HasId(user.value) {
        return;
      }
      request := Some(StartRequest(docId.value, selectedLanguage, false));
      match start {
        case Thrown(_) =>
        case Ok(response) =>
          currentTask := Some(CurrentTask(response.taskId, None, true));
          var end, reloaded;
          statusRequests, end, reloaded := PollTaskStatus(response.taskId, statusReplies, statusReply, resultReply);
      }
    }

    /** `handleRetryAnalysis`: like starting, with the retry language and
        the retry flag, and the previous status and result discarded before
        polling the new task. */
    method HandleRetryAnalysis(
      start: Fetch<AnalysisStartResponse>, statusReplies: string -> seq<Fetch<TaskStatusResponse>>,
      statusReply: Fetch<DocumentAnalysisStatus>, resultReply: Fetch<ResultBody>)
      returns (request: Option<StartRequest>, statusRequests: nat)
      modifies this`currentTask, this`analysisStatus, this`analysisResult, this`showRetryModal
      ensures !CanStart() ==> request.None? && statusRequests == 0 && unchanged(this)
      ensures CanStart() ==> request == Some(StartRequest(docId.value, old(retryLanguage), true))
      ensures CanStart() && start.Thrown? ==> statusRequests == 0 && unchanged(this)
      ensures CanStart() && start.Ok? ==>
                var run := AnalysisPoll(Some(CurrentTask(start.value.taskId, None, true)), statusReplies(start.value.taskId));
                var l := LoadStatus(docId.value, None, None, statusReply, resultReply);
                && currentTask == run.task && statusRequests == run.requests
                && (if run.end.Settled? then analysisStatus == l.status && analysisResult == l.result
                    else analysisStatus == None && analysisResult == None)
                && !showRetryModal && document == old(document)
    {
      request, statusRequests := None, 0;
      if docId.None? || user.None? {
        return;
      }
      if !HasId(user.value) {
        return;
      }
      request := Some(StartRequest(docId.value, retryLanguage, true));
      match start {
        case Thrown(_) =>
        case Ok(response) =>
          currentTask := Some(CurrentTask(response.taskId, None, true));
          analysisResult := None;
          analysisStatus := None;
          var end, reloaded;
          statusRequests, end, reloaded := PollTaskStatus(response.taskId, statusReplies, statusReply, resultReply);
          showRetryModal := false;
      }
    }
  }
}
