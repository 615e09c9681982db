# Verified model of the document-analysis web client

This project models the logic of a browser client for three REST services:
auth, document storage and document analysis. The model is written in Dafny.
The client itself is a thin React front end, and four pieces of it are modelled:

- **Upload page** (`upload.dfy`, module `Upload`). It checks which files it admits:
  PDF or DOCX, at most 10 MB. Its progress machine runs
  `idle -> uploading -> processing -> completed | error`.
  It polls the upload-processing job, with a cap of 60 status requests.
- **Analysis page** (`analysis.dfy`, module `Analysis`). It looks up the route's document.
  It loads that document's analysis status, and the result once the analysis is completed.
  A bare array of issues is wrapped into a result.
  Start and retry launch an analysis job, and the page polls the job with no attempt cap.
  The page also has two status-to-label maps and the waiting-time estimate.
- **HTTP client wrapper and session store** (`api.dfy`, module `Api`).
  A request interceptor attaches `Bearer <token>`.
  A response interceptor refreshes the tokens at most once per request, using the `_retry` flag.
  It then replays the request, or clears the session when the refresh fails.
  The store keeps three localStorage keys with set/clear/get, and `getCurrentUser` unwraps its reply.
- **Session hook** (`auth.dfy`, module `Auth`). It has the start-up check of a stored session,
  login, registration, logout, and the error-message fallback chain.

The supporting modules are small:

- `Common` holds `Option`, the outcome of a network call, and JavaScript truthiness.
- `Types` holds the service records of `src/types/index.ts`.
- `Decimal` holds the decimal rendering of integers that the estimate uses, with a parse-back.

How the model is built:

- A network call's outcome is supplied by the caller: the resolved reply or the rejected error.
  Where the source passes an argument that decides the answer, the service is a function of that
  argument. The refresh service takes the refresh token, the upload service takes the file and owner id,
  and the status services take the task id.
  A poll loop consumes the sequence of replies the status service gives for its task, one per request.
  When that sequence runs out before a terminal state, the loop is still scheduled.
  This is how the model represents a page that was left while polling.
- localStorage is a `Storage` object over a `map<string, string>`.
  A request config is a `Request` object.
  The interceptors change its headers and its `_retry` flag in place.
  The backend is a function from the headers a request is sent with to its reply.
- Each stateful operation is a method on a class (`UploadPage`, `AnalysisPage`, `AuthHook`) or on
  `Storage`/`Request`, and its contract states the new state on every path.
  The poll loops, status loading and request dispatch are proved equal to pure functions
  (`UploadPoll`, `AnalysisPoll`, `LoadStatus`, `DispatchSpec`), and the lemmas about those functions
  state what the client promises.
  The file checks, the session hook's methods and the storage methods state their effects directly,
  in terms of `Rejection`, `ErrorMessage`, `UnwrapUser`, `WithAuthData` and `WithoutAuthData`.
- JavaScript truthiness is explicit. A missing string and `""` are both falsy.
  A missing user id and `0` are both falsy.
- `JSON.stringify`/`JSON.parse` of the stored user are a `UserCodec` pair of functions.
  The lemmas that need it require `Faithful(codec)`: parsing what was serialised gives the value
  back, and a serialised value is never empty.

Two behaviours of the code are worth knowing:

- A replayed request that gets 401 again does **not** clear the session.
  The replay is returned from inside the `try` without being awaited, so its rejection bypasses
  the `catch` that clears storage. The replay's `_retry` flag is already set, so the interceptor
  only rejects it. `RefreshReplaysOnce` states this outcome: the new tokens stay stored, the
  reply is the replay's, and there is no redirect.
- Login is not all-or-nothing. The token pair is written before the user call.
  When that call fails, the new tokens stay stored next to whatever user entry was there before, and the hook stays unauthenticated.
  `Auth.AuthHook.Login` states this.

## Model

| member | source | states |
|---|---|---|
| `Upload.Rejection` | src/pages/UploadPage.tsx:46-57 | A file is admitted iff its MIME type is exactly the PDF or DOCX string and its size is at most 10485760. A wrong type gives the type alert, whatever the size. A right type that is too large gives the size alert. |
| `Upload.SizeLimitIsInclusive` | src/pages/UploadPage.tsx:53-57 | A file of exactly 10485760 bytes is admitted, and one of 10485761 bytes is refused with the size alert. |
| `Upload.PollStep` | src/pages/UploadPage.tsx:152-198 | One status reply: SUCCESS completes with the task id and FAILURE ends in error with the backend's error string, or 'Неизвестная ошибка' when it is absent or empty. A failed request ends in error with the task id. A non-terminal reply reschedules only while fewer than 60 have been seen, and otherwise ends with the timeout message. |
| `Upload.UploadPoll` | src/pages/UploadPage.tsx:148-201 | The upload poll loop never makes more than 60 requests, nor more requests than there are replies. An unsettled loop leaves progress as it was. A settled loop is completed or error, and carries the task id. |
| `Upload.SkipPending` | src/pages/UploadPage.tsx:176-181 | Each non-terminal reply only increments `attempts`: the run after k of them equals the run from the k-th reply on, shifted by k requests. |
| `Upload.SettlesAtFirstNonPending` | src/pages/UploadPage.tsx:157-197 | The first terminal reply or failed request before the cap decides the outcome, after exactly k+1 requests, and no further request is made. |
| `Upload.TimesOutAfterMaxAttempts` | src/pages/UploadPage.tsx:179-189 | After 60 consecutive non-terminal replies the progress is the timeout error with the task id, and exactly 60 requests were made. |
| `Upload.ThreeStartedThenSuccess` | src/pages/UploadPage.tsx:157-164 | Three STARTED replies and then SUCCESS reach `completed` once, with the same task id, after four requests. |
| `Upload.UploadPage.constructor` | src/pages/UploadPage.tsx:12-19 | The page starts with no file, not uploading, idle progress with an empty message. |
| `Upload.UploadPage.Admit` | src/pages/UploadPage.tsx:46-60 | An admitted file becomes the selection and resets progress to idle with an empty message. A refused file raises its alert and leaves the selection and progress unchanged. |
| `Upload.UploadPage.HandleFileSelect` | src/pages/UploadPage.tsx:40-65 | Only the first chosen file is validated. With no file, nothing changes. |
| `Upload.UploadPage.HandleDrop` | src/pages/UploadPage.tsx:83-107 | Only the first dropped file is validated. With no file, nothing changes. |
| `Upload.UploadPage.ResetUpload` | src/pages/UploadPage.tsx:204-207 | The selection is cleared and progress returns to idle with an empty message. |
| `Upload.UploadPage.PollTaskStatus` | src/pages/UploadPage.tsx:148-202 | The imperative loop, with its `attempts` counter, polls the status service for the given task id. It makes exactly the requests `UploadPoll` makes on that task's replies, and leaves the progress `UploadPoll` computes. |
| `Upload.UploadPage.HandleUpload` | src/pages/UploadPage.tsx:109-146 | With no file or no user, nothing happens. A user without an id gets an alert, and no upload call is made. Otherwise there is one upload call, for the selected file and the user's id. A rejected upload ends in 'Ошибка загрузки' with the error message or the default. An accepted upload polls the task id the upload returned, starting from `processing`. Either way `isUploading` ends false. |
| `Analysis.StatusText` | src/pages/AnalysisPage.tsx:334-345 | The label is 'Неизвестно' exactly when the status is not one of `completed`, `in_progress`, `not_analyzed`. |
| `Analysis.TaskStatusText` | src/pages/AnalysisPage.tsx:347-362 | The label is 'Неизвестно' exactly when the state is none of PENDING, STARTED, PROGRESS, SUCCESS and FAILURE. |
| `Analysis.StatusTextDistinguishesStates` | src/pages/AnalysisPage.tsx:334-345 | Each document analysis state has its own known label, and the map is injective on them. |
| `Analysis.TaskStatusTextDistinguishesStates` | src/pages/AnalysisPage.tsx:347-362 | Each job state has its own known label, and the map is injective on them. |
| `Analysis.EstimatedTime` | src/pages/AnalysisPage.tsx:364-375 | The text reads back as a minutes part and seconds with minutes·60 + seconds = 30·n+10 and seconds < 60. A minutes part appears exactly when the total reaches 60 seconds, and it is then positive. |
| `Analysis.EstimatedTimeExamples` | src/pages/AnalysisPage.tsx:364-375 | Minutes appear only from one minute on: 0 chunks give '10 сек', 1 gives '40 сек', 2 give '1 мин 10 сек' and 5 give '2 мин 40 сек'. |
| `Analysis.NormalizeResult` | src/pages/AnalysisPage.tsx:175-195 | The body is tested as the page tests it: falsy first, then `Array.isArray(result.issues)`, then `Array.isArray(result)`. The outcome is the classification: a falsy body stores nothing, a bare array is stored as `{document_id: docId, issues: array}` with no summary or language, and any object is stored as it is, whatever its `issues` member. |
| `Analysis.NormalizedResultHasIssues` | src/pages/AnalysisPage.tsx:180-192 | A stored result has an issue list exactly when the service sent an array, or an object whose `issues` is an array. A wrapped array carries the page's document id and exactly the array. An object keeps its own document id and summary. |
| `Analysis.LoadStatus` | src/pages/AnalysisPage.tsx:150-164 | A loaded status is stored. The result is requested iff the status has `analyzed` true and state `completed`, and then the stored result is what `StoreResult` makes of the result reply. A failed status call changes nothing. Without a result request the result is unchanged. |
| `Analysis.FindDocument` | src/pages/AnalysisPage.tsx:128-129 | The lookup returns the first document with the route's id, or none exactly when no document has it. |
| `Analysis.AnalysisPoll` | src/pages/AnalysisPage.tsx:284-319 | One request per reply, and every reply before the last one is non-terminal. The loop stops on SUCCESS/FAILURE, which is stored as the task's status, or on a failed request. When the replies run out, all of them were non-terminal. A null task stays null, and the task id never changes. |
| `Analysis.PollingFlagTracksEnd` | src/pages/AnalysisPage.tsx:294-315 | For a polling task, `polling` ends false exactly when the loop stopped: on SUCCESS, on FAILURE, or on an exception. |
| `Analysis.NoAttemptCap` | src/pages/AnalysisPage.tsx:306-308 | Any number of non-terminal replies keeps the loop polling, with one request each and no cap. The latest reply is the stored status. |
| `Analysis.NullTaskStaysNull` | src/pages/AnalysisPage.tsx:289-292 | A null `currentTask` stays null whatever the replies. |
| `Analysis.FailureSurfacesError` | src/pages/AnalysisPage.tsx:287-298 | A FAILURE reply carrying 'OCR failed'-style text reaches the task's status unchanged, polling stops, and one request was made. |
| `Analysis.AnalysisPage.constructor` | src/pages/AnalysisPage.tsx:88-98 | The page starts with no document, status, result or task, Russian as both languages, and the retry dialog closed. |
| `Analysis.AnalysisPage.LoadAnalysisResult` | src/pages/AnalysisPage.tsx:166-204 | The stored result after the result call is the one `NormalizeResult` gives. A failed call or a falsy body leaves it unchanged. |
| `Analysis.AnalysisPage.LoadAnalysisStatus` | src/pages/AnalysisPage.tsx:150-164 | Status, result and whether the result was requested are exactly those of `LoadStatus`. |
| `Analysis.AnalysisPage.OnDocumentsChanged` | src/pages/AnalysisPage.tsx:121-148 | With no route id, or an empty list, nothing changes. A found document is set and its status is loaded. A missing one navigates back to the list. The task, the languages and the retry dialog are never touched. |
| `Analysis.AnalysisPage.PollTaskStatus` | src/pages/AnalysisPage.tsx:284-319 | The loop polls the status service for the given task id. It makes exactly the requests `AnalysisPoll` makes on that task's replies, and leaves its task. The document status is reloaded once, exactly when the loop settled and the route has an id. |
| `Analysis.AnalysisPage.HandleStartAnalysis` | src/pages/AnalysisPage.tsx:206-239 | No call is made, and nothing changes, unless docId, the user and `user.id` are all present. Otherwise the page asks for the selected language with retry=false. On success it polls a fresh `{taskId, status: null, polling: true}` for the task id the service returned. Only the task, the status and the result change. |
| `Analysis.AnalysisPage.HandleRetryAnalysis` | src/pages/AnalysisPage.tsx:241-282 | Same guard, with the retry language and retry=true. On success the previous status and result are discarded before the returned task is polled, and the retry dialog closes. Only the task, the status, the result and the dialog flag change. |
| `Api.SetThenRead` | src/services/api.ts:328-341 | After `setAuthData(a, u)`, `getStoredToken()` is `a.access_token`, the refresh token is `a.refresh_token`, `getStoredUser()` is `u`, and no other key changes. |
| `Api.ClearThenRead` | src/services/api.ts:322-341 | After `clearAuthData()`, the token, the refresh token and the user all read back as null, and no other key changes. |
| `Api.ClearForgetsSet` | src/services/api.ts:322-332 | Clearing after setting leaves exactly what clearing alone leaves. |
| `Api.SetAuthData` | src/services/api.ts:328-332 | The storage becomes `WithAuthData` of the old storage. |
| `Api.ClearAuthData` | src/services/api.ts:322-326 | The storage loses exactly the three session keys. |
| `Api.GetStoredUser` | src/services/api.ts:334-337 | Returns null for a missing or empty entry, and the parse of the stored string otherwise. |
| `Api.GetStoredToken` | src/services/api.ts:339-341 | Returns the stored access token, or null. |
| `Api.UnwrapUser` | src/services/api.ts:167-174 | Returns `data.User` when the body has it, and the body itself otherwise. It returns null only for a null body. |
| `Api.UnwrapEitherShape` | src/services/api.ts:167-174 | A user sent bare or wrapped under `User` comes out the same. |
| `Api.WithBearer` | src/services/api.ts:43-52 | `Authorization` is `Bearer <token>` whenever a non-empty access token is stored, and is left as it was otherwise. The three CORS headers are always set, and no other header changes. |
| `Api.AttachBearer` | src/services/api.ts:42-59 | The request interceptor sets the request's headers to `WithBearer` of the stored token, and leaves `_retry` alone. |
| `Api.DispatchSpec` | src/services/api.ts:66-103 | One request is sent at most twice and refreshed at most once. A second send always follows a refresh. A refresh is made exactly with the stored, non-empty refresh token. A request whose `_retry` is already set is sent once, never refreshed, and leaves storage untouched. |
| `Api.OtherErrorsPassThrough` | src/services/api.ts:72-101 | A rejection other than 401 reaches the caller unchanged, after one send, with no refresh and storage untouched. |
| `Api.NoRefreshTokenNoRefresh` | src/services/api.ts:79-101 | A 401 with no stored refresh token is rejected as it is: no refresh call, no replay, storage unchanged, `_retry` set. |
| `Api.FailedRefreshClearsSession` | src/services/api.ts:79-101 | When the refresh for the stored refresh token fails, `accessToken`, `refreshToken` and `user` are removed, every other key is kept, the page redirects to login, and the original 401 is rejected. |
| `Api.RefreshReplaysOnce` | src/services/api.ts:79-90 | A successful refresh, sent the stored refresh token, stores both new tokens and replays the request exactly once, with `Bearer <new access token>`. The replay's reply is final, even a second 401, which neither refreshes nor clears. |
| `Api.Dispatch` | src/services/api.ts:31-106 | The imperative pair of interceptors, with the recursive replay through the instance, yields exactly what `DispatchSpec` says: reply, storage, headers, `_retry`, sends, refreshes, the refresh token sent and the redirect. |
| `Auth.ErrorMessage` | src/hooks/useAuth.ts:87-90 | The message is the first present of `response.data.detail`, `response.data.message`, `err.message`, and then the fixed default. |
| `Auth.ErrorMessageNeverEmpty` | src/hooks/useAuth.ts:113-116 | With a non-empty default the message shown is never empty. |
| `Auth.LoginThenReloadVerifies` | src/hooks/useAuth.ts:27-80 | After a login that stored a user object and a non-empty token, the next start-up check verifies the session. When the user call answered null, or the token is empty, it does not. |
| `Auth.NoVerifyAfterClear` | src/hooks/useAuth.ts:124-137 | After the session is cleared, the start-up check makes no verification call. |
| `Auth.AuthHook.constructor` | src/hooks/useAuth.ts:17-20 | The hook starts with no user, unauthenticated, loading, with no error. |
| `Auth.AuthHook.CheckAuth` | src/hooks/useAuth.ts:23-54 | The verify call is made iff both a stored user and a truthy token exist. Success sets the unwrapped user and authenticates. A failed verification or an unparsable stored user clears the three keys and leaves the session unauthenticated. `isLoading` ends false on every path. |
| `Auth.AuthHook.Login` | src/hooks/useAuth.ts:56-96 | Both tokens are stored before the user call, which is made with the new access token. Then the user is stored, set, and authenticated. On failure the error is the fallback chain with 'Ошибка входа' and is rethrown. A failed user call leaves the tokens stored. `isLoading` ends false on every path. |
| `Auth.AuthHook.Register` | src/hooks/useAuth.ts:98-122 | On failure the error is the fallback chain with 'Ошибка регистрации' and is rethrown. On success no error is set. `isLoading` ends false, and the session is untouched. |
| `Auth.AuthHook.Logout` | src/hooks/useAuth.ts:124-137 | The server is called only when a refresh token is stored, and is sent that token. Whatever it answers, the session keys are cleared, the user is null, and the hook is unauthenticated. |
| `Auth.AuthHook.ClearError` | src/hooks/useAuth.ts:139-141 | The error becomes null. |

## Left out

- Rendering is not modelled: JSX, icons, CSS classes, the error boundary, the retry dialog's markup, the layout and the router.
  They are presentation.
- The manual API test page, the document list and document view pages, and the `useDocuments`/`useAnalysis` hooks are not modelled.
  The hooks are pass-throughs to the API clients. Their own `isLoading`/`error` state is not part of this model.
- HTTP, axios and the services are not modelled. Each call's outcome is supplied.
  Only the refresh token, the uploaded file and owner id, and the polled task id are tied to their answers.
  The start request is returned as a value. The credentials of login and registration, and the document id of the status and result calls, are not tied to their answers.
  The hook and page methods take the final outcome of a call. They do not compose it with `Api.Dispatch`, which models the interceptors on their own.
- Timers are not modelled. The 5000 ms and 3000 ms intervals appear only as constants.
  Each poll consumes the next reply.
- Concurrency is not modelled: interleaving of independent poll loops, React state batching, and updates from a stale poll loop into a newer `currentTask`.
  On the upload page, `isUploading` really becomes false once the first status request is issued, because the loop is not awaited. The model sets it after the loop, and the final state is the same.
- `window.location.href = '/login'` appears only as the `toLogin` flag of a dispatch. The navigation back to the document list appears only as `redirected`.
- `JSON.stringify`/`JSON.parse` are not modelled. They are the `UserCodec` pair, with `Faithful` as the only assumption, stated as a requirement.
- `parseInt` of the route's document id is not modelled. The id is taken as already parsed, and a non-numeric id (NaN) is not represented.
- `Analysis.NormalizeResult`: a truthy body that is neither an array nor an object, such as a bare string, is stored as it is by the page. `ResultBody` does not represent that case.
- `Analysis.NormalizeResult`: an object whose `issues` member is present but not an array is kept by the page with that value. The stored `AnalysisResult` records it as having no issue list, because it holds either an array or nothing.
- `Auth.ErrorMessage`: a non-string `detail` is not represented. A list of validation errors, for example, would be passed to `setError` as it is.
- `Analysis.EstimatedTime` takes a whole number of chunks. Fractional or negative chunk counts are not modelled. The page calls it only for a truthy chunk count.
- The job-state type admits the four states of the service records. `getTaskStatusText` takes any string, and so does `TaskStatusText`. The upload loop treats every non-terminal state as pending.
- Date formatting, the floating-point MB display and console logging are not modelled.

Both poll loops are modelled over a finite stretch of replies. A loop whose replies run out is still scheduled. This is how an endless analysis poll, or an abandoned page, is represented.
