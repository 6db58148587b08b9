# ATS Resume Analyzer front end — verified model of the screen controllers

This project models the screen-level controllers of a browser front end for an
ATS (applicant tracking system) resume analyzer, and proves properties about them:

- the login and sign-up screens: ordered credential checks, the loading/error
  lifecycle around the authentication request, and the token handed to the
  application on success;
- the application shell: the session token, its persistence rule and the
  route guard that maps a path and the token to a page or a redirect;
- the resume-analysis screen: PDF-only file selection, ordered input checks,
  the analysis run and its log, the display fallbacks for the score, summary
  and improvements, the score colour bands, and the guarded "generate improved
  PDF" action;
- the mock-interview-questions screen: the same lifecycle with a third check
  on years of experience, the trimmed company name, the "no questions in
  response" branch and the total count over eight optional question lists.

Each screen controller is a Dafny `class` whose fields are the component's
state variables. Each asynchronous handler is split at its `await fetch`:

- `BeginX` runs the validation and the state changes made before the request,
  and returns the request it would send, or `None` when validation stops it;
- `SettleX(reply)` runs the continuation, including `catch` and `finally`, for
  a given outcome of the request;
- `HandleX(reply)` is the handler run to completion with no other event in
  between.

The outcome of a request is an input value `Reply`: either the call threw
(with its message), or a response arrived with a status and a body that was
decoded or whose decoding threw. Each `SettleX` method is proved against
specification functions (`AnalyzeError`, `AnalyzeSettleLogs`, `HandedToken`,
…). Their own contracts and lemmas state what the screen promises.

JavaScript semantics are written out where they matter:

- `a || b` on strings (`OrElse`): an empty string falls back;
- `||` on numbers: a score or a year count of 0 falls back;
- `||` on arrays: an empty array is truthy and does not fall back;
- a comparison with `undefined` is false, while `null` compares as 0: an
  absent legacy score never triggers the improved-PDF offer, a null one
  always does, and both are shown red;
- `String.prototype.trim` removes exactly the ECMAScript white-space and
  line-terminator characters;
- the decimal text of a status code.

Consequences of these semantics that a reader might not expect, all of which
the model keeps:

- An empty `overview.improvements` array hides the legacy suggestions: an
  empty array is truthy, so `||` does not fall back to them.
- A `matchScore` of 0 falls back to `atsScore`, since 0 is falsy.
- A years-of-experience text that `parseFloat` reads as NaN passes validation,
  since `NaN <= 0` is false.
- The "analyze another resume" reset clears the result, the file, the job
  description and the log, but not the error, the file id or the busy flags.

## Model

| member | source | states |
|---|---|---|
| Common.OkBody | src/pages/AnalysisPage.jsx:69-76 | a decoded body is available exactly when a response arrived with a 2xx status and its body decoded |
| Common.OrElse | src/pages/AnalysisPage.jsx:71-72 | `s \|\| fallback` is the fallback or the string itself; a non-empty string wins; a non-empty fallback makes the result non-empty |
| Common.TrimStart | src/pages/MockQuestionsPage.jsx:64 | the result is a suffix of the input; everything removed is white space; the result does not start with white space |
| Common.TrimEnd | src/pages/MockQuestionsPage.jsx:64 | the result is a prefix of the input; everything removed is white space; the result does not end with white space |
| Common.Trim | src/pages/MockQuestionsPage.jsx:64 | `trim()` yields a contiguous slice of the input that neither starts nor ends with white space |
| Common.TrimCutsOnlyWhitespace | src/pages/MockQuestionsPage.jsx:64 | everything `trim()` removes before and after that slice is white space, so the trimmed text is the input without its surrounding white space |
| Common.TrimEmptyIffBlank | src/pages/AnalysisPage.jsx:40 | `!s.trim()` holds exactly when every character of `s` is white space |
| Common.TrimIdempotent | src/pages/MockQuestionsPage.jsx:64 | trimming a trimmed company name changes nothing |
| Common.DecimalString | src/pages/AnalysisPage.jsx:67 | the status text is a non-empty string of decimal digits without a leading zero |
| Common.DecimalRoundTrip | src/pages/AnalysisPage.jsx:67 | reading the logged status text back as a decimal number gives the status |
| Auth.AuthException | src/pages/LoginPage.jsx:27-34 | an exception reaches `catch` exactly when no successful decoded reply arrived; a rejected reply raises the server `error` or the fallback; a thrown call and an unreadable body raise their own message |
| Auth.AuthError | src/pages/LoginPage.jsx:33-34 | the error shown is `err.message \|\| fallback` for the caught exception (for a thrown call, an unreadable body and a rejection alike), and empty exactly when nothing was caught |
| Auth.HandedToken | src/pages/LoginPage.jsx:31-32 | a token is handed to `onLogin` exactly when a 2xx reply decoded; it is the reply's `token`, or the empty string when the reply has none |
| Auth.TokenXorError | src/pages/LoginPage.jsx:27-37 | after a settled attempt, either a token was handed on or a non-empty error is shown, never both |
| Login.LoginProblem | src/pages/LoginPage.jsx:15-18 | an attempt is refused exactly when the email or the password is empty, with the missing-credentials message |
| Login.LoginController.constructor | src/pages/LoginPage.jsx:8-11 | the screen starts with empty fields, no error and not loading |
| Login.LoginController.BeginLogin | src/pages/LoginPage.jsx:15-20 | a refused attempt sets only the error and sends nothing; an accepted one sets loading, clears the error and sends the credentials |
| Login.LoginController.SettleLogin | src/pages/LoginPage.jsx:27-37 | loading ends false; the token handed on is `HandedToken`; a failure sets `AuthError` with "Login failed" as the fallback |
| Login.LoginController.HandleLogin | src/pages/LoginPage.jsx:13-38 | a validated attempt ends not loading, with a token handed on exactly when the error is empty |
| Signup.SignupProblem | src/pages/SignupPage.jsx:16-27 | checks in order: a missing field gives the fill-in message, then a password mismatch the mismatch message, then a matching password shorter than 6 the length message; no problem exactly when all fields are filled, the passwords match and the password has at least 6 characters |
| Signup.SignupController.constructor | src/pages/SignupPage.jsx:8-12 | the screen starts with empty fields, no error and not loading |
| Signup.SignupController.BeginSignup | src/pages/SignupPage.jsx:16-35 | a refused attempt sets only the error and sends nothing; an accepted one sets loading, clears the error and sends email and password |
| Signup.SignupController.SettleSignup | src/pages/SignupPage.jsx:36-46 | loading ends false; the token handed on is `HandedToken`; a failure sets `AuthError` with "Signup failed" as the fallback |
| Signup.SignupController.HandleSignup | src/pages/SignupPage.jsx:14-47 | a validated attempt ends not loading, with a token handed on exactly when the error is empty |
| App.InitialToken | src/App.jsx:10 | the initial token is the stored token, or empty when none is stored |
| App.Persist | src/App.jsx:12-18 | the token key is present exactly when the token is non-empty and then holds the token; every other key is unchanged |
| App.PersistRestores | src/App.jsx:10-18 | a token written by the persistence rule is the token read back at the next start |
| App.Route | src/App.jsx:31-47 | `/login` shows the login page and `/signup` the sign-up page exactly when there is no token; `/` shows the analysis page and `/mock-questions` the mock-questions page exactly when there is one; every redirect goes to `/` with a token and `/login` without; no other path shows a page |
| App.RedirectLandsOnPage | src/App.jsx:31-47 | following any redirect once reaches a page, so redirects never chain |
| App.AppState.constructor | src/App.jsx:10-18 | the token is read from storage, and storage then follows the persistence rule |
| App.AppState.PersistToken | src/App.jsx:12-18 | storage becomes `Persist` of the previous storage and the current token |
| App.AppState.HandleLogin | src/App.jsx:20-22 | the token becomes the supplied value and is persisted |
| App.AppState.HandleLogout | src/App.jsx:24-26 | the token becomes empty and the stored token is removed |
| Analysis.AnalyzeProblem | src/pages/AnalysisPage.jsx:35-43 | a run is refused exactly when there is no file or the job description is blank; a missing file is reported first |
| Analysis.AnalyzeException | src/pages/AnalysisPage.jsx:67-81 | an exception reaches `catch` exactly when no 2xx reply with `data` arrived; a thrown call and an unreadable body raise their own message; a rejection raises the server `message` or "Failed to analyze resume"; a 2xx reply whose `data` is absent or null raises the TypeError naming `undefined` or `null` |
| Analysis.AnalyzeError | src/pages/AnalysisPage.jsx:80-82 | an error is set exactly when an exception was caught; it is the caught message, or "An error occurred while analyzing the resume" when that is empty, so never empty; a rejection shows the server message or "Failed to analyze resume" |
| Analysis.AnalyzeData | src/pages/AnalysisPage.jsx:76-79 | a result is stored exactly when no error is set, and it is the reply's `data` |
| Analysis.AnalyzeSettleLogs | src/pages/AnalysisPage.jsx:67-86 | the settle entries start with the status line, their last entry is the completion entry, and the one before it is the caught error or the success entry |
| Analysis.DisplayScore | src/pages/AnalysisPage.jsx:247-248 | the shown score is a non-zero `overview.matchScore`, otherwise `atsScore`, with no number shown when that is absent or null |
| Analysis.DisplaySummary | src/pages/AnalysisPage.jsx:251-252 | the shown summary is a non-empty `overview.summary`, otherwise `summaryOfFit` |
| Analysis.DisplayImprovements | src/pages/AnalysisPage.jsx:321 | the shown improvements are `overview.improvements` when present (even empty), otherwise the first min(3, n) legacy suggestions, otherwise none |
| Analysis.ScoreColor | src/pages/AnalysisPage.jsx:89-93 | green (`#10b981`) exactly at 80 or more, amber (`#f59e0b`) exactly from 60 to 79, red (`#ef4444`) below 60 or when no score is shown |
| Analysis.ScoreColorMonotone | src/pages/AnalysisPage.jsx:89-93 | a higher score never gets a worse colour |
| Analysis.OffersImprovedPdf | src/pages/AnalysisPage.jsx:332 | the improved PDF is offered exactly when `atsScore` is a number below 70 or is null (null compares as 0); an absent `atsScore` never offers it |
| Analysis.StrongMatchScenario | src/pages/AnalysisPage.jsx:76-79 | a 2xx reply carrying only an overview with score 85 and summary "Strong match" is stored without error, shows 85 in green with that summary, and offers no improved PDF |
| Analysis.PdfProblem | src/pages/AnalysisPage.jsx:96-99 | the improved PDF is refused exactly when the file id is absent or empty or no result is stored |
| Analysis.PdfRequestFor | src/pages/AnalysisPage.jsx:111-116 | the request carries the file id and job description, and the result's keyword and suggestion lists, each defaulting to empty |
| Analysis.PdfError | src/pages/AnalysisPage.jsx:119-134 | an error is set exactly when no 2xx response arrived; a thrown call and an unreadable error body show their message, or "An error occurred while generating the improved PDF" when it is empty; a rejection shows the server message or "Failed to generate improved PDF" |
| Analysis.AnalysisController.constructor | src/pages/AnalysisPage.jsx:8-15 | the screen starts with no file, an empty job description, no result, no error, no file id, not busy and an empty log |
| Analysis.AnalysisController.AddLog | src/pages/AnalysisPage.jsx:17-21 | the log grows by exactly the new entry at its end |
| Analysis.AnalysisController.RestartLogs | src/pages/AnalysisPage.jsx:48-58 | the log is cleared and then holds the three start entries |
| Analysis.AnalysisController.HandleFileChange | src/pages/AnalysisPage.jsx:23-32 | a file passing `IsPdf` (present, with MIME type exactly `application/pdf`) is kept and clears the error; anything else clears the file and sets the PDF error |
| Analysis.AnalysisController.BeginAnalyze | src/pages/AnalysisPage.jsx:35-58 | a refused run sets only the error and sends nothing; an accepted one is loading, has no error and no result, and its log is exactly the start entries |
| Analysis.AnalysisController.ReadAnalyzeReply | src/pages/AnalysisPage.jsx:67-79 | the `try` block after the request returns the exception it raised (`AnalyzeException`), appends the response entries (`ResponseLogs`: the status, then the rejection or the parse and success entries), and stores the result and file id of a 2xx reply |
| Analysis.AnalysisController.SettleAnalyze | src/pages/AnalysisPage.jsx:67-86 | loading ends false; the log grows by `AnalyzeSettleLogs`; the error, result and file id follow `AnalyzeError` and `AnalyzeData` |
| Analysis.AnalysisController.HandleAnalyze | src/pages/AnalysisPage.jsx:34-87 | a refused run changes only the error; a validated run ends not loading, its whole log is the start entries then the settle entries, and it holds exactly one of a result and an error |
| Analysis.AnalysisController.BeginGenerateImprovedPdf | src/pages/AnalysisPage.jsx:96-116 | without a file id and a result only the error changes and nothing is sent; otherwise the screen is busy, the error is cleared and `PdfRequestFor` is sent |
| Analysis.AnalysisController.SettleGenerateImprovedPdf | src/pages/AnalysisPage.jsx:119-137 | the busy flag ends cleared whatever the outcome; a failure sets `PdfError` |
| Analysis.AnalysisController.HandleGenerateImprovedPdf | src/pages/AnalysisPage.jsx:95-138 | a refused action sends nothing; a sent one ends not busy with the error `PdfError` |
| Analysis.AnalysisController.Reset | src/pages/AnalysisPage.jsx:230-235 | the result, file, job description and log are cleared |
| MockQuestions.QuestionsProblem | src/pages/MockQuestionsPage.jsx:35-49 | checks in order: no file, a blank job description, then empty years or years read as at most 0; no problem exactly when none of these holds |
| MockQuestions.QuestionsRequestFor | src/pages/MockQuestionsPage.jsx:60-64 | the request carries the file, the job description and the years as typed, and the trimmed company name, which is empty exactly when the typed one is blank |
| MockQuestions.TotalQuestions | src/pages/MockQuestionsPage.jsx:94-102 | the logged total, the sum of the eight optional list lengths, is the number of questions in the set (the length of all eight lists concatenated, an absent list counting as none) |
| MockQuestions.NoQuestionsIffZeroTotal | src/pages/MockQuestionsPage.jsx:94-103 | the logged total is 0 exactly when no list holds a question |
| MockQuestions.ReceivedQuestions | src/pages/MockQuestionsPage.jsx:85-88 | the questions stored are `data.questions` of a decoded 2xx reply, and nothing else |
| MockQuestions.QuestionsException | src/pages/MockQuestionsPage.jsx:76-109 | an exception reaches `catch` exactly when no decoded 2xx reply arrived; a thrown call and an unreadable body raise their own message; a rejection raises the server message or "Failed to generate questions" |
| MockQuestions.QuestionsError | src/pages/MockQuestionsPage.jsx:108-110 | an error is set exactly when no decoded 2xx reply arrived; it is the caught message, or "An error occurred while generating questions" when that is empty, so never empty; never set when questions arrived |
| MockQuestions.ShownYears | src/pages/MockQuestionsPage.jsx:89 | `yearsOfExperience \|\| null`: a non-zero value is kept, 0 or absent becomes absent |
| MockQuestions.QuestionsSettleLogs | src/pages/MockQuestionsPage.jsx:76-113 | the settle entries start with the status line and end with the completion entry; the one before it is the caught error, the question total, or the no-questions warning |
| MockQuestions.MockQuestionsController.constructor | src/pages/MockQuestionsPage.jsx:8-16 | the screen starts with empty inputs, no questions, no years, no error, not loading and an empty log |
| MockQuestions.MockQuestionsController.AddLog | src/pages/MockQuestionsPage.jsx:29-33 | the log grows by exactly the new entry at its end |
| MockQuestions.MockQuestionsController.RestartLogs | src/pages/MockQuestionsPage.jsx:54-66 | the log is cleared and then holds the three start entries |
| MockQuestions.MockQuestionsController.HandleFileChange | src/pages/MockQuestionsPage.jsx:18-27 | a file passing `IsPdf` (present, with MIME type exactly `application/pdf`) is kept and clears the error; anything else clears the file and sets the PDF error |
| MockQuestions.MockQuestionsController.BeginGenerateQuestions | src/pages/MockQuestionsPage.jsx:35-66 | a refused run sets only the error and sends nothing; an accepted one is loading, has no error and no questions, its log is exactly the start entries, and it sends `QuestionsRequestFor` |
| MockQuestions.MockQuestionsController.StoreQuestions | src/pages/MockQuestionsPage.jsx:87-103 | a reply carrying questions stores them and the shown years, and logs the company when named, the success entry and the total |
| MockQuestions.MockQuestionsController.ReadQuestionsReply | src/pages/MockQuestionsPage.jsx:76-107 | the `try` block after the request returns the exception it raised (`QuestionsException`), appends the response entries (`ResponseLogs`: the status, then the rejection, or the parse entry and the received-questions entries or the no-questions warning), and stores the questions and shown years of a reply that carries questions |
| MockQuestions.MockQuestionsController.SettleGenerateQuestions | src/pages/MockQuestionsPage.jsx:76-114 | loading ends false; the log grows by `QuestionsSettleLogs`; error, questions and years follow `QuestionsError`, `ReceivedQuestions` and `ShownYears` |
| MockQuestions.MockQuestionsController.HandleGenerateQuestions | src/pages/MockQuestionsPage.jsx:35-115 | a refused run changes only the error; a validated run ends not loading, its whole log is the start entries then the settle entries, its error and questions are those of the reply, and the shown years are the reply's when it carried questions and unchanged otherwise |
| MockQuestions.MockQuestionsController.Reset | src/pages/MockQuestionsPage.jsx:337-345 | the questions, file, job description, years input, company name, log and shown years are cleared |

## Left out

- Network I/O: `fetch`, `FormData`, `response.json()`, the blob download and the temporary anchor element. The outcome of a request is an input (`Reply`), and the request is returned as a value rather than sent.
- `localStorage`: it is kept as a `map` from key to value, with only the write and remove rule of the token.
- Log timestamps (`toLocaleTimeString`) and `console.log`: a log entry is its message text.
- Rendering: JSX, styling, the overlay's display of the last five log entries, the radar chart (trigonometry on floating point), and the result sections that are only displayed (keywords, skills, gaps, verdict and the like).
- `parseFloat`: its value is a parameter of `BeginGenerateQuestions`, with `None` standing for NaN.
- React Router matching: paths are compared as whole strings. Case-insensitive matching and trailing slashes are not modelled.
- Interleaving: a reply is applied to the state the handler left at its `await`. Two overlapping runs, and a stale reply landing after a newer run began, are not modelled. The source has no guard against this.
- React state batching: each `setX` takes effect at once, which does not change any result here because the handlers never read back a state they set.
- Scores are integers: a fractional score is not modelled.
- Reply bodies are JSON objects with the fields the handlers read. A body that decodes to a non-object value is not modelled.
- Analysis.AnalysisController.SettleGenerateImprovedPdf: a 2xx reply whose blob read fails is treated as success, because the download is outside the model.
- Signup.SignupProblem: password length is counted in characters, not the UTF-16 code units JavaScript's `length` counts.
- Analysis.AnalyzeException: the TypeError raised when a 2xx reply's `data` is absent or null carries the message the V8 engine produces. Other engines word it differently.
- Auth.HandedToken: a 2xx reply without `token` hands on the empty string, which the application treats like the `undefined` the source passes.
