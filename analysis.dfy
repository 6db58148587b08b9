/**
 * The resume-analysis screen's controller (src/pages/AnalysisPage.jsx): PDF
 * selection, the analysis run, the fields the results view resolves from a
 * payload that may use the newer nested names or the legacy flat ones, and the
 * "generate improved PDF" action that depends on a stored result.
 */
module Analysis {
  import opened Common

  const NoResumeMessage := "Please upload a resume PDF"
  const NoJobDescriptionMessage := "Please enter a job description"
  const AnalyzeFailedMessage := "Failed to analyze resume"
  const AnalyzeErrorFallback := "An error occurred while analyzing the resume"
  const MissingContextMessage := "Missing file information. Please re-analyze your resume."
  const PdfFailedMessage := "Failed to generate improved PDF"
  const PdfErrorFallback := "An error occurred while generating the improved PDF"

  const StartLog := "Starting resume analysis..."
  const PrepareLog := "Preparing resume and job description..."
  const UploadLog := "Uploading files to server..."
  const ParseLog := "Parsing analysis results..."
  const SuccessLog := "Analysis completed successfully!"
  const DoneLog := "Analysis process completed."

  /** The entries a run logs before it awaits the server. */
  const StartLogs := [StartLog, PrepareLog, UploadLog]

  function StatusLog(status: nat): string {
    "Server response status: " + DecimalString(status)
  }

  function ErrorLog(message: string): string {
    "Error: " + message
  }

  /** The TypeError a JavaScript engine raises (in V8's wording) when the `data`
      of a successful reply is absent or null and the run reads
      `result.data.fileId`. */
  function MissingDataMessage<T>(data: Field<T>): string {
    "Cannot read properties of " + (if data.Null? then "null" else "undefined") + " (reading 'fileId')"
  }

  // ---------------------------------------------------------------------------
  // Data model

  /** The newer nested `overview` block of an analysis result. */
  datatype Overview = Overview(
    matchScore: Option<int>,
    summary: Option<string>,
    improvements: Option<seq<string>>)

  /** The fields of an analysis result that the controller reads; `atsScore`,
      `summaryOfFit` and `improvementSuggestions` are the legacy flat names. */
  datatype AnalysisResult = AnalysisResult(
    fileId: Option<string>,
    overview: Option<Overview>,
    atsScore: Field<int>,
    summaryOfFit: Option<string>,
    improvementSuggestions: Option<seq<string>>,
    missingKeywords: Option<seq<string>>)

  /** The JSON object the analysis endpoint answers with: `{data}` on success,
      `{message}` with a non-2xx status. */
  datatype AnalyzeBody = AnalyzeBody(message: Option<string>, data: Field<AnalysisResult>)

  /** The JSON error object of the improved-PDF endpoint. */
  datatype MessageBody = MessageBody(message: Option<string>)

  /** The multipart analysis request `{resume, jobDescription}`. */
  datatype AnalyzeRequest = AnalyzeRequest(resume: File, jobDescription: string)

  /** The JSON improved-PDF request. */
  datatype PdfRequest = PdfRequest(
    fileId: string,
    missingKeywords: seq<string>,
    improvementSuggestions: seq<string>,
    jobDescription: string)

  // ---------------------------------------------------------------------------
  // Validation

  /** The first reason an analysis may not start: no resume, then a job
      description made only of whitespace (`!jobDescription.trim()`, see
      Common.TrimEmptyIffBlank). */
  function AnalyzeProblem(resume: Option<File>, jobDescription: string): (r: Option<string>)
    ensures r.None? <==> resume.Some? && !IsBlank(jobDescription)
    ensures resume.None? ==> r == Some(NoResumeMessage)
    ensures resume.Some? && r.Some? ==> r == Some(NoJobDescriptionMessage)
  {
    if resume.None? then Some(NoResumeMessage)
    else if IsBlank(jobDescription) then Some(NoJobDescriptionMessage)
    else None
  }

  // ---------------------------------------------------------------------------
  // How a run settles

  /** The message of the exception that reaches the run's `catch` block, or
      None when the run stores a result: a rejected fetch, an unreadable body,
      the server's rejection, or a successful reply without `data`. */
  function AnalyzeException(reply: Reply<AnalyzeBody>): (r: Option<string>)
    ensures r.None? <==> OkBody(reply).Some? && OkBody(reply).value.data.Defined?
    ensures reply.Thrown? ==> r == Some(reply.message)
    ensures reply.Replied? && reply.body.Unparsable? ==> r == Some(reply.body.message)
    ensures reply.Replied? && !IsOk(reply.status) && reply.body.Parsed? ==>
              r == Some(OrElse(reply.body.value.message, AnalyzeFailedMessage))
    ensures OkBody(reply).Some? && !OkBody(reply).value.data.Defined? ==>
              r == Some(MissingDataMessage(OkBody(reply).value.data))
  {
    match reply
    case Thrown(m) => Some(m)
    case Replied(status, body) =>
      match body
      case Unparsable(m) => Some(m)
      case Parsed(b) =>
        if !IsOk(status) then Some(OrElse(b.message, AnalyzeFailedMessage))
        else if !b.data.Defined? then Some(MissingDataMessage(b.data))
        else None
  }

  /** The error a settled run shows, None when it succeeded: the caught
      message, or the catch block's default when that message is empty. A
      rejection shows the server's message, or the fixed default when the
      server gave none. */
  function AnalyzeError(reply: Reply<AnalyzeBody>): (e: Option<string>)
    ensures e.None? <==> AnalyzeException(reply).None?
    ensures e.Some? ==> e.value != ""
    ensures AnalyzeException(reply).Some? ==> e == Some(OrElse(AnalyzeException(reply), AnalyzeErrorFallback))
    ensures reply.Thrown? ==> e == Some(OrElse(Some(reply.message), AnalyzeErrorFallback))
    ensures reply.Replied? && !IsOk(reply.status) && reply.body.Parsed? ==>
              e == Some(OrElse(reply.body.value.message, AnalyzeFailedMessage))
  {
    match AnalyzeException(reply)
    case None => None
    case Some(m) => Some(OrElse(Some(m), AnalyzeErrorFallback))
  }

  /** The result a settled run stores: the `data` of a successful reply. A run
      ends with exactly one of a result and an error. */
  function AnalyzeData(reply: Reply<AnalyzeBody>): (d: Option<AnalysisResult>)
    ensures d.Some? <==> AnalyzeError(reply).None?
    ensures d.Some? ==> OkBody(reply).Some? && OkBody(reply).value.data == Defined(d.value)
  {
    if OkBody(reply).Some? && OkBody(reply).value.data.Defined? then Some(OkBody(reply).value.data.value) else None
  }

  /** What the `try` block logs once the fetch has returned. */
  function ResponseLogs(reply: Reply<AnalyzeBody>): seq<string> {
    match reply
    case Thrown(_) => []
    case Replied(status, body) =>
      [StatusLog(status)] +
      if !IsOk(status) then
        (match body
         case Parsed(b) => [ErrorLog(OrElse(b.message, AnalyzeFailedMessage))]
         case Unparsable(_) => [])
      else
        [ParseLog] + (if body.Parsed? then [SuccessLog] else [])
  }

  /** The entries a run appends after its request was issued: the status, the
      failure it caught if any, and always the completion entry last. */
  function AnalyzeSettleLogs(reply: Reply<AnalyzeBody>): (logs: seq<string>)
    ensures |logs| >= 2 && logs[|logs| - 1] == DoneLog
    ensures reply.Replied? ==> logs[0] == StatusLog(reply.status)
    ensures AnalyzeException(reply).Some? ==> logs[|logs| - 2] == ErrorLog(AnalyzeException(reply).value)
    ensures AnalyzeException(reply).None? ==> logs[|logs| - 2] == SuccessLog
  {
    ResponseLogs(reply)
    + (match AnalyzeException(reply) case None => [] case Some(m) => [ErrorLog(m)])
    + [DoneLog]
  }

  // ---------------------------------------------------------------------------
  // Field resolution for the results view

  /** `overview?.matchScore || atsScore`: the nested score when it is present
      and non-zero, otherwise the legacy score (JavaScript's `||` treats 0 as
      absent, so a nested score of 0 falls back too). A legacy score that is
      absent or null shows no number, and `getScoreColor` treats both alike. */
  function DisplayScore(r: AnalysisResult): (s: Option<int>)
    ensures r.overview.Some? && r.overview.value.matchScore.Some? && r.overview.value.matchScore.value != 0 ==>
              s == r.overview.value.matchScore
    ensures r.overview.None? || r.overview.value.matchScore.None? || r.overview.value.matchScore == Some(0) ==>
              (s.Some? <==> r.atsScore.Defined?) && (s.Some? ==> s.value == r.atsScore.value)
  {
    if r.overview.Some? && r.overview.value.matchScore.Some? && r.overview.value.matchScore.value != 0
    then r.overview.value.matchScore
    else if r.atsScore.Defined? then Some(r.atsScore.value)
    else None
  }

  /** `overview?.summary || summaryOfFit`: the nested summary when non-empty,
      otherwise the legacy one. */
  function DisplaySummary(r: AnalysisResult): (s: Option<string>)
    ensures r.overview.Some? && r.overview.value.summary.Some? && r.overview.value.summary.value != "" ==>
              s == r.overview.value.summary
    ensures r.overview.None? || r.overview.value.summary.None? || r.overview.value.summary == Some("") ==>
              s == r.summaryOfFit
  {
    if r.overview.Some? && r.overview.value.summary.Some? && r.overview.value.summary.value != ""
    then r.overview.value.summary
    else r.summaryOfFit
  }

  function Min(a: int, b: int): int {
    if a <= b then a else b
  }

  /** `overview?.improvements || improvementSuggestions?.slice(0, 3) || []`. A
      present nested list wins even when empty (an array is truthy in
      JavaScript); otherwise the first three legacy suggestions; otherwise
      nothing. */
  function DisplayImprovements(r: AnalysisResult): (shown: seq<string>)
    ensures r.overview.Some? && r.overview.value.improvements.Some? ==> shown == r.overview.value.improvements.value
    ensures (r.overview.None? || r.overview.value.improvements.None?) && r.improvementSuggestions.Some? ==>
              shown <= r.improvementSuggestions.value &&
              |shown| == Min(3, |r.improvementSuggestions.value|)
    ensures (r.overview.None? || r.overview.value.improvements.None?) && r.improvementSuggestions.None? ==>
              shown == []
  {
    if r.overview.Some? && r.overview.value.improvements.Some? then r.overview.value.improvements.value
    else if r.improvementSuggestions.Some? then
      var s := r.improvementSuggestions.value;
      s[..Min(3, |s|)]
    else []
  }

  /** The colour bands of a score: `#10b981` (green), `#f59e0b` (amber) and
      `#ef4444` (red). */
  datatype Color = Green | Amber | Red {
    /** The order of the bands, worst first. */
    function Rank(): nat {
      match this
      case Red => 0
      case Amber => 1
      case Green => 2
    }
  }

  /** `getScoreColor`: green from 80, amber from 60, red below 60 and for an
      absent score (a comparison with `undefined` is false, and `null` compares
      as 0). */
  function ScoreColor(score: Option<int>): (c: Color)
    ensures c == Green <==> score.Some? && score.value >= 80
    ensures c == Amber <==> score.Some? && 60 <= score.value < 80
    ensures c == Red <==> score.None? || score.value < 60
  {
    if score.Some? && score.value >= 80 then Green
    else if score.Some? && score.value >= 60 then Amber
    else Red
  }

  /** A higher score never gets a worse colour. */
  lemma ScoreColorMonotone(a: int, b: int)
    requires a <= b
    ensures ScoreColor(Some(a)).Rank() <= ScoreColor(Some(b)).Rank()
  {
  }

  /** `analysisResult.atsScore < 70`: whether the results view offers the
      improved PDF. Only the legacy score is consulted, so a result carrying
      only the nested score never offers it; a null score compares as 0 and is
      offered. */
  function OffersImprovedPdf(r: AnalysisResult): (offered: bool)
    ensures offered <==> r.atsScore.Null? || (r.atsScore.Defined? && r.atsScore.value < 70)
    ensures r.atsScore.Undefined? ==> !offered
    ensures r.atsScore.Null? ==> offered
  {
    match r.atsScore
    case Undefined => false
    case Null => 0 < 70
    case Defined(score) => score < 70
  }

  /** A successful reply whose result carries only the nested overview settles
      the run with that result, shows its score of 85 in green and its summary,
      and does not offer the improved PDF. */
  lemma StrongMatchScenario()
    ensures var result := AnalysisResult(None, Some(Overview(Some(85), Some("Strong match"), None)),
                                         Undefined, None, None, None);
            var reply := Replied(200, Parsed(AnalyzeBody(None, Defined(result))));
            && AnalyzeData(reply) == Some(result) && AnalyzeError(reply).None?
            && DisplayScore(result) == Some(85) && ScoreColor(DisplayScore(result)) == Green
            && DisplaySummary(result) == Some("Strong match") && DisplayImprovements(result) == []
            && !OffersImprovedPdf(result)
  {
  }

  // ---------------------------------------------------------------------------
  // The improved-PDF action

  /** Why the improved PDF cannot be requested: no (or an empty) file id, or no
      stored result. */
  function PdfProblem(fileId: Option<string>, result: Option<AnalysisResult>): (r: Option<string>)
    ensures r.None? <==> fileId.Some? && fileId.value != "" && result.Some?
    ensures r.Some? ==> r.value == MissingContextMessage
  {
    if fileId.None? || fileId.value == "" || result.None? then Some(MissingContextMessage) else None
  }

  /** The improved-PDF request built from a stored result: absent keyword and
      suggestion lists are sent as empty lists. */
  function PdfRequestFor(fileId: string, result: AnalysisResult, jobDescription: string): (q: PdfRequest)
    ensures q.fileId == fileId && q.jobDescription == jobDescription
    ensures result.missingKeywords.Some? ==> q.missingKeywords == result.missingKeywords.value
    ensures result.missingKeywords.None? ==> q.missingKeywords == []
    ensures result.improvementSuggestions.Some? ==> q.improvementSuggestions == result.improvementSuggestions.value
    ensures result.improvementSuggestions.None? ==> q.improvementSuggestions == []
  {
    PdfRequest(
      fileId,
      if result.missingKeywords.Some? then result.missingKeywords.value else [],
      if result.improvementSuggestions.Some? then result.improvementSuggestions.value else [],
      jobDescription)
  }

  /** The error a settled improved-PDF request shows, None when the PDF was
      handed to the download: a rejected fetch, an unreadable error body, or the
      server's message (or the default) for a non-2xx status. */
  function PdfError(reply: Reply<MessageBody>): (e: Option<string>)
    ensures e.None? <==> reply.Replied? && IsOk(reply.status)
    ensures e.Some? ==> e.value != ""
    ensures reply.Replied? && !IsOk(reply.status) && reply.body.Parsed? ==>
              e == Some(OrElse(reply.body.value.message, PdfFailedMessage))
    ensures reply.Thrown? ==> e == Some(OrElse(Some(reply.message), PdfErrorFallback))
    ensures reply.Replied? && !IsOk(reply.status) && reply.body.Unparsable? ==>
              e == Some(OrElse(Some(reply.body.message), PdfErrorFallback))
  {
    match reply
    case Thrown(m) => Some(OrElse(Some(m), PdfErrorFallback))
    case Replied(status, body) =>
      if IsOk(status) then None
      else
        match body
        case Parsed(b) => Some(OrElse(Some(OrElse(b.message, PdfFailedMessage)), PdfErrorFallback))
        case Unparsable(m) => Some(OrElse(Some(m), PdfErrorFallback))
  }

  // ---------------------------------------------------------------------------
  // The controller

  class AnalysisController {
    var resumeFile: Option<File>
    var jobDescription: string
    var loading: bool
    var analysisResult: Option<AnalysisResult>
    var error: Option<string>
    var generatingPdf: bool
    var fileId: Option<string>
    var logs: seq<string>

    constructor ()
      ensures resumeFile.None? && jobDescription == "" && !loading && analysisResult.None?
      ensures error.None? && !generatingPdf && fileId.None? && logs == []
    {
      resumeFile, jobDescription, loading, analysisResult := None, "", false, None;
      error, generatingPdf, fileId, logs := None, false, None, [];
    }

    /** `addLog`: append one entry. */
    method AddLog(message: string)
      modifies this`logs
      ensures logs == old(logs) + [message]
    {
      logs := logs + [message];
    }

    /** The log of a run that starts: cleared, then the entries written before
        the request is sent. */
    method RestartLogs()
      modifies this`logs
      ensures logs == StartLogs
    {
      logs := [];
      AddLog(StartLog);
      AddLog(PrepareLog);
      AddLog(UploadLog);
    }

    /** `handleFileChange`: keep the selection only if it is a PDF. */
    method HandleFileChange(selected: Option<File>)
      modifies this`resumeFile, this`error
      ensures IsPdf(selected) ==> resumeFile == selected && error.None?
      ensures !IsPdf(selected) ==> resumeFile.None? && error == Some(NotPdfMessage)
    {
      if selected.Some? && selected.value.mimeType == PdfMimeType {
        resumeFile := selected;
        error := None;
      } else {
        error := Some(NotPdfMessage);
        resumeFile := None;
      }
    }

    /** `handleAnalyze` up to its `await fetch`: returns the request it sends,
        or None when validation stops it, in which case only the error changes.
        A run that starts clears the error, the result and the log before its
        first entry. */
    method BeginAnalyze() returns (request: Option<AnalyzeRequest>)
      modifies this`loading, this`error, this`analysisResult, this`logs
      ensures AnalyzeProblem(resumeFile, jobDescription).Some? ==>
                request.None? && error == AnalyzeProblem(resumeFile, jobDescription) &&
                loading == old(loading) && analysisResult == old(analysisResult) && logs == old(logs)
      ensures AnalyzeProblem(resumeFile, jobDescription).None? ==>
                request == Some(AnalyzeRequest(resumeFile.value, jobDescription)) &&
                loading && error.None? && analysisResult.None? && logs == StartLogs
    {
      if resumeFile.None? {
        error := Some(NoResumeMessage);
        return None;
      }
      if IsBlank(jobDescription) {
        error := Some(NoJobDescriptionMessage);
        return None;
      }
      loading := true;
      error := None;
      analysisResult := None;
      RestartLogs();
      request := Some(AnalyzeRequest(resumeFile.value, jobDescription));
    }

    /** The `try` block after the request returned: logs the status, reads the
        body, stores the result of a successful reply and its file id, and hands
        back the message of the exception it raised, if any. */
    method ReadAnalyzeReply(reply: Reply<AnalyzeBody>) returns (thrown: Option<string>)
      modifies this`analysisResult, this`fileId, this`logs
      ensures thrown == AnalyzeException(reply)
      ensures logs == old(logs) + ResponseLogs(reply)
      ensures analysisResult == if OkBody(reply).Some? then AnalyzeData(reply) else old(analysisResult)
      ensures fileId == if AnalyzeData(reply).Some? then AnalyzeData(reply).value.fileId else old(fileId)
    {
      thrown := None;
      match reply {
        case Thrown(m) =>
          thrown := Some(m);
        case Replied(status, body) =>
          AddLog(StatusLog(status));
          if !IsOk(status) {
            match body {
              case Unparsable(m) =>
                thrown := Some(m);
              case Parsed(errorData) =>
                var message := OrElse(errorData.message, AnalyzeFailedMessage);
                AddLog(ErrorLog(message));
                thrown := Some(message);
            }
          } else {
            AddLog(ParseLog);
            match body {
              case Unparsable(m) =>
                thrown := Some(m);
              case Parsed(result) =>
                AddLog(SuccessLog);
                if result.data.Defined? {
                  analysisResult := Some(result.data.value);
                  fileId := result.data.value.fileId;
                } else {
                  analysisResult := None;
                  thrown := Some(MissingDataMessage(result.data));
                }
            }
          }
      }
    }

    /** `handleAnalyze` after its `await fetch`, through `catch` and `finally`:
        the log only grows, loading ends false, and the run stores either the
        reply's result (with its file id) or an error. */
    method SettleAnalyze(reply: Reply<AnalyzeBody>)
      modifies this`loading, this`error, this`analysisResult, this`fileId, this`logs
      ensures !loading
      ensures logs == old(logs) + AnalyzeSettleLogs(reply)
      ensures error == if AnalyzeError(reply).Some? then AnalyzeError(reply) else old(error)
      ensures analysisResult == if OkBody(reply).Some? then AnalyzeData(reply) else old(analysisResult)
      ensures fileId == if AnalyzeData(reply).Some? then AnalyzeData(reply).value.fileId else old(fileId)
    {
      var thrown := ReadAnalyzeReply(reply);
      if thrown.Some? {
        AddLog(ErrorLog(thrown.value));
        error := Some(OrElse(thrown, AnalyzeErrorFallback));
      }
      loading := false;
      AddLog(DoneLog);
    }

    /** `handleAnalyze` run to completion with no other event in between: a
        validated run ends not loading, with the start entries followed by the
        settle entries as its whole log, and with exactly one of a result and an
        error. */
    method HandleAnalyze(reply: Reply<AnalyzeBody>) returns (request: Option<AnalyzeRequest>)
      modifies this`loading, this`error, this`analysisResult, this`fileId, this`logs
      ensures AnalyzeProblem(resumeFile, jobDescription).Some? ==>
                request.None? && error == AnalyzeProblem(resumeFile, jobDescription) &&
                loading == old(loading) && analysisResult == old(analysisResult) &&
                fileId == old(fileId) && logs == old(logs)
      ensures AnalyzeProblem(resumeFile, jobDescription).None? ==>
                request == Some(AnalyzeRequest(resumeFile.value, jobDescription)) && !loading &&
                logs == StartLogs + AnalyzeSettleLogs(reply) &&
                error == AnalyzeError(reply) && analysisResult == AnalyzeData(reply) &&
                fileId == (if AnalyzeData(reply).Some? then AnalyzeData(reply).value.fileId else old(fileId))
    {
      request := BeginAnalyze();
      if request.Some? {
        SettleAnalyze(reply);
      }
    }

    /** `handleGenerateImprovedPdf` up to its `await fetch`: returns the request
        it sends, or None without a file id and a stored result, in which case
        only the error changes. */
    method BeginGenerateImprovedPdf() returns (request: Option<PdfRequest>)
      modifies this`generatingPdf, this`error
      ensures PdfProblem(fileId, analysisResult).Some? ==>
                request.None? && error == PdfProblem(fileId, analysisResult) &&
                generatingPdf == old(generatingPdf)
      ensures PdfProblem(fileId, analysisResult).None? ==>
                generatingPdf && error.None? &&
                request == Some(PdfRequestFor(fileId.value, analysisResult.value, jobDescription))
    {
      if fileId.None? || fileId.value == "" || analysisResult.None? {
        error := Some(MissingContextMessage);
        return None;
      }
      generatingPdf := true;
      error := None;
      var result := analysisResult.value;
      request := Some(PdfRequest(
        fileId.value,
        if result.missingKeywords.Some? then result.missingKeywords.value else [],
        if result.improvementSuggestions.Some? then result.improvementSuggestions.value else [],
        jobDescription));
    }

    /** `handleGenerateImprovedPdf` after its `await fetch`: the busy flag is
        cleared whatever the outcome, and a failure sets the error. */
    method SettleGenerateImprovedPdf(reply: Reply<MessageBody>)
      modifies this`generatingPdf, this`error
      ensures !generatingPdf
      ensures error == if PdfError(reply).Some? then PdfError(reply) else old(error)
    {
      var thrown: Option<string> := None;
      match reply {
        case Thrown(m) =>
          thrown := Some(m);
        case Replied(status, body) =>
          if !IsOk(status) {
            match body {
              case Unparsable(m) =>
                thrown := Some(m);
              case Parsed(errorData) =>
                thrown := Some(OrElse(errorData.message, PdfFailedMessage));
            }
          }
      }
      if thrown.Some? {
        error := Some(OrElse(thrown, PdfErrorFallback));
      }
      generatingPdf := false;
    }

    /** `handleGenerateImprovedPdf` run to completion: no request without a
        file id and a stored result; otherwise the busy flag ends cleared and
        the error is the reply's, if it failed. */
    method HandleGenerateImprovedPdf(reply: Reply<MessageBody>) returns (request: Option<PdfRequest>)
      modifies this`generatingPdf, this`error
      ensures PdfProblem(fileId, analysisResult).Some? ==>
                request.None? && error == PdfProblem(fileId, analysisResult) &&
                generatingPdf == old(generatingPdf)
      ensures PdfProblem(fileId, analysisResult).None? ==>
                !generatingPdf && error == PdfError(reply) &&
                request == Some(PdfRequestFor(fileId.value, analysisResult.value, jobDescription))
    {
      request := BeginGenerateImprovedPdf();
      if request.Some? {
        SettleGenerateImprovedPdf(reply);
      }
    }

    /** "Analyze Another Resume": drop the result, the file, the job description
        and the log. The error, the file id and the busy flags are kept. */
    method Reset()
      modifies this`analysisResult, this`resumeFile, this`jobDescription, this`logs
      ensures analysisResult.None? && resumeFile.None? && jobDescription == "" && logs == []
    {
      analysisResult := None;
      resumeFile := None;
      jobDescription := "";
      logs := [];
    }
  }
}
