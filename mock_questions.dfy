/**
 * The mock-interview-question screen's controller
 * (src/pages/MockQuestionsPage.jsx): PDF selection, three ordered input
 * checks, the generation run, and the count of questions in a reply.
 */
module MockQuestions {
  import opened Common

  const NoResumeMessage := "Please upload a resume PDF"
  const NoJobDescriptionMessage := "Please enter a job description"
  const BadYearsMessage := "Please enter a valid years of experience (greater than 0)"
  const QuestionsFailedMessage := "Failed to generate questions"
  const QuestionsErrorFallback := "An error occurred while generating questions"

  const StartLog := "Starting question generation..."
  const UploadLog := "Uploading resume and job description..."
  const SendLog := "Sending request to server..."
  const ParseLog := "Parsing response..."
  const SuccessLog := "Questions generated successfully!"
  const NoQuestionsLog := "Warning: No questions in response"
  const DoneLog := "Question generation process completed."

  /** The entries a run logs before it awaits the server. */
  const StartLogs := [StartLog, UploadLog, SendLog]

  function StatusLog(status: nat): string {
    "Server response status: " + DecimalString(status)
  }

  function ErrorLog(message: string): string {
    "Error: " + message
  }

  function CompanyLog(company: string): string {
    "Company identified: " + company
  }

  function TotalLog(total: nat): string {
    "Total questions: " + DecimalString(total)
  }

  // ---------------------------------------------------------------------------
  // Data model

  /** Questions of one source category, by difficulty; any list may be absent. */
  datatype Tiers = Tiers(easy: Option<seq<string>>, medium: Option<seq<string>>, hard: Option<seq<string>>)

  /** The algorithm and system-design category. */
  datatype DsaSection = DsaSection(dsa: Option<seq<string>>, systemDesign: Option<seq<string>>)

  /** The question set of a reply; each category may be absent. */
  datatype QuestionSet = QuestionSet(
    jobDescriptionBased: Option<Tiers>,
    resumeBased: Option<Tiers>,
    dsaAndSystemDesign: Option<DsaSection>,
    companyName: Option<string>)

  /** The `data` object of a successful reply. */
  datatype QuestionsData = QuestionsData(questions: Option<QuestionSet>, yearsOfExperience: Option<real>)

  /** The JSON object the endpoint answers with: `{data}` on success,
      `{message}` with a non-2xx status. */
  datatype QuestionsBody = QuestionsBody(message: Option<string>, data: Option<QuestionsData>)

  /** The multipart request `{resume, jobDescription, yearsOfExperience,
      companyName}`; the years are sent as typed. */
  datatype QuestionsRequest = QuestionsRequest(
    resume: File,
    jobDescription: string,
    yearsOfExperience: string,
    companyName: string)

  // ---------------------------------------------------------------------------
  // Validation

  /** The first reason a generation may not start, checked in order: no resume,
      a blank job description, then a years field that is empty or whose
      `parseFloat` value is at most 0. `parsedYears` is that value, None for
      NaN, which the check `parseFloat(...) <= 0` lets through. */
  function QuestionsProblem(resume: Option<File>, jobDescription: string, yearsInput: string,
                            parsedYears: Option<real>): (r: Option<string>)
    ensures r.None? <==>
              resume.Some? && !IsBlank(jobDescription) && yearsInput != "" &&
              !(parsedYears.Some? && parsedYears.value <= 0.0)
    ensures resume.None? ==> r == Some(NoResumeMessage)
    ensures resume.Some? && IsBlank(jobDescription) ==> r == Some(NoJobDescriptionMessage)
    ensures resume.Some? && !IsBlank(jobDescription) && r.Some? ==> r == Some(BadYearsMessage)
  {
    if resume.None? then Some(NoResumeMessage)
    else if IsBlank(jobDescription) then Some(NoJobDescriptionMessage)
    else if yearsInput == "" || (parsedYears.Some? && parsedYears.value <= 0.0) then Some(BadYearsMessage)
    else None
  }

  /** The request a validated run sends: the company name trimmed, which leaves
      it without leading or trailing whitespace. */
  function QuestionsRequestFor(resume: File, jobDescription: string, yearsInput: string,
                               companyName: string): (q: QuestionsRequest)
    ensures q.resume == resume && q.jobDescription == jobDescription && q.yearsOfExperience == yearsInput
    ensures q.companyName == Trim(companyName)
    ensures q.companyName != "" ==>
              !IsWhitespace(q.companyName[0]) && !IsWhitespace(q.companyName[|q.companyName| - 1])
    ensures q.companyName == "" <==> IsBlank(companyName)
  {
    TrimEmptyIffBlank(companyName);
    QuestionsRequest(resume, jobDescription, yearsInput, Trim(companyName))
  }

  // ---------------------------------------------------------------------------
  // Counting questions

  /** `list?.length || 0`. */
  function Count(list: Option<seq<string>>): nat {
    if list.Some? then |list.value| else 0
  }

  function TiersCount(t: Option<Tiers>): nat {
    if t.Some? then Count(t.value.easy) + Count(t.value.medium) + Count(t.value.hard) else 0
  }

  function DsaCount(d: Option<DsaSection>): nat {
    if d.Some? then Count(d.value.dsa) + Count(d.value.systemDesign) else 0
  }


  /** A present list's questions, none for an absent one: as many as `Count`
      reports. */
  function Items(list: Option<seq<string>>): (items: seq<string>)
    ensures |items| == Count(list)
  {
    if list.Some? then list.value else []
  }

  function TiersItems(t: Option<Tiers>): seq<string> {
    if t.Some? then Items(t.value.easy) + Items(t.value.medium) + Items(t.value.hard) else []
  }

  function DsaItems(d: Option<DsaSection>): seq<string> {
    if d.Some? then Items(d.value.dsa) + Items(d.value.systemDesign) else []
  }

  /** Every question of a set, in the order the results view lists them. */
  function AllQuestions(q: QuestionSet): seq<string> {
    TiersItems(q.jobDescriptionBased) + TiersItems(q.resumeBased) + DsaItems(q.dsaAndSystemDesign)
  }

  /** The logged total: the sum of the lengths of the eight optional lists,
      which is the number of questions the set holds. */
  function TotalQuestions(q: QuestionSet): (total: nat)
    ensures total == |AllQuestions(q)|
  {
    TiersCount(q.jobDescriptionBased) + TiersCount(q.resumeBased) + DsaCount(q.dsaAndSystemDesign)
  }

  /** The logged total is 0 exactly when no list holds a question. */
  lemma NoQuestionsIffZeroTotal(q: QuestionSet)
    ensures TotalQuestions(q) == 0 <==> AllQuestions(q) == []
  {
  }

  // ---------------------------------------------------------------------------
  // How a run settles

  /** The question set a successful reply carries, if any (`data?.questions`). */
  function ReceivedQuestions(reply: Reply<QuestionsBody>): (q: Option<QuestionSet>)
    ensures q.Some? ==> OkBody(reply).Some? && OkBody(reply).value.data.Some? &&
                        OkBody(reply).value.data.value.questions == q
    ensures OkBody(reply).Some? && OkBody(reply).value.data.Some? ==>
              q == OkBody(reply).value.data.value.questions
  {
    match OkBody(reply)
    case None => None
    case Some(b) => if b.data.Some? then b.data.value.questions else None
  }

  /** The message of the exception that reaches the run's `catch` block, or
      None when the reply was read, whether or not it carried questions. */
  function QuestionsException(reply: Reply<QuestionsBody>): (r: Option<string>)
    ensures r.None? <==> OkBody(reply).Some?
    ensures reply.Thrown? ==> r == Some(reply.message)
    ensures reply.Replied? && reply.body.Unparsable? ==> r == Some(reply.body.message)
    ensures reply.Replied? && !IsOk(reply.status) && reply.body.Parsed? ==>
              r == Some(OrElse(reply.body.value.message, QuestionsFailedMessage))
  {
    match reply
    case Thrown(m) => Some(m)
    case Replied(status, body) =>
      match body
      case Unparsable(m) => Some(m)
      case Parsed(b) => if IsOk(status) then None else Some(OrElse(b.message, QuestionsFailedMessage))
  }

  /** The error a settled run shows, None when the reply was read: the caught
      message, or the catch block's default when that message is empty. A
      reply without questions is not an error. */
  function QuestionsError(reply: Reply<QuestionsBody>): (e: Option<string>)
    ensures e.None? <==> OkBody(reply).Some?
    ensures e.Some? ==> e.value != ""
    ensures QuestionsException(reply).Some? ==> e == Some(OrElse(QuestionsException(reply), QuestionsErrorFallback))
    ensures reply.Thrown? ==> e == Some(OrElse(Some(reply.message), QuestionsErrorFallback))
    ensures ReceivedQuestions(reply).Some? ==> e.None?
    ensures reply.Replied? && !IsOk(reply.status) && reply.body.Parsed? ==>
              e == Some(OrElse(reply.body.value.message, QuestionsFailedMessage))
  {
    match QuestionsException(reply)
    case None => None
    case Some(m) => Some(OrElse(Some(m), QuestionsErrorFallback))
  }

  /** `data.yearsOfExperience || null`: 0 is shown as absent. */
  function ShownYears(years: Option<real>): (y: Option<real>)
    ensures y.Some? ==> years == y && y.value != 0.0
    ensures years.Some? && years.value != 0.0 ==> y == years
  {
    if years.Some? && years.value != 0.0 then years else None
  }

  /** The years shown once a run settles: the reply's, when it carried
      questions, and otherwise `shown`, the ones shown before. */
  function YearsAfter(reply: Reply<QuestionsBody>, shown: Option<real>): Option<real> {
    if ReceivedQuestions(reply).Some? then ShownYears(OkBody(reply).value.data.value.yearsOfExperience) else shown
  }

  /** What the `try` block logs once the fetch has returned. */
  function ResponseLogs(reply: Reply<QuestionsBody>): seq<string> {
    match reply
    case Thrown(_) => []
    case Replied(status, body) =>
      [StatusLog(status)] +
      if !IsOk(status) then
        (match body
         case Parsed(b) => [ErrorLog(OrElse(b.message, QuestionsFailedMessage))]
         case Unparsable(_) => [])
      else
        [ParseLog] +
        match body
        case Unparsable(_) => []
        case Parsed(_) =>
          match ReceivedQuestions(reply)
          case None => [NoQuestionsLog]
          case Some(q) => ReceivedLogs(q)
  }

  /** The entries logged for a received question set: the company it was
      tailored to when one is named, the success entry and the total. */
  function ReceivedLogs(q: QuestionSet): seq<string> {
    (if q.companyName.Some? && q.companyName.value != "" then [CompanyLog(q.companyName.value)] else [])
    + [SuccessLog, TotalLog(TotalQuestions(q))]
  }

  /** The entries a run appends after its request was issued: the status, the
      question total or the no-questions warning, the failure it caught if any,
      and always the completion entry last. */
  function QuestionsSettleLogs(reply: Reply<QuestionsBody>): (logs: seq<string>)
    ensures |logs| >= 2 && logs[|logs| - 1] == DoneLog
    ensures reply.Replied? ==> logs[0] == StatusLog(reply.status)
    ensures QuestionsException(reply).Some? ==> logs[|logs| - 2] == ErrorLog(QuestionsException(reply).value)
    ensures ReceivedQuestions(reply).Some? ==> logs[|logs| - 2] == TotalLog(TotalQuestions(ReceivedQuestions(reply).value))
    ensures OkBody(reply).Some? && ReceivedQuestions(reply).None? ==> logs[|logs| - 2] == NoQuestionsLog
  {
    ResponseLogs(reply)
    + (match QuestionsException(reply) case None => [] case Some(m) => [ErrorLog(m)])
    + [DoneLog]
  }

  // ---------------------------------------------------------------------------
  // The controller

  class MockQuestionsController {
    var resumeFile: Option<File>
    var jobDescription: string
    var yearsInput: string
    var companyName: string
    var loading: bool
    var questions: Option<QuestionSet>
    var yearsOfExperience: Option<real>
    var error: Option<string>
    var logs: seq<string>

    constructor ()
      ensures resumeFile.None? && jobDescription == "" && yearsInput == "" && companyName == ""
      ensures !loading && questions.None? && yearsOfExperience.None? && error.None? && logs == []
    {
      resumeFile, jobDescription, yearsInput, companyName := None, "", "", "";
      loading, questions, yearsOfExperience, error, logs := false, None, None, None, [];
    }

    /** `addLog`: append one entry. */
    method AddLog(message: string)
      modifies this`logs
      ensures logs == old(logs) + [message]
    {
      logs := logs + [message];
    }

    /** The log of a run that starts: cleared, then the entries written before
        the request is sent (building the request in between changes nothing
        else). */
    method RestartLogs()
      modifies this`logs
      ensures logs == StartLogs
    {
      logs := [];
      AddLog(StartLog);
      AddLog(UploadLog);
      AddLog(SendLog);
    }

    /** `handleFileChange`: keep the selection only if it is a PDF. */
    method HandleFileChange(selected: Option<File>)
      modifies this`resumeFile, this`error
      ensures IsPdf(selected) ==> resumeFile == selected && error.None?
      ensures !IsPdf(selected) ==> resumeFile.None? && error == Some(NotPdfMessage)
    {
      if selected.Some? && selected.value.mimeType == PdfMimeType {
        resumeFile := selected;
        error := None;
      } else {
        error := Some(NotPdfMessage);
        resumeFile := None;
      }
    }

    /** `handleGenerateQuestions` up to its `await fetch`, given the value
        `parseFloat` reads from the years field: returns the request it sends,
        or None when validation stops it, in which case only the error changes.
        A run that starts clears the error, the questions and the log before its
        first entry. */
    method BeginGenerateQuestions(parsedYears: Option<real>) returns (request: Option<QuestionsRequest>)
      modifies this`loading, this`error, this`questions, this`logs
      ensures QuestionsProblem(resumeFile, jobDescription, yearsInput, parsedYears).Some? ==>
                request.None? && error == QuestionsProblem(resumeFile, jobDescription, yearsInput, parsedYears) &&
                loading == old(loading) && questions == old(questions) && logs == old(logs)
      ensures QuestionsProblem(resumeFile, jobDescription, yearsInput, parsedYears).None? ==>
                request == Some(QuestionsRequestFor(resumeFile.value, jobDescription, yearsInput, companyName)) &&
                loading && error.None? && questions.None? && logs == StartLogs
    {
      if resumeFile.None? {
        error := Some(NoResumeMessage);
        return None;
      }
      if IsBlank(jobDescription) {
        error := Some(NoJobDescriptionMessage);
        return None;
      }
      if yearsInput == "" || (parsedYears.Some? && parsedYears.value <= 0.0) {
        error := Some(BadYearsMessage);
        return None;
      }
      loading := true;
      error := None;
      questions := None;
      RestartLogs();
      request := Some(QuestionsRequestFor(resumeFile.value, jobDescription, yearsInput, companyName));
    }

    /** The branch for a reply that carries questions: store them and the
        reported years, and log the company, the success entry and the total. */
    method StoreQuestions(q: QuestionSet, years: Option<real>)
      modifies this`questions, this`yearsOfExperience, this`logs
      ensures questions == Some(q) && yearsOfExperience == ShownYears(years)
      ensures logs == old(logs) + ReceivedLogs(q)
    {
      questions := Some(q);
      yearsOfExperience := ShownYears(years);
      if q.companyName.Some? && q.companyName.value != "" {
        AddLog(CompanyLog(q.companyName.value));
      }
      AddLog(SuccessLog);
      var total := TotalQuestions(q);
      AddLog(TotalLog(total));
    }

    /** The `try` block after the request returned: logs the status, reads the
        body, stores the question set and years of a successful reply, and
        hands back the message of the exception it raised, if any. */
    method ReadQuestionsReply(reply: Reply<QuestionsBody>) returns (thrown: Option<string>)
      modifies this`questions, this`yearsOfExperience, this`logs
      ensures thrown == QuestionsException(reply)
      ensures logs == old(logs) + ResponseLogs(reply)
      ensures questions == if OkBody(reply).Some? then ReceivedQuestions(reply) else old(questions)
      ensures yearsOfExperience == YearsAfter(reply, old(yearsOfExperience))
    {
      thrown := None;
      match reply {
        case Thrown(m) =>
          thrown := Some(m);
        case Replied(status, body) =>
          AddLog(StatusLog(status));
          if !IsOk(status) {
            match body {
              case Unparsable(m) =>
                thrown := Some(m);
              case Parsed(errorData) =>
                var message := OrElse(errorData.message, QuestionsFailedMessage);
                AddLog(ErrorLog(message));
                thrown := Some(message);
            }
          } else {
            AddLog(ParseLog);
            match body {
              case Unparsable(m) =>
                thrown := Some(m);
              case Parsed(result) =>
                if result.data.Some? && result.data.value.questions.Some? {
                  StoreQuestions(result.data.value.questions.value, result.data.value.yearsOfExperience);
                } else {
                  AddLog(NoQuestionsLog);
                  questions := None;
                }
            }
          }
      }
    }

    /** `handleGenerateQuestions` after its `await fetch`, through `catch` and
        `finally`: the log only grows, loading ends false, questions and the
        reported years are set only by a reply that carries questions, and a
        failure sets the error. */
    method SettleGenerateQuestions(reply: Reply<QuestionsBody>)
      modifies this`loading, this`error, this`questions, this`yearsOfExperience, this`logs
      ensures !loading
      ensures logs == old(logs) + QuestionsSettleLogs(reply)
      ensures error == if QuestionsError(reply).Some? then QuestionsError(reply) else old(error)
      ensures questions == if OkBody(reply).Some? then ReceivedQuestions(reply) else old(questions)
      ensures yearsOfExperience == YearsAfter(reply, old(yearsOfExperience))
    {
      var thrown := ReadQuestionsReply(reply);
      if thrown.Some? {
        AddLog(ErrorLog(thrown.value));
        error := Some(OrElse(thrown, QuestionsErrorFallback));
      }
      loading := false;
      AddLog(DoneLog);
    }

    /** `handleGenerateQuestions` run to completion with no other event in
        between: a validated run ends not loading, with the start entries
        followed by the settle entries as its whole log; the questions and the
        shown years are those of the reply, if it carried questions. */
    method HandleGenerateQuestions(parsedYears: Option<real>, reply: Reply<QuestionsBody>)
      returns (request: Option<QuestionsRequest>)
      modifies this`loading, this`error, this`questions, this`yearsOfExperience, this`logs
      ensures QuestionsProblem(resumeFile, jobDescription, yearsInput, parsedYears).Some? ==>
                request.None? && error == QuestionsProblem(resumeFile, jobDescription, yearsInput, parsedYears) &&
                loading == old(loading) && questions == old(questions) &&
                yearsOfExperience == old(yearsOfExperience) && logs == old(logs)
      ensures QuestionsProblem(resumeFile, jobDescription, yearsInput, parsedYears).None? ==>
                request == Some(QuestionsRequestFor(resumeFile.value, jobDescription, yearsInput, companyName)) &&
                !loading && logs == StartLogs + QuestionsSettleLogs(reply) &&
                error == QuestionsError(reply) && questions == ReceivedQuestions(reply) &&
                yearsOfExperience == YearsAfter(reply, old(yearsOfExperience))
    {
      request := BeginGenerateQuestions(parsedYears);
      if request.Some? {
        SettleGenerateQuestions(reply);
      }
    }

    /** "Generate New Questions": clear the questions, the inputs, the log and
        the reported years. The error is kept. */
    method Reset()
      modifies this`questions, this`resumeFile, this`jobDescription, this`yearsInput,
               this`companyName, this`logs, this`yearsOfExperience
      ensures questions.None? && resumeFile.None? && jobDescription == "" && yearsInput == ""
      ensures companyName == "" && logs == [] && yearsOfExperience.None?
    {
      questions := None;
      resumeFile := None;
      jobDescription := "";
      yearsInput := "";
      companyName := "";
      logs := [];
      yearsOfExperience := None;
    }
  }
}
