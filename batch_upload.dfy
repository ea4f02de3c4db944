// The batch screening route: it validates the upload, records a batch as
// `processing`, screens every resume file in turn (a verbatim copy of the model's
// analysis, or a degraded `Error` row), writes the progress after each analysed file,
// and finally stores the batch as `completed` with the rounded mean score and the rows
// ordered by score.
module BatchUpload {
  import opened Text
  import opened Outcomes
  import opened Arith
  import opened Ranking
  import opened Records
  import opened BatchHelpers

  /** An uploaded file: its name and what the PDF parser yields for it, its pages or the parser's error. */
  datatype Upload = Upload(name: string, pdf: Outcome<seq<PdfPage>>)

  datatype FormValue = TextField(text: string) | FileField(file: Upload)

  /** One entry of the multipart form, in the order the client appended it. */
  datatype FormEntry = FormEntry(key: string, value: FormValue)

  /**
   * What the route obtains from outside: `decodeURIComponent` (`None` where it throws),
   * `JSON.parse` of the extracted span, the model service's reply for the file at each
   * position, the error the progress write after that file throws (if it does),
   * `new ObjectId(jobId)` followed by the job lookup for a text id, and the message
   * `new ObjectId` throws for a file.
   */
  datatype Services = Services(
    decode: string -> Option<string>,
    parse: string -> Outcome<Analysis>,
    reply: nat -> HttpReply,
    progressFault: nat -> Option<string>,
    findJob: string -> Outcome<Option<JobDoc>>,
    idError: string)

  /** The route's reply. */
  datatype Response =
    | BadRequest(message: string)
    | Forbidden(message: string)
    | NotFound(message: string)
    | InternalError(message: string, error: string)
    | Processed(message: string, batchId: nat, totalProcessed: nat, averageScore: int)

  function StatusCode(r: Response): int {
    match r
    case BadRequest(_) => 400
    case Forbidden(_) => 403
    case NotFound(_) => 404
    case InternalError(_, _) => 500
    case Processed(_, _, _, _) => 200
  }

  /** `formData.get(key)`: the value of the first entry under `key`, `None` (`null`) when there is none. */
  function FormGet(entries: seq<FormEntry>, key: string): (r: Option<FormValue>)
    ensures r.Some? <==> exists i :: 0 <= i < |entries| && entries[i].key == key
  {
    if entries == [] then None
    else if entries[0].key == key then Some(entries[0].value)
    else
      var r := FormGet(entries[1..], key);
      assert forall i :: 1 <= i < |entries| ==> entries[i] == entries[1..][i - 1];
      r
  }

  /**
   * The guard `!jobId || !userEmail` passes the value: the cast `as string` converts
   * nothing, so `null` and an empty text are falsy and a file is truthy.
   */
  predicate Truthy(v: Option<FormValue>) {
    v.Some? && (v.value.FileField? || v.value.text != "")
  }

  /**
   * `findOne({ email: userEmail })`: a text is looked up as an email; a file is an
   * object, which equals no stored email.
   */
  function LookupUser(users: seq<UserDoc>, v: Option<FormValue>): (r: Option<UserDoc>)
    ensures r.Some? ==> v.Some? && v.value.TextField? && r.value.email == v.value.text
    ensures v.Some? && v.value.TextField? ==> r == FindUserByEmail(users, v.value.text)
  {
    match v
    case Some(TextField(t)) => FindUserByEmail(users, t)
    case _ => None
  }

  predicate IsResumeEntry(e: FormEntry) {
    StartsWith(e.key, "resume_") && e.value.FileField?
  }

  /** The files under keys starting with `resume_`, in form order. */
  function ResumeFiles(entries: seq<FormEntry>): seq<Upload>
    decreases |entries|
  {
    if entries == [] then []
    else
      var e := entries[|entries| - 1];
      ResumeFiles(entries[..|entries| - 1]) + (if IsResumeEntry(e) then [e.value.file] else [])
  }

  /** A file is collected exactly when some `resume_` entry holds it. */
  lemma {:induction false} ResumeFilesMembers(entries: seq<FormEntry>, f: Upload)
    ensures f in ResumeFiles(entries) <==> exists i :: 0 <= i < |entries| && IsResumeEntry(entries[i]) && entries[i].value.file == f
    decreases |entries|
  {
    if entries != [] {
      var init := entries[..|entries| - 1];
      ResumeFilesMembers(init, f);
      if f in ResumeFiles(init) {
        var i :| 0 <= i < |init| && IsResumeEntry(init[i]) && init[i].value.file == f;
        assert entries[i] == init[i];
      }
      if exists i :: 0 <= i < |entries| && IsResumeEntry(entries[i]) && entries[i].value.file == f {
        var i :| 0 <= i < |entries| && IsResumeEntry(entries[i]) && entries[i].value.file == f;
        if i < |init| {
          assert init[i] == entries[i];
        }
      }
    }
  }

  /** The `for … of formData.entries()` loop collecting the resume files. */
  method CollectResumeFiles(entries: seq<FormEntry>) returns (files: seq<Upload>)
    ensures files == ResumeFiles(entries)
  {
    files := [];
    var i := 0;
    while i < |entries|
      invariant 0 <= i <= |entries|
      invariant files == ResumeFiles(entries[..i])
    {
      var e := entries[i];
      if StartsWith(e.key, "resume_") && e.value.FileField? {
        files := files + [e.value.file];
      }
      assert entries[..i + 1][..i] == entries[..i];
      i := i + 1;
    }
    assert entries[..i] == entries;
  }

  /** The row for an analysed file: the analysis copied field by field, the first 5000 characters of the text. */
  function SuccessRow(name: string, a: Analysis, text: string, now: int): ResultRow {
    ResultRow(name, a.matchScore, a.status, a.matchingSkills, a.missingSkills, a.impliedSkills,
              a.strengths, a.recommendations, Take(text, 5000), now)
  }

  /** The degraded row the `catch` block appends. */
  function ErrorRow(name: string, msg: string, now: int): ResultRow {
    ResultRow(name, 0, "Error", [], [], [], [], ["Failed to process: " + msg], "", now)
  }

  /** Text extraction and analysis of the file at position `i`: its row, or the message of the error thrown. */
  function ProcessFile(f: Upload, i: nat, svc: Services, now: int): Outcome<ResultRow> {
    match f.pdf
    case Failure(e) => Failure("PDF parsing failed: " + e)
    case Success(pages) =>
      match AnalyzeResume(svc.reply(i), svc.parse)
      case Failure(m) => Failure(m)
      case Success(a) => Success(SuccessRow(f.name, a, PdfText(pages, svc.decode), now))
  }

  /** The rows one file appends: its row, followed by an error row when the progress write throws. */
  function FileRows(f: Upload, i: nat, svc: Services, now: int): seq<ResultRow> {
    RowsFor(f.name, ProcessFile(f, i, svc, now), svc.progressFault(i), now)
  }

  /** The rows for a file named `name` that was processed with the given outcome and progress-write fault. */
  function RowsFor(name: string, processed: Outcome<ResultRow>, fault: Option<string>, now: int): seq<ResultRow> {
    match processed
    case Failure(m) => [ErrorRow(name, m, now)]
    case Success(row) =>
      match fault
      case None => [row]
      case Some(m) => [row, ErrorRow(name, m, now)]
  }

  /** The `results` array after the loop over `files`. */
  function Rows(files: seq<Upload>, svc: Services, now: int): seq<ResultRow>
    decreases |files|
  {
    if files == [] then []
    else Rows(files[..|files| - 1], svc, now) + FileRows(files[|files| - 1], |files| - 1, svc, now)
  }

  lemma RowsSnoc(files: seq<Upload>, i: nat, svc: Services, now: int)
    requires i < |files|
    ensures Rows(files[..i + 1], svc, now) == Rows(files[..i], svc, now) + FileRows(files[i], i, svc, now)
  {
    assert files[..i + 1][..i] == files[..i];
  }

  /** Whether the progress write after file `i` is attempted and throws. */
  predicate WriteFails(f: Upload, i: nat, svc: Services, now: int) {
    ProcessFile(f, i, svc, now).Success? && svc.progressFault(i).Some?
  }

  /** The number of files whose progress write throws. */
  function FailedWrites(files: seq<Upload>, svc: Services, now: int): nat
    decreases |files|
  {
    if files == [] then 0
    else FailedWrites(files[..|files| - 1], svc, now) + (if WriteFails(files[|files| - 1], |files| - 1, svc, now) then 1 else 0)
  }

  /** Every file contributes one row, and one more for each progress write that throws. */
  lemma {:induction false} RowsCount(files: seq<Upload>, svc: Services, now: int)
    ensures |Rows(files, svc, now)| == |files| + FailedWrites(files, svc, now)
    decreases |files|
  {
    if files != [] {
      RowsCount(files[..|files| - 1], svc, now);
    }
  }

  /**
   * A single uploaded file whose progress write throws after its row was pushed gets a second,
   * error row under the same name, and the completed batch counts two resumes of the one uploaded.
   */
  lemma FailedWriteCountsTwice(f: Upload, user: UserDoc, jobId: string, job: JobDoc, svc: Services, now: int)
    requires WriteFails(f, 0, svc, now)
    ensures var rows := Rows([f], svc, now);
            var start := NewBatch(user, jobId, job, 1, now);
            |rows| == 2 && rows[0].fileName == rows[1].fileName == f.name && rows[1].status == "Error"
            && FinalBatch(start, rows, now).processedResumes == 2 && FinalBatch(start, rows, now).totalResumes == Some(1)
  {
    assert [f][..0] == [];
  }

  /** The one row of a file whose progress write does not throw. */
  function FileRow(f: Upload, i: nat, svc: Services, now: int): ResultRow {
    match ProcessFile(f, i, svc, now)
    case Success(row) => row
    case Failure(m) => ErrorRow(f.name, m, now)
  }

  /**
   * Without failing progress writes, row `i` belongs to file `i`: the analysed row when
   * extraction and analysis succeed, otherwise the error row carrying the thrown message.
   */
  lemma {:induction false} RowsPerFile(files: seq<Upload>, svc: Services, now: int)
    requires forall i :: 0 <= i < |files| ==> !WriteFails(files[i], i, svc, now)
    ensures |Rows(files, svc, now)| == |files|
    ensures forall i :: 0 <= i < |files| ==> Rows(files, svc, now)[i] == FileRow(files[i], i, svc, now)
    decreases |files|
  {
    if files != [] {
      var n := |files| - 1;
      var init := files[..n];
      forall i | 0 <= i < |init| ensures !WriteFails(init[i], i, svc, now) {
        assert init[i] == files[i];
      }
      RowsPerFile(init, svc, now);
      var fr := FileRows(files[n], n, svc, now);
      assert !WriteFails(files[n], n, svc, now);
      assert fr == [FileRow(files[n], n, svc, now)];
      var rows := Rows(files, svc, now);
      assert rows == Rows(init, svc, now) + fr;
      forall i | 0 <= i < |files| ensures rows[i] == FileRow(files[i], i, svc, now) {
        if i < n {
          assert rows[i] == Rows(init, svc, now)[i];
          assert init[i] == files[i];
        }
      }
    }
  }

  /** An analysed file's row copies the analysis verbatim, without clamping the score, and keeps at most 5000 characters of text. */
  lemma AnalysedRow(f: Upload, i: nat, svc: Services, now: int)
    requires ProcessFile(f, i, svc, now).Success?
    ensures f.pdf.Success? && AnalyzeResume(svc.reply(i), svc.parse).Success?
    ensures var row := ProcessFile(f, i, svc, now).value;
            var a := AnalyzeResume(svc.reply(i), svc.parse).value;
            var text := PdfText(f.pdf.value, svc.decode);
            row.fileName == f.name && row.matchScore == a.matchScore && row.status == a.status
            && row.matchingSkills == a.matchingSkills && row.missingSkills == a.missingSkills
            && row.impliedSkills == a.impliedSkills && row.strengths == a.strengths
            && row.recommendations == a.recommendations
            && row.extractedText == text[..if |text| <= 5000 then |text| else 5000]
  {
  }

  /** A file that fails gives one row: score 0, status `Error`, no skills, no text, and the message as its only recommendation. */
  lemma FailedRow(f: Upload, i: nat, svc: Services, now: int)
    requires ProcessFile(f, i, svc, now).Failure?
    ensures var m := ProcessFile(f, i, svc, now).msg;
            var rows := FileRows(f, i, svc, now);
            |rows| == 1 && rows[0].fileName == f.name && rows[0].matchScore == 0 && rows[0].status == "Error"
            && rows[0].matchingSkills == [] && rows[0].missingSkills == [] && rows[0].impliedSkills == []
            && rows[0].strengths == [] && rows[0].recommendations == ["Failed to process: " + m]
            && rows[0].extractedText == ""
    ensures f.pdf.Failure? ==> ProcessFile(f, i, svc, now).msg == "PDF parsing failed: " + f.pdf.msg
  {
  }

  function Score(r: ResultRow): int {
    r.matchScore
  }

  /** `results.reduce((sum, r) => sum + r.matchScore, 0)`. */
  function SumScores(rows: seq<ResultRow>): int
    decreases |rows|
  {
    if rows == [] then 0 else SumScores(rows[..|rows| - 1]) + rows[|rows| - 1].matchScore
  }

  lemma {:induction false} SumScoresBounds(rows: seq<ResultRow>, lo: int, hi: int)
    requires forall i :: 0 <= i < |rows| ==> lo <= rows[i].matchScore <= hi
    ensures lo * |rows| <= SumScores(rows) <= hi * |rows|
    decreases |rows|
  {
    if rows != [] {
      var n := |rows| - 1;
      assert forall i :: 0 <= i < n ==> rows[..n][i] == rows[i];
      SumScoresBounds(rows[..n], lo, hi);
      assert lo * (n + 1) == lo * n + lo && hi * (n + 1) == hi * n + hi;
    }
  }

  /** `Math.round` of the mean score. */
  function AverageScore(rows: seq<ResultRow>): int
    requires rows != []
  {
    RoundedMean(SumScores(rows), |rows|)
  }

  /** Every analysis the service returns scores within 0..100. */
  ghost predicate AnalysesInRange(svc: Services) {
    forall i: nat :: AnalyzeResume(svc.reply(i), svc.parse).Success? ==> 0 <= AnalyzeResume(svc.reply(i), svc.parse).value.matchScore <= 100
  }

  lemma FileRowsInRange(f: Upload, i: nat, svc: Services, now: int)
    requires AnalysesInRange(svc)
    ensures forall k :: 0 <= k < |FileRows(f, i, svc, now)| ==> 0 <= FileRows(f, i, svc, now)[k].matchScore <= 100
  {
    var p := ProcessFile(f, i, svc, now);
    if p.Success? {
      ProcessedScore(f, i, svc, now);
      assert 0 <= p.value.matchScore <= 100;
      match svc.progressFault(i)
      case None => assert FileRows(f, i, svc, now) == [p.value];
      case Some(m) => assert FileRows(f, i, svc, now) == [p.value, ErrorRow(f.name, m, now)];
    } else {
      assert FileRows(f, i, svc, now) == [ErrorRow(f.name, p.msg, now)];
    }
  }

  lemma ProcessedScore(f: Upload, i: nat, svc: Services, now: int)
    requires ProcessFile(f, i, svc, now).Success?
    ensures AnalyzeResume(svc.reply(i), svc.parse).Success?
    ensures ProcessFile(f, i, svc, now).value.matchScore == AnalyzeResume(svc.reply(i), svc.parse).value.matchScore
  {
  }

  /** When every analysis scores within 0..100, so does every row, and so does the average. */
  lemma {:induction false} AverageInRange(files: seq<Upload>, svc: Services, now: int)
    requires files != []
    requires AnalysesInRange(svc)
    ensures Rows(files, svc, now) != []
    ensures 0 <= AverageScore(Rows(files, svc, now)) <= 100
  {
    var rows := Rows(files, svc, now);
    RowsCount(files, svc, now);
    RowScoresInRange(files, svc, now);
    SumScoresBounds(rows, 0, 100);
    RoundedMeanBounds(SumScores(rows), |rows|, 0, 100);
  }

  lemma {:induction false} RowScoresInRange(files: seq<Upload>, svc: Services, now: int)
    requires AnalysesInRange(svc)
    ensures forall k :: 0 <= k < |Rows(files, svc, now)| ==> 0 <= Rows(files, svc, now)[k].matchScore <= 100
    decreases |files|
  {
    if files != [] {
      var init := files[..|files| - 1];
      RowScoresInRange(init, svc, now);
      var i := |files| - 1;
      var r0: seq<ResultRow> := Rows(init, svc, now);
      var fr: seq<ResultRow> := FileRows(files[i], i, svc, now);
      FileRowsInRange(files[i], i, svc, now);
      forall k | 0 <= k < |r0 + fr| ensures 0 <= (r0 + fr)[k].matchScore <= 100 {
        if k < |r0| {
          assert (r0 + fr)[k] == r0[k];
        } else {
          assert (r0 + fr)[k] == fr[k - |r0|];
        }
      }
    }
  }

  /** The document inserted for a new batch. */
  function NewBatch(user: UserDoc, jobId: string, job: JobDoc, count: nat, now: int): BatchDoc {
    BatchDoc(user.id, jobId, job.title, "processing", Some(count), 0, [], None, now, None)
  }

  /** The document after the final update. */
  function FinalBatch(start: BatchDoc, rows: seq<ResultRow>, now: int): BatchDoc
    requires rows != []
  {
    start.(status := "completed", processedResumes := |rows|, averageScore := Some(AverageScore(rows)),
           results := SortDesc(rows, Score), completedAt := Some(now))
  }

  /** The completed batch holds every row exactly once, ordered by non-increasing score, and counts them all. */
  lemma FinalBatchResults(start: BatchDoc, rows: seq<ResultRow>, now: int)
    requires rows != []
    ensures var d := FinalBatch(start, rows, now);
            d.status == "completed" && d.processedResumes == |d.results| == |rows|
            && multiset(d.results) == multiset(rows) && NonIncreasing(d.results, Score)
            && d.companyId == start.companyId && d.jobId == start.jobId && d.totalResumes == start.totalResumes
  {
  }

  /** The checks before any document is written: a rejection, or the user, job id, job and files to screen. */
  datatype Screening =
    | Reject(response: Response)
    | Accept(user: UserDoc, jobId: string, job: JobDoc, files: seq<Upload>)

  function Screen(entries: seq<FormEntry>, users: seq<UserDoc>, svc: Services): (d: Screening)
    ensures (d.Reject? && d.response.BadRequest?)
            <==> (!Truthy(FormGet(entries, "jobId")) || !Truthy(FormGet(entries, "userEmail")) || ResumeFiles(entries) == [])
    ensures (d.Reject? && d.response.Forbidden?)
            <==> (Truthy(FormGet(entries, "jobId")) && Truthy(FormGet(entries, "userEmail")) && ResumeFiles(entries) != []
                  && !IsCompanyUser(LookupUser(users, FormGet(entries, "userEmail"))))
    ensures (d.Reject? && d.response.InternalError?)
            <==> (Truthy(FormGet(entries, "jobId")) && Truthy(FormGet(entries, "userEmail")) && ResumeFiles(entries) != []
                  && IsCompanyUser(LookupUser(users, FormGet(entries, "userEmail")))
                  && (FormGet(entries, "jobId").value.FileField? || svc.findJob(FormGet(entries, "jobId").value.text).Failure?))
    ensures d.Reject? ==> !d.response.Processed?
    ensures d.Accept? ==> d.files == ResumeFiles(entries) && d.files != [] && FormGet(entries, "jobId") == Some(TextField(d.jobId))
                          && d.jobId != "" && FormGet(entries, "userEmail") == Some(TextField(d.user.email))
                          && Some(d.user) == LookupUser(users, FormGet(entries, "userEmail")) && d.user.role == "company"
                          && svc.findJob(d.jobId) == Success(Some(d.job))
  {
    var jobId := FormGet(entries, "jobId");
    var userEmail := FormGet(entries, "userEmail");
    var files := ResumeFiles(entries);
    if !Truthy(jobId) || !Truthy(userEmail) then Reject(BadRequest("Job ID and user email are required"))
    else if files == [] then Reject(BadRequest("No resume files provided"))
    else
      var user := LookupUser(users, userEmail);
      if !IsCompanyUser(user) then Reject(Forbidden("Unauthorized"))
      else if jobId.value.FileField? then Reject(InternalError("An internal server error occurred", svc.idError))
      else
        match svc.findJob(jobId.value.text)
        case Failure(e) => Reject(InternalError("An internal server error occurred", e))
        case Success(None) => Reject(NotFound("Job not found"))
        case Success(Some(job)) => Accept(user.value, jobId.value.text, job, files)
  }

  /** A file under `userEmail` passes the presence check and is refused as unauthorized. */
  lemma FileEmailForbidden(entries: seq<FormEntry>, users: seq<UserDoc>, svc: Services)
    requires ResumeFiles(entries) != [] && Truthy(FormGet(entries, "jobId"))
    requires FormGet(entries, "userEmail").Some? && FormGet(entries, "userEmail").value.FileField?
    ensures Screen(entries, users, svc) == Reject(Forbidden("Unauthorized"))
  {
  }

  /** A file under `jobId`, with a company user's email, makes `new ObjectId` throw, which the route answers with a 500. */
  lemma FileJobIdFails(entries: seq<FormEntry>, users: seq<UserDoc>, svc: Services)
    requires ResumeFiles(entries) != [] && Truthy(FormGet(entries, "userEmail"))
    requires FormGet(entries, "jobId").Some? && FormGet(entries, "jobId").value.FileField?
    requires IsCompanyUser(LookupUser(users, FormGet(entries, "userEmail")))
    ensures Screen(entries, users, svc) == Reject(InternalError("An internal server error occurred", svc.idError))
  {
  }

  /** The `batchAnalyses` collection: documents by insertion position, and a log of the states updates wrote. */
  class BatchStore {
    var docs: seq<BatchDoc>
    ghost var writes: seq<BatchDoc>

    constructor ()
      ensures docs == [] && writes == []
    {
      docs := [];
      writes := [];
    }

    /** `insertOne`: the new document's id is its position. */
    method Insert(d: BatchDoc) returns (id: nat)
      modifies this
      ensures id == |old(docs)| && docs == old(docs) + [d] && writes == old(writes)
    {
      id := |docs|;
      docs := docs + [d];
    }

    /** The progress `updateOne`: `$set` of `processedResumes` and `results`. */
    method SetProgress(id: nat, processed: int, results: seq<ResultRow>)
      requires id < |docs|
      modifies this
      ensures docs == old(docs)[id := old(docs)[id].(processedResumes := processed, results := results)]
      ensures writes == old(writes) + [docs[id]]
    {
      docs := docs[id := docs[id].(processedResumes := processed, results := results)];
      writes := writes + [docs[id]];
    }

    /** The final `updateOne`. */
    method Complete(id: nat, processed: int, average: int, results: seq<ResultRow>, now: int)
      requires id < |docs|
      modifies this
      ensures docs == old(docs)[id := old(docs)[id].(status := "completed", processedResumes := processed,
                                                      averageScore := Some(average), results := results,
                                                      completedAt := Some(now))]
      ensures writes == old(writes) + [docs[id]]
    {
      docs := docs[id := docs[id].(status := "completed", processedResumes := processed, averageScore := Some(average),
                                   results := results, completedAt := Some(now))];
      writes := writes + [docs[id]];
    }
  }

  /** The batch document still holds `start`, apart from the two fields the progress writes set. */
  ghost predicate DocInProgress(docs: seq<BatchDoc>, base: seq<BatchDoc>, id: nat, start: BatchDoc) {
    |docs| == id + 1 && docs[..id] == base
    && docs[id] == start.(processedResumes := docs[id].processedResumes, results := docs[id].results)
  }

  /**
   * Every write logged since position `from` left the inserted document `start` as it was apart
   * from the count and the rows, stored as many rows as it counted, and a prefix of `results`;
   * each one counted more rows than the write before it.
   */
  ghost predicate WritesArePrefixes(writes: seq<BatchDoc>, base: seq<BatchDoc>, start: BatchDoc, results: seq<ResultRow>) {
    |writes| >= |base| && writes[..|base|] == base
    && (forall k :: |base| <= k < |writes| ==>
          writes[k] == start.(processedResumes := writes[k].processedResumes, results := writes[k].results)
          && writes[k].processedResumes == |writes[k].results| && |writes[k].results| <= |results|
          && writes[k].results == results[..|writes[k].results|])
    && (forall k, l :: |base| <= k < l < |writes| ==> writes[k].processedResumes < writes[l].processedResumes)
  }

  /** One iteration of the loop over the files: the `try` block and its `catch`. */
  method ScreenFile(store: BatchStore, id: nat, start: BatchDoc, f: Upload, i: nat, svc: Services, now: int,
                    results0: seq<ResultRow>, count0: nat, ghost baseDocs: seq<BatchDoc>, ghost baseWrites: seq<BatchDoc>)
    returns (results: seq<ResultRow>, count: nat)
    requires count0 == |results0|
    requires DocInProgress(store.docs, baseDocs, id, start) && WritesArePrefixes(store.writes, baseWrites, start, results0)
    modifies store
    ensures results == results0 + FileRows(f, i, svc, now) && count == |results|
    ensures DocInProgress(store.docs, baseDocs, id, start) && WritesArePrefixes(store.writes, baseWrites, start, results)
  {
    var processed := AnalyseFile(f, i, svc, now);
    results, count := RecordRows(store, id, start, f.name, processed, svc.progressFault(i), now, results0, count0, baseDocs, baseWrites);
  }

  /** Pushing the row (or the error row) and writing the progress, once the file has been processed. */
  method RecordRows(store: BatchStore, id: nat, start: BatchDoc, name: string, processed: Outcome<ResultRow>,
                    fault: Option<string>, now: int, results0: seq<ResultRow>, count0: nat,
                    ghost baseDocs: seq<BatchDoc>, ghost baseWrites: seq<BatchDoc>)
    returns (results: seq<ResultRow>, count: nat)
    requires count0 == |results0|
    requires DocInProgress(store.docs, baseDocs, id, start) && WritesArePrefixes(store.writes, baseWrites, start, results0)
    modifies store
    ensures results == results0 + RowsFor(name, processed, fault, now) && count == |results|
    ensures DocInProgress(store.docs, baseDocs, id, start) && WritesArePrefixes(store.writes, baseWrites, start, results)
  {
    results, count := results0, count0;
    ghost var w0 := |store.writes|;
    if processed.Failure? {
      results := results + [ErrorRow(name, processed.msg, now)];
      count := count + 1;
    } else {
      results := results + [processed.value];
      count := count + 1;
      if fault.Some? {
        results := results + [ErrorRow(name, fault.value, now)];
        count := count + 1;
      } else {
        store.SetProgress(id, count, results);
        assert results[..|results|] == results;
      }
    }
    assert results[..|results0|] == results0;
    PrefixExtends(store.writes, |baseWrites|, w0, results0, results);
  }

  /** The statements of the `try` block before the row is pushed: extraction, then analysis. */
  method AnalyseFile(f: Upload, i: nat, svc: Services, now: int) returns (processed: Outcome<ResultRow>)
    ensures processed == ProcessFile(f, i, svc, now)
  {
    match f.pdf {
      case Failure(e) =>
        processed := Failure("PDF parsing failed: " + e);
      case Success(pages) =>
        var text := ExtractText(pages, svc.decode);
        var analysis := AnalyzeResume(svc.reply(i), svc.parse);
        if analysis.Failure? {
          processed := Failure(analysis.msg);
        } else {
          processed := Success(SuccessRow(f.name, analysis.value, text, now));
        }
    }
  }

  /**
   * `POST`. A rejected request writes nothing. An accepted one appends the completed batch
   * and answers with its id, the number of rows and their rounded mean score; every update
   * it makes stores as many rows as `processedResumes` says, and each progress update stores
   * a prefix of the final rows.
   */
  method Post(store: BatchStore, entries: seq<FormEntry>, users: seq<UserDoc>, svc: Services, now: int)
    returns (resp: Response)
    modifies store
    ensures Screen(entries, users, svc).Reject? ==>
              resp == Screen(entries, users, svc).response && store.docs == old(store.docs) && store.writes == old(store.writes)
    ensures Screen(entries, users, svc).Accept? ==>
              var s := Screen(entries, users, svc);
              BatchRun(old(store.docs), old(store.writes), store.docs, store.writes, resp,
                       NewBatch(s.user, s.jobId, s.job, |s.files|, now), Rows(s.files, svc, now), now)
  {
    var jobId := FormGet(entries, "jobId");
    var userEmail := FormGet(entries, "userEmail");
    if !Truthy(jobId) || !Truthy(userEmail) {
      return BadRequest("Job ID and user email are required");
    }
    var files := CollectResumeFiles(entries);
    if |files| == 0 {
      return BadRequest("No resume files provided");
    }
    var user := LookupUser(users, userEmail);
    if user.None? || user.value.role != "company" {
      return Forbidden("Unauthorized");
    }
    if jobId.value.FileField? {
      return InternalError("An internal server error occurred", svc.idError);
    }
    var found := svc.findJob(jobId.value.text);
    if found.Failure? {
      return InternalError("An internal server error occurred", found.msg);
    }
    if found.value.None? {
      return NotFound("Job not found");
    }
    var job := found.value.value;
    resp := ProcessBatch(store, NewBatch(user.value, jobId.value.text, job, |files|, now), files, svc, now);
  }

  /**
   * What processing a batch does to the collection and the reply: the completed batch is
   * appended, the last logged write is that document, every write counted the rows it
   * stored, every earlier write stored a prefix of the rows and kept the batch in progress
   * with its other fields as inserted, and the counts never go down.
   */
  ghost predicate BatchRun(docs0: seq<BatchDoc>, writes0: seq<BatchDoc>, docs: seq<BatchDoc>, writes: seq<BatchDoc>,
                           resp: Response, start: BatchDoc, rows: seq<ResultRow>, now: int) {
    rows != []
    && resp == Processed("Batch processing completed", |docs0|, |rows|, AverageScore(rows))
    && docs == docs0 + [FinalBatch(start, rows, now)]
    && |writes| > |writes0|
    && WritesArePrefixes(writes[..|writes| - 1], writes0, start, rows)
    && writes[|writes| - 1] == docs[|docs0|]
    && writes[|writes| - 1].processedResumes == |writes[|writes| - 1].results|
    && (forall k :: |writes0| <= k < |writes| - 1 ==> writes[k].processedResumes <= writes[|writes| - 1].processedResumes)
    && (forall k :: |writes0| <= k < |writes| - 1 ==> InProgress(writes[k]))
  }

  /** A batch that is still being processed: no average and no completion time yet. */
  predicate InProgress(d: BatchDoc) {
    d.status == "processing" && d.averageScore.None? && d.completedAt.None?
  }

  /** Inserting the batch record, the loop over the files, and the final update. */
  method ProcessBatch(store: BatchStore, start: BatchDoc, files: seq<Upload>, svc: Services, now: int)
    returns (resp: Response)
    requires files != [] && InProgress(start) && start.processedResumes == 0 && start.results == []
    modifies store
    ensures BatchRun(old(store.docs), old(store.writes), store.docs, store.writes, resp, start, Rows(files, svc, now), now)
  {
    var id := store.Insert(start);
    var results, processedCount := ScreenFiles(store, id, start, files, svc, now, old(store.docs), old(store.writes));
    RowsCount(files, svc, now);
    ghost var progressWrites := store.writes;
    var average := RoundedMean(SumScores(results), |results|);
    var sorted := SortDesc(results, Score);
    store.Complete(id, processedCount, average, sorted, now);
    resp := Processed("Batch processing completed", id, processedCount, average);
    assert store.docs == old(store.docs) + [FinalBatch(start, results, now)];
    RunCompleted(old(store.docs), old(store.writes), progressWrites, resp, start, results, now);
  }

  /** The loop over the files: the rows of all files, with the document and the logged writes kept in step. */
  method ScreenFiles(store: BatchStore, id: nat, start: BatchDoc, files: seq<Upload>, svc: Services, now: int,
                     ghost baseDocs: seq<BatchDoc>, ghost baseWrites: seq<BatchDoc>)
    returns (results: seq<ResultRow>, processedCount: nat)
    requires DocInProgress(store.docs, baseDocs, id, start) && store.docs[id] == start && store.writes == baseWrites
    modifies store
    ensures results == Rows(files, svc, now) && processedCount == |results|
    ensures DocInProgress(store.docs, baseDocs, id, start) && WritesArePrefixes(store.writes, baseWrites, start, results)
  {
    results, processedCount := [], 0;
    var i := 0;
    while i < |files|
      invariant 0 <= i <= |files|
      invariant results == Rows(files[..i], svc, now) && processedCount == |results|
      invariant DocInProgress(store.docs, baseDocs, id, start)
      invariant WritesArePrefixes(store.writes, baseWrites, start, results)
    {
      results, processedCount := ScreenFile(store, id, start, files[i], i, svc, now, results, processedCount,
                                            baseDocs, baseWrites);
      RowsSnoc(files, i, svc, now);
      i := i + 1;
    }
    assert files[..i] == files;
  }

  /** Once the loop has logged its progress writes, the final update completes the run. */
  lemma RunCompleted(docs0: seq<BatchDoc>, writes0: seq<BatchDoc>, progress: seq<BatchDoc>, resp: Response,
                     start: BatchDoc, rows: seq<ResultRow>, now: int)
    requires rows != [] && InProgress(start)
    requires WritesArePrefixes(progress, writes0, start, rows)
    requires resp == Processed("Batch processing completed", |docs0|, |rows|, AverageScore(rows))
    ensures BatchRun(docs0, writes0, docs0 + [FinalBatch(start, rows, now)], progress + [FinalBatch(start, rows, now)],
                     resp, start, rows, now)
  {
    var writes := progress + [FinalBatch(start, rows, now)];
    assert writes[..|writes| - 1] == progress;
    forall k | |writes0| <= k < |writes| - 1
      ensures writes[k].processedResumes <= writes[|writes| - 1].processedResumes && InProgress(writes[k])
    {
      assert writes[k] == progress[k];
    }
  }

  /** Logged writes that stored prefixes of `before` stored prefixes of any extension of it. */
  lemma PrefixExtends(writes: seq<BatchDoc>, from: nat, upto: nat, before: seq<ResultRow>, after: seq<ResultRow>)
    requires upto <= |writes| && |before| <= |after| && after[..|before|] == before
    requires forall k :: from <= k < upto ==> |writes[k].results| <= |before| && writes[k].results == before[..|writes[k].results|]
    ensures forall k :: from <= k < upto ==> writes[k].results == after[..|writes[k].results|]
  {
    forall k | from <= k < upto ensures writes[k].results == after[..|writes[k].results|] {
      var m := |writes[k].results|;
      assert after[..m] == after[..|before|][..m];
    }
  }
}
