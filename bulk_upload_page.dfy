// The bulk-upload page: the list of chosen resume files (added by the file picker or
// by dropping, removed one id at a time), the start of an analysis with the form it
// posts to the batch screening route, and the simulated progress bar.
module BulkUploadPage {
  import opened Text
  import opened Outcomes
  import opened BatchUpload

  /** A file the browser hands over: what the server will see of it, and its MIME type. */
  datatype PickedFile = PickedFile(upload: Upload, mimeType: string)

  /** An entry of the file list. */
  datatype UploadedFile = UploadedFile(file: PickedFile, id: string, status: string, progress: int)

  /** The batch size the warning names; nothing enforces it. */
  const MaxFiles := 50

  /** The new list entries: each picked file pending at 0 %, the `k`-th under the random id `newId(k)`. */
  function Pending(picked: seq<PickedFile>, newId: nat -> string): (r: seq<UploadedFile>)
    ensures |r| == |picked|
    ensures forall k :: 0 <= k < |picked| ==> r[k] == UploadedFile(picked[k], newId(k), "pending", 0)
  {
    seq(|picked|, k requires 0 <= k < |picked| => UploadedFile(picked[k], newId(k), "pending", 0))
  }

  /** `filter((file) => file.type === 'application/pdf')`. */
  function PdfOnly(s: seq<PickedFile>): (r: seq<PickedFile>)
    ensures |r| <= |s|
    ensures forall f :: f in r <==> f in s && f.mimeType == "application/pdf"
  {
    if s == [] then [] else (if s[0].mimeType == "application/pdf" then [s[0]] else []) + PdfOnly(s[1..])
  }

  /** The filter keeps the PDFs in their order, each as often as it was dropped. */
  lemma {:induction false} PdfOnlyConcat(a: seq<PickedFile>, b: seq<PickedFile>)
    ensures PdfOnly(a + b) == PdfOnly(a) + PdfOnly(b)
    decreases |a|
  {
    if a == [] {
      assert a + b == b;
    } else {
      assert (a + b)[1..] == a[1..] + b;
      PdfOnlyConcat(a[1..], b);
    }
  }

  /** `prev.filter((f) => f.id !== id)`. */
  function WithoutId(s: seq<UploadedFile>, id: string): (r: seq<UploadedFile>)
    ensures |r| <= |s|
    ensures forall f :: f in r <==> f in s && f.id != id
  {
    if s == [] then [] else (if s[0].id == id then [] else [s[0]]) + WithoutId(s[1..], id)
  }

  /** The filter keeps the other entries in their order. */
  lemma {:induction false} WithoutIdConcat(a: seq<UploadedFile>, b: seq<UploadedFile>, id: string)
    ensures WithoutId(a + b, id) == WithoutId(a, id) + WithoutId(b, id)
    decreases |a|
  {
    if a == [] {
      assert a + b == b;
    } else {
      assert (a + b)[1..] == a[1..] + b;
      WithoutIdConcat(a[1..], b, id);
    }
  }

  /** `formData.append(\`resume_${index}\`, fileObj.file)` for each listed file. */
  function ResumeEntries(files: seq<UploadedFile>): seq<FormEntry>
    decreases |files|
  {
    if files == [] then []
    else
      var n := |files| - 1;
      ResumeEntries(files[..n]) + [ResumeEntry(n, files[n])]
  }

  /** The entry of the `k`-th listed file: its upload under the key `resume_<k>`. */
  function ResumeEntry(k: nat, f: UploadedFile): FormEntry {
    FormEntry("resume_" + IntToString(k), FileField(f.file.upload))
  }

  /** One more listed file adds its entry at the end of the form. */
  lemma FormSnoc(job: string, email: string, files: seq<UploadedFile>, i: nat)
    requires i < |files|
    ensures AnalysisForm(job, email, files[..i + 1]) == AnalysisForm(job, email, files[..i]) + [ResumeEntry(i, files[i])]
  {
    assert files[..i + 1][..i] == files[..i];
  }

  /** The form of `handleStartAnalysis`: the job, the email (`''` when none is stored), then the files. */
  function AnalysisForm(job: string, email: string, files: seq<UploadedFile>): seq<FormEntry> {
    [FormEntry("jobId", TextField(job)), FormEntry("userEmail", TextField(email))] + ResumeEntries(files)
  }

  function Uploads(files: seq<UploadedFile>): (r: seq<Upload>)
    ensures |r| == |files| && forall k :: 0 <= k < |files| ==> r[k] == files[k].file.upload
  {
    seq(|files|, k requires 0 <= k < |files| => files[k].file.upload)
  }

  /** `Math.min(prev + 5, 90)`. */
  function Advance(p: int): int {
    if p + 5 < 90 then p + 5 else 90
  }

  /** The progress after `k` ticks from `p`. */
  function Ticks(p: int, k: nat): int {
    if k == 0 then p else Advance(Ticks(p, k - 1))
  }

  /** From 0, the bar shows 5 % per tick up to 90 %, and never more while the request runs. */
  lemma {:induction false} TicksFromZero(k: nat)
    ensures Ticks(0, k) == if 5 * k < 90 then 5 * k else 90
  {
    if k > 0 {
      TicksFromZero(k - 1);
    }
  }

  /** A tick never lowers a progress of at most 90 and never passes 90. */
  lemma {:induction false} TicksBounded(p: int, k: nat)
    requires 0 <= p <= 90
    ensures p <= Ticks(p, k) <= 90
  {
    if k > 0 {
      TicksBounded(p, k - 1);
    }
  }

  lemma {:induction false} ResumeEntriesShape(files: seq<UploadedFile>)
    ensures |ResumeEntries(files)| == |files|
    ensures forall k :: 0 <= k < |files| ==> ResumeEntries(files)[k] == ResumeEntry(k, files[k])
    decreases |files|
  {
    if files != [] {
      var n := |files| - 1;
      var init := files[..n];
      ResumeEntriesShape(init);
      var e := ResumeEntries(files);
      assert e == ResumeEntries(init) + [ResumeEntry(n, files[n])];
      forall k | 0 <= k < |files| ensures e[k] == ResumeEntry(k, files[k]) {
        if k < n {
          assert e[k] == ResumeEntries(init)[k];
          assert init[k] == files[k];
        }
      }
    }
  }

  /** Every file entry sits under a `resume_` key, so the route collects exactly the listed files, in order. */
  lemma {:induction false} ResumeFilesOfForm(job: string, email: string, files: seq<UploadedFile>)
    ensures ResumeFiles(AnalysisForm(job, email, files)) == Uploads(files)
    decreases |files|
  {
    var form := AnalysisForm(job, email, files);
    if files == [] {
      var h := form;
      assert h[..1][..0] == [];
      assert h[..1] == [h[0]];
      assert !IsResumeEntry(h[0]) && !IsResumeEntry(h[1]);
      assert ResumeFiles(h[..1]) == [];
    } else {
      var n := |files| - 1;
      ResumeFilesOfForm(job, email, files[..n]);
      var e := ResumeEntry(n, files[n]);
      assert form == AnalysisForm(job, email, files[..n]) + [e];
      assert form[..|form| - 1] == AnalysisForm(job, email, files[..n]);
      assert StartsWith(e.key, "resume_");
      assert Uploads(files) == Uploads(files[..n]) + [files[n].file.upload];
    }
  }

  /** The route reads back the job and the email the page put in the form. */
  lemma FormTextOfForm(job: string, email: string, files: seq<UploadedFile>)
    ensures FormGet(AnalysisForm(job, email, files), "jobId") == Some(TextField(job))
    ensures FormGet(AnalysisForm(job, email, files), "userEmail") == Some(TextField(email))
  {
    var form := AnalysisForm(job, email, files);
    assert form[0].key == "jobId" && form[1].key == "userEmail";
    assert form[1..][0].key == "userEmail";
  }

  /** A started analysis always has a job and at least one file, so the route refuses it only for a missing email or user. */
  lemma StartedFormScreened(job: string, email: string, files: seq<UploadedFile>, users: seq<Records.UserDoc>, svc: Services)
    requires job != "" && files != []
    ensures Screen(AnalysisForm(job, email, files), users, svc).Reject? && Screen(AnalysisForm(job, email, files), users, svc).response.BadRequest?
            <==> email == ""
    ensures Screen(AnalysisForm(job, email, files), users, svc).Accept? ==> Screen(AnalysisForm(job, email, files), users, svc).files == Uploads(files)
  {
    FormTextOfForm(job, email, files);
    ResumeFilesOfForm(job, email, files);
  }

  /** The page state the handlers change. */
  class UploadPage {
    var selectedJob: string
    var files: seq<UploadedFile>
    var isProcessing: bool
    var overallProgress: int

    ghost predicate Valid()
      reads this
    {
      0 <= overallProgress <= 100
    }

    constructor ()
      ensures Valid()
      ensures selectedJob == "" && files == [] && !isProcessing && overallProgress == 0
    {
      selectedJob := "";
      files := [];
      isProcessing := false;
      overallProgress := 0;
    }

    method SelectJob(job: string)
      modifies this
      requires Valid()
      ensures Valid()
      ensures selectedJob == job && files == old(files)
      ensures isProcessing == old(isProcessing) && overallProgress == old(overallProgress)
    {
      selectedJob := job;
    }

    /** `handleFileSelect`: every picked file is appended; the warning is raised when the list passes 50. */
    method Select(picked: Option<seq<PickedFile>>, newId: nat -> string) returns (tooMany: bool)
      modifies this
      requires Valid()
      ensures Valid()
      ensures picked.None? ==> files == old(files) && !tooMany
      ensures picked.Some? ==> files == old(files) + Pending(picked.value, newId)
                               && (tooMany <==> |old(files)| + |picked.value| > MaxFiles)
      ensures selectedJob == old(selectedJob) && isProcessing == old(isProcessing) && overallProgress == old(overallProgress)
    {
      if picked.None? {
        return false;
      }
      var added := Pending(picked.value, newId);
      tooMany := |files| + |added| > MaxFiles;
      files := files + added;
    }

    /** `handleDrop`: only the PDFs are appended; with none, nothing changes and the page says so. */
    method Drop(dropped: seq<PickedFile>, newId: nat -> string) returns (noPdf: bool, tooMany: bool)
      modifies this
      requires Valid()
      ensures Valid()
      ensures noPdf <==> PdfOnly(dropped) == []
      ensures noPdf ==> files == old(files) && !tooMany
      ensures !noPdf ==> files == old(files) + Pending(PdfOnly(dropped), newId)
                         && (tooMany <==> |old(files)| + |PdfOnly(dropped)| > MaxFiles)
      ensures selectedJob == old(selectedJob) && isProcessing == old(isProcessing) && overallProgress == old(overallProgress)
    {
      var pdfs := PdfOnly(dropped);
      if |pdfs| == 0 {
        return true, false;
      }
      noPdf := false;
      var added := Pending(pdfs, newId);
      tooMany := |files| + |added| > MaxFiles;
      files := files + added;
    }

    /** `removeFile`. */
    method Remove(id: string)
      modifies this
      requires Valid()
      ensures Valid()
      ensures files == WithoutId(old(files), id)
      ensures selectedJob == old(selectedJob) && isProcessing == old(isProcessing) && overallProgress == old(overallProgress)
    {
      files := WithoutId(files, id);
    }

    /**
     * `handleStartAnalysis` up to the request: nothing happens without a selected job
     * or without files; otherwise the bar restarts at 0 and the form is built, one
     * `resume_<index>` entry per listed file.
     */
    method Start(storedEmail: Option<string>) returns (form: Option<seq<FormEntry>>)
      modifies this
      requires Valid()
      ensures Valid()
      ensures selectedJob == old(selectedJob) && files == old(files)
      ensures (old(selectedJob) == "" || old(files) == []) ==>
                form.None? && isProcessing == old(isProcessing) && overallProgress == old(overallProgress)
      ensures (old(selectedJob) != "" && old(files) != []) ==>
                form == Some(AnalysisForm(selectedJob, storedEmail.GetOr(""), files)) && isProcessing && overallProgress == 0
    {
      if selectedJob == "" || |files| == 0 {
        return None;
      }
      isProcessing := true;
      overallProgress := 0;
      var entries := [FormEntry("jobId", TextField(selectedJob)), FormEntry("userEmail", TextField(storedEmail.GetOr("")))];
      var i := 0;
      while i < |files|
        invariant 0 <= i <= |files|
        invariant selectedJob == old(selectedJob) && files == old(files) && isProcessing && overallProgress == 0
        invariant entries == AnalysisForm(selectedJob, storedEmail.GetOr(""), files[..i])
      {
        FormSnoc(selectedJob, storedEmail.GetOr(""), files, i);
        entries := entries + [ResumeEntry(i, files[i])];
        i := i + 1;
      }
      assert files[..i] == files;
      form := Some(entries);
    }

    /** One interval tick while the request runs. */
    method Tick()
      modifies this
      requires Valid()
      ensures Valid()
      ensures overallProgress == Advance(old(overallProgress))
      ensures selectedJob == old(selectedJob) && files == old(files) && isProcessing == old(isProcessing)
    {
      overallProgress := if overallProgress + 5 < 90 then overallProgress + 5 else 90;
    }

    /** The response arrived: the bar jumps to 100; a failed batch then re-enables the page. */
    method Arrive(failed: bool)
      modifies this
      requires Valid()
      ensures Valid()
      ensures overallProgress == 100 && isProcessing == (old(isProcessing) && !failed)
      ensures selectedJob == old(selectedJob) && files == old(files)
    {
      overallProgress := 100;
      if failed {
        isProcessing := false;
      }
    }

    /**
     * The request itself failed (`fetch` rejected): the `catch` re-enables the page, while
     * the bar keeps its value and the interval, never cleared, may go on ticking.
     */
    method FetchRejected()
      modifies this
      requires Valid()
      ensures Valid()
      ensures !isProcessing && overallProgress == old(overallProgress)
      ensures selectedJob == old(selectedJob) && files == old(files)
    {
      isProcessing := false;
    }
  }
}
