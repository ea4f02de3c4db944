// The documents the routes read from and write to the database: users, jobs and
// batch analyses with their result rows, and the lookups the routes share.
module Records {
  import opened Outcomes

  /** A database id, in its hexadecimal string form. */
  type ObjectId = string

  /** The `companyInfo` sub-document of a company account; absent optional fields are `None`. */
  datatype CompanyInfo = CompanyInfo(
    companyName: string,
    companySize: Option<string>,
    industry: Option<string>,
    website: Option<string>)

  /** A stored user; `password` holds the hash. */
  datatype UserDoc = UserDoc(
    id: ObjectId,
    username: string,
    email: string,
    phoneNumber: string,
    password: string,
    role: string,
    companyInfo: Option<CompanyInfo>,
    createdAt: int)

  /** A stored job posting. */
  datatype JobDoc = JobDoc(
    id: ObjectId,
    title: string,
    description: string,
    skills: seq<string>,
    visibility: string,
    createdBy: ObjectId,
    companyId: ObjectId,
    companyName: string,
    createdAt: int)

  /** One screened resume of a batch: the model's judgement, or an error row. */
  datatype ResultRow = ResultRow(
    fileName: string,
    matchScore: int,
    status: string,
    matchingSkills: seq<string>,
    missingSkills: seq<string>,
    impliedSkills: seq<string>,
    strengths: seq<string>,
    recommendations: seq<string>,
    extractedText: string,
    processedAt: int)

  /** A stored batch analysis; fields a document may lack are `Option`s. */
  datatype BatchDoc = BatchDoc(
    companyId: ObjectId,
    jobId: ObjectId,
    jobTitle: string,
    status: string,
    totalResumes: Option<int>,
    processedResumes: int,
    results: seq<ResultRow>,
    averageScore: Option<int>,
    createdAt: int,
    completedAt: Option<int>)

  /** `findOne({ email })`: the first user with that email, if any. */
  function FindUserByEmail(users: seq<UserDoc>, email: string): (r: Option<UserDoc>)
    ensures r.Some? <==> exists i :: 0 <= i < |users| && users[i].email == email
    ensures r.Some? ==> r.value in users && r.value.email == email
  {
    if users == [] then None
    else if users[0].email == email then Some(users[0])
    else
      var r := FindUserByEmail(users[1..], email);
      assert forall i :: 1 <= i < |users| ==> users[i] == users[1..][i - 1];
      r
  }

  /** The guard `!user || user.role !== 'company'` fails. */
  predicate IsCompanyUser(u: Option<UserDoc>) {
    u.Some? && u.value.role == "company"
  }

  /** `user.companyInfo?.companyName || fallback`. */
  function CompanyNameOr(u: UserDoc, fallback: string): (r: string)
    ensures u.companyInfo.Some? && u.companyInfo.value.companyName != "" ==> r == u.companyInfo.value.companyName
    ensures u.companyInfo.None? || u.companyInfo.value.companyName == "" ==> r == fallback
    ensures r != "" || fallback == ""
  {
    if u.companyInfo.Some? && u.companyInfo.value.companyName != "" then u.companyInfo.value.companyName
    else fallback
  }

  /** `value || 0` for a possibly missing number. */
  function OrZero(v: Option<int>): int {
    v.GetOr(0)
  }

  /** `batches.reduce((sum, b) => sum + (b.totalResumes || 0), 0)`. */
  function TotalResumes(batches: seq<BatchDoc>): int
    decreases |batches|
  {
    if batches == [] then 0 else TotalResumes(batches[..|batches| - 1]) + OrZero(batches[|batches| - 1].totalResumes)
  }

  /** With missing counts as zero, the total of counts that are never negative is never negative. */
  lemma {:induction false} TotalResumesNonNegative(batches: seq<BatchDoc>)
    requires forall b :: b in batches ==> OrZero(b.totalResumes) >= 0
    ensures TotalResumes(batches) >= 0
    ensures batches != [] && OrZero(batches[|batches| - 1].totalResumes) > 0 ==> TotalResumes(batches) > 0
    decreases |batches|
  {
    if batches != [] {
      var init := batches[..|batches| - 1];
      assert forall b :: b in init ==> b in batches;
      TotalResumesNonNegative(init);
    }
  }

  predicate IsCompleted(b: BatchDoc) {
    b.status == "completed"
  }

  function Completed(batches: seq<BatchDoc>): (r: seq<BatchDoc>)
    ensures |r| <= |batches|
    ensures forall b :: b in r <==> b in batches && IsCompleted(b)
  {
    if batches == [] then []
    else (if IsCompleted(batches[0]) then [batches[0]] else []) + Completed(batches[1..])
  }

  /** The filter keeps the completed batches in their order, each as often as it occurs. */
  lemma {:induction false} CompletedConcat(a: seq<BatchDoc>, b: seq<BatchDoc>)
    ensures Completed(a + b) == Completed(a) + Completed(b)
    decreases |a|
  {
    if a == [] {
      assert a + b == b;
    } else {
      assert (a + b)[1..] == a[1..] + b;
      CompletedConcat(a[1..], b);
    }
  }

  function OfCompany(batches: seq<BatchDoc>, id: ObjectId): (r: seq<BatchDoc>)
    ensures forall b :: b in r <==> b in batches && b.companyId == id
  {
    if batches == [] then []
    else (if batches[0].companyId == id then [batches[0]] else []) + OfCompany(batches[1..], id)
  }

  /** The filter keeps the company's batches in their order, each as often as it occurs. */
  lemma {:induction false} OfCompanyConcat(a: seq<BatchDoc>, b: seq<BatchDoc>, id: ObjectId)
    ensures OfCompany(a + b, id) == OfCompany(a, id) + OfCompany(b, id)
    decreases |a|
  {
    if a == [] {
      assert a + b == b;
    } else {
      assert (a + b)[1..] == a[1..] + b;
      OfCompanyConcat(a[1..], b, id);
    }
  }

  function CreatedBy(jobs: seq<JobDoc>, id: ObjectId): (r: seq<JobDoc>)
    ensures forall j :: j in r <==> j in jobs && j.createdBy == id
  {
    if jobs == [] then []
    else (if jobs[0].createdBy == id then [jobs[0]] else []) + CreatedBy(jobs[1..], id)
  }

  function Titles(jobs: seq<JobDoc>): (r: seq<string>)
    ensures |r| == |jobs| && forall i :: 0 <= i < |jobs| ==> r[i] == jobs[i].title
  {
    if jobs == [] then [] else [jobs[0].title] + Titles(jobs[1..])
  }
}
