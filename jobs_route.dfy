// The company jobs route: `POST` validates the body, checks the user and stores
// the job; `GET` lists the company user's jobs, newest first.
module JobsRoute {
  import opened Outcomes
  import opened Ranking
  import opened Records

  /**
   * An optional or defaulted JSON field: left out, sent as `null`, or given. The schema
   * fills in only a field that was left out; a `null` fails it.
   */
  datatype Field<+T> = Absent | Null | Given(value: T) {
    function GetOr(default: T): T {
      match this
      case Given(v) => v
      case _ => default
    }
  }

  /**
   * The request body. `title`, `description` and `userEmail` are `None` when left out
   * or sent as `null`; the route treats the two alike for them.
   */
  datatype JobBody = JobBody(
    title: Option<string>,
    description: Option<string>,
    skills: Field<seq<string>>,
    visibility: Field<string>,
    userEmail: Option<string>)

  predicate IsVisibility(v: string) {
    v == "public" || v == "private"
  }

  /** The schema's failing fields, in declaration order. */
  function Issues(b: JobBody): (r: seq<string>)
    ensures r == [] <==> b.title.Some? && |b.title.value| >= 3 && b.description.Some? && |b.description.value| >= 50
                         && !b.skills.Null?
                         && (b.visibility.Absent? || (b.visibility.Given? && IsVisibility(b.visibility.value)))
    ensures "title" in r <==> b.title.None? || |b.title.value| < 3
    ensures "description" in r <==> b.description.None? || |b.description.value| < 50
    ensures "skills" in r <==> b.skills.Null?
    ensures "visibility" in r <==> b.visibility.Null? || (b.visibility.Given? && !IsVisibility(b.visibility.value))
  {
    (if b.title.None? || |b.title.value| < 3 then ["title"] else [])
    + (if b.description.None? || |b.description.value| < 50 then ["description"] else [])
    + (if b.skills.Null? then ["skills"] else [])
    + (if b.visibility.Null? || (b.visibility.Given? && !IsVisibility(b.visibility.value)) then ["visibility"] else [])
  }

  datatype PostResponse =
    | InvalidInput(fields: seq<string>)
    | EmailRequired
    | Unauthorized
    | Created(jobId: ObjectId, job: JobDoc)
  {
    function Status(): int {
      match this
      case InvalidInput(_) => 400
      case EmailRequired => 400
      case Unauthorized => 403
      case Created(_, _) => 201
    }
  }

  /** The job document stored for a valid body and a company user. */
  function NewJob(b: JobBody, user: UserDoc, id: ObjectId, now: int): JobDoc
    requires b.title.Some? && b.description.Some?
  {
    JobDoc(id, b.title.value, b.description.value, b.skills.GetOr([]), b.visibility.GetOr("private"),
           user.id, user.id, CompanyNameOr(user, "Unknown Company"), now)
  }

  /** `POST`: the response, and the jobs collection afterwards. */
  function Post(b: JobBody, users: seq<UserDoc>, jobs: seq<JobDoc>, id: ObjectId, now: int): (r: (PostResponse, seq<JobDoc>))
    ensures r.0.InvalidInput? <==> Issues(b) != []
    ensures r.0.EmailRequired? <==> Issues(b) == [] && (b.userEmail.None? || b.userEmail.value == "")
    ensures r.0.Unauthorized? <==> Issues(b) == [] && b.userEmail.Some? && b.userEmail.value != ""
                                   && !IsCompanyUser(FindUserByEmail(users, b.userEmail.value))
    ensures !r.0.Created? ==> r.1 == jobs
    ensures r.0.Created? ==> r.0.jobId == id && r.0.job.id == id && r.1 == jobs + [r.0.job]
  {
    if Issues(b) != [] then (InvalidInput(Issues(b)), jobs)
    else if b.userEmail.None? || b.userEmail.value == "" then (EmailRequired, jobs)
    else
      var user := FindUserByEmail(users, b.userEmail.value);
      if !IsCompanyUser(user) then (Unauthorized, jobs)
      else
        var job := NewJob(b, user.value, id, now);
        (Created(id, job), jobs + [job])
  }

  /**
   * A created job carries the body's title and description, the skills or `[]`, the
   * visibility or `private`, the company user as both creator and company, and the
   * company's name or `Unknown Company`.
   */
  lemma CreatedJob(b: JobBody, users: seq<UserDoc>, jobs: seq<JobDoc>, id: ObjectId, now: int)
    requires Post(b, users, jobs, id, now).0.Created?
    ensures var job := Post(b, users, jobs, id, now).0.job;
            var user := FindUserByEmail(users, b.userEmail.value);
            user.Some? && user.value.role == "company"
            && Some(job.title) == b.title && |job.title| >= 3
            && Some(job.description) == b.description && |job.description| >= 50
            && job.skills == b.skills.GetOr([]) && IsVisibility(job.visibility) && job.visibility == b.visibility.GetOr("private")
            && job.createdBy == user.value.id && job.companyId == user.value.id
            && job.companyName == CompanyNameOr(user.value, "Unknown Company") && job.createdAt == now
  {
  }

  lemma {:induction false} CreatedByAppend(jobs: seq<JobDoc>, job: JobDoc, id: ObjectId)
    ensures CreatedBy(jobs + [job], id) == CreatedBy(jobs, id) + (if job.createdBy == id then [job] else [])
    decreases |jobs|
  {
    if jobs == [] {
      assert jobs + [job] == [job];
    } else {
      assert (jobs + [job])[1..] == jobs[1..] + [job];
      CreatedByAppend(jobs[1..], job, id);
    }
  }

  /** A created job counts once more among the user's jobs, the dashboard's active-job count. */
  lemma CreatedJobCounts(b: JobBody, users: seq<UserDoc>, jobs: seq<JobDoc>, id: ObjectId, now: int)
    requires Post(b, users, jobs, id, now).0.Created?
    ensures var user := FindUserByEmail(users, b.userEmail.value).value;
            |CreatedBy(Post(b, users, jobs, id, now).1, user.id)| == |CreatedBy(jobs, user.id)| + 1
  {
    var r := Post(b, users, jobs, id, now);
    var user := FindUserByEmail(users, b.userEmail.value).value;
    CreatedByAppend(jobs, r.0.job, user.id);
  }

  /** A `null` where the schema allows only a missing field is refused, and nothing is stored. */
  lemma NullFieldRefused(b: JobBody, users: seq<UserDoc>, jobs: seq<JobDoc>, id: ObjectId, now: int)
    requires b.skills.Null? || b.visibility.Null?
    ensures var r := Post(b, users, jobs, id, now);
            r.0.InvalidInput? && r.0.Status() == 400 && r.1 == jobs
            && (b.skills.Null? ==> "skills" in r.0.fields) && (b.visibility.Null? ==> "visibility" in r.0.fields)
  {
  }

  datatype GetResponse =
    | MissingEmail
    | Forbidden
    | Listing(jobs: seq<JobDoc>)

  function CreatedAtOf(j: JobDoc): int {
    j.createdAt
  }

  /** `GET`: the jobs the company user created, sorted by `createdAt` descending. */
  function Get(userEmail: Option<string>, users: seq<UserDoc>, jobs: seq<JobDoc>): (r: GetResponse)
    ensures r.MissingEmail? <==> userEmail.None? || userEmail.value == ""
    ensures r.Forbidden? <==> userEmail.Some? && userEmail.value != "" && !IsCompanyUser(FindUserByEmail(users, userEmail.value))
    ensures r.Listing? ==> NonIncreasing(r.jobs, CreatedAtOf)
                           && multiset(r.jobs) == multiset(CreatedBy(jobs, FindUserByEmail(users, userEmail.value).value.id))
  {
    if userEmail.None? || userEmail.value == "" then MissingEmail
    else
      var user := FindUserByEmail(users, userEmail.value);
      if !IsCompanyUser(user) then Forbidden
      else Listing(SortDesc(CreatedBy(jobs, user.value.id), CreatedAtOf))
  }
}
