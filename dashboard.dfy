// The company dashboard route: the ten most recent batches of the company and the
// statistics over them (batch count, resumes analysed, mean of the completed batches'
// average scores), the number of jobs the user created, and the company name.
module Dashboard {
  import opened Outcomes
  import opened Arith
  import opened Ranking
  import opened Records

  datatype Stats = Stats(totalBatches: nat, totalResumesAnalyzed: int, activeJobs: nat, avgMatchScore: int)

  datatype Response =
    | BadRequest(message: string)
    | Forbidden(message: string)
    | Overview(batches: seq<BatchDoc>, stats: Stats, companyName: string)

  function CreatedAtOf(b: BatchDoc): int {
    b.createdAt
  }

  /** `find({ companyId }).sort({ createdAt: -1 }).limit(10)`. */
  function Recent(all: seq<BatchDoc>, id: ObjectId): seq<BatchDoc> {
    Take(SortDesc(OfCompany(all, id), CreatedAtOf), 10)
  }

  /**
   * At most ten of the company's batches, newest first; all of them when there are no
   * more than ten, and otherwise none left out is newer than one kept.
   */
  lemma RecentAreNewest(all: seq<BatchDoc>, id: ObjectId)
    ensures |Recent(all, id)| <= 10
    ensures NonIncreasing(Recent(all, id), CreatedAtOf)
    ensures forall b :: b in Recent(all, id) ==> b in all && b.companyId == id
    ensures multiset(Recent(all, id)) <= multiset(OfCompany(all, id))
    ensures |OfCompany(all, id)| <= 10 ==> multiset(Recent(all, id)) == multiset(OfCompany(all, id))
    ensures forall x, y :: x in Recent(all, id) && y in multiset(OfCompany(all, id)) - multiset(Recent(all, id))
              ==> x.createdAt >= y.createdAt
  {
    TopK(OfCompany(all, id), CreatedAtOf, 10);
    RecentAll(all, id);
    RecentWithin(all, id);
  }

  /** With at most ten batches of the company, all of them are recent. */
  lemma RecentAll(all: seq<BatchDoc>, id: ObjectId)
    ensures |OfCompany(all, id)| <= 10 ==> multiset(Recent(all, id)) == multiset(OfCompany(all, id))
  {
    var sorted := SortDesc(OfCompany(all, id), CreatedAtOf);
    if |sorted| <= 10 {
      assert Take(sorted, 10) == sorted;
    }
  }

  /** The sum of the completed batches' average scores, a missing one counting as 0. */
  function SumAverages(batches: seq<BatchDoc>): int
    decreases |batches|
  {
    if batches == [] then 0 else SumAverages(batches[..|batches| - 1]) + OrZero(batches[|batches| - 1].averageScore)
  }

  /** `avgMatchScore`: 0 without completed batches, else the rounded unweighted mean of their average scores. */
  function AvgMatchScore(batches: seq<BatchDoc>): int {
    var completed := Completed(batches);
    if |completed| > 0 then RoundedMean(SumAverages(completed), |completed|) else 0
  }

  lemma {:induction false} SumAveragesBounds(batches: seq<BatchDoc>, lo: int, hi: int)
    requires forall i :: 0 <= i < |batches| ==> lo <= OrZero(batches[i].averageScore) <= hi
    ensures lo * |batches| <= SumAverages(batches) <= hi * |batches|
    decreases |batches|
  {
    if batches != [] {
      var init := batches[..|batches| - 1];
      SumAveragesBounds(init, lo, hi);
      assert lo * |batches| == lo * |init| + lo;
      assert hi * |batches| == hi * |init| + hi;
    }
  }

  /**
   * With every completed batch's average (missing as 0) within `lo..hi`, the dashboard
   * average is within `lo..hi` too; without completed batches it is 0.
   */
  lemma AvgMatchScoreBounds(batches: seq<BatchDoc>, lo: int, hi: int)
    requires forall b :: b in batches && IsCompleted(b) ==> lo <= OrZero(b.averageScore) <= hi
    ensures Completed(batches) == [] ==> AvgMatchScore(batches) == 0
    ensures Completed(batches) != [] ==> lo <= AvgMatchScore(batches) <= hi
  {
    var completed := Completed(batches);
    if completed != [] {
      assert forall i :: 0 <= i < |completed| ==> completed[i] in completed;
      SumAveragesBounds(completed, lo, hi);
      RoundedMeanBounds(SumAverages(completed), |completed|, lo, hi);
    }
  }

  /** The `stats` object over the fetched batches and the job count. */
  function StatsOf(batches: seq<BatchDoc>, jobsCount: nat): Stats {
    Stats(|batches|, TotalResumes(batches), jobsCount, AvgMatchScore(batches))
  }

  /** `GET`: 400 without an email, 403 unless the email belongs to a company user, otherwise the overview. */
  function Get(userEmail: string, users: seq<UserDoc>, allBatches: seq<BatchDoc>, allJobs: seq<JobDoc>): (r: Response)
    ensures userEmail == "" <==> r.BadRequest?
    ensures r.BadRequest? ==> r.message == "User email is required"
    ensures r.Forbidden? <==> userEmail != "" && !IsCompanyUser(FindUserByEmail(users, userEmail))
    ensures r.Forbidden? ==> r.message == "Unauthorized"
    ensures r.Overview? ==>
              var u := FindUserByEmail(users, userEmail).value;
              u.role == "company" && u.email == userEmail
              && r.batches == Recent(allBatches, u.id)
              && r.stats.totalBatches == |r.batches| <= 10
              && r.stats.totalResumesAnalyzed == TotalResumes(r.batches)
              && r.stats.activeJobs == |CreatedBy(allJobs, u.id)|
              && r.stats.avgMatchScore == AvgMatchScore(r.batches)
              && r.companyName == CompanyNameOr(u, "Your Company")
  {
    if userEmail == "" then BadRequest("User email is required")
    else
      var user := FindUserByEmail(users, userEmail);
      if user.None? || user.value.role != "company" then Forbidden("Unauthorized")
      else
        var u := user.value;
        var batches := Recent(allBatches, u.id);
        Overview(batches, StatsOf(batches, |CreatedBy(allJobs, u.id)|), CompanyNameOr(u, "Your Company"))
  }

  /** With no stored resume count negative, the dashboard never reports a negative resume total. */
  lemma TotalAnalyzedNonNegative(userEmail: string, users: seq<UserDoc>, allBatches: seq<BatchDoc>, allJobs: seq<JobDoc>)
    requires forall b :: b in allBatches ==> OrZero(b.totalResumes) >= 0
    ensures var r := Get(userEmail, users, allBatches, allJobs);
            r.Overview? ==> r.stats.totalResumesAnalyzed >= 0
  {
    var r := Get(userEmail, users, allBatches, allJobs);
    if r.Overview? {
      var id := FindUserByEmail(users, userEmail).value.id;
      RecentWithin(allBatches, id);
      TotalResumesNonNegative(Recent(allBatches, id));
    }
  }

  /** The recent batches are stored batches of the company. */
  lemma RecentWithin(all: seq<BatchDoc>, id: ObjectId)
    ensures forall b :: b in Recent(all, id) ==> b in all && b.companyId == id
  {
    var mine := OfCompany(all, id);
    var r := Recent(all, id);
    assert multiset(SortDesc(mine, CreatedAtOf)) == multiset(mine);
    forall b | b in r ensures b in all && b.companyId == id {
      assert b in SortDesc(mine, CreatedAtOf);
      assert b in multiset(SortDesc(mine, CreatedAtOf));
    }
  }
}
