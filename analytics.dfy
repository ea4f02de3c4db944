// The company analytics route: totals over a company's batches, the score
// distribution, rounded mean and top candidates of the results of its completed
// batches, the most frequent matching skills, and the insight text (the model's, or
// bullets chosen by fixed thresholds when the model call fails).
module Analytics {
  import opened Text
  import opened Outcomes
  import opened Arith
  import opened Ranking
  import opened Records

  /** A result of a completed batch together with that batch's job title. */
  datatype Tagged = Tagged(row: ResultRow, jobTitle: string)

  datatype Distribution = Distribution(excellent: nat, good: nat, average: nat, poor: nat)

  datatype SkillCount = SkillCount(skill: string, count: nat)

  datatype Candidate = Candidate(fileName: string, matchScore: int, jobTitle: string)

  /** The `analyticsData` record. */
  datatype Summary = Summary(
    totalCandidates: int,
    totalBatches: nat,
    completedBatches: nat,
    avgMatchScore: int,
    scoreDistribution: Distribution,
    topSkills: seq<SkillCount>,
    totalJobs: nat,
    jobTitles: seq<string>)

  datatype Response =
    | BadRequest(message: string)
    | Forbidden(message: string)
    | Report(analytics: Summary, scoreDistribution: Distribution, topSkills: seq<SkillCount>,
             topCandidates: seq<Candidate>, aiInsights: string, companyName: string)

  function TagAll(rows: seq<ResultRow>, jobTitle: string): (r: seq<Tagged>)
    ensures |r| == |rows| && forall i :: 0 <= i < |rows| ==> r[i] == Tagged(rows[i], jobTitle)
  {
    if rows == [] then [] else [Tagged(rows[0], jobTitle)] + TagAll(rows[1..], jobTitle)
  }

  /** `allResults`: the rows of the completed batches in batch order, each tagged with its job title. */
  function CompletedResults(batches: seq<BatchDoc>): seq<Tagged>
    decreases |batches|
  {
    if batches == [] then []
    else
      var b := batches[|batches| - 1];
      CompletedResults(batches[..|batches| - 1]) + (if IsCompleted(b) then TagAll(b.results, b.jobTitle) else [])
  }

  /** Only completed batches contribute results: a result comes from some completed batch. */
  lemma {:induction false} ResultsFromCompleted(batches: seq<BatchDoc>, t: Tagged)
    requires t in CompletedResults(batches)
    ensures exists b :: b in batches && IsCompleted(b) && t.row in b.results && t.jobTitle == b.jobTitle
    decreases |batches|
  {
    var init := batches[..|batches| - 1];
    var b := batches[|batches| - 1];
    if t in CompletedResults(init) {
      ResultsFromCompleted(init, t);
      var c :| c in init && IsCompleted(c) && t.row in c.results && t.jobTitle == c.jobTitle;
      assert c in batches;
    } else {
      var tagged := TagAll(b.results, b.jobTitle);
      var k :| 0 <= k < |tagged| && tagged[k] == t;
      assert t.row == b.results[k];
    }
  }

  /** The `completedBatches.forEach` loop pushing every tagged result. */
  method CollectResults(batches: seq<BatchDoc>) returns (all: seq<Tagged>)
    ensures all == CompletedResults(batches)
  {
    all := [];
    var i := 0;
    while i < |batches|
      invariant 0 <= i <= |batches|
      invariant all == CompletedResults(batches[..i])
    {
      var b := batches[i];
      if b.status == "completed" {
        all := all + TagAll(b.results, b.jobTitle);
      }
      assert batches[..i + 1][..i] == batches[..i];
      i := i + 1;
    }
    assert batches[..i] == batches;
  }

  function CountIf<T>(s: seq<T>, p: T -> bool): (n: nat)
    ensures n <= |s|
  {
    if s == [] then 0 else (if p(s[0]) then 1 else 0) + CountIf(s[1..], p)
  }

  function ScoreOf(t: Tagged): int {
    t.row.matchScore
  }

  /** The four score bands of `scoreRanges`. */
  function Buckets(results: seq<Tagged>): Distribution {
    Distribution(
      CountIf(results, (t: Tagged) => t.row.matchScore >= 80),
      CountIf(results, (t: Tagged) => t.row.matchScore >= 60 && t.row.matchScore < 80),
      CountIf(results, (t: Tagged) => t.row.matchScore >= 40 && t.row.matchScore < 60),
      CountIf(results, (t: Tagged) => t.row.matchScore < 40))
  }

  /** The bands partition the results: each result lies in exactly one, so the counts add up to the number of results. */
  lemma {:induction false} BucketsPartition(results: seq<Tagged>)
    ensures var d := Buckets(results); d.excellent + d.good + d.average + d.poor == |results|
    decreases |results|
  {
    if results != [] {
      BucketsPartition(results[1..]);
    }
  }

  function SumScores(results: seq<Tagged>): int
    decreases |results|
  {
    if results == [] then 0 else SumScores(results[..|results| - 1]) + ScoreOf(results[|results| - 1])
  }

  /** `avgMatchScore`: 0 without results, otherwise the rounded mean score. */
  function AvgMatchScore(results: seq<Tagged>): int {
    if |results| > 0 then RoundedMean(SumScores(results), |results|) else 0
  }

  lemma {:induction false} SumScoresBounds(results: seq<Tagged>, lo: int, hi: int)
    requires forall i :: 0 <= i < |results| ==> lo <= ScoreOf(results[i]) <= hi
    ensures lo * |results| <= SumScores(results) <= hi * |results|
    decreases |results|
  {
    if results != [] {
      var n := |results| - 1;
      assert forall i :: 0 <= i < n ==> results[..n][i] == results[i];
      SumScoresBounds(results[..n], lo, hi);
      assert lo * (n + 1) == lo * n + lo && hi * (n + 1) == hi * n + hi;
    }
  }

  /** The average is 0 without results and lies between the lowest and highest possible scores otherwise. */
  lemma AvgMatchScoreBounds(results: seq<Tagged>, lo: int, hi: int)
    requires forall i :: 0 <= i < |results| ==> lo <= ScoreOf(results[i]) <= hi
    ensures results == [] ==> AvgMatchScore(results) == 0
    ensures results != [] ==> lo <= AvgMatchScore(results) <= hi
  {
    if results != [] {
      SumScoresBounds(results, lo, hi);
      RoundedMeanBounds(SumScores(results), |results|, lo, hi);
    }
  }

  /** Every matching skill of every result, in order (duplicates included). */
  function AllSkills(results: seq<Tagged>): seq<string>
    decreases |results|
  {
    if results == [] then [] else AllSkills(results[..|results| - 1]) + results[|results| - 1].row.matchingSkills
  }

  function Occurrences(s: seq<string>, x: string): nat
    decreases |s|
  {
    if s == [] then 0 else Occurrences(s[..|s| - 1], x) + (if s[|s| - 1] == x then 1 else 0)
  }

  /** The distinct elements of `s` in order of first occurrence: the key order of the `Map`. */
  function Dedup(s: seq<string>): seq<string>
    decreases |s|
  {
    if s == [] then []
    else
      var init := s[..|s| - 1];
      Dedup(init) + (if s[|s| - 1] in init then [] else [s[|s| - 1]])
  }

  predicate Distinct(s: seq<string>) {
    forall i, j :: 0 <= i < j < |s| ==> s[i] != s[j]
  }

  /** The key order lists every skill once. */
  lemma {:induction false} DedupProperties(s: seq<string>)
    ensures Distinct(Dedup(s))
    ensures forall x :: x in Dedup(s) <==> x in s
    decreases |s|
  {
    if s != [] {
      var init := s[..|s| - 1];
      DedupProperties(init);
      assert forall x :: x in s <==> x in init || x == s[|s| - 1];
    }
  }

  lemma {:induction false} OccurrencesPositive(s: seq<string>, x: string)
    ensures Occurrences(s, x) > 0 <==> x in s
    decreases |s|
  {
    if s != [] {
      OccurrencesPositive(s[..|s| - 1], x);
      assert forall y :: y in s <==> y in s[..|s| - 1] || y == s[|s| - 1];
    }
  }

  /** What `skillsMap` holds after counting the skills `seen`: the keys in insertion order and each key's count. */
  ghost predicate Tally(seen: seq<string>, order: seq<string>, counts: map<string, nat>) {
    order == Dedup(seen)
    && (forall x :: x in counts <==> x in seen)
    && (forall x :: x in counts ==> counts[x] == Occurrences(seen, x))
  }

  /** `skillsMap.set(skill, (skillsMap.get(skill) || 0) + 1)` keeps the tally. */
  lemma TallyStep(seen: seq<string>, order: seq<string>, counts: map<string, nat>, x: string)
    requires Tally(seen, order, counts)
    ensures x in counts ==> Tally(seen + [x], order, counts[x := counts[x] + 1])
    ensures x !in counts ==> Tally(seen + [x], order + [x], counts[x := 1])
  {
    var s := seen + [x];
    assert s[..|s| - 1] == seen;
    assert forall y :: y in s <==> y in seen || y == x;
    if x !in counts {
      assert Dedup(s) == Dedup(seen) + [x];
      OccurrencesPositive(seen, x);
    }
  }

  /** The nested `forEach` loops filling `skillsMap`. */
  method CountSkills(results: seq<Tagged>) returns (order: seq<string>, counts: map<string, nat>)
    ensures Tally(AllSkills(results), order, counts)
  {
    order, counts := [], map[];
    var i := 0;
    while i < |results|
      invariant 0 <= i <= |results|
      invariant Tally(AllSkills(results[..i]), order, counts)
    {
      order, counts := CountRow(AllSkills(results[..i]), order, counts, results[i].row.matchingSkills);
      assert results[..i + 1][..i] == results[..i];
      i := i + 1;
    }
    assert results[..i] == results;
  }

  /** The inner loop, over the matching skills of one result. */
  method CountRow(seen: seq<string>, order0: seq<string>, counts0: map<string, nat>, skills: seq<string>)
    returns (order: seq<string>, counts: map<string, nat>)
    requires Tally(seen, order0, counts0)
    ensures Tally(seen + skills, order, counts)
  {
    order, counts := order0, counts0;
    var k := 0;
    assert seen + skills[..0] == seen;
    while k < |skills|
      invariant 0 <= k <= |skills|
      invariant Tally(seen + skills[..k], order, counts)
    {
      var skill := skills[k];
      TallyStep(seen + skills[..k], order, counts, skill);
      if skill in counts {
        counts := counts[skill := counts[skill] + 1];
      } else {
        order := order + [skill];
        counts := counts[skill := 1];
      }
      assert seen + skills[..k + 1] == seen + skills[..k] + [skill];
      k := k + 1;
    }
    assert skills[..k] == skills;
  }

  /** `Array.from(skillsMap.entries())`. */
  function Entries(order: seq<string>, counts: map<string, nat>): (r: seq<SkillCount>)
    requires forall x :: x in order ==> x in counts
    ensures |r| == |order| && forall j :: 0 <= j < |order| ==> r[j] == SkillCount(order[j], counts[order[j]])
  {
    if order == [] then [] else [SkillCount(order[0], counts[order[0]])] + Entries(order[1..], counts)
  }

  /** The skill counts the route derives: each distinct skill, in first-occurrence order, with its number of occurrences. */
  function SkillCounts(all: seq<string>): seq<SkillCount> {
    CountsOf(Dedup(all), all)
  }

  function CountsOf(keys: seq<string>, all: seq<string>): (r: seq<SkillCount>)
    ensures |r| == |keys| && forall j :: 0 <= j < |keys| ==> r[j] == SkillCount(keys[j], Occurrences(all, keys[j]))
  {
    if keys == [] then [] else [SkillCount(keys[0], Occurrences(all, keys[0]))] + CountsOf(keys[1..], all)
  }

  /** Each skill appears once with its number of occurrences, and every skill that occurs is listed with a positive count. */
  lemma SkillCountsCorrect(all: seq<string>)
    ensures forall i, j :: 0 <= i < j < |SkillCounts(all)| ==> SkillCounts(all)[i].skill != SkillCounts(all)[j].skill
    ensures forall e :: e in SkillCounts(all) ==> e.count == Occurrences(all, e.skill) && e.count > 0 && e.skill in all
    ensures forall x :: x in all ==> exists j :: 0 <= j < |SkillCounts(all)| && SkillCounts(all)[j].skill == x
  {
    var keys := Dedup(all);
    DedupProperties(all);
    forall e | e in SkillCounts(all) ensures e.count == Occurrences(all, e.skill) && e.count > 0 && e.skill in all {
      var j :| 0 <= j < |keys| && SkillCounts(all)[j] == e;
      assert keys[j] in keys;
      OccurrencesPositive(all, e.skill);
    }
    forall x | x in all ensures exists j :: 0 <= j < |SkillCounts(all)| && SkillCounts(all)[j].skill == x {
      assert x in keys;
      var j :| 0 <= j < |keys| && keys[j] == x;
      assert SkillCounts(all)[j].skill == x;
    }
  }

  function CountOf(e: SkillCount): int {
    e.count
  }

  /** `topSkills`: the ten most frequent skills, ties kept in first-occurrence order. */
  function TopSkills(results: seq<Tagged>): seq<SkillCount> {
    Take(SortDesc(SkillCounts(AllSkills(results)), CountOf), 10)
  }

  /** At most ten skills, by non-increasing count, none omitted that occurs more often than one kept. */
  lemma TopSkillsProperties(results: seq<Tagged>)
    ensures |TopSkills(results)| <= 10
    ensures NonIncreasing(TopSkills(results), CountOf)
    ensures multiset(TopSkills(results)) <= multiset(SkillCounts(AllSkills(results)))
    ensures forall x, y :: x in TopSkills(results) && y in multiset(SkillCounts(AllSkills(results))) - multiset(TopSkills(results))
              ==> x.count >= y.count
  {
    TopK(SkillCounts(AllSkills(results)), CountOf, 10);
  }

  function ToCandidate(t: Tagged): Candidate {
    Candidate(t.row.fileName, t.row.matchScore, t.jobTitle)
  }

  function Candidates(s: seq<Tagged>): (r: seq<Candidate>)
    ensures |r| == |s| && forall i :: 0 <= i < |s| ==> r[i] == ToCandidate(s[i])
  {
    if s == [] then [] else [ToCandidate(s[0])] + Candidates(s[1..])
  }

  /** The best results by score. */
  function TopResults(results: seq<Tagged>): seq<Tagged> {
    Take(SortDesc(results, ScoreOf), 5)
  }

  /** `topCandidates`: at most five, by non-increasing score, and no result left out scores higher than one kept. */
  lemma TopCandidatesProperties(results: seq<Tagged>)
    ensures |Candidates(TopResults(results))| <= 5
    ensures forall i, j :: 0 <= i < j < |Candidates(TopResults(results))| ==>
              Candidates(TopResults(results))[i].matchScore >= Candidates(TopResults(results))[j].matchScore
    ensures multiset(TopResults(results)) <= multiset(results)
    ensures forall x, y :: x in TopResults(results) && y in multiset(results) - multiset(TopResults(results))
              ==> x.row.matchScore >= y.row.matchScore
  {
    TopK(results, ScoreOf, 5);
  }

  const DefaultInsights := "No insights available yet. Analyze more candidates to generate insights."

  /** `Math.round(excellent / totalCandidates * 100)`, or 0 without candidates. */
  function ExcellentPercentage(excellent: nat, totalCandidates: int): int {
    if totalCandidates > 0 then RoundedMean(100 * excellent, totalCandidates) else 0
  }

  /** One bullet of the fallback insights, before it is rendered as text. */
  datatype Insight =
    | StrongPool(percent: int)
    | QualityChallenge(percent: int)
    | ModerateQuality(percent: int)
    | CommonSkills(names: seq<string>)
    | HighScore(average: int)
    | LowScore(average: int)
    | MiddlingScore(average: int)
    | HighActivity(completed: nat)

  /** The quality bullet: strong above 30% excellent, a challenge below 10%, moderate otherwise. */
  function QualityInsight(p: int): (r: Insight)
    ensures r.StrongPool? <==> p > 30
    ensures r.QualityChallenge? <==> p < 10
    ensures r.ModerateQuality? <==> 10 <= p <= 30
    ensures r == StrongPool(p) || r == QualityChallenge(p) || r == ModerateQuality(p)
  {
    if p > 30 then StrongPool(p) else if p < 10 then QualityChallenge(p) else ModerateQuality(p)
  }

  /** The score bullet: high from 70, low below 50, middling in between. */
  function ScoreInsight(avg: int): (r: Insight)
    ensures r.HighScore? <==> avg >= 70
    ensures r.LowScore? <==> avg < 50
    ensures r.MiddlingScore? <==> 50 <= avg < 70
    ensures r == HighScore(avg) || r == LowScore(avg) || r == MiddlingScore(avg)
  {
    if avg >= 70 then HighScore(avg) else if avg < 50 then LowScore(avg) else MiddlingScore(avg)
  }

  function SkillNames(s: seq<SkillCount>): (r: seq<string>)
    ensures |r| == |s| && forall i :: 0 <= i < |s| ==> r[i] == s[i].skill
  {
    if s == [] then [] else [s[0].skill] + SkillNames(s[1..])
  }

  /** The bullets `generateFallbackInsights` pushes, in order. */
  function FallbackBullets(data: Summary, ranges: Distribution): seq<Insight> {
    [QualityInsight(ExcellentPercentage(ranges.excellent, data.totalCandidates))]
    + (if |data.topSkills| > 0 then [CommonSkills(SkillNames(Take(data.topSkills, 3)))] else [])
    + [ScoreInsight(data.avgMatchScore)]
    + (if data.completedBatches > 5 then [HighActivity(data.completedBatches)] else [])
  }

  /**
   * Two to four bullets: the quality bullet first and the score bullet after the optional
   * skills bullet, which is there exactly when there are top skills and names the first
   * three of them; the activity bullet, last, exactly when more than five batches completed.
   */
  lemma FallbackShape(data: Summary, ranges: Distribution)
    ensures var b := FallbackBullets(data, ranges);
            var p := ExcellentPercentage(ranges.excellent, data.totalCandidates);
            var s := if |data.topSkills| > 0 then 1 else 0;
            2 <= |b| <= 4
            && |b| == 2 + s + (if data.completedBatches > 5 then 1 else 0)
            && (b[0].StrongPool? <==> p > 30) && (b[0].QualityChallenge? <==> p < 10)
            && (b[0].StrongPool? || b[0].QualityChallenge? || b[0].ModerateQuality?) && b[0].percent == p
            && (s == 1 ==> b[1].CommonSkills? && |b[1].names| == Min(3, |data.topSkills|)
                           && forall i :: 0 <= i < |b[1].names| ==> b[1].names[i] == data.topSkills[i].skill)
            && (b[1 + s].HighScore? <==> data.avgMatchScore >= 70) && (b[1 + s].LowScore? <==> data.avgMatchScore < 50)
            && (b[1 + s].HighScore? || b[1 + s].LowScore? || b[1 + s].MiddlingScore?) && b[1 + s].average == data.avgMatchScore
            && (data.completedBatches > 5 <==> |b| == 3 + s)
            && (|b| == 3 + s ==> b[2 + s] == HighActivity(data.completedBatches))
  {
    var q := QualityInsight(ExcellentPercentage(ranges.excellent, data.totalCandidates));
    var sc := ScoreInsight(data.avgMatchScore);
    var b := FallbackBullets(data, ranges);
    if |data.topSkills| > 0 {
      var k := CommonSkills(SkillNames(Take(data.topSkills, 3)));
      if data.completedBatches > 5 {
        assert b == [q, k, sc, HighActivity(data.completedBatches)];
      } else {
        assert b == [q, k, sc];
      }
    } else {
      if data.completedBatches > 5 {
        assert b == [q, sc, HighActivity(data.completedBatches)];
      } else {
        assert b == [q, sc];
      }
    }
  }

  function Min(a: int, b: int): int {
    if a < b then a else b
  }

  function Bullet(s: string): string {
    "\U{2022} " + s
  }

  /** The text of a bullet. */
  function Render(i: Insight): string {
    match i
    case StrongPool(p) => Bullet("Strong candidate pool: " + IntToString(p) + "% of candidates scored excellent (80+). Your job descriptions are attracting qualified talent.")
    case QualityChallenge(p) => Bullet("Candidate quality challenge: Only " + IntToString(p) + "% scored excellent. Consider broadening your sourcing channels or refining job requirements.")
    case ModerateQuality(p) => Bullet("Moderate candidate quality: " + IntToString(p) + "% scored excellent. There's room to improve candidate sourcing or job posting visibility.")
    case CommonSkills(names) => Bullet("Most common skills: " + Join(names, ", ") + ". These skills are readily available in the candidate market.")
    case HighScore(avg) => Bullet("High average match score (" + IntToString(avg) + "%): Your job requirements align well with candidate qualifications. Continue current sourcing strategies.")
    case LowScore(avg) => Bullet("Low average match score (" + IntToString(avg) + "%): Consider adjusting job requirements or expanding candidate search criteria to improve match rates.")
    case MiddlingScore(avg) => Bullet("Average match score is " + IntToString(avg) + "%: Room for improvement. Review job requirements to ensure they're realistic and well-targeted.")
    case HighActivity(n) => Bullet("High hiring activity: " + IntToString(n) + " completed analyses. You're actively building your team. Consider implementing structured interview processes for efficiency.")
  }

  function MapSeq<A, B>(s: seq<A>, f: A -> B): (r: seq<B>)
    ensures |r| == |s| && forall i :: 0 <= i < |s| ==> r[i] == f(s[i])
  {
    if s == [] then [] else [f(s[0])] + MapSeq(s[1..], f)
  }

  /** The fallback text: the rendered bullets, one per line. */
  function FallbackInsights(data: Summary, ranges: Distribution): string {
    Join(MapSeq(FallbackBullets(data, ranges), Render), "\n")
  }

  /** The percentage of excellent results among all candidates, rounded: at most 100 when the excellent ones are no more than the candidates. */
  lemma ExcellentPercentageBounds(excellent: nat, totalCandidates: int)
    requires excellent <= totalCandidates
    ensures 0 <= ExcellentPercentage(excellent, totalCandidates) <= 100
  {
    if totalCandidates > 0 {
      RoundedMeanBounds(100 * excellent, totalCandidates, 0, 100);
    }
  }

  /**
   * The report's excellent percentage is never negative, and at most 100 when the stored
   * resume counts of the company's batches cover their results; the route does not check that.
   */
  lemma ReportExcellentPercentage(user: UserDoc, allBatches: seq<BatchDoc>, allJobs: seq<JobDoc>, generated: Outcome<string>)
    ensures ReportFor(user, allBatches, allJobs, generated).Report?
    ensures var d := ReportFor(user, allBatches, allJobs, generated).analytics;
            var p := ExcellentPercentage(d.scoreDistribution.excellent, d.totalCandidates);
            p >= 0
            && (|CompletedResults(OfCompany(allBatches, user.id))| <= d.totalCandidates ==> p <= 100)
  {
    var results := CompletedResults(OfCompany(allBatches, user.id));
    ReportCounts(user, allBatches, allJobs, generated);
    var d := ReportFor(user, allBatches, allJobs, generated).analytics;
    PercentageBounds(d.scoreDistribution.excellent, |results|, d.totalCandidates);
  }

  /** The report's candidate total and excellent count, and how they relate to the results. */
  lemma ReportCounts(user: UserDoc, allBatches: seq<BatchDoc>, allJobs: seq<JobDoc>, generated: Outcome<string>)
    ensures ReportFor(user, allBatches, allJobs, generated).Report?
    ensures var d := ReportFor(user, allBatches, allJobs, generated).analytics;
            d.totalCandidates == TotalResumes(OfCompany(allBatches, user.id))
            && d.scoreDistribution.excellent <= |CompletedResults(OfCompany(allBatches, user.id))|
  {
  }

  lemma PercentageBounds(excellent: nat, results: nat, totalCandidates: int)
    requires excellent <= results
    ensures 0 <= ExcellentPercentage(excellent, totalCandidates)
    ensures results <= totalCandidates ==> ExcellentPercentage(excellent, totalCandidates) <= 100
  {
    if totalCandidates > 0 {
      var r := RoundedMean(100 * excellent, totalCandidates);
      assert totalCandidates * -1 < totalCandidates * (2 * r);
      MulCancel(totalCandidates, -1, 2 * r);
    }
    if results <= totalCandidates {
      ExcellentPercentageBounds(excellent, totalCandidates);
    }
  }

  /** `aiInsights`: the default without candidates; otherwise the model's text, the default when that text is empty, or the fallback when the call throws. */
  function Insights(totalCandidates: int, generated: Outcome<string>, data: Summary, ranges: Distribution): (r: string)
    ensures totalCandidates <= 0 ==> r == DefaultInsights
    ensures totalCandidates > 0 && generated.Failure? ==> r == FallbackInsights(data, ranges)
    ensures totalCandidates > 0 && generated.Success? ==> r == (if generated.value != "" then generated.value else DefaultInsights)
  {
    if totalCandidates > 0 then
      match generated
      case Failure(_) => FallbackInsights(data, ranges)
      case Success(text) => if text != "" then text else DefaultInsights
    else DefaultInsights
  }

  /** The report for a company user, given the stored batches and jobs and the outcome of the insight generation. */
  function ReportFor(user: UserDoc, allBatches: seq<BatchDoc>, allJobs: seq<JobDoc>, generated: Outcome<string>): Response {
    var batches := OfCompany(allBatches, user.id);
    var jobs := CreatedBy(allJobs, user.id);
    var total := TotalResumes(batches);
    var results := CompletedResults(batches);
    var ranges := Buckets(results);
    var top := TopSkills(results);
    var data := Summary(total, |batches|, |Completed(batches)|, AvgMatchScore(results), ranges, Take(top, 5), |jobs|, Titles(jobs));
    Report(data, ranges, top, Candidates(TopResults(results)), Insights(total, generated, data, ranges),
           CompanyNameOr(user, "Your Company"))
  }

  /** `GET`: 400 without an email, 403 unless the email belongs to a company user, otherwise the report. */
  method Get(userEmail: string, users: seq<UserDoc>, allBatches: seq<BatchDoc>, allJobs: seq<JobDoc>, generated: Outcome<string>)
    returns (resp: Response)
    ensures userEmail == "" ==> resp == BadRequest("User email is required")
    ensures userEmail != "" && !IsCompanyUser(FindUserByEmail(users, userEmail)) ==> resp == Forbidden("Unauthorized")
    ensures userEmail != "" && IsCompanyUser(FindUserByEmail(users, userEmail)) ==>
              resp == ReportFor(FindUserByEmail(users, userEmail).value, allBatches, allJobs, generated)
  {
    if userEmail == "" {
      return BadRequest("User email is required");
    }
    var user := FindUserByEmail(users, userEmail);
    if user.None? || user.value.role != "company" {
      return Forbidden("Unauthorized");
    }
    var u := user.value;
    var batches := OfCompany(allBatches, u.id);
    var jobs := CreatedBy(allJobs, u.id);
    var total := TotalResumes(batches);
    var completed := Completed(batches);
    var results := CollectResults(batches);
    var ranges := Buckets(results);
    var avg := AvgMatchScore(results);
    var order, counts := CountSkills(results);
    DedupProperties(AllSkills(results));
    EntriesAreCounts(order, counts, AllSkills(results));
    var top := Take(SortDesc(Entries(order, counts), CountOf), 10);
    var candidates := Candidates(Take(SortDesc(results, ScoreOf), 5));
    var data := Summary(total, |batches|, |completed|, avg, ranges, Take(top, 5), |jobs|, Titles(jobs));
    var insights := Insights(total, generated, data, ranges);
    resp := Report(data, ranges, top, candidates, insights, CompanyNameOr(u, "Your Company"));
  }

  /** The map's entries are the skill counts. */
  lemma EntriesAreCounts(order: seq<string>, counts: map<string, nat>, all: seq<string>)
    requires Tally(all, order, counts)
    requires forall x :: x in Dedup(all) <==> x in all
    ensures forall x :: x in order ==> x in counts
    ensures Entries(order, counts) == SkillCounts(all)
  {
  }
}
