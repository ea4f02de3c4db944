// The new-job form: the skill list edited by `addSkill` and `removeSkill`, the
// client schema, and the body posted to the jobs route.
module NewJobPage {
  import opened Text
  import opened Outcomes
  import JobsRoute
  import Records

  /** `skills.filter((skill) => skill !== x)`. */
  function Without(s: seq<string>, x: string): (r: seq<string>)
    ensures |r| <= |s|
    ensures forall y :: y in r <==> y in s && y != x
  {
    if s == [] then [] else (if s[0] == x then [] else [s[0]]) + Without(s[1..], x)
  }

  /** The filter works piecewise, so the kept entries stay in their order. */
  lemma {:induction false} WithoutConcat(a: seq<string>, b: seq<string>, x: string)
    ensures Without(a + b, x) == Without(a, x) + Without(b, x)
    decreases |a|
  {
    if a == [] {
      assert a + b == b;
    } else {
      assert (a + b)[1..] == a[1..] + b;
      WithoutConcat(a[1..], b, x);
    }
  }

  /** Every occurrence of `x` goes, and every other entry keeps its count. */
  lemma {:induction false} WithoutCounts(s: seq<string>, x: string)
    ensures multiset(Without(s, x))[x] == 0
    ensures forall y :: y != x ==> multiset(Without(s, x))[y] == multiset(s)[y]
    decreases |s|
  {
    if s != [] {
      WithoutCounts(s[1..], x);
      assert s == [s[0]] + s[1..];
    }
  }

  /** A list without `x` is left as it is. */
  lemma {:induction false} WithoutAbsent(s: seq<string>, x: string)
    requires x !in s
    ensures Without(s, x) == s
    decreases |s|
  {
    if s != [] {
      WithoutAbsent(s[1..], x);
    }
  }

  /** `addSkill` on the list and the input box: the new list and the new input. */
  function AfterAddSkill(skills: seq<string>, input: string): (seq<string>, string) {
    var t := Trim(input);
    if t != "" && t !in skills then (skills + [t], "") else (skills, input)
  }

  /**
   * The trimmed input is appended exactly when it is non-empty and new, and the input
   * is cleared exactly then; otherwise list and input are unchanged.
   */
  lemma AddSkillEffect(skills: seq<string>, input: string)
    ensures var (s, i) := AfterAddSkill(skills, input);
            (Trim(input) != "" && Trim(input) !in skills ==> s == skills + [Trim(input)] && i == "")
            && (!(Trim(input) != "" && Trim(input) !in skills) ==> s == skills && i == input)
            && (i == "" && input != "" <==> s != skills)
  {
  }

  predicate Distinct(s: seq<string>) {
    forall i, j :: 0 <= i < j < |s| ==> s[i] != s[j]
  }

  /** No duplicates, no empty entries, and every entry equal to its trim. */
  predicate GoodSkills(s: seq<string>) {
    Distinct(s) && forall y :: y in s ==> y != "" && Trim(y) == y
  }

  lemma AddSkillKeepsGood(skills: seq<string>, input: string)
    requires GoodSkills(skills)
    ensures GoodSkills(AfterAddSkill(skills, input).0)
  {
    var s := AfterAddSkill(skills, input).0;
    if s != skills {
      TrimIdempotent(input);
      assert s[|skills|] == Trim(input);
      forall i, j | 0 <= i < j < |s| ensures s[i] != s[j] {
        if j == |skills| {
          assert s[i] == skills[i];
        }
      }
    }
  }

  lemma WithoutKeepsGood(skills: seq<string>, x: string)
    requires GoodSkills(skills)
    ensures GoodSkills(Without(skills, x))
  {
    WithoutDistinct(skills, x);
  }

  lemma {:induction false} WithoutDistinct(s: seq<string>, x: string)
    requires Distinct(s)
    ensures Distinct(Without(s, x))
    decreases |s|
  {
    if s != [] {
      var tail := s[1..];
      assert Distinct(tail) by {
        forall i, j | 0 <= i < j < |tail| ensures tail[i] != tail[j] {
          assert tail[i] == s[i + 1] && tail[j] == s[j + 1];
        }
      }
      WithoutDistinct(tail, x);
      if s[0] != x {
        assert s[0] !in tail by {
          forall j | 0 <= j < |tail| ensures tail[j] != s[0] {
            assert tail[j] == s[j + 1];
          }
        }
        ConsDistinct(s[0], Without(tail, x));
      }
    }
  }

  lemma ConsDistinct(a: string, rest: seq<string>)
    requires Distinct(rest) && a !in rest
    ensures Distinct([a] + rest)
  {
    var r := [a] + rest;
    forall i, j | 0 <= i < j < |r| ensures r[i] != r[j] {
      assert r[j] == rest[j - 1];
      if i > 0 {
        assert r[i] == rest[i - 1];
      }
    }
  }

  /** The client schema: title, description and visibility. */
  predicate FormOk(title: string, description: string, visibility: string) {
    |title| >= 3 && |description| >= 50 && JobsRoute.IsVisibility(visibility)
  }

  /** The state of the page: the form values, the skill list and the skill input box. */
  class JobForm {
    var title: string
    var description: string
    var visibility: string
    var skills: seq<string>
    var skillInput: string

    ghost predicate Valid()
      reads this
    {
      GoodSkills(skills)
    }

    /** The default values: empty fields, visibility `private`, no skills. */
    constructor ()
      ensures Valid()
      ensures title == "" && description == "" && visibility == "private" && skills == [] && skillInput == ""
    {
      title := "";
      description := "";
      visibility := "private";
      skills := [];
      skillInput := "";
    }

    method SetSkillInput(s: string)
      modifies this
      requires Valid()
      ensures Valid()
      ensures skillInput == s && skills == old(skills)
      ensures title == old(title) && description == old(description) && visibility == old(visibility)
    {
      skillInput := s;
    }

    method AddSkill()
      modifies this
      requires Valid()
      ensures Valid()
      ensures (skills, skillInput) == AfterAddSkill(old(skills), old(skillInput))
      ensures title == old(title) && description == old(description) && visibility == old(visibility)
    {
      AddSkillKeepsGood(skills, skillInput);
      var trimmed := Trim(skillInput);
      if trimmed != "" && trimmed !in skills {
        skills := skills + [trimmed];
        skillInput := "";
      }
    }

    method RemoveSkill(x: string)
      modifies this
      requires Valid()
      ensures Valid()
      ensures skills == Without(old(skills), x) && skillInput == old(skillInput)
      ensures title == old(title) && description == old(description) && visibility == old(visibility)
    {
      WithoutKeepsGood(skills, x);
      skills := Without(skills, x);
    }

    /** `onSubmit`: the body `{ ...values, skills, userEmail }`, or `None` while the schema fails. */
    function SubmitBody(userEmail: Option<string>): (r: Option<JobsRoute.JobBody>)
      reads this
      ensures r.Some? <==> FormOk(title, description, visibility)
      ensures r.Some? ==> r.value.skills == JobsRoute.Given(skills) && r.value.userEmail == userEmail
                          && r.value.title == Some(title) && r.value.description == Some(description)
    {
      if FormOk(title, description, visibility) then
        Some(JobsRoute.JobBody(Some(title), Some(description), JobsRoute.Given(skills), JobsRoute.Given(visibility), userEmail))
      else None
    }
  }

  /** What the page submits passes the route's schema, and the stored job lists exactly the skills on the page. */
  lemma SubmittedJobStored(title: string, description: string, visibility: string, skills: seq<string>,
                           userEmail: string, users: seq<Records.UserDoc>, jobs: seq<Records.JobDoc>, id: Records.ObjectId, now: int)
    requires FormOk(title, description, visibility) && userEmail != ""
    requires Records.IsCompanyUser(Records.FindUserByEmail(users, userEmail))
    ensures var b := JobsRoute.JobBody(Some(title), Some(description), JobsRoute.Given(skills), JobsRoute.Given(visibility), Some(userEmail));
            var r := JobsRoute.Post(b, users, jobs, id, now).0;
            r.Created? && r.job.skills == skills && r.job.visibility == visibility && r.job.title == title
  {
  }
}
