# CareerCoPilot core, modelled in Dafny

CareerCoPilot is a Next.js application around a local language-model service. Candidates paste a job description and upload a resume PDF to a chat agent. Companies register, post jobs, screen batches of resumes, and read dashboards and analytics. This project models the logic behind those features and proves what the code promises. The model service, the PDF libraries, `JSON.parse` and the database are given as parameters or as already-fetched records.

- `text.dfy` (`Text`): JavaScript's whitespace set, `trim`, substring search, ASCII case folding and decimal rendering.
- `outcomes.dfy` (`Outcomes`): absent values, thrown errors, and the replies of the model service.
- `json.dfy` (`JsonValues`): parsed JSON values with JavaScript truthiness and property access.
- `arith.dfy` (`Arith`): `Math.round` of a mean, computed exactly on integers.
- `ranking.dfy` (`Ranking`): the stable descending sort by an integer key, and `slice(0, k)`.
- `records.dfy` (`Records`): the stored users, jobs and batch analyses, and the lookups the routes share.
- `batch_helpers.dfy` (`BatchHelpers`): the PDF text assembly of the batch route, and the cut of a reply from its first `{` to its last `}`.
- `batch_upload.dfy` (`BatchUpload`): the batch screening route. It validates the upload, records the batch, screens file by file while writing progress, and stores the final sorted results with the rounded mean.
- `analytics.dfy` (`Analytics`): the company analytics route. It computes totals, score buckets, the average, skill counts, the top skills and candidates, and the fallback insights.
- `dashboard.dfy` (`Dashboard`): the company dashboard route.
- `reply_cleanup.dfy` (`ReplyCleanup`): the removal of code fences from a model reply, and its parse.
- `skill_matching.dfy` (`SkillMatching`): `analyzeSkillsFlow`, with its checks and fixed fallback.
- `interview_flow.dfy` (`InterviewFlow`): the question generation and answer evaluation flows, with their fallbacks.
- `agent_flow.dfy` (`AgentFlow`): the career agent. It builds the context, finds the marked resume block and the job description, runs the decision cascade, and renders its replies.
- `agent_page.dfy` (`AgentPage`): the agent chat page. It reconstructs lines from positioned PDF text fragments and holds the state `handleSubmit` changes.
- `register_route.dfy` (`RegisterRoute`), `register_page.dfy` (`RegisterPage`): the server and client registration schemas, and the user document.
- `jobs_route.dfy` (`JobsRoute`), `new_job_page.dfy` (`NewJobPage`): the job schema and route, and the new-job form with its skill list.
- `bulk_upload_page.dfy` (`BulkUploadPage`): the bulk-upload page's file list, its form and its progress bar.
- `landing_page.dfy` (`LandingPage`): where "Get Started" navigates.

Where the source changes state step by step, the model does too. The batch loop, the page-assembly loops, the context loop, the pattern loop and `contextSummary +=` are methods with loops. Each is proved equal to a specification function, and the properties are proved about that function. The pages' React state is a class with `modifies` clauses: the job form, the bulk-upload page and the agent chat.

## Model

| member | source | states |
|---|---|---|
| LandingPage.GetStarted | src/app/page.tsx:14-30 | navigates to `/register` exactly when the stored flag is not `"true"`; to `/company/dashboard` exactly for the company role; to `/analyze` exactly for the coach role or no role; nowhere for any other role |
| LandingPage.OnlyTrueLogsIn | src/app/page.tsx:14-29 | every stored value other than exactly `"true"` routes to `/register`, whatever the role |
| LandingPage.IndividualStays | src/app/page.tsx:20-26 | a logged-in individual account gets no navigation |
| RegisterRoute.Issues | src/app/api/auth/register/route.ts:7-23 | no issue exactly when username has at least 3 characters, the email passes the email check, phone has at least 10, the password matches the pattern and the role (if given) is one of the three; `password` is reported exactly when the password is missing or fails the pattern |
| RegisterRoute.Validate | src/app/api/auth/register/route.ts:11-34 | parsing succeeds exactly without issues; a parsed registration keeps the body's fields, meets every field rule and has the given role or `individual` |
| RegisterRoute.OrUndefined | src/app/api/auth/register/route.ts:68-70 | an optional field is kept exactly when it is present and non-empty |
| RegisterRoute.NewUser | src/app/api/auth/register/route.ts:52-72 | the stored document holds the hash as password, the validated fields and role, and a company sub-document exactly for a company account with a non-empty name, with empty optional fields dropped |
| RegisterRoute.RegisterOutcome | src/app/api/auth/register/route.ts:28-77 | 201 exactly when the body validates, the company name check passes and no stored user has the email or the phone; every other answer leaves the users unchanged, and a 201 appends exactly the new document under the new id |
| RegisterRoute.RegisteredUser | src/app/api/auth/register/route.ts:46-77 | a registered user is appended after the old ones, has the hashed password, a valid role, the body's email, company details exactly for the company role, and an email and phone no earlier user has |
| RegisterRoute.RegisterKeepsUnique | src/app/api/auth/register/route.ts:45-75 | the duplicate check keeps the users free of shared emails and shared phone numbers |
| RegisterRoute.BlankCompanyNameRefused | src/app/api/auth/register/route.ts:36-39 | a company account whose name is only whitespace gets 400, though the schema accepts it |
| RegisterRoute.UserStore.Post | src/app/api/auth/register/route.ts:25-77 | the response and the new users are those of `Register` on the old users, and uniqueness of emails and phones is preserved |
| RegisterPage.PasswordProblems | src/app/register/page.tsx:34-49 | no password issue exactly when the password matches the pattern; "too short" exactly under 8 characters, "too long" exactly over 30 |
| RegisterPage.Problems | src/app/register/page.tsx:38-73 | no issue exactly when every field rule holds, the passwords agree and a company account has a non-empty name; the mismatch is reported exactly when the role is valid and the passwords differ; a missing company name is reported exactly for the company role with an empty name |
| RegisterPage.ToBody | src/app/register/page.tsx:99-108 | the posted body carries the form's password, role and company name |
| RegisterPage.Submit | src/app/register/page.tsx:80-108 | a body is posted exactly when the form shows no issue, and it is the form's values |
| RegisterPage.MismatchUnderRetype | src/app/register/page.tsx:60-63 | differing passwords give an issue whose path is `retypePassword` |
| RegisterPage.AcceptedFormValidates | src/app/register/page.tsx:38-73 | every form the client posts passes the route's schema, keeping the chosen role |
| RegisterPage.BlankCompanyNameSlipsThrough | src/app/register/page.tsx:64-73 | a whitespace-only company name passes the client check and is refused by the route with 400 |
| RegisterPage.CompanyAccountStored | src/app/register/page.tsx:64-73 | a company account with a non-blank name and a new email and phone is stored with that company name, and with a website exactly when one was typed |
| JobsRoute.Issues | src/app/api/company/jobs/route.ts:6-11 | no issue exactly when the title has at least 3 characters, the description at least 50, the skills are not `null` and the visibility is left out or is public or private; each field is listed exactly when its rule fails, and a `null` skills or visibility fails, as only a missing one is filled in |
| JobsRoute.NullFieldRefused | src/app/api/company/jobs/route.ts:9-10 | a `null` skills or visibility is answered with 400 listing that field, and no job is stored |
| JobsRoute.Post | src/app/api/company/jobs/route.ts:49-95 | 400 with the issues exactly when the schema fails; 400 "email required" exactly for a valid body without email; 403 exactly when the email names no company user; only a 201 changes the jobs, by appending the new job under the new id |
| JobsRoute.CreatedJob | src/app/api/company/jobs/route.ts:77-95 | a created job has the body's title and description, skills or `[]`, visibility or `private`, the company user as creator and company, and the company's name or `Unknown Company` |
| JobsRoute.CreatedJobCounts | src/app/api/company/jobs/route.ts:78-89 | a created job raises the user's job count, which the dashboard reports, by exactly one |
| JobsRoute.Get | src/app/api/company/jobs/route.ts:14-38 | 400 exactly without an email, 403 exactly without a matching company user, otherwise the user's jobs, a permutation of them sorted by creation time, newest first |
| NewJobPage.Without | src/app/company/jobs/new/page.tsx:79-81 | the filtered list holds exactly the entries other than the removed one, and is no longer than before |
| NewJobPage.WithoutConcat | src/app/company/jobs/new/page.tsx:79-81 | the filter works piecewise over a concatenation, so the kept entries stay in order |
| NewJobPage.WithoutCounts | src/app/company/jobs/new/page.tsx:79-81 | every occurrence of the removed skill goes, and every other skill keeps its number of occurrences |
| NewJobPage.WithoutAbsent | src/app/company/jobs/new/page.tsx:79-81 | removing a skill the list does not hold leaves it unchanged |
| NewJobPage.AddSkillEffect | src/app/company/jobs/new/page.tsx:71-77 | the trimmed input is appended and the input cleared exactly when the trimmed input is non-empty and new; otherwise list and input are unchanged |
| NewJobPage.AddSkillKeepsGood | src/app/company/jobs/new/page.tsx:71-77 | adding keeps the list free of duplicates and empty entries, each entry equal to its trim |
| NewJobPage.WithoutKeepsGood | src/app/company/jobs/new/page.tsx:79-81 | removing keeps the list free of duplicates and empty entries, each entry equal to its trim |
| NewJobPage.WithoutDistinct | src/app/company/jobs/new/page.tsx:79-81 | a list without duplicates has none after the filter |
| NewJobPage.JobForm.constructor | src/app/company/jobs/new/page.tsx:49-69 | the form starts with empty fields, visibility `private`, no skills and an empty skill input |
| NewJobPage.JobForm.SetSkillInput | src/app/company/jobs/new/page.tsx:50 | only the skill input changes |
| NewJobPage.JobForm.AddSkill | src/app/company/jobs/new/page.tsx:71-77 | the new list and input are those of `AfterAddSkill` on the old ones; the list invariant holds; the form fields are unchanged |
| NewJobPage.JobForm.RemoveSkill | src/app/company/jobs/new/page.tsx:79-81 | the new list is the old one without the skill; the input, the form fields and the list invariant are kept |
| NewJobPage.JobForm.SubmitBody | src/app/company/jobs/new/page.tsx:83-96 | a body is posted exactly when the title has at least 3 characters, the description at least 50 and the visibility is public or private; it carries the form values, the current skills and the email |
| NewJobPage.SubmittedJobStored | src/app/company/jobs/new/page.tsx:83-96 | a body the page submits for a company user is created by the route with exactly the page's skills, visibility and title |
| BulkUploadPage.Pending | src/app/company/bulk-upload/page.tsx:92-97 | one new entry per picked file, in order: the file, its fresh id, status `pending`, progress 0 |
| BulkUploadPage.PdfOnly | src/app/company/bulk-upload/page.tsx:125-127 | the dropped files kept are exactly those of type `application/pdf` |
| BulkUploadPage.PdfOnlyConcat | src/app/company/bulk-upload/page.tsx:125-127 | the filter distributes over concatenation, so the PDFs keep their order and multiplicity |
| BulkUploadPage.WithoutId | src/app/company/bulk-upload/page.tsx:156-158 | the entries kept are exactly those whose id differs from the removed one |
| BulkUploadPage.WithoutIdConcat | src/app/company/bulk-upload/page.tsx:156-158 | the removal works piecewise, so the other entries keep their order |
| BulkUploadPage.Uploads | src/app/company/bulk-upload/page.tsx:189-191 | the files sent are the listed files, in list order |
| BulkUploadPage.TicksFromZero | src/app/company/bulk-upload/page.tsx:199-201 | from 0, the bar shows 5 per tick up to 90 and stays at 90 |
| BulkUploadPage.TicksBounded | src/app/company/bulk-upload/page.tsx:199-201 | from a progress of at most 90, ticks never lower it and never pass 90 |
| BulkUploadPage.ResumeEntriesShape | src/app/company/bulk-upload/page.tsx:189-191 | the `k`-th file entry is the `k`-th listed file under the key `resume_<k>` |
| BulkUploadPage.ResumeFilesOfForm | src/app/company/bulk-upload/page.tsx:184-191 | the batch route's `resume_` prefix filter collects exactly the listed files, in order |
| BulkUploadPage.FormTextOfForm | src/app/company/bulk-upload/page.tsx:185-187 | the route reads back, as text, the job id and the email (or `''`) the page put in the form |
| BulkUploadPage.StartedFormScreened | src/app/company/bulk-upload/page.tsx:160-191 | because the page starts only with a job and at least one file, the route refuses the form with 400 exactly when the email is empty, and an accepted form screens exactly the listed files |
| BulkUploadPage.UploadPage.constructor | src/app/company/bulk-upload/page.tsx:45-55 | no job selected, no files, not processing, progress 0 |
| BulkUploadPage.UploadPage.SelectJob | src/app/company/bulk-upload/page.tsx:45-55 | only the selected job changes |
| BulkUploadPage.UploadPage.Select | src/app/company/bulk-upload/page.tsx:87-109 | no file list: nothing changes; otherwise every picked file is appended as pending, and the warning is raised exactly when the old count plus the new one exceeds 50, without refusing any file |
| BulkUploadPage.UploadPage.Drop | src/app/company/bulk-upload/page.tsx:121-154 | without a PDF nothing changes and the invalid-files message is raised; otherwise exactly the PDFs are appended as pending, with the same over-50 warning |
| BulkUploadPage.UploadPage.Remove | src/app/company/bulk-upload/page.tsx:156-158 | the list becomes the old one without the entries of that id; nothing else changes |
| BulkUploadPage.UploadPage.Start | src/app/company/bulk-upload/page.tsx:160-191 | without a selected job or without files nothing changes and no request is built; otherwise processing starts at progress 0 and the form is the job, the email or `''`, and one `resume_<index>` entry per file |
| BulkUploadPage.UploadPage.Tick | src/app/company/bulk-upload/page.tsx:199-201 | the progress becomes `min(p + 5, 90)`; nothing else changes |
| BulkUploadPage.UploadPage.Arrive | src/app/company/bulk-upload/page.tsx:208-234 | the progress becomes 100, and processing stops exactly when the batch failed |
| BulkUploadPage.UploadPage.FetchRejected | src/app/company/bulk-upload/page.tsx:203-235 | a rejected request re-enables the page, with the bar left where it was |
| ReplyCleanup.StripFence | src/ai/flows/skill-matching.ts:153 | removing a fence tag with its optional newline never lengthens the reply |
| ReplyCleanup.ParsedReply | src/ai/flows/skill-matching.ts:145-156 | a parse result exists exactly when the reply is an HTTP OK and `JSON.parse` of the cleaned text succeeds, and it is that parse |
| ReplyCleanup.StripPlainPrefix | src/ai/flows/skill-matching.ts:153 | text without backticks passes the fence removal unchanged, followed by the removal applied to the rest |
| ReplyCleanup.CleanupPlain | src/ai/flows/skill-matching.ts:153 | a reply without backticks is only trimmed |
| ReplyCleanup.CleanupJsonFenced | src/ai/flows/interview-flow.ts:87 | a reply wrapped in a `json` code fence comes back as its trimmed body |
| ReplyCleanup.CleanupFenced | src/ai/flows/interview-flow.ts:194 | a reply wrapped in a bare code fence comes back as its trimmed body |
| SkillMatching.AnalyzeSkills | src/ai/flows/skill-matching.ts:145-181 | an OK reply whose cleaned text parses to an object with a numeric `matchScore` and five truthy required fields is returned unchanged, the score not clamped; every other reply gives the fixed fallback |
| SkillMatching.AnalyzeSkillsAccepted | src/ai/flows/skill-matching.ts:169-181 | whatever the reply, the result passes the flow's own checks: the fallback does too, so the flow never fails its callers |
| SkillMatching.EmptyFields | src/ai/flows/skill-matching.ts:164-166 | empty `matchingSkills` and `missingSkills` lists pass, an empty `scoreRationale` string is rejected |
| InterviewFlow.Strings | src/ai/flows/interview-flow.ts:101-109 | the questions as JSON strings, one per question, in order |
| InterviewFlow.GenerateQuestions | src/ai/flows/interview-flow.ts:79-110 | the parsed cleaned OK reply when it holds an array of exactly five questions, the default set otherwise |
| InterviewFlow.AlwaysFiveQuestions | src/ai/flows/interview-flow.ts:92-110 | the output always holds exactly five questions, and a failed call gives the five default questions |
| InterviewFlow.EvaluateAnswer | src/ai/flows/interview-flow.ts:186-212 | the parsed cleaned OK reply when it has a numeric score and a truthy feedback, score 5 with the fixed feedback otherwise |
| InterviewFlow.EvaluationAlwaysValid | src/ai/flows/interview-flow.ts:199-212 | every evaluation has a numeric score and a feedback, and a failed call scores 5 |
| InterviewFlow.DefaultEvaluationValid | src/ai/flows/interview-flow.ts:208-211 | the fallback evaluation passes the checks and scores 5 |
| InterviewFlow.ScoreNotRangeChecked | src/ai/flows/interview-flow.ts:199-203 | a score of 42 with a feedback is returned as it is |
| Arith.RoundedMean | src/app/api/company/analytics/route.ts:58-60 | `Math.round(sum / n)` exactly: the result `r` satisfies `r - 1/2 <= sum/n < r + 1/2`, halves rounding up |
| Arith.RoundedMeanBounds | src/app/api/company/dashboard/route.ts:37-39 | the rounded mean of `n` values within `lo..hi` lies within `lo..hi` |
| Arith.RoundedMeanExact | src/app/api/company/batch-upload/route.ts:232 | the rounded mean of `n` equal values is that value |
| Ranking.InsertByKey | src/app/api/company/analytics/route.ts:72-73 | insertion adds exactly the one element to the multiset |
| Ranking.InsertByKeySorted | src/app/api/company/analytics/route.ts:72-73 | inserting into a non-increasing sequence keeps it non-increasing |
| Ranking.SortDesc | src/app/api/company/analytics/route.ts:78-79 | `sort((a, b) => key(b) - key(a))`: a permutation of the input, non-increasing in the key |
| Ranking.SortDescStable | src/app/api/company/analytics/route.ts:72-73 | the sort is stable: the elements sharing a key keep their relative order |
| Ranking.Take | src/app/api/company/analytics/route.ts:74 | `slice(0, k)`: the first `min(k, n)` elements |
| Ranking.TopK | src/app/api/company/analytics/route.ts:78-80 | the first `k` of the sorted elements are non-increasing, drawn from the input, and no element left out has a larger key than one kept |
| Records.FindUserByEmail | src/app/api/company/dashboard/route.ts:17 | a user is found exactly when some stored user has the email, and the one found is a stored user with that email |
| Records.CompanyNameOr | src/app/api/company/dashboard/route.ts:49 | the stored company name when it is present and non-empty, the fallback when it is absent or empty, so never empty with a non-empty fallback |
| Records.TotalResumesNonNegative | src/app/api/company/analytics/route.ts:34 | with missing counts as 0, a sum of non-negative resume counts is non-negative, and positive when the last one is |
| Records.Completed | src/app/api/company/dashboard/route.ts:36 | the kept batches are exactly those of status `completed` |
| Records.CompletedConcat | src/app/api/company/dashboard/route.ts:36 | the filter distributes over concatenation, so the completed batches keep their order and multiplicity, which the count and the mean rely on |
| Records.OfCompany | src/app/api/company/analytics/route.ts:24-26 | the kept batches are exactly those of the company |
| Records.OfCompanyConcat | src/app/api/company/analytics/route.ts:24-26 | the filter distributes over concatenation, so the company's batches keep their order and multiplicity, which the totals and means count |
| Records.CreatedBy | src/app/api/company/analytics/route.ts:29-31 | the kept jobs are exactly those created by the user |
| Records.Titles | src/app/api/company/analytics/route.ts:96 | the job titles, one per job, in order |
| Dashboard.RecentAreNewest | src/app/api/company/dashboard/route.ts:23-27 | at most ten of the company's batches, newest first, all of them when there are at most ten, and none left out newer than one kept |
| Dashboard.SumAveragesBounds | src/app/api/company/dashboard/route.ts:38 | the sum of `n` averages (missing as 0) within `lo..hi` lies within `n*lo..n*hi` |
| Dashboard.AvgMatchScoreBounds | src/app/api/company/dashboard/route.ts:36-39 | 0 without completed batches; otherwise, with the completed batches' averages (missing as 0) within `lo..hi`, the rounded mean is within `lo..hi` |
| Dashboard.RecentAll | src/app/api/company/dashboard/route.ts:23-27 | with at most ten batches of the company, the recent list holds all of them |
| Dashboard.RecentWithin | src/app/api/company/dashboard/route.ts:23-27 | the recent batches are stored batches of the company |
| Dashboard.TotalAnalyzedNonNegative | src/app/api/company/dashboard/route.ts:35 | with no stored resume count negative, the dashboard's resume total is never negative |
| Dashboard.Get | src/app/api/company/dashboard/route.ts:4-50 | 400 exactly without an email; 403 exactly without a matching company user; otherwise the ten most recent batches, their count (at most 10), their resume total, the user's job count (not limited to ten), the mean score of the completed ones and the company name or `Your Company` |
| Analytics.TagAll | src/app/api/company/analytics/route.ts:41-45 | each row of a batch is tagged with that batch's job title, in order |
| Analytics.ResultsFromCompleted | src/app/api/company/analytics/route.ts:35-47 | every collected result is a row of some completed batch, tagged with its job title |
| Analytics.CollectResults | src/app/api/company/analytics/route.ts:38-47 | the loop collects exactly the tagged rows of the completed batches, in batch order |
| Analytics.CountIf | src/app/api/company/analytics/route.ts:51-54 | a filtered count never exceeds the number of results |
| Analytics.BucketsPartition | src/app/api/company/analytics/route.ts:50-55 | the four score bands partition the results: their counts add up to the number of results |
| Analytics.SumScoresBounds | src/app/api/company/analytics/route.ts:59 | the sum of `n` scores within `lo..hi` lies within `n*lo..n*hi` |
| Analytics.AvgMatchScoreBounds | src/app/api/company/analytics/route.ts:58-60 | 0 without results; otherwise, with every score within `lo..hi`, the rounded mean is within `lo..hi` |
| Analytics.DedupProperties | src/app/api/company/analytics/route.ts:63-72 | the map's key order lists every seen skill exactly once |
| Analytics.OccurrencesPositive | src/app/api/company/analytics/route.ts:67 | a skill has a positive count exactly when it occurs |
| Analytics.TallyStep | src/app/api/company/analytics/route.ts:67 | one `skillsMap.set` keeps the map equal to the occurrence counts of the skills seen, appending a new key last |
| Analytics.CountSkills | src/app/api/company/analytics/route.ts:63-70 | after the loops, the map holds exactly the skills that occur, each with its number of occurrences, keys in first-occurrence order |
| Analytics.CountRow | src/app/api/company/analytics/route.ts:65-69 | the inner loop extends the tally by one result's matching skills |
| Analytics.Entries | src/app/api/company/analytics/route.ts:72 | the map's entries, key by key in insertion order |
| Analytics.CountsOf | src/app/api/company/analytics/route.ts:72-75 | each key paired with its number of occurrences |
| Analytics.SkillCountsCorrect | src/app/api/company/analytics/route.ts:63-75 | each skill listed once with its number of occurrences, a positive count, and every occurring skill listed |
| Analytics.TopSkillsProperties | src/app/api/company/analytics/route.ts:72-75 | at most ten skills, non-increasing in count, drawn from the counts, none left out counted more often than one kept |
| Analytics.Candidates | src/app/api/company/analytics/route.ts:81-85 | each candidate is its result's file name, score and job title, in order |
| Analytics.TopCandidatesProperties | src/app/api/company/analytics/route.ts:78-85 | at most five candidates, non-increasing in score, drawn from the results, none left out scoring higher than one kept |
| Analytics.QualityInsight | src/app/api/company/analytics/route.ts:164-170 | the strong bullet exactly above 30 %, the challenge bullet exactly below 10 %, the moderate bullet otherwise, each with the percentage |
| Analytics.ScoreInsight | src/app/api/company/analytics/route.ts:179-185 | the high bullet exactly from 70, the low bullet exactly below 50, the middling one otherwise, each with the average |
| Analytics.SkillNames | src/app/api/company/analytics/route.ts:174 | the skill names, one per entry, in order |
| Analytics.FallbackShape | src/app/api/company/analytics/route.ts:156-193 | two to four bullets: quality first, then the skills bullet exactly when there are top skills, naming the first three, then the score bullet, then the activity bullet exactly when more than five batches completed |
| Analytics.MapSeq | src/app/api/company/analytics/route.ts:192 | the bullets rendered one by one, in order |
| Analytics.ExcellentPercentageBounds | src/app/api/company/analytics/route.ts:160-162 | the rounded percentage of excellent results lies within 0..100 when they are no more than the candidates |
| Analytics.PercentageBounds | src/app/api/company/analytics/route.ts:160-162 | the rounded percentage is never negative, and at most 100 when the excellent count is within a number of results that the candidate total covers |
| Analytics.ReportCounts | src/app/api/company/analytics/route.ts:34-55 | the report's candidate total is the sum of the stored resume counts, and its excellent count is at most the number of completed results |
| Analytics.ReportExcellentPercentage | src/app/api/company/analytics/route.ts:34-55 | the report's excellent percentage is never negative, and at most 100 when the stored resume counts cover the completed results, which the route does not check |
| Analytics.Insights | src/app/api/company/analytics/route.ts:100-137 | the default text without candidates; otherwise the generated text, the default when it is empty, or the fallback bullets when the call fails |
| Analytics.Get | src/app/api/company/analytics/route.ts:5-146 | 400 without an email, 403 without a matching company user, otherwise the report computed from the company's batches and the user's jobs |
| Analytics.EntriesAreCounts | src/app/api/company/analytics/route.ts:63-75 | the map's entries are the skill counts |
| BatchHelpers.RunText | src/app/api/company/batch-upload/route.ts:28-37 | a run without text adds nothing; any other adds its decoded text, or its raw text when decoding fails, followed by one space |
| BatchHelpers.ExtractText | src/app/api/company/batch-upload/route.ts:22-47 | the nested loops give the trimmed concatenation of every page's run texts, each page followed by a newline |
| BatchHelpers.AppendItems | src/app/api/company/batch-upload/route.ts:25-41 | the loop over a page's text items appends exactly the text of those items |
| BatchHelpers.AppendRuns | src/app/api/company/batch-upload/route.ts:27-39 | the loop over a text item's runs appends exactly the text of those runs |
| BatchHelpers.PageWithoutText | src/app/api/company/batch-upload/route.ts:24-43 | a page without run text adds exactly one newline |
| BatchHelpers.BlankDocument | src/app/api/company/batch-upload/route.ts:22-47 | a document whose runs carry no text yields the empty string: the page newlines are trimmed away |
| BatchHelpers.FirstIndex | src/app/api/company/batch-upload/route.ts:107 | the position of the first `{`, or none when there is no `{` |
| BatchHelpers.LastIndex | src/app/api/company/batch-upload/route.ts:107 | the position of the last `}`, or none when there is no `}` |
| BatchHelpers.JsonSpan | src/app/api/company/batch-upload/route.ts:107-108 | a match exists exactly when some `{` precedes some `}`, and it runs from the first `{` to the last `}` |
| BatchHelpers.JsonSpanShape | src/app/api/company/batch-upload/route.ts:107 | the match starts with `{`, ends with `}` and has at least two characters |
| BatchHelpers.JsonSpanWhole | src/app/api/company/batch-upload/route.ts:107 | a reply that is itself `{...}` is taken whole |
| BatchHelpers.JsonSpanInContext | src/app/api/company/batch-upload/route.ts:107 | text before the object without `{` and text after it without `}` leave the match equal to the object |
| BatchHelpers.AnalyzeResumeSucceeds | src/app/api/company/batch-upload/route.ts:98-115 | the analysis succeeds exactly when the reply is OK, holds a `{...}` span and that span parses, and it is that parse |
| BatchHelpers.AnalyzeResumeErrors | src/app/api/company/batch-upload/route.ts:98-119 | a non-OK status fails with `Ollama API error: <status> <text>`, a failed call with its own error, and an OK reply without a `{` before a `}` with `Invalid analysis response format` |
| BatchUpload.ResumeFilesMembers | src/app/api/company/batch-upload/route.ts:133-138 | a file is collected exactly when some entry under a `resume_` key holds it |
| BatchUpload.CollectResumeFiles | src/app/api/company/batch-upload/route.ts:133-138 | the loop collects exactly the files under `resume_` keys, in form order |
| BatchUpload.RowsCount | src/app/api/company/batch-upload/route.ts:178-229 | every file adds one row, and one more for each progress write that throws |
| BatchUpload.RowsPerFile | src/app/api/company/batch-upload/route.ts:178-229 | without failing progress writes, row `i` belongs to file `i`: its analysed row, or the error row with the thrown message |
| BatchUpload.AnalysedRow | src/app/api/company/batch-upload/route.ts:186-197 | an analysed file's row copies the name, score, status and lists verbatim, the score not clamped, and stores exactly the first `min(5000, length)` characters of the text |
| BatchUpload.FailedRow | src/app/api/company/batch-upload/route.ts:212-228 | a failed file gives exactly one row: score 0, status `Error`, empty lists and text, and `Failed to process: <msg>` as its one recommendation; a PDF parse failure's message is `PDF parsing failed: <error>` |
| BatchUpload.SumScoresBounds | src/app/api/company/batch-upload/route.ts:232 | the sum of `n` scores within `lo..hi` lies within `n*lo..n*hi` |
| BatchUpload.FileRowsInRange | src/app/api/company/batch-upload/route.ts:186-228 | when every analysis scores within 0..100, so does every row a file adds |
| BatchUpload.AverageInRange | src/app/api/company/batch-upload/route.ts:232-241 | when every analysis scores within 0..100, the rows are non-empty and their rounded mean lies within 0..100 |
| BatchUpload.RowScoresInRange | src/app/api/company/batch-upload/route.ts:178-229 | when every analysis scores within 0..100, every row does |
| BatchUpload.FinalBatchResults | src/app/api/company/batch-upload/route.ts:235-246 | the completed batch is `completed`, counts all its rows, holds exactly the accumulated rows (as a multiset) ordered by non-increasing score, and keeps its company, job and total |
| BatchUpload.FormGet | src/app/api/company/batch-upload/route.ts:125-126 | a value is found exactly when some entry has the key |
| BatchUpload.LookupUser | src/app/api/company/batch-upload/route.ts:148 | a text is looked up as an email, and a file finds no user |
| BatchUpload.Screen | src/app/api/company/batch-upload/route.ts:124-156 | 400 exactly when the job id or email is missing or empty text, or there is no `resume_` file (a file under either key passes that check); 403 exactly when those pass but no company user has the email; 500 exactly when they pass and the job id is a file or its lookup throws; an accepted request carries the collected files, the text job id, the company user and the job found |
| BatchUpload.FileEmailForbidden | src/app/api/company/batch-upload/route.ts:128-150 | a file under `userEmail` passes the presence check and is refused as unauthorized |
| BatchUpload.FileJobIdFails | src/app/api/company/batch-upload/route.ts:128-153 | a file under `jobId`, with a company user's email, gives the 500 of `new ObjectId` |
| BatchUpload.BatchStore.Insert | src/app/api/company/batch-upload/route.ts:171-172 | the document is appended and its position is the new id |
| BatchUpload.BatchStore.SetProgress | src/app/api/company/batch-upload/route.ts:203-211 | only the batch's processed count and results change, and the write is logged |
| BatchUpload.BatchStore.Complete | src/app/api/company/batch-upload/route.ts:235-246 | the batch's status, count, average, results and completion time are set, and the write is logged |
| BatchUpload.ScreenFile | src/app/api/company/batch-upload/route.ts:179-228 | one iteration appends exactly the file's rows and keeps `processedCount == results.length`, the batch otherwise untouched and every logged write a prefix of the rows |
| BatchUpload.RecordRows | src/app/api/company/batch-upload/route.ts:199-228 | the row (or error row) is pushed with the count; a progress write happens only after a successful analysis and stores the rows so far with their count |
| BatchUpload.AnalyseFile | src/app/api/company/batch-upload/route.ts:180-197 | extraction then analysis give the file's row, or the message of the first error thrown |
| BatchUpload.Post | src/app/api/company/batch-upload/route.ts:122-253 | a rejected request writes nothing and answers as `Screen` says; an accepted one appends the completed batch built from all rows, answers with its id, the row count and the rounded mean; every progress write left the inserted batch as it was apart from the count and the rows (so still `processing`, with no average and no completion time, and with the company, job and total as inserted), stored a prefix of the rows with its count, counted more rows than the write before and no more than the final write |
| BatchUpload.ProcessBatch | src/app/api/company/batch-upload/route.ts:158-253 | given a batch inserted as `processing` with no rows, every progress write keeps it `processing` with its other fields as inserted and stores a prefix with a strictly larger count than the write before, and the final update stores the rows sorted by score with their rounded mean and status `completed` |
| BatchUpload.ScreenFiles | src/app/api/company/batch-upload/route.ts:176-229 | the loop leaves `results` equal to the rows of all files and `processedCount` equal to their number, the batch untouched apart from the progress writes, each of which keeps it as inserted apart from the count and the rows |
| BatchUpload.FailedWriteCountsTwice | src/app/api/company/batch-upload/route.ts:199-227 | a single file whose progress write throws gets its row and an error row under the same name, and the completed batch counts 2 resumes against a total of 1 |
| BatchUpload.PrefixExtends | src/app/api/company/batch-upload/route.ts:203-211 | progress writes that stored prefixes of the rows remain prefixes as more rows are pushed |
| AgentFlow.ContextAppend | src/ai/flows/agent-flow.ts:51-56 | the context of a concatenated history is the two contexts concatenated |
| AgentFlow.ContextSnoc | src/ai/flows/agent-flow.ts:52-56 | one more message adds exactly its entry `Role: text` and a blank line to the end of the context |
| AgentFlow.ContextHasEntry | src/ai/flows/agent-flow.ts:51-56 | every message's entry, with its role label and first text part, occurs in the context |
| AgentFlow.BuildContext | src/ai/flows/agent-flow.ts:51-56 | the `for` loop builds exactly the entries of the history in order, `User` for the user role and `Agent` for any other, an absent text as empty |
| AgentFlow.MarkerFacts | src/ai/flows/agent-flow.ts:66 | the header and the end marker start with `*` and hold no newline, and the intro starts with a character that is not whitespace |
| AgentFlow.SkipWs | src/ai/flows/agent-flow.ts:66 | a greedy `\s*` stops at the end of the text or at a character that is not whitespace |
| AgentFlow.SkipWsRun | src/ai/flows/agent-flow.ts:66 | everything a greedy `\s*` passes over is whitespace |
| AgentFlow.BackWs | src/ai/flows/agent-flow.ts:66 | the whitespace run before a position, not going below a bound, starts at the bound or after a character that is not whitespace |
| AgentFlow.BackWsRun | src/ai/flows/agent-flow.ts:66 | all of that run is whitespace |
| AgentFlow.FirstAt | src/ai/flows/agent-flow.ts:66 | the position found lies after the start and holds an occurrence of the marker, ignoring case |
| AgentFlow.FirstAtSpec | src/ai/flows/agent-flow.ts:66 | no occurrence lies before the position found, and nothing is found only when the marker occurs nowhere after the start |
| AgentFlow.FirstAtAt | src/ai/flows/agent-flow.ts:66 | an occurrence with none before it is the one found |
| AgentFlow.MatchAtChars | src/ai/flows/agent-flow.ts:66 | the `i`-flag occurrence at a position, character by character |
| AgentFlow.GroupAt | src/ai/flows/agent-flow.ts:66 | the span the marked-block pattern captures at one position lies in the text and has no whitespace at either end |
| AgentFlow.BlockAt | src/ai/flows/agent-flow.ts:66 | the pattern tried at one position gives a group exactly when it reports a span; the group has no whitespace at either end |
| AgentFlow.FirstBlockLeftmost | src/ai/flows/agent-flow.ts:66 | the search finds a position where the pattern matches and none earlier, and finds nothing only when no position matches |
| AgentFlow.MarkedResume | src/ai/flows/agent-flow.ts:66-67 | the group `match` returns has no whitespace at either end |
| AgentFlow.MarkedResumeLeftmost | src/ai/flows/agent-flow.ts:66-67 | `match` succeeds exactly when the pattern matches at some position, and then gives the group of the leftmost match |
| AgentFlow.BlockTrimmed | src/ai/flows/agent-flow.ts:68 | the `trim` applied to the captured group changes nothing |
| AgentFlow.LegacyOnlyWithoutBlock | src/ai/flows/agent-flow.ts:66-79 | when the marked block matches, the resume is its group, whatever the older-format extractor returns |
| AgentFlow.FirstBlockAt | src/ai/flows/agent-flow.ts:66 | when the pattern fails before a position and matches at it, the search returns that position |
| AgentFlow.NoHeadBefore | src/ai/flows/agent-flow.ts:66 | after a text without the header and the two newlines that follow it, the header occurs at no position up to the block |
| AgentFlow.EndAfter | src/ai/flows/agent-flow.ts:66 | after a resume without the end marker and the newline that follows it, the first end marker found is the one the block puts there |
| AgentFlow.CaptureResume | src/ai/flows/agent-flow.ts:66 | after the intro, a resume line followed by the end marker: the marker is found right after it and the lazy group spans exactly the trimmed resume |
| AgentFlow.BlockAtSpan | src/ai/flows/agent-flow.ts:66 | the header, the intro and the end marker matched at the positions the pattern's steps reach make the group the text up to the whitespace before the marker |
| AgentFlow.BlockAtWrapper | src/ai/flows/agent-flow.ts:66 | a well-formed block at a position makes the pattern match there with the block's resume as its group |
| AgentFlow.WrappedBlock | src/ai/flows/agent-flow.ts:66 | a prefix without the header followed by a block around a trimmed resume without the end marker: the leftmost match gives back the resume |
| AgentFlow.MarkedResumeRecovered | src/ai/flows/agent-flow.ts:66-68 | the round trip: a trimmed resume without the end marker, marked after a text without the header, is exactly the resume the agent finds |
| AgentFlow.Candidate | src/ai/flows/agent-flow.ts:95-97 | a pattern offers a candidate exactly when it matches with a non-empty group, and the candidate is that group trimmed |
| AgentFlow.FromPatternsFirst | src/ai/flows/agent-flow.ts:94-105 | the result is the candidate of the first pattern whose candidate is longer than 100 characters and has a keyword, with no earlier pattern accepted; it is empty exactly when no pattern is accepted |
| AgentFlow.JobDescriptionSource | src/ai/flows/agent-flow.ts:94-111 | a found job description is longer than 100 characters and has a keyword; it is the first accepted candidate when there is one, and otherwise the prompt exactly when the prompt is longer than 150 characters and has a keyword |
| AgentFlow.ExtractJobDescription | src/ai/flows/agent-flow.ts:94-111 | the pattern loop with its `break` and then the prompt fallback give exactly the job description specified above |
| AgentFlow.Decide | src/ai/flows/agent-flow.ts:113-185 | analyse exactly when there are a job description and a resume and no analysis yet; questions exactly when questions were asked for, the analysis is done and there is a job description; chat otherwise |
| AgentFlow.Show | src/ai/flows/agent-flow.ts:141-143 | a string is interpolated as itself and an integer in decimal |
| AgentFlow.Bullets | src/ai/flows/agent-flow.ts:149 | one `- item` line per skill, in order |
| AgentFlow.Positive | src/ai/flows/agent-flow.ts:147 | `length > 0`: false for `undefined`, `null` and an object, the number's sign for a number, the value for a boolean |
| AgentFlow.SkillLines | src/ai/flows/agent-flow.ts:147-157 | an array gives its bullets joined by newlines, or the placeholder when it is empty; the branch throws exactly for a missing value, `null`, a non-empty string or an object whose `length` field is positive, with V8's message for reading `length` of `undefined` or `null` and for `.map` not being a function; any other value gives the placeholder |
| AgentFlow.ObjectSkills | src/ai/flows/agent-flow.ts:147-149 | an object with a positive numeric `length` throws at `.map` with the not-a-function message, and one without `length` gives the placeholder |
| AgentFlow.Closing | src/ai/flows/agent-flow.ts:161-163 | the strong-match invitation exactly when the score is at least 70, the improvement advice exactly below 70 |
| AgentFlow.AnalysisReply | src/ai/flows/agent-flow.ts:135-164 | the reply succeeds exactly when both skills sections render, and is then the analysis text with the score, the rationale and both sections; the headings open with the characters the source text holds (each emoji double-encoded, e.g. `ðŸ“Š` for 📊), not the emoji |
| AgentFlow.AnalysisTextMarked | src/ai/flows/agent-flow.ts:117-118 | every analysis reply contains both `Resume Analysis Complete` and `Match Score:`, so it marks the analysis as done |
| AgentFlow.TitleMarked | src/ai/flows/agent-flow.ts:137 | the reply's title contains `Resume Analysis Complete` |
| AgentFlow.ScoreLineMarked | src/ai/flows/agent-flow.ts:141 | the score line contains `Match Score:` whatever the score |
| AgentFlow.Numbered | src/ai/flows/agent-flow.ts:175 | one `**n.** question` line per question, in order, numbered from 1 |
| AgentFlow.Questions | src/ai/flows/agent-flow.ts:169-175 | the question flow's result always holds exactly five questions |
| AgentFlow.ChatReply | src/ai/flows/agent-flow.ts:237-242 | succeeds exactly for an OK reply, with its `response` trimmed; a failed status throws `Ollama API error:` and the status text; a failed request throws its error |
| AgentFlow.Observe | src/ai/flows/agent-flow.ts:51-129 | a turn reads the context of the whole history followed by `User:` and the prompt |
| AgentFlow.BuildSummary | src/ai/flows/agent-flow.ts:187-196 | the notes for the job description, the resume and the completed analysis, each present exactly when its fact holds, in that order |
| AgentFlow.CareerAgent | src/ai/flows/agent-flow.ts:49-243 | the flow's statements give exactly the reply, or the error, of the branch the decision selects |
| AgentFlow.InHistory | src/ai/flows/agent-flow.ts:51-59 | any text in a history message's first part is text of the context the next turn reads |
| AgentFlow.AnalysisOnce | src/ai/flows/agent-flow.ts:116-134 | once an analysis reply is in the history, the next turn sees the analysis as done and does not analyse again |
| AgentFlow.InClosing | src/ai/flows/agent-flow.ts:161-164 | text of the closing paragraph is text of the analysis reply |
| AgentFlow.LowerInvite | src/ai/flows/agent-flow.ts:124-126 | `Would you like` lower-cases to the phrase the question test looks for, and `interview` is lower case already |
| AgentFlow.StrongClosingInvites | src/ai/flows/agent-flow.ts:162 | the strong-match closing contains `Would you like` and `interview` |
| AgentFlow.StrongMatchInvitesQuestions | src/ai/flows/agent-flow.ts:122-168 | after a strong-match analysis, an affirmative prompt with a job description still found leads the next turn to generate questions |
| AgentFlow.QuestionsBranch | src/ai/flows/agent-flow.ts:167-183 | the questions branch replies with exactly five questions, numbered in order |
| AgentFlow.AnalysisBranch | src/ai/flows/agent-flow.ts:133-165 | the analysis branch replies with the rendered analysis; when that succeeds the reply marks the analysis done and, from a score of 70, contains the strong-match invitation |
| AgentFlow.AnalysisResponds | src/ai/flows/agent-flow.ts:133-165 | for any turn whose findings select the analysis, the reply is the rendered analysis; when it succeeds it marks the analysis done and, from a score of 70, contains the strong-match closing |
| AgentPage.Visible | src/app/agent/page.tsx:56-57 | the fragments kept are never more than those given |
| AgentPage.JoinText | src/app/agent/page.tsx:84-87 | one space is put between a non-empty line and the next string unless either side already has one there; otherwise the string is appended as it is |
| AgentPage.AddFragment | src/app/agent/page.tsx:77-88 | a breaking fragment, or the first, adds a line; any other adds no line |
| AgentPage.Lines | src/app/agent/page.tsx:69-91 | no more lines than fragments, and no lines exactly when there are no fragments |
| AgentPage.AddFlatten | src/app/agent/page.tsx:77-88 | adding a fragment to the lines adds it to the end of their fragments |
| AgentPage.AddInner | src/app/agent/page.tsx:82-88 | a fragment that does not break may join the last line: no line is empty and no two neighbours in a line break |
| AgentPage.AddBetween | src/app/agent/page.tsx:77-81 | a fragment that breaks starts a line, and every line after the first still starts with a break |
| AgentPage.LinesPartition | src/app/agent/page.tsx:69-91 | the lines hold all the fragments in order; no line is empty; neighbours inside a line are within 5 units; each later line starts with a break from the line before |
| AgentPage.LinesSnoc | src/app/agent/page.tsx:69-91 | one more fragment is added to the lines according to whether it breaks from the last one |
| AgentPage.TrimmedLines | src/app/agent/page.tsx:78-79 | one trimmed text per line |
| AgentPage.TrimmedLinesAt | src/app/agent/page.tsx:78-79 | entry `i` is line `i`'s text, trimmed |
| AgentPage.NonBlankOf | src/app/agent/page.tsx:78 | the lines kept are no more than those given, none is empty and each is one of them |
| AgentPage.EmittedLines | src/app/agent/page.tsx:77-96 | a page writes no more lines than it has, none blank, each trimmed and each the trimmed text of one of the page's lines |
| AgentPage.EmittedSnoc | src/app/agent/page.tsx:94-96 | one more line adds its trimmed text exactly when that is not empty |
| AgentPage.TrimmedLinesSnoc | src/app/agent/page.tsx:78-79 | one more line adds its trimmed text at the end |
| AgentPage.NonBlankSnoc | src/app/agent/page.tsx:78 | one more string is kept exactly when it is not empty |
| AgentPage.ConcatLinesSnoc | src/app/agent/page.tsx:79 | one more line adds it and a newline at the end |
| AgentPage.Step | src/app/agent/page.tsx:69-91 | one turn of the loop keeps the text written and the open line in step with the grouping of the fragments seen |
| AgentPage.StepFirst | src/app/agent/page.tsx:66-67 | the first fragment opens the first line and writes nothing |
| AgentPage.StepBreak | src/app/agent/page.tsx:77-81 | a breaking fragment writes out the open line, unless it is blank, and opens a new one |
| AgentPage.StepJoin | src/app/agent/page.tsx:82-88 | any other fragment joins the open line |
| AgentPage.LinesNext | src/app/agent/page.tsx:69-91 | `lastY` is the previous fragment's position, so the loop's test is the grouping's break |
| AgentPage.StepLast | src/app/agent/page.tsx:93-96 | writing out the last open line completes the page text |
| AgentPage.LastLine | src/app/agent/page.tsx:93-96 | the open line is the text of the last line, and writing it out gives the page text |
| AgentPage.Feed | src/app/agent/page.tsx:77-88 | a breaking fragment writes out the open line, unless it is blank, and opens a new one with its string; any other joins the open line |
| AgentPage.AssemblePage | src/app/agent/page.tsx:56-96 | the page loop writes exactly the page text: the visible fragments grouped into lines, each non-blank line trimmed and ended by a newline |
| AgentPage.Flush | src/app/agent/page.tsx:94-96 | the open line is written out trimmed with a newline, unless it is blank |
| AgentPage.PageTexts | src/app/agent/page.tsx:50-102 | one text per page |
| AgentPage.WrittenStep | src/app/agent/page.tsx:99-101 | each page adds its text and, unless it is the last, the page break |
| AgentPage.WrittenAll | src/app/agent/page.tsx:99-101 | after the last page the text is the page texts joined by page breaks |
| AgentPage.ExtractText | src/app/agent/page.tsx:45-105 | `extractTextFromPdf` gives exactly the document text: the page texts joined by page breaks, then trimmed |
| AgentPage.OnePage | src/app/agent/page.tsx:99-104 | a one-page document has no page break |
| AgentPage.TwoPages | src/app/agent/page.tsx:99-104 | with two pages the break stands between the two page texts |
| AgentPage.WithInput | src/app/agent/page.tsx:117-120 | text that is not blank is added as a user message; blank text adds nothing |
| AgentPage.WithFile | src/app/agent/page.tsx:122-128 | the file note joins the last message when that one is the user's, and otherwise becomes a user message of its own; either way the last message is the user's and ends with the note |
| AgentPage.ToHistoryAll | src/app/agent/page.tsx:151-154 | one history entry per message, in order, each with the message's role and its text as the one part |
| AgentPage.HistoryWindow | src/app/agent/page.tsx:149-154 | at most seven messages are sent; all but the newest when there are no more than eight; they are the latest ones, in order |
| AgentPage.ReplyContent | src/app/agent/page.tsx:165-173 | the response of an OK answer; otherwise the error prefix with the route's message, the default message when it is missing or empty, or the request's error |
| AgentPage.PostMessages | src/app/agent/page.tsx:117-128 | the copy of the messages gets the pushes `handleSubmit` makes, exactly those specified above |
| AgentPage.CombinedPrompt | src/app/agent/page.tsx:114-133 | the prompt is the typed text, followed by the marked document text when a file is attached |
| AgentPage.SliceHistory | src/app/agent/page.tsx:149-154 | the slice and the `map` give exactly the history window |
| AgentPage.AgentChat.constructor | src/app/agent/page.tsx:23-31 | the page opens with the agent's greeting as its only message, an empty box, no file and no wait |
| AgentPage.AgentChat.SetInput | src/app/agent/page.tsx:218 | typing replaces the box's text and nothing else |
| AgentPage.AgentChat.ChooseFile | src/app/agent/page.tsx:231 | choosing replaces the file and nothing else |
| AgentPage.AgentChat.Submit | src/app/agent/page.tsx:107-163 | nothing happens for blank text without a file; a file that does not read leaves the messages, the box and the file as they were and ends the wait; otherwise the new messages are shown, the box and the file are cleared, and the request carries the history window and the prompt with the marked text |
| AgentPage.AgentChat.Receive | src/app/agent/page.tsx:165-176 | the answer, or the error text, is added as the agent's message, and the wait ends |
| AgentPage.AttachedResumeRecovered | src/app/agent/page.tsx:130-133 | when neither the history nor the typed text holds the header and the document text holds no end marker, the resume the agent finds is exactly the text the page extracted |
| AgentPage.NewestOnlyInPrompt | src/app/agent/page.tsx:117-154 | the newest shown message is the user's and is never in the history; without a file it is the typed text, with one it ends with the file note |

## Findings

| source | as written | input that shows it | evidently intended | confidence | as-written member | corrected member |
|---|---|---|---|---|---|---|
| src/app/api/company/batch-upload/route.ts:199-227 | the row is pushed and `processedCount` incremented before the progress `updateOne`; when that update throws, the `catch` pushes an error row for the same file and increments the count again | one PDF that parses and analyses, with the progress update failing: two rows for the one file, `processedResumes` 2 against `totalResumes` 1 | one row per uploaded file, so `processedResumes` never exceeds `totalResumes`; the model keeps the behaviour as written, and the one-row-per-file property is proved for runs without a failing progress write | not executed; follows from the statement order | BatchUpload.FailedWriteCountsTwice | BatchUpload.RowsPerFile |

## Left out

- The model service calls (`fetch` to the local service, `ai.generate`) are not modelled. Their replies are parameters, and neither their prompts nor the scores they would give are modelled.
- `JSON.parse` is a parameter from text to a parsed value or a failure. `decodeURIComponent`, pdf2json and pdfjs are not modelled: their outputs (decoded runs, page fragments, a read failure) are inputs. bcrypt is a parameter, so the stored hash is the parameter's value.
- zod's email and URL checks are not modelled and are given as predicates.
- JSON fields of the wrong type in request bodies are not modelled: text fields are strings, `skills` a list of strings. A `null` in an optional job field is modelled.
- BatchHelpers.AnalyzeResume: the parsed reply is assumed to hold the seven fields of `Analysis` with their types (an integer `matchScore`, a string `status`, five lists of strings). A reply whose JSON lacks `matchScore` or gives it as a string is not modelled; in the source it would be copied into the row and make the mean `NaN` or a string concatenation.
- Genkit's `outputSchema` validation of the flows' results is not modelled: src/ai/schemas.ts is not part of this model. A flow's result reaches its caller unvalidated, so a skills field that is not an array reaches the analysis branch.
- AgentFlow.Positive: JavaScript's conversion of a text to a number is not modelled. Whether a text `length` (or an array's single text element) is a positive number is the parameter `positiveText`.
- Of the agent's regular expressions, only the marked resume block is modelled, character by character, with ASCII case folding. The others are parameters: the older resume format, the four job-description patterns and the two question-request tests.
- The pdfjs sort of fragments by position (src/app/agent/page.tsx:58-64) is not modelled. It works on floating-point coordinates, and its 5-unit tolerance makes it non-transitive. The assembly loop takes fragments already in order, with integer vertical positions.
- Floating point is not modelled. `Math.round` of a mean is computed exactly on integers, scores are integers, and `formatFileSize` is not modelled.
- Database failures and the routes' outer `catch` that answers 500 are not modelled. Fetched records are inputs, and writes are updates of a store or a log. Inside the batch loop, a failed progress write is modelled: it adds a second error row for the file.
- The UI is not modelled: rendering, toasts, router pushes, the `setInterval` and `setTimeout` timing (the tick itself is modelled), the scroll effect, and the sessionStorage redirects of the other pages.
- AgentPage.AgentChat.Submit: the file note is written into a fresh copy of the last message. The source edits that message object in place, and that object is shared with the previous state, so the aliasing is not captured.
- AgentPage.AgentChat.Submit: a second submission while an answer is awaited is not modelled. The page only disables its button then.
- Lengths count characters, not UTF-16 code units, and case folding is ASCII only.
- AgentPage.Visible: the contract states only the bound on its length. That it keeps exactly the non-blank fragments, in order, is its definition and is not restated.
- The bulk-upload page's random ids (`Math.random().toString(36)`) are a parameter `newId`. The batch route's timestamps (`new Date()`) are one `now` parameter for the whole request.
- The registration route's unique index and concurrent registrations are not modelled. The duplicate check reads the users as one snapshot.
