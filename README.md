# Job board data layer, modelled in Dafny

The job board is a client-side application. Users browse a fixed catalog of
jobs, open a job's details, submit an application through a form, and list
the applications they have sent. This project models the logic behind that:

- the mock API (`src/data/mockApi.ts`): a read-only catalog, and an
  application store kept in one persisted slot, `job_applications`;
- the job context (`src/context/JobContext.tsx`): jobs, cached applications,
  and the loading and error flags;
- the application form's validation and submit gate
  (`src/components/JobApplicationForm.tsx`);
- the job list's search filter (`src/components/JobList.tsx`);
- the job detail fetch (`src/components/JobDetail.tsx`);
- the applied-jobs detail map (`src/components/AppliedJobs.tsx`).

Files and modules:

- `wrappers.dfy` (`Wrappers`): `Option` stands for a `T | null`. `Result`
  stands for a settled promise.
- `types.dfy` (`Types`): the records.
  - `Job.company` is a nested record of exactly `name`, `logo` and `location`.
  - `requirements` and `responsibilities` are sequences of strings.
  - `coverLetter` is the only optional field of `JobApplication`.
  - The job type and the status are enumerations, mapped one-to-one to
    their string literals.
- `text.dfy` (`Text`): `trim`, `toLowerCase` and `includes`, over ASCII.
- `mock_api.dfy` (`MockApi`): the class `Api`. It has the catalog (a
  constant) and the storage slot (a field). The slot is `Absent`, `Stored`
  (a list) or `Malformed` (text that does not parse).
- `job_context.dfy` (`JobContext`): the class `JobProvider`. It holds the
  `Api` it talks to.
- `application_form.dfy` (`ApplicationForm`): the class
  `JobApplicationForm`, the validation rules, and a one-pass scanner for
  the email pattern `\S+@\S+\.\S+`. The scanner is proved equivalent to
  the pattern's meaning.
- `job_list.dfy` (`JobList`): the search filter as a pure function.
- `job_detail.dfy` (`JobDetail`): the class `JobDetailView` and its render choice.
- `applied_jobs.dfy` (`AppliedJobs`): the class `AppliedJobsView`, and the
  loop that builds the job-details dictionary.

Every request is an immediate step. `Date.now()` and
`new Date().toISOString()` are parameters: the clock value `now` and the
timestamp `appliedAt`. Where a request can fail only against a real
backend, its settled outcome is a parameter:

- `FetchJobs` takes the result of the jobs request.
- `FetchJob` and `SyncJobDetails` take a lookup function
  `string -> Result<Option<Job>>`.

Requests that read storage go through the `Api` object. The synchronous
read `getStoredApplications` parses without a guard, so it throws on a
malformed slot. The two asynchronous requests that use it, `getApplications`
and `submitApplication`, do so inside a timer callback. As written, their
promises therefore never settle on a malformed slot (see "## Findings").
`Api.GetApplications` and `Api.SubmitApplication` model the corrected
requests, which reject. The rest of the model uses these.

Points where the code's behaviour is easy to misread:

- A corrupt stored blob does not read as an empty list. The parse is not
  guarded, so the read throws.
- Submission ids are not unique in general. The code uses the clock value as
  the id. The model proves only that different clock values give different
  ids (`MockApi.DistinctClocksGiveDistinctIds`).
- A failed jobs fetch does not clear `jobs`. The code leaves `jobs` as it
  was, which is empty only on the first fetch.

## Model

| member | source | states |
|---|---|---|
| `Types.ParseJobType` | src/types/index.ts:9 | a job-type string is accepted exactly when it is one of Full-time, Part-time, Contract, Internship |
| `Types.JobTypeNamesRoundTrip` | src/types/index.ts:9 | the four job-type literals and the enumeration correspond one-to-one |
| `Types.ParseStatus` | src/types/index.ts:27 | a status string is accepted exactly when it is one of Pending, Reviewed, Rejected, Accepted |
| `Types.StatusNamesRoundTrip` | src/types/index.ts:27 | the four status literals and the enumeration correspond one-to-one |
| `MockApi.FindJob` | src/data/mockApi.ts:32-33 | null exactly when no catalog job has the id; otherwise the job at the first index with that id |
| `MockApi.FindJobOfCatalogJob` | src/data/mockApi.ts:29-36 | with distinct ids, looking up any catalog job's id gives back that job |
| `MockApi.Api.GetJobs` | src/data/mockApi.ts:20-26 | resolves with the whole catalog, unchanged and in order |
| `MockApi.Api.GetJob` | src/data/mockApi.ts:29-36 | always resolves, with the first-match lookup, never with a failure |
| `MockApi.Api.GetStoredApplications` | src/data/mockApi.ts:8-11 | an absent slot reads as the empty list, a stored list reads back as itself, and only a malformed slot fails |
| `MockApi.Api.StoreApplications` | src/data/mockApi.ts:14-16 | the whole slot is replaced by the given list, not merged, and reading it back gives that list |
| `MockApi.StoreThenLoad` | src/data/mockApi.ts:8-16 | storing a list and loading it yields the same list |
| `MockApi.Api.GetApplications` | src/data/mockApi.ts:39-45 | corrected request: resolves with what the slot reads as (the empty list for an absent slot), and rejects exactly on a malformed slot |
| `MockApi.GetApplicationsAsWritten` | src/data/mockApi.ts:39-45 | as written: stays pending exactly on a malformed slot; resolves with the empty list for an absent slot and with the stored list otherwise |
| `MockApi.MalformedReadNeverSettles` | src/data/mockApi.ts:39-45 | on a malformed slot the written read never settles while the corrected read rejects; on readable slots both deliver the same list |
| `MockApi.DecimalString` | src/data/mockApi.ts:56 | the id text is a non-empty run of decimal digits with no leading zero |
| `MockApi.DecimalRoundTrip` | src/data/mockApi.ts:56 | reading the id back as a decimal number gives the clock value |
| `MockApi.DistinctClocksGiveDistinctIds` | src/data/mockApi.ts:56 | submissions at different clock values get different ids |
| `MockApi.NewApplication` | src/data/mockApi.ts:54-59 | the record keeps every input field, has status Pending, the clock's decimal string as a non-empty id, and the given timestamp |
| `MockApi.Api.SubmitApplication` | src/data/mockApi.ts:48-67 | fails exactly when the slot cannot be read, and then changes nothing; otherwise returns the new record, and the slot becomes the old list with that record appended |
| `MockApi.SubmissionAppends` | src/data/mockApi.ts:62-64 | after a submit the stored list is one longer, keeps the earlier records in order, and ends with the returned record |
| `MockApi.SubmitAsWritten` | src/data/mockApi.ts:49-66 | as written, a malformed slot leaves the submit promise pending for ever; a readable slot resolves with the new record |
| `MockApi.MalformedSubmitNeverSettles` | src/data/mockApi.ts:49-66 | on a malformed slot the written submit never settles, while the corrected submit fails; on readable slots the two agree |
| `JobContext.JobProvider.constructor` | src/context/JobContext.tsx:16-20 | starts with no jobs, no applications, loading true and no error |
| `JobContext.JobProvider.FetchJobs` | src/context/JobContext.tsx:22-34 | success sets the jobs and clears the error; failure sets the fixed message and keeps the jobs; loading ends either way; applications untouched |
| `JobContext.JobProvider.FetchApplications` | src/context/JobContext.tsx:36-43 | success replaces the cached applications with the store; a failure is swallowed and keeps them; jobs, loading and error untouched |
| `JobContext.JobProvider.Mount` | src/context/JobContext.tsx:45-48 | the mount effect leaves the fetched jobs (or the error), loading false, and the reloaded applications |
| `JobContext.JobProvider.ApplyForJob` | src/context/JobContext.tsx:50-54 | returns exactly the record submitted; the cache then equals the store and ends with it; a failed submit is passed on with no reload |
| `JobContext.ReloadReadsYourWrites` | src/context/JobContext.tsx:50-54 | a reload after a write sees exactly the written list |
| `JobContext.JobProvider.RefreshApplications` | src/context/JobContext.tsx:56-58 | the cache becomes the reload of the store; nothing else changes |
| `JobContext.PendingReadKeepsCache` | src/context/JobContext.tsx:36-43 | whether a malformed read rejects into the swallowing catch or never settles, the cached applications stay as they were; a settled read replaces them |
| `JobContext.RefreshIdempotent` | src/context/JobContext.tsx:56-58 | two reloads from an unchanged store leave the same cache as one |
| `JobContext.UseJobContext` | src/context/JobContext.tsx:76-82 | yields the enclosing provider, and fails with the fixed message exactly when there is none |
| `Text.TrimStartSpec` | src/components/JobApplicationForm.tsx:45 | trimming the start keeps a suffix not starting with whitespace and drops only whitespace |
| `Text.TrimEndSpec` | src/components/JobApplicationForm.tsx:45 | trimming the end keeps a prefix not ending with whitespace and drops only whitespace |
| `Text.TrimEmptyIffBlank` | src/components/JobApplicationForm.tsx:45-61 | a field is empty after trimming exactly when it is all whitespace |
| `ApplicationForm.EmailPatternIffShape` | src/components/JobApplicationForm.tsx:51 | the pattern matches somewhere exactly when an '@' and a later '.' occur with non-whitespace before, between (at least one) and after |
| `ApplicationForm.TestEmailPattern` | src/components/JobApplicationForm.tsx:51 | the scan answers true exactly when the pattern matches somewhere in the string |
| `ApplicationForm.RequiredFieldRule` | src/components/JobApplicationForm.tsx:45-61 | fullName, phone and resume get their own required message, under their own key, exactly when empty after trimming |
| `ApplicationForm.EmailRule` | src/components/JobApplicationForm.tsx:49-53 | email gets "Email is required" when blank, otherwise "Email is invalid" exactly when the pattern does not match; never both |
| `ApplicationForm.ErrorKeysChecked` | src/components/JobApplicationForm.tsx:42-65 | only the four checked fields can carry errors; never the cover letter, never "form" |
| `ApplicationForm.FormValidIff` | src/components/JobApplicationForm.tsx:42-65 | validation passes exactly when the three required fields and the email are not blank and the email matches the pattern |
| `ApplicationForm.JobApplicationForm.ValidateForm` | src/components/JobApplicationForm.tsx:42-65 | the computed dictionary replaces the errors entirely, and the result is true exactly when it is empty |
| `ApplicationForm.WithField` | src/components/JobApplicationForm.tsx:30 | an edit sets the named field and leaves every other field as it was |
| `ApplicationForm.JobApplicationForm.constructor` | src/components/JobApplicationForm.tsx:16-26 | starts with all five fields empty, no errors, and neither submitting nor submitted |
| `ApplicationForm.KeyNamesDistinct` | src/components/JobApplicationForm.tsx:43-97 | the error keys stand for distinct dictionary keys (`fullName`, `email`, `phone`, `resume`, `coverLetter`, `form`), so keying by field loses no entry |
| `ApplicationForm.JobApplicationForm.HandleChange` | src/components/JobApplicationForm.tsx:28-40 | updates only the named field; removes that field's error when it is set; keeps every other key, "form" included |
| `ApplicationForm.PayloadKeepsRawFields` | src/components/JobApplicationForm.tsx:77-84 | the payload is the job's id and the raw, untrimmed form fields |
| `ApplicationForm.JobApplicationForm.HandleSubmit` | src/components/JobApplicationForm.tsx:67-101 | an invalid form is not submitted and the store is untouched; a valid one is submitted with the raw fields; success sets submitSuccess, failure sets errors to exactly the form message; isSubmitting ends false |
| `JobList.FilterJobs` | src/components/JobList.tsx:12-16 | a job is in the result exactly when it is in the list and its lower-cased title, company name or category includes the lower-cased term |
| `JobList.FilterKeepsMultiplicity` | src/components/JobList.tsx:12-16 | each matching job occurs in the result exactly as often as in the jobs, and a non-matching one not at all, so the "Showing N jobs" count is the number of matching entries |
| `JobList.FilterIsSubsequence` | src/components/JobList.tsx:12-16 | the result is an order-preserving subsequence of the jobs |
| `JobList.EmptyTermKeepsAll` | src/components/JobList.tsx:12-16 | an empty search term keeps every job, in order |
| `JobList.CaseInsensitive` | src/components/JobList.tsx:13-15 | terms that differ only in letter case give the same result |
| `JobList.MatchNarrows` | src/components/JobList.tsx:13-15 | a job that matches a term also matches every substring of it |
| `JobList.LongerTermNarrows` | src/components/JobList.tsx:12-16 | if t occurs in t2, the result for t2 is a subsequence of the result for t |
| `JobList.ResultNoun` | src/components/JobList.tsx:115 | the count reads "job" exactly for one match, "jobs" otherwise |
| `Text.ToLower` | src/components/JobList.tsx:13-15 | lower-casing keeps the length and folds each letter in place |
| `Text.ToLowerIdempotent` | src/components/JobList.tsx:13-15 | lower-casing twice is lower-casing once |
| `Text.IncludesIffOccurs` | src/components/JobList.tsx:13-15 | includes holds exactly when the term occurs at some position |
| `Text.IncludesEmpty` | src/components/JobList.tsx:12-16 | every string includes the empty term |
| `Text.IncludesTransitive` | src/components/JobList.tsx:13-15 | a substring of a substring is a substring |
| `Text.IncludesToLower` | src/components/JobList.tsx:13-15 | lower-casing both sides keeps a substring a substring |
| `JobDetail.JobDetailView.constructor` | src/components/JobDetail.tsx:12-15 | starts with no job, loading true, no error and the form hidden |
| `JobDetail.JobDetailView.FetchJob` | src/components/JobDetail.tsx:17-41 | with no route id nothing changes; otherwise loading ends with the found job and no error, "Job not found" and the old job, or "Failed to load job details" and the old job |
| `JobDetail.Screen` | src/components/JobDetail.tsx:43-60 | the spinner exactly while loading; otherwise the error panel exactly when the error is set or there is no job, showing the error or else "Job not found" |
| `JobDetail.FoundJobIsShown` | src/components/JobDetail.tsx:30-36 | after a successful fetch the view shows that job |
| `JobDetail.MissingJobShowsNotFound` | src/components/JobDetail.tsx:25-28 | after a null lookup the view shows "Job not found", whatever job was held before |
| `JobDetail.JobDetailView.OpenApplicationForm` | src/components/JobDetail.tsx:113 | Apply shows the form and changes nothing else |
| `JobDetail.JobDetailView.CloseApplicationForm` | src/components/JobDetail.tsx:177-183 | close and cancel hide the form and change nothing else |
| `AppliedJobs.JobIdsMembership` | src/components/AppliedJobs.tsx:21-31 | an id is a key exactly when some application refers to it |
| `AppliedJobs.BuildDetails` | src/components/AppliedJobs.tsx:18-31 | the dictionary's keys are exactly the applications' job ids, each mapped to its lookup result, or null if the lookup failed |
| `AppliedJobs.AppliedJobsView.constructor` | src/components/AppliedJobs.tsx:11-12 | starts with an empty dictionary and loading true |
| `AppliedJobs.AppliedJobsView.SyncJobDetails` | src/components/AppliedJobs.tsx:15-42 | with no applications only loading ends; otherwise the dictionary is rebuilt from scratch and replaces the old one; loading false afterwards |
| `AppliedJobs.AppliedJobsView.RefreshOnMount` | src/components/AppliedJobs.tsx:45-47 | on mount the context's applications are reloaded from the store; the view's own state is untouched |
| `AppliedJobs.Cards` | src/components/AppliedJobs.tsx:80-86 | one card per application, in list order, each with its job id's entry |
| `AppliedJobs.CardsShowLookups` | src/components/AppliedJobs.tsx:80-86 | with the rebuilt dictionary, every card shows the lookup result for its own job id |
| `AppliedJobs.Screen` | src/components/AppliedJobs.tsx:49-88 | the spinner exactly while loading; otherwise the empty notice exactly when there are no applications; otherwise the cards |

## Findings

| source | as written | input that shows it | evidently intended | confidence | as-written member | corrected member |
|---|---|---|---|---|---|---|
| src/data/mockApi.ts:49-66 | the storage read and `JSON.parse` run inside the `setTimeout` callback, after the promise executor has returned, so a parse error is uncaught and the promise stays pending | slot holding `{`, valid form submitted: the submit never settles, the form stays "Submitting...", and the "Failed to submit" message never appears | the storage fault rejects the promise and reaches the caller's catch, as the form's catch block (src/components/JobApplicationForm.tsx:93-97) expects; `applyForJob` has no catch and would pass the rejection on | high, by reading; not executed | `MockApi.SubmitAsWritten` (with `MockApi.MalformedSubmitNeverSettles`) | `MockApi.Api.SubmitApplication` |
| src/data/mockApi.ts:39-45 | `getStoredApplications()` runs inside the `setTimeout` callback, so a parse error is uncaught and the `getApplications` promise stays pending | slot holding `{`: the promise never settles, so the catch in `fetchApplications` (src/context/JobContext.tsx:40-42) never runs; the cache stays as it was, which is also what the catch would have left | the storage fault rejects the promise and reaches `fetchApplications`' catch | high, by reading; not executed | `MockApi.GetApplicationsAsWritten` (with `MockApi.MalformedReadNeverSettles`) | `MockApi.Api.GetApplications` |

## Left out

- Latency: the `setTimeout` delays, the 2-second redirect after a submit,
  and `navigate`.
- Interleavings: the concurrent mount-time fetches run one after the other
  in `Mount`. The `Promise.all` fan-out is a sequential loop. Lost updates
  between racing submits are not modelled.
- Serialisation: `localStorage`, `JSON.parse` and `JSON.stringify` are one
  slot with a malformed case. An empty-string blob is falsy and reads like
  an absent slot. Stored text that parses to something other than a list
  (such as `null`) is folded into `Malformed`.
- Text: `trim`, `\s`/`\S` and `toLowerCase` use ASCII whitespace and ASCII
  case folding, not the full Unicode rules.
- Numbers: salaries are integers, not floating point. `DecimalString` covers
  clock values below 10^21, where `toString` stops using exponent notation.
- Untracked state: the jobs request inside the context never fails against
  the mock. Its failure is a parameter, as is the job lookup's in the two
  views. The `JobList` render branches for loading and error are not
  modelled.
- Logging: `console.error` is left out.
- Stale closures: React hook mechanics are left out, that is dependency
  arrays, re-render scheduling, and reading state from a stale closure in
  `handleChange`.
- Form errors: the error dictionary is keyed by a field or the whole-form
  key, standing for the strings `fullName`, `email`, `phone`, `resume`,
  `coverLetter` and `form`.
- Missing keys: a job id missing from `jobDetails` renders like null, as
  `undefined` does in the card.
- Formatting: `src/utils/formatters.ts`, the JSX and the styling are not
  part of this model.
