# job_applier in Dafny

job_applier finds job postings, records them, writes a cover letter and a
résumé for each one with a language model, and emails the application. This
project models the core of that pipeline and proves properties of the model:

- the job search: the Job Bank scraper, with pagination, field extraction
  and the posting-page details, and the aggregation over the registered
  finders;
- the two generations of records:
  - the plain `Job`, `Applicant`, `CoverLetter` and `Application` objects of
    `job.py`, `applicant.py` and `application.py`;
  - the persisted models of the `models/` package: jobs and applications in
    their tables, generated documents, the outgoing email;
- the CSV audit logs, which are appended to with a header written once, and
  the job log, which is rewritten on every call;
- the naming rules for generated documents;
- `start_job_founding`: search, log, save, build one application per job,
  log the cover letters, send, and log each attempt.

The language-model replies, the SMTP transport's answer, database failures,
fresh ids, the clock, LibreOffice's availability and conversion result, the
JSON parser and the posting pages are parameters. Each is an input of the
member that consults it.

Modules follow the source files:

| module | source |
|---|---|
| `Values`, `Text`, `Paths` | Python values, `str` methods, `os.path` |
| `Config` | `settings.py` (the settings are a parameter) |
| `Chat`, `Smtp` | the OpenAI chat reply and the yagmail call, reduced to what is read |
| `CsvLog` | `log.py` |
| `ArtifactNames` | the output-naming rules shared by `cover_letter.py` and `resume.py` |
| `Finders` | the `JOB_FINDERS` registry used by both `find_jobs` |
| `Applicants`, `Jobs`, `Applications` | `applicant.py`, `job.py`, `application.py` |
| `ModelApplicant`, `ModelJob`, `ModelFile`, `ModelCoverLetter`, `ModelResume`, `ModelEmail`, `ModelApplication` | the `models/` package |
| `JobBank` | `scrapers/jobbank/functions.py` |
| `Orchestrator` | `__init__.py` |

Objects that the source updates in place are classes whose methods are
specified by a pure effect function of the old state. Examples are the files
(`CsvLog.Files`), the tables (`ModelJob.JobTable`,
`ModelApplication.ApplicationTable`) and the dataclass instances
(`ModelFile.FileModel`, `ModelEmail.EmailModel`,
`ModelApplication.Application`). The lemmas state their properties on that
effect function.

## Model

| member | source | states |
|---|---|---|
| Values.Or | job_applier/applicant.py:14-21 | `arg or default`: a truthy argument wins, otherwise the default |
| Values.Lookup | job_applier/application.py:116-120 | a key is found exactly when it is among the dict's keys, and then with the value stored under it |
| Values.Update | job_applier/application.py:118-120 | `d[k] = v`: an existing key keeps its place, a new key goes last |
| Values.UpdateKeepsKeysDistinct | job_applier/application.py:118-120 | an update never repeats a key |
| Values.UpdateSetsKey | job_applier/application.py:118-120 | after `d[k] = v` the key reads back as `v` |
| Values.UpdateKeepsOthers | job_applier/application.py:118-120 | every other key keeps its value |
| Values.UpdateAbsentAppends | job_applier/application.py:118-120 | a missing key is appended at the end |
| Text.Lower | job_applier/scrapers/jobbank/functions.py:100 | character-wise lower-casing that keeps the length |
| Text.Capitalize | job_applier/scrapers/jobbank/functions.py:75 | the first character is upper-cased and the rest lower-cased |
| Text.LowerIdempotent | job_applier/scrapers/jobbank/functions.py:100 | lower-casing twice changes nothing |
| Text.CapitalizeIdempotent | job_applier/models/email.py:28-31 | capitalising twice changes nothing |
| Text.CapitalizeNoSlash | job_applier/models/cover_letter.py:62 | capitalising a name cannot add a path separator |
| Text.ReplaceAbsent | job_applier/scrapers/jobbank/functions.py:68 | replacing a pattern that does not occur leaves the string unchanged |
| Text.ReplaceLeading | job_applier/scrapers/jobbank/functions.py:68 | a leading occurrence is replaced and the scan continues after it |
| Text.ReplaceCharIsDrop | job_applier/scrapers/jobbank/functions.py:151-152 | replacing one character by "" removes every occurrence and nothing else |
| Text.FenceRemoved | job_applier/models/resume.py:74 | after removing every "```" no fence is left, because removal cannot splice a new one |
| Text.SpaceRun | job_applier/scrapers/jobbank/functions.py:153 | the length of the leading whitespace run: all whitespace before it, none at it |
| Text.CollapseSpaces | job_applier/scrapers/jobbank/functions.py:153 | after `\s{2,}` becomes " ", no two whitespace characters (every character `str.isspace()` accepts, Unicode spaces included) are adjacent and no new character is introduced |
| Text.CollapsesUnicodeSpaces | job_applier/scrapers/jobbank/functions.py:153 | a run of an em space and a narrow no-break space becomes one space |
| Text.NatToString | job_applier/application.py:123-127 | `str(n)` is a non-empty string of digits |
| Text.IntToString | job_applier/application.py:123-127 | `str(i)` holds only digits and a minus sign |
| Text.ShowInt | job_applier/application.py:123-127 | an f-string of an optional id never holds a slash |
| Paths.Basename | job_applier/models/cover_letter.py:57-67 | `os.path.basename` holds no slash |
| Paths.Dirname | job_applier/models/cover_letter.py:57-61 | `os.path.dirname` is empty, the root, or a path without a trailing slash |
| Paths.SplitExt | job_applier/models/cover_letter.py:64-67 | `splitext` splits a name into stem and extension, which concatenate back to the name; the extension is empty or one dot and no other |
| Paths.LastSlashAfter | job_applier/models/cover_letter.py:64-67 | appending a name without slashes leaves the last slash where it was |
| Paths.BasenameOfJoin | job_applier/models/cover_letter.py:64-67 | a name joined onto a directory is the basename of the result |
| Paths.DirnameOfJoin | job_applier/models/cover_letter.py:57-67 | the directory is recovered from the joined path by `dirname` |
| Chat.GuardedContent | job_applier/models/email.py:51-56 | the models' text extraction: the call fails exactly when the API raises; no choice or a choice without a message gives None |
| Chat.FirstContent | job_applier/application.py:66-87 | application.py's extraction: no choices gives None, a first choice without a message raises, as does a failed call |
| CsvLog.HeaderLine | job_applier/log.py:21-22 | the header line holds the keys, in order |
| CsvLog.Project | job_applier/log.py:23-25 | an object's attributes are cut down to those named in the header |
| CsvLog.ProjectKeeps | job_applier/log.py:23-25 | an object whose attributes are all header keys is written whole |
| CsvLog.WriteRow | job_applier/log.py:23-25 | `DictWriter.writerow` raises exactly when the row has a key outside the header; otherwise it writes one cell per header key |
| CsvLog.LogEffect | job_applier/log.py:13-25 | without a file name or data nothing happens; otherwise only the named file changes |
| CsvLog.OneRowPerItem | job_applier/log.py:23-25 | every item gives exactly one row, in order, unless one raises |
| CsvLog.InstancesNeverRaise | job_applier/log.py:29-35 | rows of annotated objects never raise, because their attributes are projected onto the annotations |
| CsvLog.MappingRoundTrip | job_applier/log.py:29-35 | a mapping written under its own keys reads back as its values, in key order |
| CsvLog.LogAppends | job_applier/log.py:13-25 | a call with a name and data appends rows to that file and leaves the others as they were |
| CsvLog.NoHeaderWhenNonEmpty | job_applier/log.py:21-22 | a file that already has lines gets no second header |
| CsvLog.HeaderFirst | job_applier/log.py:21-22 | on an empty or missing file the header comes first, then the rows |
| CsvLog.HeaderWrittenOnce | job_applier/log.py:13-25 | two calls on an empty file leave one header and then both calls' rows |
| CsvLog.Cells | job_applier/log.py:23-25 | a dict's row holds its values, one cell per key, in key order |
| CsvLog.OneDictLogged | job_applier/log.py:13-25 | logging one dict appends exactly one row of its values, after a header only if the file was empty |
| CsvLog.StepRows | job_applier/log.py:23-25 | one step of the row loop: an item that raises stops it, otherwise its row is written |
| CsvLog.Files.constructor | job_applier/log.py:13-25 | the files start with the given contents |
| CsvLog.Files.Log | job_applier/log.py:13-25 | `log(filename, data)` changes the files exactly as `LogEffect` says |
| CsvLog.Files.WriteAll | job_applier/log.py:19-25 | the row loop appends each item's row in order and stops at the first item that raises |
| CsvLog.Files.Truncate | job_applier/job.py:81 | opening with mode "w" empties the file |
| CsvLog.Files.Append | job_applier/log.py:19 | appending adds the lines at the end of the file |
| Smtp.Sent | job_applier/models/email.py:58-73 | `send` returns the transport's boolean, or raises when the transport raised |
| ArtifactNames.OutputDir | job_applier/models/cover_letter.py:57-61 | the output directory is the log file's directory when a log file is configured, otherwise the temporary directory |
| ArtifactNames.Stem | job_applier/models/cover_letter.py:62 | the stem fails exactly when a name is missing, because `capitalize` is called on None |
| ArtifactNames.Deliver | job_applier/models/cover_letter.py:81-87 | the PDF is delivered when LibreOffice is available, otherwise the document; a failed conversion raises |
| ArtifactNames.OutputsShareDirAndStem | job_applier/models/cover_letter.py:64-67 | both outputs sit in the output directory, under the same stem |
| ArtifactNames.StemHasNoSlash | job_applier/models/cover_letter.py:62 | names without slashes give a stem without slashes |
| ArtifactNames.GeneratedPath | job_applier/models/cover_letter.py:57-87 | the delivered file is found in the output directory, named by the stem, with ".pdf" or the template's extension |
| Finders.CollectedFront | job_applier/models/job.py:51-57 | the first finder's results come first |
| Finders.NoDeduplication | job_applier/models/job.py:51-57 | nothing is dropped or merged: the count is the sum of the finders' counts |
| Finders.BlockInOrder | job_applier/models/job.py:51-57 | each finder's results form one block, right after those of the finders before it |
| Finders.FindAll | job_applier/models/job.py:54-55 | the loop returns the concatenation of the finders' results |
| Applicants.NewApplicant | job_applier/applicant.py:5-21 | each field is the argument when it is truthy, otherwise the settings default |
| Applicants.NewApplicantStable | job_applier/applicant.py:5-21 | rebuilding an applicant from its own fields changes nothing |
| Applicants.Render | job_applier/applicant.py:23-24 | the text is "Applicant ", the first and last name and a space, followed directly by "(email: …, phone: …, address: …)", with nothing between; a missing value shows as "None" |
| Applicants.RenderIgnoresFiles | job_applier/applicant.py:23-24 | the rendering does not depend on the résumé or cover-letter paths |
| Applicants.Vars | job_applier/application.py:119-120 | `vars(applicant)` has distinct keys |
| ModelApplicant.NewApplicant | job_applier/models/applicant.py:24-42 | the id is the one passed, and each other field is the argument when truthy, otherwise the settings default |
| ModelApplicant.NoArgumentsGiveSettings | job_applier/models/applicant.py:24-42 | with no arguments every field comes from the settings |
| ModelApplicant.FullName | job_applier/models/application.py:80 | the log's full name is first name, a space, last name |
| Jobs.NewJob | job_applier/job.py:21-50 | every argument is stored in its field |
| Jobs.SalaryTypeText | job_applier/job.py:59 | the salary type's text raises exactly for the enum class; an unset type renders as "" |
| Jobs.Lines | job_applier/job.py:52-64 | `__str__` has ten lines, raises exactly for the enum-class salary type, and its Job Bank line reads "Yes" or "No" |
| Jobs.Render | job_applier/job.py:52-64 | rendering fails exactly for the enum-class salary type |
| Jobs.DefaultJobRenderFailsAsWritten | job_applier/job.py:34 | as written, a job built with the default salary type cannot be printed |
| Jobs.DefaultJobRenders | job_applier/job.py:52-64 | with no salary type as the default, every job renders; the salary line shows the member's value or nothing; the Job Bank line is "Yes" exactly for posted jobs |
| Jobs.FindJobs | job_applier/job.py:67-73 | the jobs are the finders' results, concatenated, with none dropped |
| Jobs.Row | job_applier/job.py:82-85 | one cell per attribute |
| Jobs.Vars | job_applier/job.py:82-85 | `vars(job)` pairs each attribute name with its value, in assignment order |
| Jobs.VarsKeys | job_applier/job.py:82 | every job has the same attribute names, all distinct, which makes the first job's keys a header for all |
| Jobs.RowWritten | job_applier/job.py:85 | `writerow(vars(job))` under that header writes the job's values in order |
| Jobs.Rows | job_applier/job.py:84-85 | one row per job, in order |
| Jobs.LogJobsRewrites | job_applier/job.py:76-85 | the job log ends up with one header and one row per job, whatever it held before, and other files are untouched |
| Jobs.LogJobs | job_applier/job.py:76-85 | `log_jobs` empties the file, raises on an empty list, and otherwise writes the header and the rows |
| ModelJob.Merge | job_applier/models/job.py:74-82 | on update, every column except the id and `updated_at` is taken from the caller's job |
| ModelJob.SaveKeepsStoreValid | job_applier/models/job.py:69-92 | saving keeps every row under its own key with a unique id below the next id |
| ModelJob.SaveResult | job_applier/models/job.py:69-92 | the caller's job is returned when the database does not fail, and nothing is returned when it does |
| ModelJob.FailedSaveOnlyStamps | job_applier/models/job.py:69-92 | a failed save only stamps `updated_at` on the caller's job |
| ModelJob.SaveUpdatesExisting | job_applier/models/job.py:73-82 | on a (source, source id) match the stored id and `updated_at` survive, the other columns are the caller's, and the caller's job becomes the stored row |
| ModelJob.SaveInsertsNew | job_applier/models/job.py:83-86 | without a match the job is inserted, stamped, under its own id or the next one |
| ModelJob.SaveTouchesOneKey | job_applier/models/job.py:69-92 | rows under other keys are neither added, removed nor changed |
| ModelJob.SaveTwiceKeepsOneRow | job_applier/models/job.py:73-86 | saving a second job with the same natural key adds no row and keeps the first save's id |
| ModelJob.SaveAllEffect | job_applier/models/job.py:64-66 | one returned job per saved job |
| ModelJob.SaveAllKeepsStoreValid | job_applier/models/job.py:64-66 | after a batch the table is still valid and each returned job keeps its natural key |
| ModelJob.JobTable.constructor | job_applier/models/job.py:30-48 | the table starts empty |
| ModelJob.JobTable.SaveJob | job_applier/models/job.py:69-92 | `save_job` changes the table as `SaveEffect` says and keeps it valid |
| ModelJob.JobTable.SaveJobs | job_applier/models/job.py:64-66 | `save_jobs` changes the table as `SaveAllEffect` says and keeps it valid |
| ModelJob.FindJobs | job_applier/models/job.py:51-57 | the finders' results, concatenated |
| ModelJob.JobRow | job_applier/models/job.py:33-48 | one cell per annotated column |
| ModelJob.Columns | job_applier/models/job.py:33-48 | each annotation is paired with its column value |
| ModelJob.AnnotationsDistinct | job_applier/models/job.py:33-48 | the annotated column names are distinct |
| ModelJob.ColumnsAsDict | job_applier/models/job.py:33-48 | the columns form a dict keyed by the annotations |
| ModelJob.LoggedJobRow | job_applier/models/job.py:60-61 | logging a job writes its columns in annotation order, and the ORM's bookkeeping attribute is dropped |
| ModelJob.LogJobs | job_applier/models/job.py:60-61 | `log_jobs` is one `log` call on the jobs log |
| ModelFile.SuppliedValuesKept | job_applier/models/file.py:15-19 | a truthy text or file path is kept, and its hook is not called |
| ModelFile.FileHookSeesFinalText | job_applier/models/file.py:15-19 | the text is settled first, so the file hook sees the final text |
| ModelFile.HookFailurePropagates | job_applier/models/file.py:15-19 | a failing text hook raises before the file hook runs |
| ModelFile.FileModel.constructor | job_applier/models/file.py:10-13 | the dataclass fields hold the arguments |
| ModelFile.FileModel.PostInit | job_applier/models/file.py:15-19 | `__post_init__` sets the fields and calls the hooks as `PostInitEffect` says |
| ModelCoverLetter.CreateText | job_applier/models/cover_letter.py:18-46 | nothing is generated when a pre-written letter is configured; otherwise the reply's text |
| ModelCoverLetter.CreateFile | job_applier/models/cover_letter.py:48-87 | a configured letter's path is returned as it is; otherwise a document is generated |
| ModelCoverLetter.GeneratedFileName | job_applier/models/cover_letter.py:57-87 | a generated letter lands in the cover-letter log's directory, named `<First>_<Last>_Cover_Letter_<source id>` |
| ModelCoverLetter.NewCoverLetter | job_applier/models/cover_letter.py:16-87 | building the model runs `__post_init__` with the cover-letter hooks |
| ModelCoverLetter.OverrideShortCircuits | job_applier/models/cover_letter.py:18-51 | with a pre-written letter configured, the model takes its path and no text is generated |
| ModelCoverLetter.LogRow | job_applier/models/cover_letter.py:90-99 | the log row's keys are fixed and distinct |
| ModelCoverLetter.LogCoverLetter | job_applier/models/cover_letter.py:90-99 | `log_cover_letter` is one `log` call with that row |
| ModelCoverLetter.CoverLetterLogged | job_applier/models/cover_letter.py:90-99 | one row holding the applicant's name and email, the job's source and the letter is appended to the log |
| ModelResume.CreateText | job_applier/models/resume.py:19-50 | nothing is generated when a pre-written résumé is configured; otherwise the reply's text |
| ModelResume.NoFenceReachesParser | job_applier/models/resume.py:74 | whatever the model wraps its JSON in, no code fence reaches the parser |
| ModelResume.PlainJsonUnchanged | job_applier/models/resume.py:74 | text without fences reaches the parser unchanged |
| ModelResume.RenderData | job_applier/models/resume.py:74-76 | no text raises AttributeError, malformed JSON raises a decode error, and only a JSON object renders |
| ModelResume.JobKeyAlwaysSet | job_applier/models/resume.py:76 | the rendered data carries the job under "job" and keeps every other parsed key |
| ModelResume.CreateFile | job_applier/models/resume.py:52-89 | a configured résumé's path is returned as it is; a generated one needs rendered data |
| ModelResume.GeneratedFileName | job_applier/models/resume.py:61-89 | a generated résumé lands in the résumé log's directory, named `<First>_<Last>_Resume_<source id>` |
| ModelResume.NewResume | job_applier/models/resume.py:17-89 | building the model runs `__post_init__` with the résumé hooks |
| ModelResume.OverrideShortCircuits | job_applier/models/resume.py:19-55 | with a pre-written résumé configured, the model takes its path and no text is generated |
| ModelResume.LogRow | job_applier/models/resume.py:92-101 | the log row's keys are fixed and distinct |
| ModelResume.LogResume | job_applier/models/resume.py:92-101 | `log_resume` is one `log` call with that row |
| ModelResume.ResumeLogged | job_applier/models/resume.py:92-101 | one row holding the applicant's name and email, the job's source and the résumé is appended to the log |
| ModelEmail.Subject | job_applier/models/email.py:28-31 | the fallback subject without a title; otherwise the template around the capitalised title |
| ModelEmail.SubjectNamesTitle | job_applier/models/email.py:28-31 | the fallback is used exactly when there is no title; otherwise the subject contains the capitalised title |
| ModelEmail.SubjectDistinguishesTitles | job_applier/models/email.py:28-31 | titles that differ once capitalised give different subjects |
| ModelEmail.CreateSubject | job_applier/models/email.py:28-31 | no job gives the fallback; otherwise the job title's subject |
| ModelEmail.SuppliedFieldsKept | job_applier/models/email.py:20-26 | supplied values win; each falsy one is replaced by its default |
| ModelEmail.TextFailureAfterDefaults | job_applier/models/email.py:20-56 | a failing language-model call raises after the recipient and subject are filled in |
| ModelEmail.SendCall | job_applier/models/email.py:58-73 | `send` uses the message's fields, and SSL exactly when the port is 465 |
| ModelEmail.EmailModel.constructor | job_applier/models/email.py:12-18 | the dataclass fields hold the arguments |
| ModelEmail.EmailModel.PostInit | job_applier/models/email.py:20-26 | `__post_init__` fills the fields as `PostInitEffect` says |
| ModelEmail.EmailModel.Send | job_applier/models/email.py:58-73 | the call made is `SendCall`, and the result is the transport's answer |
| ModelEmail.NewEmail | job_applier/models/email.py:12-26 | building the email runs `__post_init__` |
| ModelApplication.Assign | job_applier/models/application.py:62-65 | the setter stores the value and stamps `applied_at` exactly when it is true; nothing else changes |
| ModelApplication.AssignCouples | job_applier/models/application.py:62-65 | after the setter, `applied_at` is set exactly when `applied` is |
| ModelApplication.StampOnInit | job_applier/models/application.py:55-56 | an applied record without a timestamp gets one; anything else is unchanged |
| ModelApplication.StampOnInitCompletes | job_applier/models/application.py:55-56 | after construction an applied record always has a timestamp |
| ModelApplication.AddIfMissing | job_applier/models/application.py:42-43 | the path ends up in the list, which is unchanged when the path was already there |
| ModelApplication.AddIfMissingKeepsDistinct | job_applier/models/application.py:42-48 | adding a missing path never introduces a duplicate |
| ModelApplication.AttachStep | job_applier/models/application.py:40-48 | a generated document is added to the supplied email's attachments; otherwise they are left alone |
| ModelApplication.SuppliedEmailAttachments | job_applier/models/application.py:40-48 | a supplied email's attachments stay first and in order; each generated document is then among them |
| ModelApplication.AddIfMissingExtends | job_applier/models/application.py:42-43 | adding a path keeps the list as a prefix and adds nothing but that path |
| ModelApplication.ExtendTwice | job_applier/models/application.py:40-48 | after both document steps the original list is a prefix, each generated path is present, and nothing else was added |
| ModelApplication.NewEmailAttachments | job_applier/models/application.py:50-53 | a new email gets the cover letter's path, then the résumé's |
| ModelApplication.AppendAsWritten | job_applier/models/application.py:52-53 | `attachments.append` fails exactly when the list is None |
| ModelApplication.AddIfMissingAsWritten | job_applier/models/application.py:42-48 | the membership test fails exactly when the list is None |
| ModelApplication.SuppliedEmailAttachFails | job_applier/models/application.py:42-48 | as written, a supplied email with default attachments keeps None through its own initialisation, and adding a generated path raises TypeError |
| ModelApplication.NewEmailAppendFails | job_applier/models/application.py:50-53 | as written, building an application without an email always raises AttributeError |
| ModelApplication.ApplyReturnsApplied | job_applier/models/application.py:67-69 | `apply()` returns the stored `applied`, which is the transport's answer, and leaves the record coupled |
| ModelApplication.UpdateStored | job_applier/models/application.py:106-114 | on update only `applied` and `applied_at` change |
| ModelApplication.SaveKeepsStoreValid | job_applier/models/application.py:95-124 | saving keeps every row under its own key with a unique id |
| ModelApplication.SaveUpdatesTwoColumns | job_applier/models/application.py:106-114 | an existing (job, applicant) row gets the new `applied` and `applied_at` and keeps every other column |
| ModelApplication.SaveInsertsOrFails | job_applier/models/application.py:115-124 | without a match the application is inserted as it is; a database failure changes nothing |
| ModelApplication.CheckApplication | job_applier/models/application.py:127-146 | the check fails exactly when neither an application nor both the job and the applicant are given |
| ModelApplication.CheckFindsExactlyApplied | job_applier/models/application.py:127-146 | a found row belongs to the job and applicant and is applied; an applied row is found unless the database fails |
| ModelApplication.SavedApplicationIsFound | job_applier/models/application.py:95-146 | once an applied, timestamped application is saved, checking its job and applicant finds it |
| ModelApplication.LogRow | job_applier/models/application.py:77-87 | the log row's keys are fixed and distinct |
| ModelApplication.ApplicationLogged | job_applier/models/application.py:77-87 | logging appends one row with the applicant, the job, the recipient and the outcome |
| ModelApplication.Application.constructor | job_applier/models/application.py:21-36 | the dataclass fields hold the arguments |
| ModelApplication.Application.SetApplied | job_applier/models/application.py:62-65 | the setter changes the columns as `Assign` says and nothing else |
| ModelApplication.Application.AddCoverLetter | job_applier/models/application.py:40-43 | a missing cover letter is generated and attached to the email if there is one |
| ModelApplication.Application.AddResume | job_applier/models/application.py:45-48 | a missing résumé is generated and attached to the email if there is one |
| ModelApplication.Application.AddEmail | job_applier/models/application.py:50-53 | a missing email is built with the two documents attached |
| ModelApplication.Application.PostInit | job_applier/models/application.py:38-56 | `__post_init__` fills in what is missing, keeps what was supplied, and stamps an applied record |
| ModelApplication.Application.Apply | job_applier/models/application.py:67-69 | `apply()` changes the columns as `ApplyEffect` says |
| ModelApplication.ApplicationTable.constructor | job_applier/models/application.py:21-36 | the table starts empty |
| ModelApplication.ApplicationTable.Save | job_applier/models/application.py:95-124 | `save_application` changes the table as `SaveEffect` says and keeps it valid |
| ModelApplication.ApplicationTable.Check | job_applier/models/application.py:127-146 | `check_application` returns `CheckApplication` on the table |
| ModelApplication.LogApplication | job_applier/models/application.py:77-87 | without an email nothing is written and AttributeError is raised; otherwise one row is logged |
| Applications.CreateEmailSubject | job_applier/application.py:60-63 | the fallback is used exactly when there is no job or no title; otherwise the template around the capitalised title |
| Applications.CreateText | job_applier/application.py:66-112 | the body and the cover letter are the first choice's content; no choices gives None |
| Applications.Prefixed | job_applier/application.py:117-120 | each key is prefixed, and the values and order are kept |
| Applications.PrefixInjective | job_applier/application.py:117-120 | prefixed keys are equal exactly when the keys are |
| Applications.ReplacementsDistinct | job_applier/application.py:116-120 | "text", the `job.` keys and the `applicant.` keys never clash |
| Applications.ReplacementsLookup | job_applier/application.py:116-120 | "text" gives the text, `job.<k>` the job's value and `applicant.<k>` the applicant's |
| Applications.PrefixedKeyFresh | job_applier/application.py:117-120 | the next prefixed key is not among those written so far |
| Applications.PrefixStep | job_applier/application.py:117-120 | each loop assignment appends the next prefixed entry |
| Applications.PrefixedSnoc | job_applier/application.py:117-120 | prefixing one more entry appends it at the end |
| Applications.Replacements | job_applier/application.py:116-120 | the loops build `text`, then the job's attributes, then the applicant's, in order |
| Applications.CoverLetterFileName | job_applier/application.py:122-142 | the letter sits next to the template, named `<template name>.<job id>` with ".pdf" or the template's extension; it fails exactly when the conversion fails |
| Applications.CreateCoverLetterFile | job_applier/application.py:115-142 | the replacements and the delivered path are as above |
| Applications.NewCoverLetter | job_applier/application.py:16-32 | a truthy text is kept; with a file path the text is ""; otherwise it is generated; the file is the given one or generated from the final text |
| Applications.CoverLetterPrecedence | job_applier/application.py:51-55 | a supplied letter wins, then the applicant's configured file, then a generated letter |
| Applications.NewApplication | job_applier/application.py:35-57 | each field is the argument or its default (the body is the given one when non-empty, else the generated text), and building fails exactly when the body or the cover letter fails |
| Applications.ApplyCall | job_applier/application.py:162-180 | the email goes to the recipient with the cover letter and the résumé attached, and no SSL flag |
| Applications.Apply | job_applier/application.py:162-167 | the call made is `ApplyCall`, and the result is the transport's answer |
| Applications.CoverLetterRow | job_applier/application.py:145-155 | the row's keys are `job_id` and `cover_letter_text` |
| Applications.ApplicationRow | job_applier/application.py:183-195 | the row's keys are `datetime`, `job_id`, `email_to` and `applied` |
| Applications.AppendDict | job_applier/application.py:150-159 | appending one dict by hand has the same effect as `log` with that dict |
| Applications.LogCoverLetter | job_applier/application.py:145-159 | `log_cover_letter` appends one row to the cover-letter log |
| Applications.LogApplication | job_applier/application.py:183-199 | `log_application` appends one row to the application log |
| Applications.ApplicationLogged | job_applier/application.py:183-199 | the row holds the time, the job id, the recipient and the outcome, after a header only if the file was empty |
| JobBank.FirstEmpty | job_applier/scrapers/jobbank/functions.py:47-52 | the index of the first empty page of further results |
| JobBank.GatheredPagesInOrder | job_applier/scrapers/jobbank/functions.py:47-55 | the further pages are gathered whole and in order, and nothing after the first empty page is read |
| JobBank.Paginate | job_applier/scrapers/jobbank/functions.py:44-55 | the articles are those of the first page, then those of the further pages |
| JobBank.LinkOf | job_applier/scrapers/jobbank/functions.py:62-66 | every link starts with the Job Bank domain |
| JobBank.SourceIdStripsPrefix | job_applier/scrapers/jobbank/functions.py:68 | the id `article-<n>` gives the source id `<n>` |
| JobBank.SalaryTypeOf | job_applier/scrapers/jobbank/functions.py:100-105 | "hourly" anywhere gives hourly, else "annually" gives annually, else none; case is ignored |
| JobBank.SalaryTypeIgnoresCase | job_applier/scrapers/jobbank/functions.py:100 | the salary type does not depend on case |
| JobBank.WorkspaceOf | job_applier/scrapers/jobbank/functions.py:111-117 | "on site" gives on-site, else "hybrid" gives hybrid, else none; the match is case-sensitive |
| JobBank.WorkspaceIsCaseSensitive | job_applier/scrapers/jobbank/functions.py:114-117 | "Hybrid" gives no workspace, while "hybrid" gives hybrid |
| JobBank.ArticleJob | job_applier/scrapers/jobbank/functions.py:60-117 | an article without an id raises; otherwise each field comes from its element, the salary parsed from the lower-cased salary text |
| JobBank.NormalizedDescription | job_applier/scrapers/jobbank/functions.py:150-154 | a cleaned description holds no tab, no newline and no two adjacent whitespace characters of any kind `\s` matches |
| JobBank.FillJobDetails | job_applier/scrapers/jobbank/functions.py:126-181 | without a link the job is returned as it is; otherwise the email becomes the "how to apply" address and the description the cleaned page description, each kept when the page lacks it; nothing else changes |
| JobBank.FilledDescriptionNormalised | job_applier/scrapers/jobbank/functions.py:144-154 | a filled-in description is the page's description, cleaned |
| JobBank.OneJobPerArticle | job_applier/scrapers/jobbank/functions.py:57-121 | exactly one job per article, in order; the scrape fails exactly when an article has no id |
| JobBank.FindJobsShape | job_applier/scrapers/jobbank/functions.py:20-123 | without a result block nothing is found; with one, each gathered article gives one job |
| JobBank.FindJobs | job_applier/scrapers/jobbank/functions.py:20-123 | `find_jobs` paginates and then scrapes each article in order |
| JobBank.ScrapeFailureSticks | job_applier/scrapers/jobbank/functions.py:57-121 | once an article fails, the whole search fails the same way |
| Orchestrator.InitOpenAi | job_applier/__init__.py:34-40 | the key is installed exactly when it is truthy; otherwise ValueError is raised with the message |
| Orchestrator.LegacyApplicant | job_applier/application.py:56 | the fields application.py reads, with the résumé taken from `resume_file_path` |
| Orchestrator.BuildFailsAsWritten | job_applier/__init__.py:73-77 | as written, building an application from the persisted applicant always raises |
| Orchestrator.BuildUsesResumeFile | job_applier/__init__.py:73-77 | with the résumé read from `resume_file_path`, the application goes to the given recipient (the job's email when it is empty), attaches the cover letter and that résumé, and is not yet applied |
| Orchestrator.OneApplicationPerJob | job_applier/__init__.py:72-79 | exactly one application per job, in order, all for the same applicant |
| Orchestrator.BuildAllInOrder | job_applier/__init__.py:72-79 | the loop succeeds exactly when every build does, and then the k-th application is the k-th build's |
| Orchestrator.GatherInOrder | job_applier/__init__.py:72-79 | gathering results in order succeeds exactly when every result does, and keeps each value in its place |
| Orchestrator.BuildAllIsGather | job_applier/__init__.py:72-79 | the building loop is the in-order gathering of the individual builds |
| Orchestrator.BuildFailureSticks | job_applier/__init__.py:72-79 | once a job fails, the loop fails the same way |
| Orchestrator.BuildStep | job_applier/__init__.py:72-79 | one more job appends its application, or its failure ends the loop |
| Orchestrator.BuildApplications | job_applier/__init__.py:70-79 | the loop builds `BuildAll`, and the cover-letter list runs parallel to it |
| Orchestrator.LogEachStep | job_applier/application.py:155-159 | one more call adds a header if the file is still empty, then the row |
| Orchestrator.LogEachKeepsOthers | job_applier/__init__.py:83-84 | logging to one file leaves every other file as it was |
| Orchestrator.LogEachLines | job_applier/__init__.py:83-84 | the logged file's lines depend only on its previous lines and the rows |
| Orchestrator.LogLinesHeaderOnce | job_applier/__init__.py:83-84 | rows with the same keys, logged one call at a time, give at most one header |
| Orchestrator.HeaderAtMostOnce | job_applier/__init__.py:83-84 | the file ends with its previous lines, a header only if it was empty, then one row per call |
| Orchestrator.CoverRows | job_applier/__init__.py:83-84 | one row per cover letter, in order |
| Orchestrator.LogCoverLetters | job_applier/__init__.py:83-84 | the loop logs each cover letter once, in order |
| Orchestrator.Attempt | job_applier/__init__.py:88-99 | an application without a recipient is skipped; otherwise it is applied exactly when the send was delivered |
| Orchestrator.AttemptRowsShape | job_applier/__init__.py:88-100 | exactly one logged row per application with a recipient, each with the application log's keys |
| Orchestrator.ApplicationsLogged | job_applier/__init__.py:88-100 | the application log gains a header only if it was empty, then one row per attempt |
| Orchestrator.AttemptRowsStep | job_applier/__init__.py:88-100 | one pass of the loop adds the application's row exactly when it has a recipient |
| Orchestrator.LogEachSnoc | job_applier/__init__.py:100 | logging one more row is one more `log` call |
| Orchestrator.AttemptOne | job_applier/__init__.py:91-100 | send, record the outcome, log it |
| Orchestrator.ApplyAll | job_applier/__init__.py:88-100 | every application becomes its `Attempt`, and the log holds the attempts' rows |
| Orchestrator.StartJobFounding | job_applier/__init__.py:52-100 | the job table stays valid; the log files, the table, the outcome and the returned applications are exactly those of `FoundingEffect`: the jobs log, then the save, then the build (a failure ends the run with no applications), then the cover-letter log and the application log |
| Orchestrator.FoundingAppliesEachJob | job_applier/__init__.py:52-100 | a failed run returns no applications; a completed run returns one per found job with the same key, addressed to the recipient, and applied exactly when delivered |
| Orchestrator.BuiltAddressed | job_applier/__init__.py:72-79 | each built application is for its own job and addressed to the recipient |
| Orchestrator.AttemptsKeepJobs | job_applier/__init__.py:88-96 | attempting keeps each application's job and recipient and sets `applied` exactly when delivered |

## Left out

- HTTP, HTML parsing, `sleep` and `random`: the scraper sees each result page as a list of articles, and each posting page as a description and an email. A link element without `href` is not modelled.
- JobBank.LinkOf: `urljoin` of the domain and the href's path is domain plus path, with a slash inserted when the path has none; the resolution of "." and ".." segments is not modelled.
- JobBank.Paginate: the "load more" responses are a finite list, and running off its end counts as an empty page. The server may never answer with an empty page; that case is not captured.
- Floating point, `strptime` and the `:.2f` salary format are parameters (`NumberParser`, `salaryText`, `dateText`). A failed `strptime` leaves the date unset.
- `datetime.now()` is a parameter (`now`, `clock`) of every member that reads it.
- The OpenAI client, yagmail, `docx`, `python_docx_replace` and `docxtpl` are left out. A reply, a delivery result and the document's name rules stand in for them. Document contents are not modelled.
- The conversion in `utils/convert_docx_to_pdf.py` is not part of this model. It becomes LibreOffice's availability and the conversion's success.
- `appliers/indeed.py` and `databese.py` are not part of this model. The database is a map from natural key to row, with the next id; its commit, refresh and rollback are a single `failure` flag.
- The ORM's relationship-to-foreign-key sync is left out. Applications carry `job_id` and `applicant_id` directly.
- `init_logging`, `init_envs`, `init_db`, `start` and the `logging` calls have no effect on the model.
- Settings loading (`settings.py`) is left out. The settings are a value passed in.
- `job_applier.canada.jobbank.find_jobs`, which `__init__.py` imports, is not part of this model. The found jobs are a parameter of `Orchestrator.StartJobFounding`.
- Orchestrator.StartJobFounding: the hard-coded recipient becomes the `recipient` parameter.
- Orchestrator.StartJobFounding: uses the corrected behaviour of the third Findings row; the applicant is read through `LegacyApplicant`, whereas as written the first `Application(...)` call (`__init__.py:73`) raises on `applicant.resume` (application.py:56).
- Jobs.NewJob: uses the corrected behaviour of the second Findings row; `salaryType` defaults to unset, whereas job.py:34 defaults it to the `SalaryType` class.
- ModelApplication.Application.AddCoverLetter: uses the corrected behaviour of the fourth Findings row; None attachments are read as an empty list, whereas models/application.py:42 raises TypeError.
- ModelApplication.Application.AddResume: uses the corrected behaviour of the fourth Findings row; None attachments are read as an empty list, whereas models/application.py:47 raises TypeError.
- ModelApplication.Application.AddEmail: uses the corrected behaviour of the first Findings row; the new email's attachments become the cover letter's and the résumé's paths, whereas models/application.py:52 raises AttributeError on `None.append`.
- ModelApplication.Application.PostInit: uses the corrected behaviour of the first and fourth Findings rows, through `AddCoverLetter`, `AddResume` and `AddEmail`.
- `application.py` annotates the top-level `Job`, but its one caller passes persisted jobs. Its members are therefore modelled over `ModelJob.Job`.
- The `setattr` loops of `save_job` are modelled as whole-record updates. `created_at` is copied from the caller's job on update, as the loop does.
- Objects are values except where the source mutates them in place. The orchestrator's `applications` list is a sequence that `ApplyAll` returns updated, so aliasing between the two lists of `__init__.py` is not captured. Both lists hold the same cover letters.
- `vars()` of the persisted applicant also holds the ORM's bookkeeping and id keys. The replacements are modelled over the top-level applicant's attributes.
- `log_applications` and `save_applications` in `models/application.py` are loops of `log_application` and `save_application`, which are modelled one call at a time.
- The JSON parser is a parameter of the résumé (`JsonParser`); only its verdict, an object or malformed text, is modelled.
- Python's `str.lower`/`capitalize` are modelled on ASCII letters only; other characters are unchanged.

## Findings

| source | as written | input that shows it | evidently intended | confidence | as-written member | corrected member |
|---|---|---|---|---|---|---|
| job_applier/models/application.py:50-53 | a new `EmailModel` is given no attachments, which default to None, and `append` is then called on that None | any application built without an email | start the new email's attachments as a list holding the cover letter's and the résumé's paths | not executed | ModelApplication.NewEmailAppendFails | ModelApplication.NewEmailAttachments |
| job_applier/job.py:34 | the default `salary_type` is the `SalaryType` class itself, which is truthy, so `__str__` reads `.value` from it and raises (job.py:59) | `str(Job())` | no salary type by default, which renders as "" | not executed | Jobs.DefaultJobRenderFailsAsWritten | Jobs.DefaultJobRenders |
| job_applier/__init__.py:53 | the applicant is a persisted `models.applicant.Applicant`, which has no `resume` attribute, yet `Application.__init__` reads `applicant.resume` (application.py:56) | any run that finds at least one job | read the résumé from `resume_file_path` | not executed | Orchestrator.BuildFailsAsWritten | Orchestrator.BuildUsesResumeFile |
| job_applier/models/application.py:42-48 | a supplied `EmailModel` whose `attachments` were left at their default None (models/email.py:18) is searched with `not in` when a generated document's path is added, which raises TypeError | an application given an email without attachments and no cover letter | treat missing attachments as an empty list and add the path | not executed | ModelApplication.SuppliedEmailAttachFails | ModelApplication.SuppliedEmailAttachments |
