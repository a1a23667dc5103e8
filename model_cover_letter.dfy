/** The cover letter document of job_applier/models/cover_letter.py: the
    text comes from the language model unless the applicant has a
    pre-written letter, and the file is that letter or a document rendered
    into the output directory. */
module ModelCoverLetter {
  import opened Values
  import opened Text
  import opened Paths
  import opened Config
  import Chat
  import CsvLog
  import opened ArtifactNames
  import opened ModelFile
  import ModelApplicant
  import ModelJob

  const Tag: string := "_Cover_Letter_"

  /** `create_text`: nothing when a pre-written letter is configured, else
      the first choice of the reply. */
  function CreateText(applicant: ModelApplicant.Applicant, reply: Chat.Reply): (r: Result<Option<string>>)
    ensures Truthy(applicant.coverLetterFilePath) ==> r == Ok(None)
    ensures r.Ok? && r.value.Some? ==>
      !Truthy(applicant.coverLetterFilePath) && reply.Answered? && reply.choices != []
      && reply.choices[0].message == Some(Chat.Message(r.value))
  {
    if Truthy(applicant.coverLetterFilePath) then Ok(None) else Chat.GuardedContent(reply)
  }

  /** `create_file`: the pre-written letter's path verbatim, else the
      rendered document, converted to PDF when LibreOffice is there. */
  function CreateFile(applicant: ModelApplicant.Applicant, job: ModelJob.Job, settings: Settings, office: Office)
    : (r: Result<Option<string>>)
    ensures Truthy(applicant.coverLetterFilePath) ==> r == Ok(applicant.coverLetterFilePath)
  {
    if Truthy(applicant.coverLetterFilePath) then Ok(applicant.coverLetterFilePath)
    else
      var stem := Stem(applicant.firstName, applicant.lastName, Tag, job.sourceId);
      if stem.Err? then Err(stem.fault)
      else
        var outputs := Outputs(OutputDir(settings.logs.coverLetters, office.tempDir), stem.value, settings.coverLetterTemplate);
        var path := Deliver(outputs, office);
        if path.Err? then Err(path.fault) else Ok(Some(path.value))
  }

  /** The file hook handed to the base class; a cover letter's file does
      not depend on the text. */
  function FileHookOf(applicant: ModelApplicant.Applicant, job: ModelJob.Job, settings: Settings, office: Office): FileHookFn {
    _ => CreateFile(applicant, job, settings, office)
  }

  /** A generated letter lands in the cover-letter log's directory (or the
      temporary directory) under `First_Last_Cover_Letter_<source id>`, as
      a PDF exactly when LibreOffice is available. */
  lemma GeneratedFileName(applicant: ModelApplicant.Applicant, job: ModelJob.Job, settings: Settings, office: Office)
    requires !Truthy(applicant.coverLetterFilePath)
    requires applicant.firstName.Some? && applicant.lastName.Some?
    requires '/' !in applicant.firstName.value && '/' !in applicant.lastName.value && '/' !in Show(job.sourceId)
    requires CleanDir(office.tempDir)
    ensures var r := CreateFile(applicant, job, settings, office);
            var stem := Stem(applicant.firstName, applicant.lastName, Tag, job.sourceId).value;
            var ext := SplitExt(Basename(settings.coverLetterTemplate)).1;
            && (r.Ok? <==> !office.libreOffice || office.conversionOk)
            && (r.Ok? ==>
                  && r.value.Some?
                  && Dirname(r.value.value) == OutputDir(settings.logs.coverLetters, office.tempDir)
                  && Basename(r.value.value) == stem + (if office.libreOffice then ".pdf" else ext))
  {
    StemHasNoSlash(applicant.firstName.value, applicant.lastName.value, Tag, job.sourceId);
    var stem := Stem(applicant.firstName, applicant.lastName, Tag, job.sourceId).value;
    GeneratedPath(settings.logs.coverLetters, office, stem, settings.coverLetterTemplate);
  }

  /** Building a `CoverLetterModel(job, applicant, text, file_path)`: the
      dataclass initialiser, then `__post_init__` with this class's hooks. */
  method NewCoverLetter(applicant: ModelApplicant.Applicant, job: ModelJob.Job, text: Option<string>, filePath: Option<string>,
                        settings: Settings, office: Office, reply: Chat.Reply)
    returns (c: FileModel, r: Outcome, calls: seq<Hook>)
    ensures fresh(c)
    ensures c.applicant == applicant && c.job == job
    ensures (c.text, c.filePath, r, calls)
         == PostInitEffect(text, filePath, CreateText(applicant, reply), FileHookOf(applicant, job, settings, office))
  {
    c := new FileModel(applicant, job, text, filePath);
    r, calls := c.PostInit(CreateText(applicant, reply), FileHookOf(applicant, job, settings, office));
  }

  /** With a pre-written letter configured and nothing supplied, the model
      has no text, its file is the pre-written letter, and the language
      model is never asked. */
  lemma OverrideShortCircuits(applicant: ModelApplicant.Applicant, job: ModelJob.Job, text: Option<string>,
                              filePath: Option<string>, settings: Settings, office: Office, reply: Chat.Reply)
    requires Truthy(applicant.coverLetterFilePath)
    requires !Truthy(text) && !Truthy(filePath)
    ensures PostInitEffect(text, filePath, CreateText(applicant, reply), FileHookOf(applicant, job, settings, office))
         == (None, applicant.coverLetterFilePath, Done, [TextHook, FileHook(None)])
  {
    assert [TextHook] + [FileHook(None)] == [TextHook, FileHook(None)];
  }

  /** The row `log_cover_letter` writes. */
  function LogRow(applicant: ModelApplicant.Applicant, job: ModelJob.Job, text: Option<string>, filePath: Option<string>)
    : (d: Dict)
    ensures DistinctKeys(d)
    ensures KeysOf(d) == ["job_applicant", "job_applicant_email", "job_source", "job_source_id",
                          "cover_letter_text", "cover_letter_file"]
  {
    [("job_applicant", VStr(ModelApplicant.FullName(applicant))),
     ("job_applicant_email", OfStr(applicant.email)),
     ("job_source", OfStr(job.source)),
     ("job_source_id", OfStr(job.sourceId)),
     ("cover_letter_text", OfStr(text)),
     ("cover_letter_file", OfStr(filePath))]
  }

  /** `log_cover_letter(cover_letter)` */
  method LogCoverLetter(files: CsvLog.Files, settings: Settings, c: FileModel) returns (r: Outcome)
    modifies files
    ensures (files.contents, r)
         == CsvLog.LogEffect(old(files.contents), settings.logs.coverLetters,
                             [CsvLog.Mapping(LogRow(c.applicant, c.job, c.text, c.filePath))])
  {
    r := files.Log(settings.logs.coverLetters, [CsvLog.Mapping(LogRow(c.applicant, c.job, c.text, c.filePath))]);
  }

  /** Logging a cover letter appends one row holding the applicant's name
      and email, the job's source and source id, the text and the file,
      after the header when the log was empty; without a configured log
      nothing happens. */
  lemma CoverLetterLogged(files: CsvLog.FileMap, settings: Settings, applicant: ModelApplicant.Applicant,
                          job: ModelJob.Job, text: Option<string>, filePath: Option<string>)
    ensures var log := settings.logs.coverLetters;
            var after := CsvLog.LogEffect(files, log, [CsvLog.Mapping(LogRow(applicant, job, text, filePath))]);
            var row := [VStr(ModelApplicant.FullName(applicant)), OfStr(applicant.email), OfStr(job.source),
                        OfStr(job.sourceId), OfStr(text), OfStr(filePath)];
            && after.1 == Done
            && (!Truthy(log) ==> after.0 == files)
            && (Truthy(log) ==>
                  var prior := CsvLog.Existing(files, log.value);
                  after.0 == files[log.value := prior
                    + (if prior == [] then [CsvLog.HeaderLine(KeysOf(LogRow(applicant, job, text, filePath)))] else [])
                    + [row]])
  {
    var d := LogRow(applicant, job, text, filePath);
    if Truthy(settings.logs.coverLetters) {
      CsvLog.OneDictLogged(files, settings.logs.coverLetters.value, d);
      assert CsvLog.Cells(d) == [VStr(ModelApplicant.FullName(applicant)), OfStr(applicant.email), OfStr(job.source),
                        OfStr(job.sourceId), OfStr(text), OfStr(filePath)];
    }
  }
}
