/** The résumé document of job_applier/models/resume.py: the text is JSON
    produced by the language model unless the applicant has a pre-written
    résumé; the file is that résumé or a document rendered from the JSON,
    after any Markdown code fences around it are stripped. */
module ModelResume {
  import opened Values
  import opened Text
  import opened Paths
  import opened Config
  import Chat
  import CsvLog
  import opened ArtifactNames
  import opened ModelFile
  import ModelApplicant
  import ModelJob

  const Tag: string := "_Resume_"

  /** What `json.loads` makes of a text: it raises, or it yields a value
      that is not an object, or an object. */
  datatype Json = Malformed | NotObject | Object(entries: Dict)

  /** The parser, outside the model. */
  type JsonParser = string -> Json

  /** The job as the template sees it. */
  const JobValue: Value := VObject("Job")

  /** `create_text`: nothing when a pre-written résumé is configured, else
      the first choice of the reply. */
  function CreateText(applicant: ModelApplicant.Applicant, reply: Chat.Reply): (r: Result<Option<string>>)
    ensures Truthy(applicant.resumeFilePath) ==> r == Ok(None)
    ensures r.Ok? && r.value.Some? ==>
      !Truthy(applicant.resumeFilePath) && reply.Answered? && reply.choices != []
      && reply.choices[0].message == Some(Chat.Message(r.value))
  {
    if Truthy(applicant.resumeFilePath) then Ok(None) else Chat.GuardedContent(reply)
  }

  /** `text.replace("```json", "").replace("```", "")` */
  function StripFences(text: string): string {
    ReplaceAll(ReplaceAll(text, "```json", ""), Fence, "")
  }

  /** Whatever the model wrapped its JSON in, no code fence reaches the
      parser. */
  lemma NoFenceReachesParser(text: string)
    ensures !Contains(StripFences(text), Fence)
  {
    FenceRemoved(ReplaceAll(text, "```json", ""));
  }

  /** Text already free of fences is handed to the parser unchanged. */
  lemma PlainJsonUnchanged(text: string)
    requires !Contains(text, Fence)
    ensures StripFences(text) == text
  {
    if Contains(text, "```json") {
      var i :| 0 <= i <= |text| - 7 && OccursAt(text, "```json", i);
      assert text[i..i + 3] == text[i..i + 7][..3];
      assert OccursAt(text, Fence, i);
    }
    ReplaceAbsent(text, "```json", "");
    ReplaceAbsent(text, Fence, "");
  }

  /** The data the template is rendered with: the parsed object with key
      "job" set to the job. A missing text fails on `replace`; malformed
      JSON raises; a value without `update` fails. */
  function RenderData(text: Option<string>, parse: JsonParser): (r: Result<Dict>)
    ensures text.None? ==> r == Err(AttributeError)
    ensures text.Some? && parse(StripFences(text.value)).Malformed? ==> r == Err(JsonDecodeError)
    ensures r.Ok? <==> text.Some? && parse(StripFences(text.value)).Object?
  {
    if text.None? then Err(AttributeError)
    else
      match parse(StripFences(text.value))
      case Malformed => Err(JsonDecodeError)
      case NotObject => Err(AttributeError)
      case Object(entries) => Ok(Update(entries, "job", JobValue))
  }

  /** The rendered data always carries the job under "job", overriding any
      such key of the reply, and keeps every other key of the reply. */
  lemma JobKeyAlwaysSet(text: Option<string>, parse: JsonParser)
    requires RenderData(text, parse).Ok?
    ensures var data := RenderData(text, parse).value;
            var parsed := parse(StripFences(text.value)).entries;
            && Lookup(data, "job") == Some(JobValue)
            && (forall k | k != "job" :: Lookup(data, k) == Lookup(parsed, k))
            && (DistinctKeys(parsed) ==> DistinctKeys(data))
  {
    var parsed := parse(StripFences(text.value)).entries;
    UpdateSetsKey(parsed, "job", JobValue);
    forall k | k != "job" ensures Lookup(Update(parsed, "job", JobValue), k) == Lookup(parsed, k) {
      UpdateKeepsOthers(parsed, "job", JobValue, k);
    }
    if DistinctKeys(parsed) {
      UpdateKeepsKeysDistinct(parsed, "job", JobValue);
    }
  }

  /** `create_file`: the pre-written résumé's path verbatim, else the
      document rendered from the parsed text, converted to PDF when
      LibreOffice is there. */
  function CreateFile(applicant: ModelApplicant.Applicant, job: ModelJob.Job, settings: Settings, office: Office,
                      parse: JsonParser, text: Option<string>): (r: Result<Option<string>>)
    ensures Truthy(applicant.resumeFilePath) ==> r == Ok(applicant.resumeFilePath)
    ensures !Truthy(applicant.resumeFilePath) && r.Ok? ==> RenderData(text, parse).Ok?
  {
    if Truthy(applicant.resumeFilePath) then Ok(applicant.resumeFilePath)
    else
      var stem := Stem(applicant.firstName, applicant.lastName, Tag, job.sourceId);
      if stem.Err? then Err(stem.fault)
      else
        var outputs := Outputs(OutputDir(settings.logs.resumes, office.tempDir), stem.value, settings.resumeTemplate);
        var data := RenderData(text, parse);
        if data.Err? then Err(data.fault)
        else
          var path := Deliver(outputs, office);
          if path.Err? then Err(path.fault) else Ok(Some(path.value))
  }

  /** The file hook handed to the base class: it renders the text that
      `__post_init__` settled on. */
  function FileHookOf(applicant: ModelApplicant.Applicant, job: ModelJob.Job, settings: Settings, office: Office,
                      parse: JsonParser): FileHookFn {
    t => CreateFile(applicant, job, settings, office, parse, t)
  }

  /** A generated résumé lands in the résumé log's directory (or the
      temporary directory) under `First_Last_Resume_<source id>`, as a PDF
      exactly when LibreOffice is available; malformed JSON raises. */
  lemma GeneratedFileName(applicant: ModelApplicant.Applicant, job: ModelJob.Job, settings: Settings, office: Office,
                          parse: JsonParser, text: Option<string>)
    requires !Truthy(applicant.resumeFilePath)
    requires applicant.firstName.Some? && applicant.lastName.Some?
    requires '/' !in applicant.firstName.value && '/' !in applicant.lastName.value && '/' !in Show(job.sourceId)
    requires CleanDir(office.tempDir)
    ensures var r := CreateFile(applicant, job, settings, office, parse, text);
            var stem := Stem(applicant.firstName, applicant.lastName, Tag, job.sourceId).value;
            var ext := SplitExt(Basename(settings.resumeTemplate)).1;
            && (RenderData(text, parse).Err? ==> r == Err(RenderData(text, parse).fault))
            && (RenderData(text, parse).Ok? ==> (r.Ok? <==> !office.libreOffice || office.conversionOk))
            && (r.Ok? ==>
                  && r.value.Some?
                  && Dirname(r.value.value) == OutputDir(settings.logs.resumes, office.tempDir)
                  && Basename(r.value.value) == stem + (if office.libreOffice then ".pdf" else ext))
  {
    StemHasNoSlash(applicant.firstName.value, applicant.lastName.value, Tag, job.sourceId);
    var stem := Stem(applicant.firstName, applicant.lastName, Tag, job.sourceId).value;
    GeneratedPath(settings.logs.resumes, office, stem, settings.resumeTemplate);
  }

  /** Building a `ResumeModel(job, applicant, text, file_path)`: the
      dataclass initialiser, then `__post_init__` with this class's hooks. */
  method NewResume(applicant: ModelApplicant.Applicant, job: ModelJob.Job, text: Option<string>, filePath: Option<string>,
                   settings: Settings, office: Office, reply: Chat.Reply, parse: JsonParser)
    returns (c: FileModel, r: Outcome, calls: seq<Hook>)
    ensures fresh(c)
    ensures c.applicant == applicant && c.job == job
    ensures (c.text, c.filePath, r, calls)
         == PostInitEffect(text, filePath, CreateText(applicant, reply), FileHookOf(applicant, job, settings, office, parse))
  {
    c := new FileModel(applicant, job, text, filePath);
    r, calls := c.PostInit(CreateText(applicant, reply), FileHookOf(applicant, job, settings, office, parse));
  }

  /** With a pre-written résumé configured and nothing supplied, the model
      has no text, its file is the pre-written résumé, and nothing is
      parsed. */
  lemma OverrideShortCircuits(applicant: ModelApplicant.Applicant, job: ModelJob.Job, text: Option<string>,
                              filePath: Option<string>, settings: Settings, office: Office, reply: Chat.Reply,
                              parse: JsonParser)
    requires Truthy(applicant.resumeFilePath)
    requires !Truthy(text) && !Truthy(filePath)
    ensures PostInitEffect(text, filePath, CreateText(applicant, reply), FileHookOf(applicant, job, settings, office, parse))
         == (None, applicant.resumeFilePath, Done, [TextHook, FileHook(None)])
  {
    assert [TextHook] + [FileHook(None)] == [TextHook, FileHook(None)];
  }

  /** The row `log_resume` writes. */
  function LogRow(applicant: ModelApplicant.Applicant, job: ModelJob.Job, text: Option<string>, filePath: Option<string>)
    : (d: Dict)
    ensures DistinctKeys(d)
    ensures KeysOf(d) == ["job_applicant", "job_applicant_email", "job_source", "job_source_id",
                          "resume_text", "resume_file"]
  {
    [("job_applicant", VStr(ModelApplicant.FullName(applicant))),
     ("job_applicant_email", OfStr(applicant.email)),
     ("job_source", OfStr(job.source)),
     ("job_source_id", OfStr(job.sourceId)),
     ("resume_text", OfStr(text)),
     ("resume_file", OfStr(filePath))]
  }

  /** `log_resume(resume)` */
  method LogResume(files: CsvLog.Files, settings: Settings, c: FileModel) returns (r: Outcome)
    modifies files
    ensures (files.contents, r)
         == CsvLog.LogEffect(old(files.contents), settings.logs.resumes,
                             [CsvLog.Mapping(LogRow(c.applicant, c.job, c.text, c.filePath))])
  {
    r := files.Log(settings.logs.resumes, [CsvLog.Mapping(LogRow(c.applicant, c.job, c.text, c.filePath))]);
  }

  /** Logging a résumé appends one row holding the applicant's name and
      email, the job's source and source id, the text and the file, after
      the header when the log was empty; without a configured log nothing
      happens. */
  lemma ResumeLogged(files: CsvLog.FileMap, settings: Settings, applicant: ModelApplicant.Applicant,
                     job: ModelJob.Job, text: Option<string>, filePath: Option<string>)
    ensures var log := settings.logs.resumes;
            var after := CsvLog.LogEffect(files, log, [CsvLog.Mapping(LogRow(applicant, job, text, filePath))]);
            var row := [VStr(ModelApplicant.FullName(applicant)), OfStr(applicant.email), OfStr(job.source),
                        OfStr(job.sourceId), OfStr(text), OfStr(filePath)];
            && after.1 == Done
            && (!Truthy(log) ==> after.0 == files)
            && (Truthy(log) ==>
                  var prior := CsvLog.Existing(files, log.value);
                  after.0 == files[log.value := prior
                    + (if prior == [] then [CsvLog.HeaderLine(KeysOf(LogRow(applicant, job, text, filePath)))] else [])
                    + [row]])
  {
    var d := LogRow(applicant, job, text, filePath);
    if Truthy(settings.logs.resumes) {
      CsvLog.OneDictLogged(files, settings.logs.resumes.value, d);
      assert CsvLog.Cells(d) == [VStr(ModelApplicant.FullName(applicant)), OfStr(applicant.email), OfStr(job.source),
                        OfStr(job.sourceId), OfStr(text), OfStr(filePath)];
    }
  }
}
