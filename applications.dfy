/** The first-generation application flow of job_applier/application.py:
    an application record with its email fields, cover letter and résumé
    filled in from defaults, the cover-letter document with its template
    replacements and output names, sending, and the two CSV logs it
    writes by hand. */
module Applications {
  import opened Values
  import opened Text
  import opened Paths
  import opened Config
  import Chat
  import Smtp
  import CsvLog
  import ArtifactNames
  import Applicants
  import ModelJob
  import ModelEmail

  /** `create_email_subject(job)`: the fallback without a job or title,
      else the capitalised title in the template. */
  function CreateEmailSubject(job: Option<ModelJob.Job>): (r: string)
    ensures r == ModelEmail.Fallback <==> job.None? || !Truthy(job.value.title)
    ensures job.Some? && Truthy(job.value.title) ==>
      r == ModelEmail.SubjectHead + Capitalize(job.value.title.value) + ModelEmail.SubjectTail
  {
    ModelEmail.SubjectNamesTitle(if job.None? then None else job.value.title);
    ModelEmail.CreateSubject(job)
  }

  /** `create_email_body` and `create_cover_letter`: no choices gives
      None; a first choice without a message fails. */
  function CreateText(reply: Chat.Reply): (r: Result<Option<string>>)
    ensures r == Chat.FirstContent(reply)
    ensures reply.Answered? && reply.choices == [] ==> r == Ok(None)
  {
    Chat.FirstContent(reply)
  }

  // ---------------------------------------------------------------------
  // The cover-letter document

  /** A dict's entries with every key prefixed. */
  function Prefixed(p: string, d: Dict): (r: Dict)
    ensures |r| == |d|
    ensures forall i | 0 <= i < |d| :: r[i] == (p + d[i].0, d[i].1)
  {
    seq(|d|, i requires 0 <= i < |d| => (p + d[i].0, d[i].1))
  }

  /** The template replacements: `text`, then `job.<attribute>` for each
      attribute of the job, then `applicant.<attribute>`. */
  function ReplacementsOf(text: Option<string>, jobVars: Dict, applicantVars: Dict): Dict {
    [("text", OfStr(text))] + Prefixed("job.", jobVars) + Prefixed("applicant.", applicantVars)
  }

  /** Prefixing keeps keys apart. */
  lemma PrefixInjective(p: string, a: string, b: string)
    ensures p + a == p + b <==> a == b
  {
    assert (p + a)[|p|..] == a;
    assert (p + b)[|p|..] == b;
  }

  /** The keys of the replacements never clash: "text", the job's keys
      and the applicant's keys are told apart by their first letter, and
      within a group by the attribute name. */
  lemma ReplacementsDistinct(text: Option<string>, jobVars: Dict, applicantVars: Dict)
    requires DistinctKeys(jobVars) && DistinctKeys(applicantVars)
    ensures DistinctKeys(ReplacementsOf(text, jobVars, applicantVars))
  {
    var r := ReplacementsOf(text, jobVars, applicantVars);
    var nj := |jobVars|;
    forall i, j | 0 <= i < j < |r| ensures r[i].0 != r[j].0 {
      if i == 0 {
        assert r[j].0[0] == (if j <= nj then 'j' else 'a');
      } else if j <= nj {
        assert KeysOf(jobVars)[i - 1] != KeysOf(jobVars)[j - 1];
        PrefixInjective("job.", jobVars[i - 1].0, jobVars[j - 1].0);
      } else if i <= nj {
        assert r[i].0[0] == 'j' && r[j].0[0] == 'a';
      } else {
        assert KeysOf(applicantVars)[i - 1 - nj] != KeysOf(applicantVars)[j - 1 - nj];
        PrefixInjective("applicant.", applicantVars[i - 1 - nj].0, applicantVars[j - 1 - nj].0);
      }
    }
  }

  /** Every replacement can be looked up: "text" gives the text, and
      `job.<k>` and `applicant.<k>` give the attribute's value. */
  lemma ReplacementsLookup(text: Option<string>, jobVars: Dict, applicantVars: Dict)
    requires DistinctKeys(jobVars) && DistinctKeys(applicantVars)
    ensures var r := ReplacementsOf(text, jobVars, applicantVars);
            && Lookup(r, "text") == Some(OfStr(text))
            && (forall i | 0 <= i < |jobVars| :: Lookup(r, "job." + jobVars[i].0) == Some(jobVars[i].1))
            && (forall i | 0 <= i < |applicantVars| ::
                  Lookup(r, "applicant." + applicantVars[i].0) == Some(applicantVars[i].1))
  {
    var r := ReplacementsOf(text, jobVars, applicantVars);
    ReplacementsDistinct(text, jobVars, applicantVars);
    assert r[0] == ("text", OfStr(text));
    forall i | 0 <= i < |jobVars| ensures Lookup(r, "job." + jobVars[i].0) == Some(jobVars[i].1) {
      assert r[1 + i] == ("job." + jobVars[i].0, jobVars[i].1);
    }
    forall i | 0 <= i < |applicantVars|
      ensures Lookup(r, "applicant." + applicantVars[i].0) == Some(applicantVars[i].1)
    {
      assert r[1 + |jobVars| + i] == ("applicant." + applicantVars[i].0, applicantVars[i].1);
    }
  }

  /** The next prefixed key is not among those written so far. */
  lemma PrefixedKeyFresh(head: Dict, p: string, d: Dict, i: nat)
    requires i < |d| && DistinctKeys(d)
    requires p != [] && forall m | 0 <= m < |head| :: head[m].0 == [] || head[m].0[0] != p[0]
    ensures p + d[i].0 !in KeysOf(head + Prefixed(p, d[..i]))
  {
    var w := head + Prefixed(p, d[..i]);
    var k := p + d[i].0;
    assert k[0] == p[0];
    forall m | 0 <= m < |w| ensures w[m].0 != k {
      if m >= |head| {
        var j := m - |head|;
        assert w[m].0 == p + d[j].0;
        assert d[j].0 != d[i].0;
        PrefixInjective(p, d[j].0, d[i].0);
      }
    }
  }

  /** Adding the next prefixed entry with `Update` appends it. */
  lemma PrefixStep(head: Dict, p: string, d: Dict, i: nat)
    requires i < |d| && DistinctKeys(d)
    requires p != [] && forall m | 0 <= m < |head| :: head[m].0 == [] || head[m].0[0] != p[0]
    ensures Update(head + Prefixed(p, d[..i]), p + d[i].0, d[i].1) == head + Prefixed(p, d[..i + 1])
  {
    var before := Prefixed(p, d[..i]);
    PrefixedKeyFresh(head, p, d, i);
    UpdateAbsentAppends(head + before, p + d[i].0, d[i].1);
    PrefixedSnoc(p, d, i);
    assert head + before + [(p + d[i].0, d[i].1)] == head + Prefixed(p, d[..i + 1]);
  }

  /** Prefixing one more entry appends it. */
  lemma PrefixedSnoc(p: string, d: Dict, i: nat)
    requires i < |d|
    ensures Prefixed(p, d[..i + 1]) == Prefixed(p, d[..i]) + [(p + d[i].0, d[i].1)]
  {
    var before := Prefixed(p, d[..i]);
    var after := Prefixed(p, d[..i + 1]);
    assert |after| == |before| + 1;
    forall k | 0 <= k < |after| ensures after[k] == (before + [(p + d[i].0, d[i].1)])[k] {
      assert d[..i + 1][k] == d[k];
      if k < i { assert d[..i][k] == d[k]; }
    }
  }

  /** `replacements = {'text': text}` and the two loops over `vars(job)`
      and `vars(applicant)`. */
  method Replacements(text: Option<string>, jobVars: Dict, applicantVars: Dict) returns (r: Dict)
    requires DistinctKeys(jobVars) && DistinctKeys(applicantVars)
    ensures r == ReplacementsOf(text, jobVars, applicantVars)
  {
    var head := [("text", OfStr(text))];
    r := head;
    assert jobVars[..0] == [];
    for i := 0 to |jobVars|
      invariant r == head + Prefixed("job.", jobVars[..i])
    {
      PrefixStep(head, "job.", jobVars, i);
      r := Update(r, "job." + jobVars[i].0, jobVars[i].1);
    }
    assert jobVars[..|jobVars|] == jobVars;
    var mid := r;
    assert forall m | 0 <= m < |mid| :: mid[m].0 == [] || mid[m].0[0] != 'a' by {
      forall m | 0 <= m < |mid| ensures mid[m].0[0] != 'a' {
        if m > 0 { assert mid[m].0 == "job." + jobVars[m - 1].0; }
      }
    }
    assert applicantVars[..0] == [];
    for i := 0 to |applicantVars|
      invariant r == mid + Prefixed("applicant.", applicantVars[..i])
    {
      PrefixStep(mid, "applicant.", applicantVars, i);
      r := Update(r, "applicant." + applicantVars[i].0, applicantVars[i].1);
    }
    assert applicantVars[..|applicantVars|] == applicantVars;
  }

  /** The two outputs: `<template dir>/<template name>.<job id><ext>` and
      the same with `.pdf`. */
  function CoverLetterOutputs(template: string, jobId: Option<int>): (string, string) {
    var name := SplitExt(Basename(template)).0;
    ArtifactNames.Outputs(Dirname(template), name + "." + ShowInt(jobId), template)
  }

  /** The path of the generated cover letter: the PDF when LibreOffice is
      available (a failed conversion raises), else the document. */
  function CoverLetterFile(template: string, jobId: Option<int>, office: ArtifactNames.Office): Result<string> {
    ArtifactNames.Deliver(CoverLetterOutputs(template, jobId), office)
  }

  /** The generated cover letter sits next to the template, named after
      the template and the job's id, as a PDF exactly when LibreOffice is
      available. */
  lemma CoverLetterFileName(template: string, jobId: Option<int>, office: ArtifactNames.Office)
    ensures var r := CoverLetterFile(template, jobId, office);
            var (name, ext) := SplitExt(Basename(template));
            && (r.Ok? <==> !office.libreOffice || office.conversionOk)
            && (r.Ok? ==>
                  && Dirname(r.value) == Dirname(template)
                  && Basename(r.value) == name + "." + ShowInt(jobId) + (if office.libreOffice then ".pdf" else ext))
  {
    var (name, ext) := SplitExt(Basename(template));
    var stem := name + "." + ShowInt(jobId);
    assert '/' !in name by {
      forall c | c in name ensures c != '/' {
        assert c in name + ext;
      }
    }
    assert '/' !in stem;
    ArtifactNames.OutputsShareDirAndStem(Dirname(template), stem, template);
  }

  /** `create_cover_letter_file(job, applicant, text)`: the replacements
      built for the template, and the path returned. */
  method CreateCoverLetterFile(job: ModelJob.Job, applicant: Applicants.Applicant, text: Option<string>,
                               settings: Settings, office: ArtifactNames.Office)
    returns (replacements: Dict, r: Result<string>)
    ensures replacements == ReplacementsOf(text, ModelJob.JobVars(job), Applicants.Vars(applicant))
    ensures r == CoverLetterFile(settings.coverLetterTemplate, job.id, office)
  {
    ModelJob.ColumnsAsDict(job);
    assert DistinctKeys(ModelJob.JobVars(job)) by {
      var v := ModelJob.JobVars(job);
      forall i, j | 0 <= i < j < |v| ensures v[i].0 != v[j].0 {
        if i == 0 {
          assert v[j].0 == ModelJob.JobAnnotations[j - 1];
        } else {
          assert v[i].0 == KeysOf(ModelJob.Columns(job))[i - 1] && v[j].0 == KeysOf(ModelJob.Columns(job))[j - 1];
        }
      }
    }
    replacements := Replacements(text, ModelJob.JobVars(job), Applicants.Vars(applicant));
    r := CoverLetterFile(settings.coverLetterTemplate, job.id, office);
  }

  /** A `CoverLetter`. */
  datatype CoverLetter = CoverLetter(
    applicant: Applicants.Applicant,
    job: ModelJob.Job,
    text: Option<string>,
    filePath: Option<string>)

  /** `CoverLetter(applicant, job, text, file_path)`: the text is the
      supplied one, else empty when a file is supplied, else generated;
      the file is the supplied one, else generated from the text. */
  function NewCoverLetter(applicant: Applicants.Applicant, job: ModelJob.Job, text: Option<string>,
                          filePath: Option<string>, reply: Chat.Reply, settings: Settings,
                          office: ArtifactNames.Office): (r: Result<CoverLetter>)
    ensures r.Ok? ==> r.value.applicant == applicant && r.value.job == job
    ensures r.Ok? && Truthy(text) ==> r.value.text == text
    ensures r.Ok? && !Truthy(text) && Truthy(filePath) ==> r.value.text == Some("")
    ensures r.Ok? && !Truthy(text) && !Truthy(filePath) ==> Ok(r.value.text) == CreateText(reply)
    ensures r.Ok? && Truthy(filePath) ==> r.value.filePath == filePath
    ensures r.Ok? && !Truthy(filePath) ==>
      r.value.filePath.Some? && Ok(r.value.filePath.value) == CoverLetterFile(settings.coverLetterTemplate, job.id, office)
    ensures Truthy(filePath) ==> r.Ok?
  {
    var t := if Truthy(text) then Ok(text) else if Truthy(filePath) then Ok(Some("")) else CreateText(reply);
    if t.Err? then Err(t.fault)
    else if Truthy(filePath) then Ok(CoverLetter(applicant, job, t.value, filePath))
    else
      var f := CoverLetterFile(settings.coverLetterTemplate, job.id, office);
      if f.Err? then Err(f.fault) else Ok(CoverLetter(applicant, job, t.value, Some(f.value)))
  }

  // ---------------------------------------------------------------------
  // The application

  datatype Application = Application(
    applicant: Applicants.Applicant,
    job: ModelJob.Job,
    emailTo: Option<string>,
    emailSubject: Option<string>,
    emailBody: Option<string>,
    coverLetter: CoverLetter,
    resume: Option<string>,
    applied: bool)

  /** What building an application consults besides its arguments: the
      language model's replies for the email body and the cover letter,
      the settings and the document environment. */
  datatype Inputs = Inputs(
    bodyReply: Chat.Reply,
    coverReply: Chat.Reply,
    settings: Settings,
    office: ArtifactNames.Office)

  /** The cover letter an application ends up with: the supplied one, else
      one built on the applicant's pre-written file, else a generated
      one. */
  function ChooseCoverLetter(applicant: Applicants.Applicant, job: ModelJob.Job, supplied: Option<CoverLetter>,
                             inputs: Inputs): Result<CoverLetter> {
    if supplied.Some? then Ok(supplied.value)
    else if Truthy(applicant.coverLetterFilePath) then
      NewCoverLetter(applicant, job, None, applicant.coverLetterFilePath, inputs.coverReply, inputs.settings, inputs.office)
    else NewCoverLetter(applicant, job, None, None, inputs.coverReply, inputs.settings, inputs.office)
  }

  /** `Application(applicant, job, email_to, email_subject, email_body,
      resume, cover_letter, applied)`. The fields are evaluated in order,
      so a failing body generation comes before the cover letter. */
  function NewApplication(applicant: Applicants.Applicant, job: ModelJob.Job, emailTo: Option<string>,
                          emailSubject: Option<string>, emailBody: Option<string>, resume: Option<string>,
                          coverLetter: Option<CoverLetter>, applied: bool, inputs: Inputs): (r: Result<Application>)
    ensures r.Ok? ==>
      && r.value.applicant == applicant && r.value.job == job
      && r.value.emailTo == Or(emailTo, job.email)
      && r.value.emailSubject == (if Truthy(emailSubject) then emailSubject else Some(CreateEmailSubject(Some(job))))
      && Ok(r.value.emailBody) == (if Truthy(emailBody) then Ok(emailBody) else CreateText(inputs.bodyReply))
      && r.value.resume == Or(resume, applicant.resume)
      && r.value.applied == applied
      && Ok(r.value.coverLetter) == ChooseCoverLetter(applicant, job, coverLetter, inputs)
    ensures r.Err? <==>
      (!Truthy(emailBody) && CreateText(inputs.bodyReply).Err?)
      || ChooseCoverLetter(applicant, job, coverLetter, inputs).Err?
  {
    var to := Or(emailTo, job.email);
    var subject := if Truthy(emailSubject) then emailSubject else Some(CreateEmailSubject(Some(job)));
    var body := if Truthy(emailBody) then Ok(emailBody) else CreateText(inputs.bodyReply);
    if body.Err? then Err(body.fault)
    else
      var cover := ChooseCoverLetter(applicant, job, coverLetter, inputs);
      if cover.Err? then Err(cover.fault)
      else Ok(Application(applicant, job, to, subject, body.value, cover.value, Or(resume, applicant.resume), applied))
  }

  /** The cover-letter precedence: a supplied letter is kept as it is; with
      a pre-written file the letter has empty text and that file and needs
      no language model; otherwise its text is the reply's and its file is
      generated. */
  lemma CoverLetterPrecedence(applicant: Applicants.Applicant, job: ModelJob.Job, supplied: Option<CoverLetter>,
                              inputs: Inputs)
    ensures supplied.Some? ==> ChooseCoverLetter(applicant, job, supplied, inputs) == Ok(supplied.value)
    ensures supplied.None? && Truthy(applicant.coverLetterFilePath) ==>
      ChooseCoverLetter(applicant, job, supplied, inputs)
        == Ok(CoverLetter(applicant, job, Some(""), applicant.coverLetterFilePath))
    ensures supplied.None? && !Truthy(applicant.coverLetterFilePath) ==>
      var c := ChooseCoverLetter(applicant, job, supplied, inputs);
      && (c.Ok? <==> CreateText(inputs.coverReply).Ok?
                     && CoverLetterFile(inputs.settings.coverLetterTemplate, job.id, inputs.office).Ok?)
      && (c.Ok? ==> Ok(c.value.text) == CreateText(inputs.coverReply) && c.value.filePath.Some?
                    && Ok(c.value.filePath.value) == CoverLetterFile(inputs.settings.coverLetterTemplate, job.id, inputs.office))
  {
  }

  /** The SMTP call `apply` makes: the credentials and server from the
      environment, SSL left to the library, and the cover letter's file
      and the résumé attached in that order. */
  function ApplyCall(a: Application, env: Env): (c: Smtp.SmtpCall)
    ensures c.attachments == Some([a.coverLetter.filePath, a.resume])
    ensures c.to == a.emailTo && c.subject == a.emailSubject && c.contents == a.emailBody
    ensures c.ssl.None?
  {
    Smtp.SmtpCall(
      GetEnv(env, "EMAIL_USER"),
      GetEnv(env, "EMAIL_PASSWORD"),
      GetEnv(env, "EMAIL_HOST"),
      GetEnv(env, "EMAIL_PORT"),
      None,
      a.emailTo, a.emailSubject, a.emailBody,
      Some([a.coverLetter.filePath, a.resume]))
  }

  /** `apply(application)`: the call made and what `send` returned. */
  method Apply(a: Application, env: Env, delivery: Smtp.Delivery) returns (r: Result<bool>, call: Smtp.SmtpCall)
    ensures call == ApplyCall(a, env)
    ensures r == Smtp.Sent(delivery)
  {
    call := ApplyCall(a, env);
    r := Smtp.Sent(delivery);
  }

  // ---------------------------------------------------------------------
  // The hand-written logs

  function CoverLetterRow(job: ModelJob.Job, text: Option<string>): (d: Dict)
    ensures DistinctKeys(d) && KeysOf(d) == ["job_id", "cover_letter_text"]
  {
    [("job_id", OfInt(job.id)), ("cover_letter_text", OfStr(text))]
  }

  function ApplicationRow(a: Application, now: Time): (d: Dict)
    ensures DistinctKeys(d) && KeysOf(d) == ["datetime", "job_id", "email_to", "applied"]
  {
    [("datetime", VTime(now)), ("job_id", OfInt(a.job.id)), ("email_to", OfStr(a.emailTo)), ("applied", VBool(a.applied))]
  }

  /** Appending one dict to a CSV file by hand, as the two log functions
      do: the header when the file is missing or empty, then the row. */
  method AppendDict(files: CsvLog.Files, path: string, d: Dict)
    requires path != "" && DistinctKeys(d)
    modifies files
    ensures (files.contents, Done) == CsvLog.LogEffect(old(files.contents), Some(path), [CsvLog.Mapping(d)])
  {
    CsvLog.OneDictLogged(files.contents, path, d);
    ghost var before := files.contents;
    var prior := CsvLog.Existing(files.contents, path);
    var header := if prior == [] then [CsvLog.HeaderLine(KeysOf(d))] else [];
    var row := CsvLog.Cells(d);
    if prior == [] {
      files.Append(path, header);
    } else {
      assert prior + [] == prior;
    }
    assert CsvLog.Existing(files.contents, path) == prior + header;
    files.Append(path, [row]);
    assert files.contents == before[path := prior + header + [row]];
  }

  /** `log_cover_letter(job, text)`: the same effect as `log` with one
      dict. */
  method LogCoverLetter(files: CsvLog.Files, settings: Settings, job: ModelJob.Job, text: Option<string>)
    modifies files
    ensures (files.contents, Done)
         == CsvLog.LogEffect(old(files.contents), settings.logs.coverLetters, [CsvLog.Mapping(CoverLetterRow(job, text))])
  {
    if !Truthy(settings.logs.coverLetters) {
      return;
    }
    AppendDict(files, settings.logs.coverLetters.value, CoverLetterRow(job, text));
  }

  /** `log_application(application)` at time `now`. */
  method LogApplication(files: CsvLog.Files, settings: Settings, a: Application, now: Time)
    modifies files
    ensures (files.contents, Done)
         == CsvLog.LogEffect(old(files.contents), settings.logs.applications, [CsvLog.Mapping(ApplicationRow(a, now))])
  {
    if !Truthy(settings.logs.applications) {
      return;
    }
    AppendDict(files, settings.logs.applications.value, ApplicationRow(a, now));
  }

  /** Each log call appends exactly one row, after the header when the file
      was empty or missing, and writes nothing without a configured file. */
  lemma ApplicationLogged(files: CsvLog.FileMap, logFile: Option<string>, a: Application, now: Time)
    ensures var after := CsvLog.LogEffect(files, logFile, [CsvLog.Mapping(ApplicationRow(a, now))]).0;
            && (!Truthy(logFile) ==> after == files)
            && (Truthy(logFile) ==>
                  var prior := CsvLog.Existing(files, logFile.value);
                  after == files[logFile.value := prior
                    + (if prior == [] then [CsvLog.HeaderLine(["datetime", "job_id", "email_to", "applied"])] else [])
                    + [[VTime(now), OfInt(a.job.id), OfStr(a.emailTo), VBool(a.applied)]]])
  {
    if Truthy(logFile) {
      var d := ApplicationRow(a, now);
      CsvLog.OneDictLogged(files, logFile.value, d);
      assert CsvLog.Cells(d) == [VTime(now), OfInt(a.job.id), OfStr(a.emailTo), VBool(a.applied)];
    }
  }
}
