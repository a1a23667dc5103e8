/** The persisted application of job_applier/models/application.py: the
    `applied` flag and its timestamp, the documents and email built on
    construction, sending, the `applications` table with its upsert by
    `(job_id, applicant_id)`, the check whether a job was already applied
    to, and the CSV application log. */
module ModelApplication {
  import opened Values
  import opened Config
  import Chat
  import Smtp
  import CsvLog
  import ModelApplicant
  import ModelJob
  import ModelFile
  import ModelEmail
  import ModelCoverLetter
  import ModelResume
  import ArtifactNames

  /** The columns of an `applications` row. */
  datatype Columns = Columns(
    id: Option<int>,
    jobId: Option<int>,
    applicantId: Option<int>,
    applied: bool,
    appliedAt: Option<Time>)

  /** `applied_at` is set exactly when `applied` is. */
  predicate Coupled(c: Columns) {
    c.appliedAt.Some? <==> c.applied
  }

  /** The `applied` setter at time `now`. */
  function Assign(c: Columns, value: bool, now: Time): (r: Columns)
    ensures r.applied == value
    ensures r.appliedAt == (if value then Some(now) else None)
    ensures r.(applied := c.applied, appliedAt := c.appliedAt) == c
  {
    c.(applied := value, appliedAt := if value then Some(now) else None)
  }

  /** Whatever the columns were, assigning `applied` couples them. */
  lemma AssignCouples(c: Columns, value: bool, now: Time)
    ensures Coupled(Assign(c, value, now))
  {
  }

  /** The last step of `__post_init__`: an applied record without a
      timestamp gets one; a supplied timestamp is kept. */
  function StampOnInit(c: Columns, now: Time): (r: Columns)
    ensures c.appliedAt.Some? ==> r == c
    ensures c.appliedAt.None? && c.applied ==> r == c.(appliedAt := Some(now))
    ensures c.appliedAt.None? && !c.applied ==> r == c
  {
    if c.appliedAt.None? && c.applied then c.(appliedAt := Some(now)) else c
  }

  /** After construction an applied record always has a timestamp, and a
      coupled record stays as it was. */
  lemma StampOnInitCompletes(c: Columns, now: Time)
    ensures var r := StampOnInit(c, now);
            && (r.applied ==> r.appliedAt.Some?)
            && r.applied == c.applied
            && (c.appliedAt.Some? ==> r.appliedAt == c.appliedAt)
            && (Coupled(c) ==> r == c)
  {
  }

  // ---------------------------------------------------------------------
  // Attachments

  type Paths = seq<Option<string>>

  /** Attachments held as a list, `None` read as the empty list. */
  function Listed(a: Option<Paths>): (r: Paths)
    ensures a.Some? ==> r == a.value
    ensures a.None? ==> r == []
  {
    if a.Some? then a.value else []
  }

  /** `if path not in attachments: attachments.append(path)` */
  function AddIfMissing(a: Paths, p: Option<string>): (r: Paths)
    ensures p in r
    ensures p in a ==> r == a
    ensures p !in a ==> r == a + [p]
  {
    if p in a then a else a + [p]
  }

  predicate NoDuplicates(a: Paths) {
    forall i, j | 0 <= i < j < |a| :: a[i] != a[j]
  }

  /** Adding a missing path never introduces a duplicate. */
  lemma AddIfMissingKeepsDistinct(a: Paths, p: Option<string>)
    requires NoDuplicates(a)
    ensures NoDuplicates(AddIfMissing(a, p))
  {
  }

  /** One document step of `__post_init__` on a supplied email's
      attachments: a generated document's path is added unless present,
      a missing list read as empty; otherwise the list is left alone. */
  function AttachStep(a: Option<Paths>, generated: bool, p: Option<string>): (r: Option<Paths>)
    ensures generated ==> r == Some(AddIfMissing(Listed(a), p))
    ensures !generated ==> r == a
  {
    if generated then Some(AddIfMissing(Listed(a), p)) else a
  }

  /** The email's attachments after `__post_init__`. `supplied` is the
      attachments of a supplied email (None when no email was supplied);
      a document is `generated` when it was not supplied. A supplied
      email gets each generated document's path unless it already has
      it; a new email gets the cover letter's path, then the résumé's. */
  function AttachEffect(supplied: Option<Option<Paths>>, coverGenerated: bool, resumeGenerated: bool,
                        cover: Option<string>, resume: Option<string>): Option<Paths>
  {
    if supplied.Some? then AttachStep(AttachStep(supplied.value, coverGenerated, cover), resumeGenerated, resume)
    else Some([] + [cover] + [resume])
  }

  /** With a supplied email, its attachments stay first and in order, each
      generated document is attached exactly once, nothing else is added,
      and a list without duplicates stays without duplicates. When no
      document was generated the attachments are untouched. */
  lemma SuppliedEmailAttachments(a: Option<Paths>, coverGenerated: bool, resumeGenerated: bool,
                                 cover: Option<string>, resume: Option<string>)
    ensures var r := Listed(AttachEffect(Some(a), coverGenerated, resumeGenerated, cover, resume));
            && r[..|Listed(a)|] == Listed(a)
            && (coverGenerated ==> cover in r)
            && (resumeGenerated ==> resume in r)
            && (forall p | p in r[|Listed(a)|..] :: (coverGenerated && p == cover) || (resumeGenerated && p == resume))
            && (NoDuplicates(Listed(a)) ==> NoDuplicates(r))
    ensures !coverGenerated && !resumeGenerated ==> AttachEffect(Some(a), coverGenerated, resumeGenerated, cover, resume) == a
  {
    var l := Listed(a);
    var a1 := if coverGenerated then AddIfMissing(l, cover) else l;
    var a2 := if resumeGenerated then AddIfMissing(a1, resume) else a1;
    assert Listed(AttachEffect(Some(a), coverGenerated, resumeGenerated, cover, resume)) == a2;
    ExtendTwice(l, coverGenerated, resumeGenerated, cover, resume);
    if NoDuplicates(l) {
      if coverGenerated { AddIfMissingKeepsDistinct(l, cover); }
      if resumeGenerated { AddIfMissingKeepsDistinct(a1, resume); }
    }
  }

  /** The two document steps on a plain list. */
  lemma ExtendTwice(l: Paths, coverGenerated: bool, resumeGenerated: bool, cover: Option<string>, resume: Option<string>)
    ensures var a1 := if coverGenerated then AddIfMissing(l, cover) else l;
            var a2 := if resumeGenerated then AddIfMissing(a1, resume) else a1;
            && |l| <= |a2| && a2[..|l|] == l
            && (coverGenerated ==> cover in a2)
            && (resumeGenerated ==> resume in a2)
            && (forall q | q in a2[|l|..] :: (coverGenerated && q == cover) || (resumeGenerated && q == resume))
  {
    var a1 := if coverGenerated then AddIfMissing(l, cover) else l;
    if coverGenerated { AddIfMissingExtends(l, cover); }
    if resumeGenerated {
      var a2 := AddIfMissing(a1, resume);
      AddIfMissingExtends(a1, resume);
      assert a2[..|l|] == a1[..|l|] == l;
      assert a2[|l|..] == a1[|l|..] + a2[|a1|..];
    }
  }

  /** Adding a path keeps the list as a prefix and adds nothing but the
      path. */
  lemma AddIfMissingExtends(l: Paths, p: Option<string>)
    ensures var r := AddIfMissing(l, p);
            && |l| <= |r| && r[..|l|] == l
            && forall q | q in r[|l|..] :: q == p
  {
    var r := AddIfMissing(l, p);
    assert r[..|l|] == l;
  }

  /** A new email is given exactly the cover letter's path and then the
      résumé's. */
  lemma NewEmailAttachments(coverGenerated: bool, resumeGenerated: bool, cover: Option<string>, resume: Option<string>)
    ensures AttachEffect(None, coverGenerated, resumeGenerated, cover, resume) == Some([cover, resume])
  {
    assert [] + [cover] + [resume] == [cover, resume];
  }

  /** `attachments.append(path)` as written: `EmailModel.attachments`
      defaults to None, which has no `append`. */
  function AppendAsWritten(a: Option<Paths>, p: Option<string>): (r: Result<Paths>)
    ensures r.Err? <==> a.None?
    ensures r.Ok? ==> r.value == a.value + [p]
  {
    if a.None? then Err(AttributeError) else Ok(a.value + [p])
  }

  /** `path not in attachments` as written: None cannot be searched. */
  function AddIfMissingAsWritten(a: Option<Paths>, p: Option<string>): (r: Result<Paths>)
    ensures r.Err? <==> a.None?
    ensures r.Ok? ==> r.value == AddIfMissing(a.value, p)
  {
    if a.None? then Err(TypeError) else Ok(AddIfMissing(a.value, p))
  }

  /** As written, an application built without an email always fails: the
      new `EmailModel` comes out of its own `__post_init__` with
      `attachments` still None, and appending the cover letter's path
      raises. A supplied email left with the default attachments fails in
      the same way on the membership test. */
  lemma NewEmailAppendFails(job: ModelJob.Job, reply: Chat.Reply, cover: Option<string>)
    ensures var (f, out) := ModelEmail.PostInitEffect(Some(job), ModelEmail.Fields(None, None, None, None), reply);
            && f.attachments == None
            && AppendAsWritten(f.attachments, cover) == Err(AttributeError)
            && AddIfMissingAsWritten(f.attachments, cover) == Err(TypeError)
  {
    ModelEmail.SuppliedFieldsKept(job, ModelEmail.Fields(None, None, None, None), reply);
  }

  /** As written, a supplied email whose attachments were left at their
      default keeps them as None through its own `__post_init__`, and
      adding a generated document's path then raises: `not in` cannot
      search None. */
  lemma SuppliedEmailAttachFails(job: ModelJob.Job, to: Option<string>, subject: Option<string>,
                                 text: Option<string>, reply: Chat.Reply, p: Option<string>)
    ensures var (f, out) := ModelEmail.PostInitEffect(Some(job), ModelEmail.Fields(to, subject, text, None), reply);
            && f.attachments == None
            && AddIfMissingAsWritten(f.attachments, p) == Err(TypeError)
  {
    ModelEmail.SuppliedFieldsKept(job, ModelEmail.Fields(to, subject, text, None), reply);
  }

  // ---------------------------------------------------------------------
  // Sending

  /** `apply()` on the columns: the send result becomes `applied` through
      the setter; a send that raises leaves the columns alone. Without an
      email the call fails on `None.send`. */
  function ApplyEffect(c: Columns, hasEmail: bool, delivery: Smtp.Delivery, now: Time): (Columns, Result<bool>) {
    if !hasEmail then (c, Err(AttributeError))
    else
      var sent := Smtp.Sent(delivery);
      if sent.Err? then (c, Err(sent.fault))
      else (Assign(c, sent.value, now), Ok(sent.value))
  }

  /** `apply()` returns exactly the stored `applied`, which is what the
      transport returned, and leaves the record coupled. */
  lemma ApplyReturnsApplied(c: Columns, hasEmail: bool, delivery: Smtp.Delivery, now: Time)
    ensures var (c', r) := ApplyEffect(c, hasEmail, delivery, now);
            && (r.Ok? <==> hasEmail && delivery.Delivered?)
            && (r.Ok? ==> r.value == c'.applied == delivery.accepted && Coupled(c'))
            && (r.Err? ==> c' == c)
            && c'.id == c.id && c'.jobId == c.jobId && c'.applicantId == c.applicantId
  {
  }

  // ---------------------------------------------------------------------
  // The applications table

  type AppKey = (Option<int>, Option<int>)

  function KeyOf(c: Columns): AppKey {
    (c.jobId, c.applicantId)
  }

  /** The table's content and the next id the database would hand out. */
  datatype Store = Store(rows: map<AppKey, Columns>, next: int)

  predicate IdTaken(rows: map<AppKey, Columns>, id: int) {
    exists k | k in rows :: rows[k].id == Some(id)
  }

  /** Every row sits under its own key, has an id below `next`, and no two
      rows share an id. */
  predicate StoreValid(s: Store) {
    && (forall k | k in s.rows :: KeyOf(s.rows[k]) == k && s.rows[k].id.Some? && s.rows[k].id.value < s.next)
    && (forall k1, k2 | k1 in s.rows && k2 in s.rows && k1 != k2 :: s.rows[k1].id != s.rows[k2].id)
  }

  /** The update branch of `save_application`: the setter runs on the
      stored row with the incoming `applied`, then the incoming
      `applied_at` is copied over the setter's timestamp. */
  function UpdateStored(stored: Columns, incoming: Columns, now: Time): (r: Columns)
    ensures r == stored.(applied := incoming.applied, appliedAt := incoming.appliedAt)
  {
    Assign(stored, incoming.applied, now).(appliedAt := incoming.appliedAt)
  }

  /** One call of `save_application` at time `now`; `failure` says the
      database raised. The result is the new store, the caller's columns
      afterwards, and whether the application was returned. */
  function SaveEffect(s: Store, c: Columns, now: Time, failure: bool): (Store, Columns, bool) {
    var key := KeyOf(c);
    if failure then (s, c, false)
    else if key in s.rows then
      var stored := UpdateStored(s.rows[key], c, now);
      (Store(s.rows[key := stored], s.next), stored, true)
    else if c.id.Some? then
      if IdTaken(s.rows, c.id.value) then (s, c, false)
      else
        var next := if c.id.value + 1 > s.next then c.id.value + 1 else s.next;
        (Store(s.rows[key := c], next), c, true)
    else
      var inserted := c.(id := Some(s.next));
      (Store(s.rows[key := inserted], s.next + 1), inserted, true)
  }

  /** Saving keeps the table well formed. */
  lemma SaveKeepsStoreValid(s: Store, c: Columns, now: Time, failure: bool)
    requires StoreValid(s)
    ensures StoreValid(SaveEffect(s, c, now, failure).0)
  {
    var s' := SaveEffect(s, c, now, failure).0;
    var key := KeyOf(c);
    forall k1, k2 | k1 in s'.rows && k2 in s'.rows && k1 != k2
      ensures s'.rows[k1].id != s'.rows[k2].id
    {
      if !failure && key !in s.rows && c.id.Some? && !IdTaken(s.rows, c.id.value) {
        if k1 == key {
          assert s.rows[k2].id != c.id;
        } else if k2 == key {
          assert s.rows[k1].id != c.id;
        }
      }
    }
  }

  /** On an existing `(job_id, applicant_id)` row only `applied` and
      `applied_at` change, both to the incoming values (the incoming
      timestamp beats the setter's), and the caller receives every stored
      column, its id included. */
  lemma SaveUpdatesTwoColumns(s: Store, c: Columns, now: Time)
    requires StoreValid(s)
    requires KeyOf(c) in s.rows
    ensures var (s', caller, saved) := SaveEffect(s, c, now, false);
            var stored := s.rows[KeyOf(c)];
            && saved
            && s'.rows.Keys == s.rows.Keys
            && s'.rows[KeyOf(c)] == caller
            && caller.id == stored.id && caller.jobId == c.jobId && caller.applicantId == c.applicantId
            && caller.applied == c.applied && caller.appliedAt == c.appliedAt
  {
  }

  /** Without a matching row the application is inserted as it is, with
      its own id or the next free one; a failing database changes
      nothing. */
  lemma SaveInsertsOrFails(s: Store, c: Columns, now: Time, failure: bool)
    requires StoreValid(s)
    ensures var (s', caller, saved) := SaveEffect(s, c, now, failure);
            && (failure ==> s' == s && caller == c && !saved)
            && (!failure && KeyOf(c) !in s.rows && (c.id.None? || !IdTaken(s.rows, c.id.value)) ==>
                  && saved
                  && s'.rows == s.rows[KeyOf(c) := caller]
                  && caller == c.(id := if c.id.Some? then c.id else Some(s.next))
                  && !IdTaken(s.rows, caller.id.value))
  {
    if !failure && KeyOf(c) !in s.rows && c.id.None? {
      assert !IdTaken(s.rows, s.next);
    }
  }

  /** `check_application` on the table: the job and applicant default to
      the application's own (with neither there, `.job` fails on None); a
      row is found only for the job's and the applicant's ids, applied and
      timestamped. A database error gives None. */
  function CheckApplication(s: Store, application: Option<(ModelJob.Job, ModelApplicant.Applicant)>,
                            job: Option<ModelJob.Job>, applicant: Option<ModelApplicant.Applicant>,
                            failure: bool): (r: Result<Option<Columns>>)
    ensures r.Err? <==> application.None? && (job.None? || applicant.None?)
  {
    if application.None? && (job.None? || applicant.None?) then Err(AttributeError)
    else
      var j := if job.Some? then job.value else application.value.0;
      var a := if applicant.Some? then applicant.value else application.value.1;
      var key := (j.id, a.id);
      if failure then Ok(None)
      else if key in s.rows && s.rows[key].applied && s.rows[key].appliedAt.Some? then Ok(Some(s.rows[key]))
      else Ok(None)
  }

  /** On a well-formed table a found row belongs to the job and the
      applicant and is applied and timestamped; and such a row is always
      found when the database does not fail. */
  lemma CheckFindsExactlyApplied(s: Store, job: ModelJob.Job, applicant: ModelApplicant.Applicant, failure: bool)
    requires StoreValid(s)
    ensures var r := CheckApplication(s, None, Some(job), Some(applicant), failure);
            && r.Ok?
            && (r.value.Some? ==>
                  && r.value.value in s.rows.Values
                  && r.value.value.jobId == job.id && r.value.value.applicantId == applicant.id
                  && r.value.value.applied && r.value.value.appliedAt.Some?)
            && ((!failure && (exists c | c in s.rows.Values ::
                                c.jobId == job.id && c.applicantId == applicant.id && c.applied && c.appliedAt.Some?))
                ==> r.value.Some?)
  {
    var r := CheckApplication(s, None, Some(job), Some(applicant), failure);
    if !failure && (exists c | c in s.rows.Values ::
                      c.jobId == job.id && c.applicantId == applicant.id && c.applied && c.appliedAt.Some?) {
      var c :| c in s.rows.Values && c.jobId == job.id && c.applicantId == applicant.id && c.applied && c.appliedAt.Some?;
      var k :| k in s.rows && s.rows[k] == c;
      assert k == (job.id, applicant.id);
    }
  }

  /** Once an applied, timestamped application has been saved, checking
      its job and applicant finds it. */
  lemma SavedApplicationIsFound(s: Store, c: Columns, now: Time, job: ModelJob.Job, applicant: ModelApplicant.Applicant)
    requires StoreValid(s)
    requires c.jobId == job.id && c.applicantId == applicant.id
    requires c.applied && c.appliedAt.Some?
    requires SaveEffect(s, c, now, false).2
    ensures var (s', caller, _) := SaveEffect(s, c, now, false);
            CheckApplication(s', None, Some(job), Some(applicant), false) == Ok(Some(caller))
  {
  }

  // ---------------------------------------------------------------------
  // The log

  /** The row `log_application` writes. */
  function LogRow(applicant: ModelApplicant.Applicant, job: ModelJob.Job, emailTo: Option<string>, c: Columns)
    : (d: Dict)
    ensures DistinctKeys(d)
    ensures KeysOf(d) == ["job_applicant", "job_applicant_email", "job_source", "job_source_id",
                          "email_to", "applied", "applied_at"]
  {
    [("job_applicant", VStr(ModelApplicant.FullName(applicant))),
     ("job_applicant_email", OfStr(applicant.email)),
     ("job_source", OfStr(job.source)),
     ("job_source_id", OfStr(job.sourceId)),
     ("email_to", OfStr(emailTo)),
     ("applied", VBool(c.applied)),
     ("applied_at", OfTime(c.appliedAt))]
  }

  /** Logging an application appends one row with the applicant, the job's
      source and source id, the recipient and the applied state, after the
      header when the log was empty. */
  lemma ApplicationLogged(files: CsvLog.FileMap, path: string, applicant: ModelApplicant.Applicant,
                          job: ModelJob.Job, emailTo: Option<string>, c: Columns)
    requires path != ""
    ensures var after := CsvLog.LogEffect(files, Some(path), [CsvLog.Mapping(LogRow(applicant, job, emailTo, c))]);
            var prior := CsvLog.Existing(files, path);
            && after.1 == Done
            && after.0 == files[path := prior
                 + (if prior == [] then [CsvLog.HeaderLine(KeysOf(LogRow(applicant, job, emailTo, c)))] else [])
                 + [[VStr(ModelApplicant.FullName(applicant)), OfStr(applicant.email), OfStr(job.source),
                     OfStr(job.sourceId), OfStr(emailTo), VBool(c.applied), OfTime(c.appliedAt)]]]
  {
    var d := LogRow(applicant, job, emailTo, c);
    CsvLog.OneDictLogged(files, path, d);
    assert CsvLog.Cells(d)
        == [VStr(ModelApplicant.FullName(applicant)), OfStr(applicant.email), OfStr(job.source),
            OfStr(job.sourceId), OfStr(emailTo), VBool(c.applied), OfTime(c.appliedAt)];
  }

  // ---------------------------------------------------------------------
  // The objects

  /** What building the missing documents and email needs: the settings,
      the document environment, the language model's replies and the JSON
      parser. */
  datatype Inputs = Inputs(
    settings: Settings,
    office: ArtifactNames.Office,
    coverReply: Chat.Reply,
    resumeReply: Chat.Reply,
    emailReply: Chat.Reply,
    parse: ModelResume.JsonParser)

  /** An instance of `Application`. */
  class Application {
    var job: ModelJob.Job
    var applicant: ModelApplicant.Applicant
    var id: Option<int>
    var jobId: Option<int>
    var applicantId: Option<int>
    var applied: bool
    var appliedAt: Option<Time>
    var email: ModelEmail.EmailModel?
    var resume: ModelFile.FileModel?
    var coverLetter: ModelFile.FileModel?

    function Cols(): Columns
      reads this
    {
      Columns(id, jobId, applicantId, applied, appliedAt)
    }

    /** The dataclass initialiser, before `__post_init__`. */
    constructor (job: ModelJob.Job, applicant: ModelApplicant.Applicant, c: Columns,
                 email: ModelEmail.EmailModel?, resume: ModelFile.FileModel?, coverLetter: ModelFile.FileModel?)
      ensures this.job == job && this.applicant == applicant && Cols() == c
      ensures this.email == email && this.resume == resume && this.coverLetter == coverLetter
    {
      this.job := job;
      this.applicant := applicant;
      id := c.id;
      jobId := c.jobId;
      applicantId := c.applicantId;
      applied := c.applied;
      appliedAt := c.appliedAt;
      this.email := email;
      this.resume := resume;
      this.coverLetter := coverLetter;
    }

    /** The `applied` setter. */
    method SetApplied(value: bool, now: Time)
      modifies this
      ensures Cols() == Assign(old(Cols()), value, now)
      ensures job == old(job) && applicant == old(applicant)
      ensures email == old(email) && resume == old(resume) && coverLetter == old(coverLetter)
    {
      applied := value;
      appliedAt := if applied then Some(now) else None;
    }

    /** The cover-letter step of `__post_init__`: a missing cover letter is
        generated and, when there is an email, attached to it. */
    method AddCoverLetter(inputs: Inputs) returns (r: Outcome)
      modifies this, email
      ensures job == old(job) && applicant == old(applicant) && Cols() == old(Cols())
      ensures email == old(email) && resume == old(resume)
      ensures old(coverLetter) != null ==> coverLetter == old(coverLetter) && r.Done?
      ensures old(coverLetter) == null && coverLetter != null ==> fresh(coverLetter)
      ensures r.Done? ==> coverLetter != null
      ensures email != null ==>
        email.attachments == (if r.Done? then AttachStep(old(email.attachments), old(coverLetter) == null, coverLetter.filePath)
                              else old(email.attachments))
    {
      r := Done;
      if coverLetter == null {
        var c, out, _ := ModelCoverLetter.NewCoverLetter(applicant, job, None, None, inputs.settings, inputs.office,
                                                          inputs.coverReply);
        if out.Raised? {
          return out;
        }
        coverLetter := c;
        if email != null {
          email.attachments := Some(AddIfMissing(Listed(email.attachments), c.filePath));
        }
      }
    }

    /** The résumé step of `__post_init__`. */
    method AddResume(inputs: Inputs) returns (r: Outcome)
      modifies this, email
      ensures job == old(job) && applicant == old(applicant) && Cols() == old(Cols())
      ensures email == old(email) && coverLetter == old(coverLetter)
      ensures old(resume) != null ==> resume == old(resume) && r.Done?
      ensures old(resume) == null && resume != null ==> fresh(resume)
      ensures r.Done? ==> resume != null
      ensures email != null ==>
        email.attachments == (if r.Done? then AttachStep(old(email.attachments), old(resume) == null, resume.filePath)
                              else old(email.attachments))
    {
      r := Done;
      if resume == null {
        var c, out, _ := ModelResume.NewResume(applicant, job, None, None, inputs.settings, inputs.office,
                                                inputs.resumeReply, inputs.parse);
        if out.Raised? {
          return out;
        }
        resume := c;
        if email != null {
          email.attachments := Some(AddIfMissing(Listed(email.attachments), c.filePath));
        }
      }
    }

    /** The email step of `__post_init__`: a missing email is built and
        given the two documents' paths, reading its missing attachment
        list as empty. */
    method AddEmail(inputs: Inputs) returns (r: Outcome)
      requires coverLetter != null && resume != null
      modifies this
      ensures job == old(job) && applicant == old(applicant) && Cols() == old(Cols())
      ensures coverLetter == old(coverLetter) && resume == old(resume)
      ensures old(email) != null ==> email == old(email) && r.Done?
      ensures old(email) == null && email != null ==> fresh(email)
      ensures old(email) == null && r.Done? ==>
        email != null && email.attachments == Some([coverLetter.filePath, resume.filePath])
    {
      r := Done;
      if email == null {
        var e, out := ModelEmail.NewEmail(Some(job), applicant, ModelEmail.Fields(None, None, None, None),
                                          inputs.emailReply);
        if out.Raised? {
          return out;
        }
        ModelEmail.SuppliedFieldsKept(job, ModelEmail.Fields(None, None, None, None), inputs.emailReply);
        email := e;
        e.attachments := Some(Listed(e.attachments) + [coverLetter.filePath]);
        e.attachments := Some(e.attachments.value + [resume.filePath]);
        assert e.attachments.value == [coverLetter.filePath, resume.filePath];
      }
    }

    /** `__post_init__`, reading a missing attachment list as empty. A
        document or email whose own construction raises makes the whole
        call raise. */
    method PostInit(inputs: Inputs, now: Time) returns (r: Outcome)
      modifies this, email
      ensures job == old(job) && applicant == old(applicant)
      ensures old(coverLetter) != null ==> coverLetter == old(coverLetter)
      ensures old(resume) != null ==> resume == old(resume)
      ensures old(email) != null ==> email == old(email)
      ensures old(coverLetter) == null && coverLetter != null ==> fresh(coverLetter)
      ensures old(resume) == null && resume != null ==> fresh(resume)
      ensures old(email) == null && email != null ==> fresh(email)
      ensures r.Done? ==>
        && coverLetter != null && resume != null && email != null
        && email.attachments == AttachEffect(
             if old(email) == null then None else Some(old(email.attachments)),
             old(coverLetter) == null, old(resume) == null, coverLetter.filePath, resume.filePath)
        && Cols() == StampOnInit(old(Cols()), now)
    {
      r := AddCoverLetter(inputs);
      if r.Raised? {
        return;
      }
      r := AddResume(inputs);
      if r.Raised? {
        return;
      }
      r := AddEmail(inputs);
      if r.Raised? {
        return;
      }
      NewEmailAttachments(true, true, coverLetter.filePath, resume.filePath);
      if appliedAt.None? && applied {
        appliedAt := Some(now);
      }
    }

    /** `apply()`: `self.applied = self.email.send()`, returning the new
        `applied`. */
    method Apply(env: Env, delivery: Smtp.Delivery, now: Time) returns (r: Result<bool>)
      modifies this
      ensures (Cols(), r) == ApplyEffect(old(Cols()), old(email) != null, delivery, now)
      ensures job == old(job) && applicant == old(applicant)
      ensures email == old(email) && resume == old(resume) && coverLetter == old(coverLetter)
    {
      if email == null {
        return Err(AttributeError);
      }
      var sent, _ := email.Send(env, delivery);
      if sent.Err? {
        return Err(sent.fault);
      }
      SetApplied(sent.value, now);
      r := Ok(applied);
    }
  }

  /** The `applications` table. */
  class ApplicationTable {
    var rows: map<AppKey, Columns>
    var next: int

    ghost predicate Valid()
      reads this
    {
      StoreValid(Store(rows, next))
    }

    constructor ()
      ensures Valid()
      ensures rows == map[] && next == 1
    {
      rows := map[];
      next := 1;
    }

    /** `save_application(application)`: the application when the database
        accepted it, else null. The stored columns are copied back to the
        caller's object. */
    method Save(application: Application, now: Time, failure: bool) returns (r: Application?)
      requires Valid()
      modifies this, application
      ensures Valid()
      ensures (Store(rows, next), application.Cols(), r != null)
           == SaveEffect(Store(old(rows), old(next)), old(application.Cols()), now, failure)
      ensures r == null || r == application
      ensures application.job == old(application.job) && application.applicant == old(application.applicant)
      ensures application.email == old(application.email)
    {
      SaveKeepsStoreValid(Store(rows, next), application.Cols(), now, failure);
      var key := KeyOf(application.Cols());
      if failure {
        return null;
      }
      if key in rows {
        var existing := rows[key];
        existing := Assign(existing, application.applied, now);
        existing := existing.(appliedAt := application.appliedAt);
        rows := rows[key := existing];
        application.id := existing.id;
        application.jobId := existing.jobId;
        application.applicantId := existing.applicantId;
        application.applied := existing.applied;
        application.appliedAt := existing.appliedAt;
      } else {
        if application.id.Some? {
          if IdTaken(rows, application.id.value) {
            return null;
          }
          if application.id.value + 1 > next {
            next := application.id.value + 1;
          }
        } else {
          application.id := Some(next);
          next := next + 1;
        }
        rows := rows[key := application.Cols()];
      }
      r := application;
    }

    /** `check_application(application, job, applicant)` against this
        table. */
    method Check(application: Application?, job: Option<ModelJob.Job>, applicant: Option<ModelApplicant.Applicant>,
                 failure: bool)
      returns (r: Result<Option<Columns>>)
      ensures r == CheckApplication(Store(rows, next),
                                    if application == null then None else Some((application.job, application.applicant)),
                                    job, applicant, failure)
    {
      if application == null && (job.None? || applicant.None?) {
        return Err(AttributeError);
      }
      var j := if job.Some? then job.value else application.job;
      var a := if applicant.Some? then applicant.value else application.applicant;
      if failure {
        return Ok(None);
      }
      var key := (j.id, a.id);
      if key in rows && rows[key].applied && rows[key].appliedAt.Some? {
        r := Ok(Some(rows[key]));
      } else {
        r := Ok(None);
      }
    }
  }

  /** `log_application(application)`; without an email `.to` fails on
      None. */
  method LogApplication(files: CsvLog.Files, settings: Settings, application: Application) returns (r: Outcome)
    modifies files
    ensures application.email == null ==> files.contents == old(files.contents) && r == Raised(AttributeError)
    ensures application.email != null ==>
      (files.contents, r)
        == CsvLog.LogEffect(old(files.contents), settings.logs.applications,
             [CsvLog.Mapping(LogRow(application.applicant, application.job, application.email.to, application.Cols()))])
  {
    if application.email == null {
      return Raised(AttributeError);
    }
    r := files.Log(settings.logs.applications,
                   [CsvLog.Mapping(LogRow(application.applicant, application.job, application.email.to, application.Cols()))]);
  }
}
