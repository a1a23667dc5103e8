/** The outgoing application email of job_applier/models/email.py: after
    construction the recipient, subject and body are filled in where they
    were not supplied, and `send` hands them to the SMTP client. */
module ModelEmail {
  import opened Values
  import opened Text
  import opened Config
  import Chat
  import Smtp
  import ModelApplicant
  import ModelJob

  const Fallback: string := "Application for position"
  const SubjectHead: string := "Application for "
  const SubjectTail: string := " position"

  /** The subject template on a job title (shared with application.py's
      `create_email_subject`): the fallback when there is no title, else
      the capitalised title in the template. */
  function Subject(title: Option<string>): (r: string)
    ensures !Truthy(title) ==> r == Fallback
    ensures Truthy(title) ==> |r| == |SubjectHead| + |title.value| + |SubjectTail|
  {
    if !Truthy(title) then Fallback else SubjectHead + Capitalize(title.value) + SubjectTail
  }

  /** The fallback is used exactly when there is no title, and otherwise
      the capitalised title can be read back out of the subject. */
  lemma SubjectNamesTitle(title: Option<string>)
    ensures Subject(title) == Fallback <==> !Truthy(title)
    ensures Truthy(title) ==>
      && Subject(title)[..|SubjectHead|] == SubjectHead
      && Subject(title)[|SubjectHead|..|Subject(title)| - |SubjectTail|] == Capitalize(title.value)
      && Subject(title)[|Subject(title)| - |SubjectTail|..] == SubjectTail
  {
    if Truthy(title) {
      var s := Subject(title);
      assert |s| > |Fallback|;
      assert s == SubjectHead + Capitalize(title.value) + SubjectTail;
    }
  }

  /** Titles that differ once capitalised give different subjects. */
  lemma SubjectDistinguishesTitles(a: Option<string>, b: Option<string>)
    requires Truthy(a) && Truthy(b)
    requires Capitalize(a.value) != Capitalize(b.value)
    ensures Subject(a) != Subject(b)
  {
    SubjectNamesTitle(a);
    SubjectNamesTitle(b);
  }

  /** `create_subject`: `not self.job or not self.job.title` takes the
      fallback. */
  function CreateSubject(job: Option<ModelJob.Job>): (r: string)
    ensures job.None? ==> r == Fallback
    ensures job.Some? ==> r == Subject(job.value.title)
  {
    Subject(if job.None? then None else job.value.title)
  }

  /** The fields `__post_init__` reads and writes. */
  datatype Fields = Fields(
    to: Option<string>,
    subject: Option<string>,
    text: Option<string>,
    attachments: Option<seq<Option<string>>>)

  /** `__post_init__` on the fields, with the language model's reply:
      the new fields and how it ended. Without a job, a missing recipient
      fails on `self.job.email`. */
  function PostInitEffect(job: Option<ModelJob.Job>, f: Fields, reply: Chat.Reply): (Fields, Outcome) {
    if !Truthy(f.to) && job.None? then (f, Raised(AttributeError))
    else
      var f1 := if Truthy(f.to) then f else f.(to := job.value.email);
      var f2 := if Truthy(f1.subject) then f1 else f1.(subject := Some(CreateSubject(job)));
      if Truthy(f2.text) then (f2, Done)
      else
        var t := Chat.GuardedContent(reply);
        if t.Err? then (f2, Raised(t.fault)) else (f2.(text := t.value), Done)
  }

  /** Supplied values win; each falsy one is replaced by its default: the
      job's email, the subject template, the reply's first choice. The
      attachments are never touched. */
  lemma SuppliedFieldsKept(job: ModelJob.Job, f: Fields, reply: Chat.Reply)
    ensures var (g, out) := PostInitEffect(Some(job), f, reply);
            && g.to == (if Truthy(f.to) then f.to else job.email)
            && g.subject == (if Truthy(f.subject) then f.subject else Some(Subject(job.title)))
            && (Truthy(f.text) ==> g.text == f.text && out == Done)
            && (!Truthy(f.text) && reply.Answered? ==> g.text == Chat.GuardedContent(reply).value && out == Done)
            && g.attachments == f.attachments
  {
  }

  /** A failing language-model call raises after the recipient and the
      subject were already filled in, leaving the text as it was. */
  lemma TextFailureAfterDefaults(job: ModelJob.Job, f: Fields)
    requires !Truthy(f.text)
    ensures var (g, out) := PostInitEffect(Some(job), f, Chat.Failed);
            && out == Raised(ApiError)
            && Truthy(g.subject)
            && g.text == f.text
  {
    var s := if Truthy(f.subject) then f.subject.value else Subject(job.title);
    assert s != [] by {
      if !Truthy(f.subject) {
        assert |Fallback| > 0;
        SubjectNamesTitle(job.title);
      }
    }
  }

  /** The SMTP call `send` makes: the credentials and server from the
      environment, SSL exactly when the port is the string "465", and the
      message fields passed through. */
  function SendCall(f: Fields, env: Env): (c: Smtp.SmtpCall)
    ensures c.ssl == Some(true) <==> GetEnv(env, "EMAIL_PORT") == Some("465")
    ensures c.ssl.Some?
    ensures c.port == GetEnv(env, "EMAIL_PORT")
    ensures c.to == f.to && c.subject == f.subject && c.contents == f.text && c.attachments == f.attachments
  {
    Smtp.SmtpCall(
      GetEnv(env, "EMAIL_USER"),
      GetEnv(env, "EMAIL_PASSWORD"),
      GetEnv(env, "EMAIL_HOST"),
      GetEnv(env, "EMAIL_PORT"),
      Some(GetEnv(env, "EMAIL_PORT") == Some("465")),
      f.to, f.subject, f.text, f.attachments)
  }

  /** An instance of `EmailModel`. */
  class EmailModel {
    var job: Option<ModelJob.Job>
    var applicant: ModelApplicant.Applicant
    var to: Option<string>
    var subject: Option<string>
    var text: Option<string>
    var attachments: Option<seq<Option<string>>>

    function Current(): Fields
      reads this
    {
      Fields(to, subject, text, attachments)
    }

    /** The dataclass initialiser, before `__post_init__`. */
    constructor (job: Option<ModelJob.Job>, applicant: ModelApplicant.Applicant, f: Fields)
      ensures this.job == job && this.applicant == applicant
      ensures Current() == f
    {
      this.job := job;
      this.applicant := applicant;
      to := f.to;
      subject := f.subject;
      text := f.text;
      attachments := f.attachments;
    }

    /** `__post_init__` */
    method PostInit(reply: Chat.Reply) returns (r: Outcome)
      modifies this
      ensures job == old(job) && applicant == old(applicant)
      ensures (Current(), r) == PostInitEffect(old(job), old(Current()), reply)
    {
      r := Done;
      if !Truthy(to) {
        if job.None? {
          return Raised(AttributeError);
        }
        to := job.value.email;
      }
      if !Truthy(subject) {
        subject := Some(CreateSubject(job));
      }
      if !Truthy(text) {
        var t := Chat.GuardedContent(reply);
        if t.Err? {
          return Raised(t.fault);
        }
        text := t.value;
      }
    }

    /** `send()`: the call made and what it returned, given what the
        transport did. */
    method Send(env: Env, delivery: Smtp.Delivery) returns (r: Result<bool>, call: Smtp.SmtpCall)
      ensures call == SendCall(Current(), env)
      ensures r == Smtp.Sent(delivery)
    {
      call := SendCall(Current(), env);
      r := Smtp.Sent(delivery);
    }
  }

  /** Building `EmailModel(job, applicant, to, subject, text, attachments)`. */
  method NewEmail(job: Option<ModelJob.Job>, applicant: ModelApplicant.Applicant, f: Fields, reply: Chat.Reply)
    returns (e: EmailModel, r: Outcome)
    ensures fresh(e)
    ensures e.job == job && e.applicant == applicant
    ensures (e.Current(), r) == PostInitEffect(job, f, reply)
  {
    e := new EmailModel(job, applicant, f);
    r := e.PostInit(reply);
  }
}
