/** The applicant of job_applier/applicant.py: every field is the
    constructor argument when truthy, else the settings default. */
module Applicants {
  import opened Values
  import opened Text
  import opened Config

  datatype Applicant = Applicant(
    firstName: Option<string>,
    lastName: Option<string>,
    email: Option<string>,
    phone: Option<string>,
    address: Option<string>,
    resume: Option<string>,
    coverLetterFilePath: Option<string>)

  /** `field` took the argument when it was truthy, the default otherwise. */
  predicate Defaulted(arg: Option<string>, default: Option<string>, field: Option<string>) {
    (Truthy(arg) ==> field == arg) && (!Truthy(arg) ==> field == default)
  }

  /** `Applicant.__init__` */
  function NewApplicant(
    d: ApplicantDefaults,
    firstName: Option<string>, lastName: Option<string>, email: Option<string>,
    phone: Option<string>, address: Option<string>, resume: Option<string>,
    coverLetterFilePath: Option<string>): (a: Applicant)
    ensures Defaulted(firstName, d.firstName, a.firstName)
    ensures Defaulted(lastName, d.lastName, a.lastName)
    ensures Defaulted(email, d.email, a.email)
    ensures Defaulted(phone, d.phone, a.phone)
    ensures Defaulted(address, d.address, a.address)
    ensures Defaulted(resume, d.resumeFile, a.resume)
    ensures Defaulted(coverLetterFilePath, d.coverLetterFile, a.coverLetterFilePath)
  {
    Applicant(
      Or(firstName, d.firstName), Or(lastName, d.lastName), Or(email, d.email),
      Or(phone, d.phone), Or(address, d.address), Or(resume, d.resumeFile),
      Or(coverLetterFilePath, d.coverLetterFile))
  }

  /** Rebuilding an applicant from its own fields changes nothing: a field
      that fell back to the default falls back to it again. */
  lemma NewApplicantStable(d: ApplicantDefaults, a: Applicant,
    firstName: Option<string>, lastName: Option<string>, email: Option<string>,
    phone: Option<string>, address: Option<string>, resume: Option<string>,
    coverLetterFilePath: Option<string>)
    requires a == NewApplicant(d, firstName, lastName, email, phone, address, resume, coverLetterFilePath)
    ensures NewApplicant(d, a.firstName, a.lastName, a.email, a.phone, a.address, a.resume,
                         a.coverLetterFilePath) == a
  {
  }

  /** `Applicant.__str__` */
  function Render(a: Applicant): (r: string)
    ensures var name := "Applicant " + Show(a.firstName) + " " + Show(a.lastName) + " ";
            |name| <= |r| && r[..|name|] == name
    ensures var contacts := "(email: " + Show(a.email) + ", phone: " + Show(a.phone)
                            + ", address: " + Show(a.address) + ")";
            |contacts| <= |r| && r[|r| - |contacts|..] == contacts
    ensures |r| == |"Applicant " + Show(a.firstName) + " " + Show(a.lastName) + " "|
                   + |"(email: " + Show(a.email) + ", phone: " + Show(a.phone) + ", address: " + Show(a.address) + ")"|
  {
    var name := "Applicant " + Show(a.firstName) + " " + Show(a.lastName) + " ";
    var contacts := "(email: " + Show(a.email) + ", phone: " + Show(a.phone)
                    + ", address: " + Show(a.address) + ")";
    name + contacts
  }

  /** The rendering names the person and the contacts, not the files. */
  lemma RenderIgnoresFiles(a: Applicant, resume: Option<string>, coverLetter: Option<string>)
    ensures Render(a.(resume := resume, coverLetterFilePath := coverLetter)) == Render(a)
  {
  }

  /** `vars(applicant)`, in assignment order. */
  function Vars(a: Applicant): (d: Dict)
    ensures DistinctKeys(d)
  {
    [("first_name", OfStr(a.firstName)), ("last_name", OfStr(a.lastName)),
     ("email", OfStr(a.email)), ("phone", OfStr(a.phone)), ("address", OfStr(a.address)),
     ("resume", OfStr(a.resume)), ("cover_letter_file_path", OfStr(a.coverLetterFilePath))]
  }
}
