/** The persisted applicant of job_applier/models/applicant.py: each field
    is `argument or settings default`. */
module ModelApplicant {
  import opened Values
  import opened Config
  import opened Text
  import Applicants

  datatype Applicant = Applicant(
    id: Option<int>,
    firstName: Option<string>,
    lastName: Option<string>,
    email: Option<string>,
    phone: Option<string>,
    address: Option<string>,
    resumeFilePath: Option<string>,
    coverLetterFilePath: Option<string>)

  /** `Applicant.__init__`; `id` arrives through the keyword arguments. */
  function NewApplicant(
    d: ApplicantDefaults, id: Option<int>,
    firstName: Option<string>, lastName: Option<string>, email: Option<string>,
    phone: Option<string>, address: Option<string>, resumeFilePath: Option<string>,
    coverLetterFilePath: Option<string>): (a: Applicant)
    ensures a.id == id
    ensures Applicants.Defaulted(firstName, d.firstName, a.firstName)
    ensures Applicants.Defaulted(lastName, d.lastName, a.lastName)
    ensures Applicants.Defaulted(email, d.email, a.email)
    ensures Applicants.Defaulted(phone, d.phone, a.phone)
    ensures Applicants.Defaulted(address, d.address, a.address)
    ensures Applicants.Defaulted(resumeFilePath, d.resumeFile, a.resumeFilePath)
    ensures Applicants.Defaulted(coverLetterFilePath, d.coverLetterFile, a.coverLetterFilePath)
  {
    Applicant(id,
      Or(firstName, d.firstName), Or(lastName, d.lastName), Or(email, d.email),
      Or(phone, d.phone), Or(address, d.address), Or(resumeFilePath, d.resumeFile),
      Or(coverLetterFilePath, d.coverLetterFile))
  }

  /** With no arguments every field comes from the settings. */
  lemma NoArgumentsGiveSettings(d: ApplicantDefaults)
    ensures NewApplicant(d, None, None, None, None, None, None, None, None)
         == Applicant(None, d.firstName, d.lastName, d.email, d.phone, d.address,
                      d.resumeFile, d.coverLetterFile)
  {
  }

  /** `f"{applicant.first_name} {applicant.last_name}"`, as the log rows
      write it. */
  function FullName(a: Applicant): (r: string)
    ensures a.firstName.Some? && a.lastName.Some? ==> r == a.firstName.value + " " + a.lastName.value
  {
    Show(a.firstName) + " " + Show(a.lastName)
  }
}
