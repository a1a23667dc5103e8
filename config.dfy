/** The configuration the application reads: the YAML settings document
    (only the entries the modelled code looks up) and the process
    environment. Both are immutable inputs here. */
module Config {
  import opened Values

  /** `SETTINGS['applicant']`: the applicant's defaults. */
  datatype ApplicantDefaults = ApplicantDefaults(
    firstName: Option<string>,
    lastName: Option<string>,
    email: Option<string>,
    phone: Option<string>,
    address: Option<string>,
    resumeFile: Option<string>,
    coverLetterFile: Option<string>)

  /** `SETTINGS['log'][...]['file']`: one optional CSV file per record kind. */
  datatype LogFiles = LogFiles(
    jobs: Option<string>,
    coverLetters: Option<string>,
    resumes: Option<string>,
    applications: Option<string>)

  datatype Settings = Settings(
    applicant: ApplicantDefaults,
    jobTitle: Option<string>,
    jobLocation: Option<string>,
    logs: LogFiles,
    coverLetterTemplate: string,
    resumeTemplate: string)

  /** The process environment (`os.getenv`). */
  type Env = map<string, string>

  function GetEnv(env: Env, name: string): Option<string> {
    if name in env then Some(env[name]) else None
  }
}
