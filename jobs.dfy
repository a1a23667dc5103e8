/** The plain job record of job_applier/job.py: its constructor defaults,
    its text rendering, the aggregation over the registered finders, and
    the job log that is rewritten on every call. */
module Jobs {
  import opened Values
  import opened Text
  import opened Config
  import CsvLog
  import Finders

  datatype SalaryType = Hourly | Annually
  datatype Workspace = OnSite | Hybrid

  /** What the `salary_type` attribute can hold: the `SalaryType` class
      itself, a member, or None. */
  datatype SalaryTypeField = EnumClass | Member(t: SalaryType) | Unset

  datatype Job = Job(
    link: Option<string>,
    id: Option<string>,
    source: Option<string>,
    postedOnJb: bool,
    title: Option<string>,
    description: Option<string>,
    date: Option<Time>,
    business: Option<string>,
    location: Option<string>,
    salary: real,
    salaryType: SalaryTypeField,
    workspace: Option<Workspace>,
    email: Option<string>)

  /** The default of `salary_type` as written: the enum class. */
  const WrittenSalaryTypeDefault: SalaryTypeField := EnumClass

  /** The default evidently intended, and the one this model uses: no
      salary type. */
  const SalaryTypeDefault: SalaryTypeField := Unset

  /** `Job(...)`; an omitted argument takes its default. */
  function NewJob(link: Option<string> := None, id: Option<string> := None, source: Option<string> := None,
                  postedOnJb: bool := false, title: Option<string> := None, description: Option<string> := None,
                  date: Option<Time> := None, business: Option<string> := None, location: Option<string> := None,
                  salary: real := 0.0, salaryType: SalaryTypeField := SalaryTypeDefault,
                  workspace: Option<Workspace> := None, email: Option<string> := None): (j: Job)
    ensures j.link == link && j.id == id && j.source == source && j.postedOnJb == postedOnJb
    ensures j.title == title && j.description == description && j.date == date
    ensures j.business == business && j.location == location && j.salary == salary
    ensures j.salaryType == salaryType && j.workspace == workspace && j.email == email
  {
    Job(link, id, source, postedOnJb, title, description, date, business, location, salary, salaryType,
        workspace, email)
  }

  function SalaryTypeValue(t: SalaryType): string {
    match t
    case Hourly => "hourly"
    case Annually => "annually"
  }

  function WorkspaceText(w: Option<Workspace>): string {
    match w
    case None => "None"
    case Some(OnSite) => "Workspace.ONSITE"
    case Some(Hybrid) => "Workspace.HYBRID"
  }

  /** `self.salary_type.value if self.salary_type else ''`: the enum class
      is truthy but has no `value`. */
  function SalaryTypeText(f: SalaryTypeField): (r: Result<string>)
    ensures r.Err? <==> f.EnumClass?
    ensures f.Unset? ==> r == Ok("")
  {
    match f
    case EnumClass => Err(AttributeError)
    case Member(t) => Ok(SalaryTypeValue(t))
    case Unset => Ok("")
  }

  function PostedText(posted: bool): string {
    if posted then "Yes" else "No"
  }

  /** The lines of `__str__`; the salary's two-decimal format and the
      date's text are supplied. */
  function Lines(j: Job, salaryText: real -> string, dateText: Option<Time> -> string): (r: Result<seq<string>>)
    ensures r.Err? <==> j.salaryType.EnumClass?
    ensures r.Ok? ==> |r.value| == 10
    ensures r.Ok? ==> r.value[8] == "Posted on Job Bank: " + PostedText(j.postedOnJb)
  {
    var st := SalaryTypeText(j.salaryType);
    if st.Err? then Err(st.fault)
    else Ok([
      "Title: " + Show(j.title),
      "Description: " + Show(j.description),
      "Date: " + dateText(j.date),
      "Business: " + Show(j.business),
      "Location: " + Show(j.location),
      "Salary: " + salaryText(j.salary) + " (" + st.value + ")",
      "Workspace: " + WorkspaceText(j.workspace),
      "Link: " + Show(j.link),
      "Posted on Job Bank: " + PostedText(j.postedOnJb),
      "Email: " + Show(j.email)])
  }

  /** Lines joined by newlines. */
  function JoinLines(ls: seq<string>): string {
    if ls == [] then ""
    else if |ls| == 1 then ls[0]
    else ls[0] + "\n" + JoinLines(ls[1..])
  }

  /** `__str__` */
  function Render(j: Job, salaryText: real -> string, dateText: Option<Time> -> string): (r: Result<string>)
    ensures r.Err? <==> j.salaryType.EnumClass?
  {
    var ls := Lines(j, salaryText, dateText);
    if ls.Err? then Err(ls.fault) else Ok(JoinLines(ls.value))
  }

  /** As written, a job built without a salary type cannot be printed: the
      default is the enum class, and `.value` on it raises. */
  lemma DefaultJobRenderFailsAsWritten(salaryText: real -> string, dateText: Option<Time> -> string)
    ensures Render(NewJob(salaryType := WrittenSalaryTypeDefault), salaryText, dateText) == Err(AttributeError)
  {
  }

  /** With no salary type as the default, every job built with a member or
      with the default renders, the salary type left empty when absent,
      and the Job Bank line says "Yes" exactly when the job was posted
      there. */
  lemma DefaultJobRenders(j: Job, salaryText: real -> string, dateText: Option<Time> -> string)
    requires j.salaryType == SalaryTypeDefault || j.salaryType.Member?
    ensures Render(j, salaryText, dateText).Ok?
    ensures var ls := Lines(j, salaryText, dateText).value;
            && ls[5] == "Salary: " + salaryText(j.salary) + " ("
                        + (if j.salaryType.Member? then SalaryTypeValue(j.salaryType.t) else "") + ")"
            && (ls[8] == "Posted on Job Bank: Yes" <==> j.postedOnJb)
  {
  }

  /** `find_jobs()`: every registered finder is asked for the configured
      title and location, and their results are concatenated. */
  method FindJobs(finders: seq<Finders.Finder<Job>>, settings: Settings) returns (jobs: seq<Job>)
    ensures jobs == Finders.Collected(finders, settings.jobTitle, settings.jobLocation)
    ensures |jobs| == Finders.TotalFound(finders, settings.jobTitle, settings.jobLocation)
  {
    jobs := Finders.FindAll(finders, settings.jobTitle, settings.jobLocation);
    Finders.NoDeduplication(finders, settings.jobTitle, settings.jobLocation);
  }

  // ---------------------------------------------------------------------
  // The job log

  /** The attribute names of a job, in assignment order. */
  const VarNames: seq<string> :=
    ["link", "id", "source", "posted_on_jb", "title", "description", "business", "location",
     "salary", "salary_type", "workspace", "email", "date"]

  function SalaryTypeCell(f: SalaryTypeField): Value {
    match f
    case EnumClass => VEnumClass("SalaryType")
    case Member(Hourly) => VEnum("SalaryType.HOURLY")
    case Member(Annually) => VEnum("SalaryType.ANNUALLY")
    case Unset => VNone
  }

  function WorkspaceCell(w: Option<Workspace>): Value {
    match w
    case None => VNone
    case Some(OnSite) => VEnum("Workspace.ONSITE")
    case Some(Hybrid) => VEnum("Workspace.HYBRID")
  }

  /** The attribute values of a job, in assignment order. */
  function Row(j: Job): (row: seq<Value>)
    ensures |row| == |VarNames|
  {
    [OfStr(j.link), OfStr(j.id), OfStr(j.source), VBool(j.postedOnJb), OfStr(j.title),
     OfStr(j.description), OfStr(j.business), OfStr(j.location), VReal(j.salary),
     SalaryTypeCell(j.salaryType), WorkspaceCell(j.workspace), OfStr(j.email), OfTime(j.date)]
  }

  /** `vars(job)` */
  function Vars(j: Job): (d: Dict)
    ensures |d| == |VarNames|
    ensures forall i | 0 <= i < |VarNames| :: d[i] == (VarNames[i], Row(j)[i])
  {
    seq(|VarNames|, i requires 0 <= i < |VarNames| => (VarNames[i], Row(j)[i]))
  }

  /** Every job has the same attribute names, all distinct. */
  lemma VarsKeys(j: Job)
    ensures KeysOf(Vars(j)) == VarNames && DistinctKeys(Vars(j))
  {
    var d := Vars(j);
    assert KeysOf(d) == VarNames;
  }

  /** `writerow(vars(job))` under the first job's header writes the job's
      attribute values in order. */
  lemma RowWritten(j: Job)
    ensures CsvLog.WriteRow(VarNames, Vars(j)) == Ok(Row(j))
  {
    var d := Vars(j);
    VarsKeys(j);
    CsvLog.MappingRoundTrip(d);
    var line := CsvLog.WriteRow(VarNames, d).value;
    assert line == Row(j) by {
      forall i | 0 <= i < |VarNames| ensures line[i] == Row(j)[i] {
        assert d[i].1 == Row(j)[i];
      }
    }
  }

  function Rows(jobs: seq<Job>): (rows: seq<CsvLog.Line>)
    ensures |rows| == |jobs|
    ensures forall i | 0 <= i < |jobs| :: rows[i] == Row(jobs[i])
  {
    seq(|jobs|, i requires 0 <= i < |jobs| => Row(jobs[i]))
  }

  /** The effect of `log_jobs(jobs)`: without a configured file nothing
      happens; otherwise the file is truncated, and then an empty list
      raises on `jobs[0]`, while a non-empty one writes the header and a
      row per job. */
  function LogJobsEffect(files: CsvLog.FileMap, logFile: Option<string>, jobs: seq<Job>): (CsvLog.FileMap, Outcome) {
    if !Truthy(logFile) then (files, Done)
    else if jobs == [] then (files[logFile.value := []], Raised(IndexError))
    else (files[logFile.value := [CsvLog.HeaderLine(VarNames)] + Rows(jobs)], Done)
  }

  /** The job log holds only the last call's jobs: whatever was there
      before, it ends up as one header and one row per job in order, and
      other files are untouched. */
  lemma LogJobsRewrites(files: CsvLog.FileMap, other: CsvLog.FileMap, path: string, jobs: seq<Job>)
    requires path != "" && jobs != []
    ensures var after := LogJobsEffect(files, Some(path), jobs).0;
            && after[path] == LogJobsEffect(other, Some(path), jobs).0[path]
            && |after[path]| == |jobs| + 1
            && after[path][0] == CsvLog.HeaderLine(VarNames)
            && (forall i | 0 <= i < |jobs| :: after[path][i + 1] == Row(jobs[i]))
            && (forall p | p in files && p != path :: p in after && after[p] == files[p])
  {
  }

  /** `log_jobs(jobs)` */
  method LogJobs(files: CsvLog.Files, settings: Settings, jobs: seq<Job>) returns (r: Outcome)
    modifies files
    ensures (files.contents, r) == LogJobsEffect(old(files.contents), settings.logs.jobs, jobs)
  {
    if !Truthy(settings.logs.jobs) {
      return Done;
    }
    var path := settings.logs.jobs.value;
    files.Truncate(path);
    if jobs == [] {
      return Raised(IndexError);
    }
    var header := [CsvLog.HeaderLine(VarNames)];
    files.Append(path, header);
    assert Rows(jobs[..0]) == [];
    assert [] + header == header + [];
    var i := 0;
    while i < |jobs|
      invariant 0 <= i <= |jobs|
      invariant files.contents == old(files.contents)[path := header + Rows(jobs[..i])]
    {
      RowWritten(jobs[i]);
      var line := CsvLog.WriteRow(VarNames, Vars(jobs[i]));
      files.Append(path, [line.value]);
      assert Rows(jobs[..i + 1]) == Rows(jobs[..i]) + [Row(jobs[i])];
      assert header + Rows(jobs[..i]) + [line.value] == header + Rows(jobs[..i + 1]);
      i := i + 1;
    }
    assert jobs[..i] == jobs;
    r := Done;
  }
}
