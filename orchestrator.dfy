/** The entry points of job_applier/__init__.py: the API key check at start
    up, and `start_job_founding`, which logs and saves the found jobs,
    builds one application per job, logs the cover letters, and then tries
    each application in turn, recording its outcome and logging it. */
module Orchestrator {
  import opened Values
  import opened Config
  import CsvLog
  import Smtp
  import Applicants
  import ModelApplicant
  import ModelJob
  import opened Applications

  const MissingKeyMessage: string := "OPENAI_API_KEY not found in .env file"

  /** `init_openai()`: the key that is installed, or the error raised when
      the variable is missing or empty. */
  function InitOpenAi(env: Env): (r: Result<string>)
    ensures r.Ok? <==> Truthy(GetEnv(env, "OPENAI_API_KEY"))
    ensures r.Ok? ==> GetEnv(env, "OPENAI_API_KEY") == Some(r.value) && r.value != ""
    ensures r.Err? ==> r.fault == ValueError(MissingKeyMessage)
  {
    var key := GetEnv(env, "OPENAI_API_KEY");
    if Truthy(key) then Ok(key.value) else Err(ValueError(MissingKeyMessage))
  }

  // ---------------------------------------------------------------------
  // The applicant handed to application.py

  /** The persisted applicant seen through the fields application.py reads,
      with its résumé path in the place of `resume`. */
  function LegacyApplicant(a: ModelApplicant.Applicant): (r: Applicants.Applicant)
    ensures r.resume == a.resumeFilePath && r.coverLetterFilePath == a.coverLetterFilePath
    ensures r.firstName == a.firstName && r.lastName == a.lastName
    ensures r.email == a.email && r.phone == a.phone && r.address == a.address
  {
    Applicants.Applicant(a.firstName, a.lastName, a.email, a.phone, a.address, a.resumeFilePath,
                         a.coverLetterFilePath)
  }

  /** `Application(applicant=current_applicant, job=current_job,
      email_to=recipient)` for one job. */
  function Build(applicant: Applicants.Applicant, job: ModelJob.Job, recipient: Option<string>, inputs: Inputs)
    : Result<Application>
  {
    NewApplication(applicant, job, recipient, None, None, None, None, false, inputs)
  }

  /** The same call as written, with the persisted applicant: everything up
      to the résumé is built, and then `applicant.resume` does not exist. */
  function BuildAsWritten(applicant: ModelApplicant.Applicant, job: ModelJob.Job, recipient: Option<string>,
                          inputs: Inputs): Result<Application>
  {
    var r := Build(LegacyApplicant(applicant), job, recipient, inputs);
    if r.Err? then r else Err(AttributeError)
  }

  /** As written, no application can be built from the persisted applicant:
      whenever everything else succeeds, reading `resume` raises. */
  lemma BuildFailsAsWritten(applicant: ModelApplicant.Applicant, job: ModelJob.Job, recipient: Option<string>,
                            inputs: Inputs)
    ensures BuildAsWritten(applicant, job, recipient, inputs).Err?
    ensures Build(LegacyApplicant(applicant), job, recipient, inputs).Ok? ==>
      BuildAsWritten(applicant, job, recipient, inputs) == Err(AttributeError)
  {
  }

  /** With the résumé path read from `resume_file_path`, the application
      attaches the applicant's own résumé, goes to the recipient, and
      starts out not applied. */
  lemma BuildUsesResumeFile(applicant: ModelApplicant.Applicant, job: ModelJob.Job, recipient: string,
                            inputs: Inputs)
    requires Build(LegacyApplicant(applicant), job, Some(recipient), inputs).Ok?
    ensures var a := Build(LegacyApplicant(applicant), job, Some(recipient), inputs).value;
            && a.resume == applicant.resumeFilePath
            && (recipient != "" ==> a.emailTo == Some(recipient))
            && (recipient == "" ==> a.emailTo == job.email)
            && !a.applied
            && ApplyCall(a, map[]).attachments == Some([a.coverLetter.filePath, applicant.resumeFilePath])
  {
  }

  // ---------------------------------------------------------------------
  // Building the applications

  /** The applications for a list of jobs, the k-th built with the k-th
      set of inputs; the first failure stops the loop. */
  function BuildAll(applicant: Applicants.Applicant, jobs: seq<ModelJob.Job>, recipient: Option<string>,
                    inputs: nat -> Inputs): Result<seq<Application>>
  {
    if jobs == [] then Ok([])
    else
      var n := |jobs| - 1;
      var init := BuildAll(applicant, jobs[..n], recipient, inputs);
      var last := Build(applicant, jobs[n], recipient, inputs(n));
      if init.Err? then init
      else if last.Err? then Err(last.fault)
      else Ok(init.value + [last.value])
  }

  /** Exactly one application per job, in job order, all for the same
      applicant; the loop fails exactly when some application cannot be
      built. */
  lemma {:induction false} OneApplicationPerJob(applicant: Applicants.Applicant, jobs: seq<ModelJob.Job>,
                                                recipient: Option<string>, inputs: nat -> Inputs)
    ensures var r := BuildAll(applicant, jobs, recipient, inputs);
            && (r.Ok? <==> forall i | 0 <= i < |jobs| :: Build(applicant, jobs[i], recipient, inputs(i)).Ok?)
            && (r.Ok? ==>
                  && |r.value| == |jobs|
                  && forall i | 0 <= i < |jobs| ::
                       && Ok(r.value[i]) == Build(applicant, jobs[i], recipient, inputs(i))
                       && r.value[i].applicant == applicant && r.value[i].job == jobs[i]
                       && !r.value[i].applied)
  {
    var r := BuildAll(applicant, jobs, recipient, inputs);
    BuildAllInOrder(applicant, jobs, recipient, inputs);
    if r.Ok? {
      forall i | 0 <= i < |jobs|
        ensures r.value[i].applicant == applicant && r.value[i].job == jobs[i] && !r.value[i].applied
      {
        assert Ok(r.value[i]) == Build(applicant, jobs[i], recipient, inputs(i));
      }
    }
  }

  /** The loop succeeds exactly when every build does, and then the k-th
      application is the k-th build's. */
  lemma BuildAllInOrder(applicant: Applicants.Applicant, jobs: seq<ModelJob.Job>,
                        recipient: Option<string>, inputs: nat -> Inputs)
    ensures var r := BuildAll(applicant, jobs, recipient, inputs);
            && (r.Ok? <==> forall i | 0 <= i < |jobs| :: Build(applicant, jobs[i], recipient, inputs(i)).Ok?)
            && (r.Ok? ==> |r.value| == |jobs|)
            && (r.Ok? ==> forall i | 0 <= i < |jobs| :: Ok(r.value[i]) == Build(applicant, jobs[i], recipient, inputs(i)))
  {
    var rs := Builds(applicant, jobs, recipient, inputs);
    BuildAllIsGather(applicant, jobs, recipient, inputs);
    GatherInOrder(rs);
  }

  /** Results gathered in order; the first failure is the outcome. */
  function Gather<T>(rs: seq<Result<T>>): Result<seq<T>> {
    if rs == [] then Ok([])
    else
      var n := |rs| - 1;
      var init := Gather(rs[..n]);
      if init.Err? then init
      else if rs[n].Err? then Err(rs[n].fault)
      else Ok(init.value + [rs[n].value])
  }

  /** Gathering succeeds exactly when every result does, and then keeps
      every value in place. */
  lemma {:induction false} GatherInOrder<T>(rs: seq<Result<T>>)
    ensures Gather(rs).Ok? <==> forall i | 0 <= i < |rs| :: rs[i].Ok?
    ensures Gather(rs).Ok? ==> |Gather(rs).value| == |rs|
    ensures Gather(rs).Ok? ==> forall i | 0 <= i < |rs| :: rs[i] == Ok(Gather(rs).value[i])
  {
    if rs != [] {
      var n := |rs| - 1;
      GatherInOrder(rs[..n]);
      assert forall i | 0 <= i < n :: rs[..n][i] == rs[i];
      if Gather(rs).Ok? {
        var all := Gather(rs[..n]).value + [rs[n].value];
        assert forall i | 0 <= i < n :: all[i] == Gather(rs[..n]).value[i];
      }
    }
  }

  /** The result of each build, job by job. */
  function Builds(applicant: Applicants.Applicant, jobs: seq<ModelJob.Job>, recipient: Option<string>,
                  inputs: nat -> Inputs): (rs: seq<Result<Application>>)
    ensures |rs| == |jobs|
    ensures forall i | 0 <= i < |jobs| :: rs[i] == Build(applicant, jobs[i], recipient, inputs(i))
  {
    seq(|jobs|, i requires 0 <= i < |jobs| => Build(applicant, jobs[i], recipient, inputs(i)))
  }

  /** The building loop gathers the builds. */
  lemma {:induction false} BuildAllIsGather(applicant: Applicants.Applicant, jobs: seq<ModelJob.Job>,
                                            recipient: Option<string>, inputs: nat -> Inputs)
    ensures BuildAll(applicant, jobs, recipient, inputs) == Gather(Builds(applicant, jobs, recipient, inputs))
  {
    if jobs != [] {
      var n := |jobs| - 1;
      BuildAllIsGather(applicant, jobs[..n], recipient, inputs);
      var rs := Builds(applicant, jobs, recipient, inputs);
      assert Builds(applicant, jobs[..n], recipient, inputs) == rs[..n];
    }
  }

  /** Once a prefix of the jobs fails, the whole loop fails the same way. */
  lemma {:induction false} BuildFailureSticks(applicant: Applicants.Applicant, jobs: seq<ModelJob.Job>,
                                              recipient: Option<string>, inputs: nat -> Inputs, k: nat)
    requires k <= |jobs|
    requires BuildAll(applicant, jobs[..k], recipient, inputs).Err?
    ensures BuildAll(applicant, jobs, recipient, inputs) == BuildAll(applicant, jobs[..k], recipient, inputs)
    decreases |jobs| - k
  {
    if k < |jobs| {
      assert jobs[..k + 1][..k] == jobs[..k];
      BuildFailureSticks(applicant, jobs, recipient, inputs, k + 1);
    } else {
      assert jobs[..k] == jobs;
    }
  }

  /** One more job: its application is appended, or its failure is the
      loop's. */
  lemma BuildStep(applicant: Applicants.Applicant, jobs: seq<ModelJob.Job>, recipient: Option<string>,
                  inputs: nat -> Inputs, k: nat, built: seq<Application>)
    requires k < |jobs|
    requires BuildAll(applicant, jobs[..k], recipient, inputs) == Ok(built)
    ensures var current := Build(applicant, jobs[k], recipient, inputs(k));
            && (current.Ok? ==> BuildAll(applicant, jobs[..k + 1], recipient, inputs) == Ok(built + [current.value]))
            && (current.Err? ==> BuildAll(applicant, jobs, recipient, inputs) == Err(current.fault))
  {
    assert jobs[..k + 1][..k] == jobs[..k];
    assert jobs[..k + 1][k] == jobs[k];
    if Build(applicant, jobs[k], recipient, inputs(k)).Err? {
      BuildFailureSticks(applicant, jobs, recipient, inputs, k + 1);
    }
  }

  /** The building loop: `applications` and `cover_letters` grow side by
      side. */
  method BuildApplications(applicant: Applicants.Applicant, jobs: seq<ModelJob.Job>, recipient: Option<string>,
                           inputs: nat -> Inputs)
    returns (applications: seq<Application>, coverLetters: seq<CoverLetter>, r: Outcome)
    ensures r == Done <==> BuildAll(applicant, jobs, recipient, inputs).Ok?
    ensures r == Done ==> applications == BuildAll(applicant, jobs, recipient, inputs).value
    ensures r.Raised? ==> r.fault == BuildAll(applicant, jobs, recipient, inputs).fault
    ensures |coverLetters| == |applications|
    ensures forall i | 0 <= i < |applications| :: coverLetters[i] == applications[i].coverLetter
  {
    applications := [];
    coverLetters := [];
    for k := 0 to |jobs|
      invariant BuildAll(applicant, jobs[..k], recipient, inputs) == Ok(applications)
      invariant |coverLetters| == |applications|
      invariant forall i | 0 <= i < |applications| :: coverLetters[i] == applications[i].coverLetter
    {
      BuildStep(applicant, jobs, recipient, inputs, k, applications);
      var current := Build(applicant, jobs[k], recipient, inputs(k));
      if current.Err? {
        return applications, coverLetters, Raised(current.fault);
      }
      applications := applications + [current.value];
      coverLetters := coverLetters + [current.value.coverLetter];
    }
    assert jobs[..|jobs|] == jobs;
    r := Done;
  }

  // ---------------------------------------------------------------------
  // Logging one row per call

  /** The files after logging each dict with its own `log` call, in order. */
  function LogEach(files: CsvLog.FileMap, logFile: Option<string>, rows: seq<Dict>): CsvLog.FileMap {
    if rows == [] then files
    else
      var n := |rows| - 1;
      CsvLog.LogEffect(LogEach(files, logFile, rows[..n]), logFile, [CsvLog.Mapping(rows[n])]).0
  }

  function CellsOf(rows: seq<Dict>): (ls: seq<CsvLog.Line>)
    ensures |ls| == |rows| && forall i | 0 <= i < |rows| :: ls[i] == CsvLog.Cells(rows[i])
  {
    seq(|rows|, i requires 0 <= i < |rows| => CsvLog.Cells(rows[i]))
  }

  /** One more `log` call with one dict: the header if the file is still
      empty, then the dict's values. */
  lemma LogEachStep(files: CsvLog.FileMap, path: string, rows: seq<Dict>)
    requires path != "" && rows != []
    requires DistinctKeys(rows[|rows| - 1])
    ensures var n := |rows| - 1;
            var mid := CsvLog.Existing(LogEach(files, Some(path), rows[..n]), path);
            CsvLog.Existing(LogEach(files, Some(path), rows), path)
              == mid + (if mid == [] then [CsvLog.HeaderLine(KeysOf(rows[n]))] else []) + [CsvLog.Cells(rows[n])]
  {
    var n := |rows| - 1;
    CsvLog.OneDictLogged(LogEach(files, Some(path), rows[..n]), path, rows[n]);
  }

  /** Logging to one file leaves every other file as it was. */
  lemma {:induction false} LogEachKeepsOthers(files: CsvLog.FileMap, path: string, rows: seq<Dict>)
    ensures var after := LogEach(files, Some(path), rows);
            forall p | p in files && p != path :: p in after && after[p] == files[p]
  {
    if rows != [] {
      LogEachKeepsOthers(files, path, rows[..|rows| - 1]);
    }
  }

  /** The lines of one file after each row is logged with its own call. */
  function LogLines(prior: seq<CsvLog.Line>, rows: seq<Dict>): seq<CsvLog.Line> {
    if rows == [] then prior
    else
      var n := |rows| - 1;
      var mid := LogLines(prior, rows[..n]);
      mid + (if mid == [] then [CsvLog.HeaderLine(KeysOf(rows[n]))] else []) + [CsvLog.Cells(rows[n])]
  }

  /** `LogEach` on the logged file is `LogLines` on its previous lines. */
  lemma {:induction false} LogEachLines(files: CsvLog.FileMap, path: string, rows: seq<Dict>)
    requires path != ""
    requires forall i | 0 <= i < |rows| :: DistinctKeys(rows[i])
    ensures CsvLog.Existing(LogEach(files, Some(path), rows), path) == LogLines(CsvLog.Existing(files, path), rows)
  {
    if rows != [] {
      var n := |rows| - 1;
      assert forall i | 0 <= i < n :: rows[..n][i] == rows[i];
      LogEachLines(files, path, rows[..n]);
      LogEachStep(files, path, rows);
    }
  }

  /** Rows with the same keys logged one call at a time: the header at
      most once, only into an empty file, then the rows in order. */
  lemma {:induction false} LogLinesHeaderOnce(prior: seq<CsvLog.Line>, keys: seq<string>, rows: seq<Dict>)
    requires forall i | 0 <= i < |rows| :: KeysOf(rows[i]) == keys
    ensures LogLines(prior, rows)
         == prior + (if prior == [] && rows != [] then [CsvLog.HeaderLine(keys)] else []) + CellsOf(rows)
  {
    if rows == [] {
      assert prior + [] + [] == prior;
    } else {
      var n := |rows| - 1;
      var init := rows[..n];
      assert forall i | 0 <= i < n :: init[i] == rows[i];
      LogLinesHeaderOnce(prior, keys, init);
      var mid := LogLines(prior, init);
      var c := CsvLog.Cells(rows[n]);
      var h := CsvLog.HeaderLine(keys);
      assert CellsOf(rows) == CellsOf(init) + [c];
      if n == 0 {
        assert CellsOf(init) == [];
        assert mid == prior + [] + [];
      } else if prior == [] {
        assert mid == [] + [h] + CellsOf(init);
      } else {
        assert mid == prior + [] + CellsOf(init);
      }
    }
  }

  /** Logging rows with the same keys one call at a time writes the header
      at most once, only into a file that was empty, followed by the rows in
      order. */
  lemma HeaderAtMostOnce(files: CsvLog.FileMap, path: string, keys: seq<string>, rows: seq<Dict>)
    requires path != ""
    requires forall i | 0 <= i < |rows| :: KeysOf(rows[i]) == keys && DistinctKeys(rows[i])
    ensures var prior := CsvLog.Existing(files, path);
            CsvLog.Existing(LogEach(files, Some(path), rows), path)
              == prior + (if prior == [] && rows != [] then [CsvLog.HeaderLine(keys)] else []) + CellsOf(rows)
  {
    LogEachLines(files, path, rows);
    LogLinesHeaderOnce(CsvLog.Existing(files, path), keys, rows);
  }

  function CoverRows(coverLetters: seq<CoverLetter>): (rows: seq<Dict>)
    ensures |rows| == |coverLetters|
    ensures forall i | 0 <= i < |rows| :: rows[i] == CoverLetterRow(coverLetters[i].job, coverLetters[i].text)
  {
    seq(|coverLetters|, i requires 0 <= i < |coverLetters| => CoverLetterRow(coverLetters[i].job, coverLetters[i].text))
  }

  /** `for value in cover_letters: log_cover_letter(job=value.job,
      text=value.text)` */
  method LogCoverLetters(files: CsvLog.Files, settings: Settings, coverLetters: seq<CoverLetter>)
    modifies files
    ensures files.contents == LogEach(old(files.contents), settings.logs.coverLetters, CoverRows(coverLetters))
  {
    for k := 0 to |coverLetters|
      invariant files.contents == LogEach(old(files.contents), settings.logs.coverLetters, CoverRows(coverLetters[..k]))
    {
      assert CoverRows(coverLetters[..k + 1])[..k] == CoverRows(coverLetters[..k]);
      LogCoverLetter(files, settings, coverLetters[k].job, coverLetters[k].text);
    }
    assert coverLetters[..|coverLetters|] == coverLetters;
  }

  // ---------------------------------------------------------------------
  // Applying

  /** One pass of the apply loop over an application: skipped without a
      recipient; otherwise applied exactly when sending did not raise,
      whatever `send` returned. */
  function Attempt(a: Application, d: Smtp.Delivery): (r: Application)
    ensures !Truthy(a.emailTo) ==> r == a
    ensures Truthy(a.emailTo) ==> (r.applied <==> d.Delivered?)
    ensures r.(applied := a.applied) == a
  {
    if !Truthy(a.emailTo) then a else a.(applied := Smtp.Sent(d).Ok?)
  }

  /** The rows the apply loop logs: one per application with a recipient,
      after its attempt, in order. */
  function AttemptRows(applications: seq<Application>, deliveries: nat -> Smtp.Delivery, clock: nat -> Time)
    : seq<Dict>
  {
    if applications == [] then []
    else
      var n := |applications| - 1;
      var a := applications[n];
      AttemptRows(applications[..n], deliveries, clock)
        + (if Truthy(a.emailTo) then [ApplicationRow(Attempt(a, deliveries(n)), clock(n))] else [])
  }

  function Recipients(applications: seq<Application>): nat {
    if applications == [] then 0
    else Recipients(applications[..|applications| - 1]) + (if Truthy(applications[|applications| - 1].emailTo) then 1 else 0)
  }

  /** Every logged row has the application log's keys, and there is exactly
      one row per application with a recipient. */
  lemma {:induction false} AttemptRowsShape(applications: seq<Application>, deliveries: nat -> Smtp.Delivery,
                                            clock: nat -> Time)
    ensures var rows := AttemptRows(applications, deliveries, clock);
            && |rows| == Recipients(applications)
            && forall i | 0 <= i < |rows| ::
                 KeysOf(rows[i]) == ["datetime", "job_id", "email_to", "applied"] && DistinctKeys(rows[i])
  {
    if applications != [] {
      AttemptRowsShape(applications[..|applications| - 1], deliveries, clock);
    }
  }

  /** The `applications` log after the apply loop holds, after what it
      held before, one row per application with a recipient in order, with
      the header only if the log was empty and something was logged. */
  lemma ApplicationsLogged(files: CsvLog.FileMap, path: string, applications: seq<Application>,
                           deliveries: nat -> Smtp.Delivery, clock: nat -> Time)
    requires path != ""
    ensures var rows := AttemptRows(applications, deliveries, clock);
            var prior := CsvLog.Existing(files, path);
            CsvLog.Existing(LogEach(files, Some(path), rows), path)
              == prior + (if prior == [] && Recipients(applications) > 0
                          then [CsvLog.HeaderLine(["datetime", "job_id", "email_to", "applied"])] else [])
                 + CellsOf(rows)
  {
    AttemptRowsShape(applications, deliveries, clock);
    HeaderAtMostOnce(files, path, ["datetime", "job_id", "email_to", "applied"], AttemptRows(applications, deliveries, clock));
  }

  /** One pass of the loop extends the logged rows by the application's
      row when it has a recipient. */
  lemma AttemptRowsStep(applications: seq<Application>, deliveries: nat -> Smtp.Delivery, clock: nat -> Time,
                        k: nat)
    requires k < |applications|
    ensures var a := applications[k];
            AttemptRows(applications[..k + 1], deliveries, clock)
              == AttemptRows(applications[..k], deliveries, clock)
                 + (if Truthy(a.emailTo) then [ApplicationRow(Attempt(a, deliveries(k)), clock(k))] else [])
  {
    assert applications[..k + 1][..k] == applications[..k];
    assert applications[..k + 1][k] == applications[k];
  }

  /** Logging one more row is one more `log` call. */
  lemma LogEachSnoc(files: CsvLog.FileMap, logFile: Option<string>, rows: seq<Dict>, row: Dict)
    ensures LogEach(files, logFile, rows + [row])
         == CsvLog.LogEffect(LogEach(files, logFile, rows), logFile, [CsvLog.Mapping(row)]).0
  {
    assert (rows + [row])[..|rows|] == rows;
  }

  /** The body of the apply loop for one application with a recipient:
      `apply`, then `applied` from whether it raised, then the log entry. */
  method AttemptOne(files: CsvLog.Files, settings: Settings, env: Env, a: Application, delivery: Smtp.Delivery,
                    now: Time)
    returns (value: Application)
    requires Truthy(a.emailTo)
    modifies files
    ensures value == Attempt(a, delivery)
    ensures (files.contents, Done)
         == CsvLog.LogEffect(old(files.contents), settings.logs.applications, [CsvLog.Mapping(ApplicationRow(value, now))])
  {
    value := a;
    var sent, _ := Apply(value, env, delivery);
    if sent.Ok? {
      value := value.(applied := true);
    } else {
      value := value.(applied := false);
    }
    LogApplication(files, settings, value, now);
  }

  /** The apply loop: each application with a recipient is sent, its
      `applied` set from whether sending raised, and then logged; a failure
      only affects its own application. */
  method ApplyAll(files: CsvLog.Files, settings: Settings, env: Env, applications: seq<Application>,
                  deliveries: nat -> Smtp.Delivery, clock: nat -> Time)
    returns (updated: seq<Application>)
    modifies files
    ensures |updated| == |applications|
    ensures forall i | 0 <= i < |applications| :: updated[i] == Attempt(applications[i], deliveries(i))
    ensures files.contents
         == LogEach(old(files.contents), settings.logs.applications, AttemptRows(applications, deliveries, clock))
  {
    updated := applications;
    for k := 0 to |applications|
      invariant |updated| == |applications|
      invariant forall i | 0 <= i < k :: updated[i] == Attempt(applications[i], deliveries(i))
      invariant forall i | k <= i < |applications| :: updated[i] == applications[i]
      invariant files.contents
             == LogEach(old(files.contents), settings.logs.applications, AttemptRows(applications[..k], deliveries, clock))
    {
      AttemptRowsStep(applications, deliveries, clock, k);
      ghost var before := AttemptRows(applications[..k], deliveries, clock);
      if !Truthy(updated[k].emailTo) {
        assert before + [] == before;
        continue;
      }
      var value := AttemptOne(files, settings, env, updated[k], deliveries(k), clock(k));
      LogEachSnoc(old(files.contents), settings.logs.applications, before, ApplicationRow(value, clock(k)));
      updated := updated[k := value];
    }
    assert applications[..|applications|] == applications;
  }

  // ---------------------------------------------------------------------
  // The whole run

  /** What the run consults besides its arguments, call by call: the
      clock and outcome of each `save_job`, the language-model replies and
      documents for the k-th application, what sending the k-th application
      did, and the clock of its log entry. */
  datatype World = World(
    saveClock: nat -> Time,
    saveFailure: nat -> bool,
    inputs: nat -> Inputs,
    deliveries: nat -> Smtp.Delivery,
    clock: nat -> Time)

  /** What a run leaves behind: the log files, the jobs table, how it
      ended and the applications it returns. */
  datatype Run = Run(files: CsvLog.FileMap, store: ModelJob.Store, outcome: Outcome, applications: seq<Application>)

  /** The applicant every application is built for: the settings'
      defaults, read through `LegacyApplicant`. */
  function FoundingApplicant(settings: Settings): Applicants.Applicant {
    LegacyApplicant(ModelApplicant.NewApplicant(settings.applicant, None, None, None, None, None, None, None, None))
  }

  function SaveStamps(world: World, n: nat): seq<Time> {
    seq(n, i requires 0 <= i < n => world.saveClock(i))
  }

  function SaveFailures(world: World, n: nat): seq<bool> {
    seq(n, i requires 0 <= i < n => world.saveFailure(i))
  }

  function CoverLettersOf(applications: seq<Application>): seq<CoverLetter> {
    seq(|applications|, i requires 0 <= i < |applications| => applications[i].coverLetter)
  }

  function Attempts(applications: seq<Application>, deliveries: nat -> Smtp.Delivery): seq<Application> {
    seq(|applications|, i requires 0 <= i < |applications| => Attempt(applications[i], deliveries(i)))
  }

  /** The whole run, step by step: log the jobs (a failure there ends the
      run with the table untouched), save them, build one application per
      saved job (a failure there ends the run after the save), log the
      cover letters, then attempt and log each application. */
  function FoundingEffect(files: CsvLog.FileMap, store: ModelJob.Store, settings: Settings,
                          jobs: seq<ModelJob.Job>, recipient: string, world: World): Run
  {
    var logged := CsvLog.LogEffect(files, settings.logs.jobs, ModelJob.JobItems(jobs));
    if logged.1.Raised? then Run(logged.0, store, logged.1, [])
    else
      var saved := ModelJob.SaveAllEffect(store, jobs, SaveStamps(world, |jobs|), SaveFailures(world, |jobs|));
      var built := BuildAll(FoundingApplicant(settings), saved.1, Some(recipient), world.inputs);
      if built.Err? then Run(logged.0, saved.0, Raised(built.fault), [])
      else
        var covered := LogEach(logged.0, settings.logs.coverLetters, CoverRows(CoverLettersOf(built.value)));
        var applied := LogEach(covered, settings.logs.applications,
                               AttemptRows(built.value, world.deliveries, world.clock));
        Run(applied, saved.0, Done, Attempts(built.value, world.deliveries))
  }

  /** A run that completes returns one application per found job, in
      order, each addressed to `recipient` and marked applied exactly when
      its delivery went through; a run that fails returns none. */
  lemma FoundingAppliesEachJob(files: CsvLog.FileMap, store: ModelJob.Store, settings: Settings,
                               jobs: seq<ModelJob.Job>, recipient: string, world: World)
    requires ModelJob.StoreValid(store)
    ensures var run := FoundingEffect(files, store, settings, jobs, recipient, world);
            && (run.outcome.Raised? ==> run.applications == [])
            && (run.outcome == Done ==> |run.applications| == |jobs|)
            && (run.outcome == Done ==>
                  forall i | 0 <= i < |jobs| ::
                    && ModelJob.KeyOf(run.applications[i].job) == ModelJob.KeyOf(jobs[i])
                    && (recipient != "" ==> run.applications[i].emailTo == Some(recipient)
                                            && (run.applications[i].applied <==> world.deliveries(i).Delivered?)))
  {
    var logged := CsvLog.LogEffect(files, settings.logs.jobs, ModelJob.JobItems(jobs));
    if logged.1.Done? {
      var saved := ModelJob.SaveAllEffect(store, jobs, SaveStamps(world, |jobs|), SaveFailures(world, |jobs|));
      ModelJob.SaveAllKeepsStoreValid(store, jobs, SaveStamps(world, |jobs|), SaveFailures(world, |jobs|));
      var built := BuildAll(FoundingApplicant(settings), saved.1, Some(recipient), world.inputs);
      if built.Ok? {
        BuiltAddressed(FoundingApplicant(settings), saved.1, recipient, world.inputs);
        AttemptsKeepJobs(built.value, jobs, recipient, world.deliveries);
      }
    }
  }

  /** Every built application is for its own job, addressed to the
      recipient when there is one. */
  lemma BuiltAddressed(applicant: Applicants.Applicant, jobs: seq<ModelJob.Job>, recipient: string,
                       inputs: nat -> Inputs)
    requires BuildAll(applicant, jobs, Some(recipient), inputs).Ok?
    ensures var built := BuildAll(applicant, jobs, Some(recipient), inputs).value;
            && |built| == |jobs|
            && forall i | 0 <= i < |jobs| ::
                 built[i].job == jobs[i] && (recipient != "" ==> built[i].emailTo == Some(recipient))
  {
    var built := BuildAll(applicant, jobs, Some(recipient), inputs).value;
    OneApplicationPerJob(applicant, jobs, Some(recipient), inputs);
    forall i | 0 <= i < |jobs|
      ensures built[i].job == jobs[i] && (recipient != "" ==> built[i].emailTo == Some(recipient))
    {
      assert Ok(built[i]) == NewApplication(applicant, jobs[i], Some(recipient), None, None, None, None, false, inputs(i));
    }
  }

  /** Attempting the applications keeps each one's job and recipient and
      marks it applied exactly when its delivery went through. */
  lemma AttemptsKeepJobs(built: seq<Application>, jobs: seq<ModelJob.Job>, recipient: string,
                         deliveries: nat -> Smtp.Delivery)
    requires |built| == |jobs|
    requires forall i | 0 <= i < |jobs| ::
               ModelJob.KeyOf(built[i].job) == ModelJob.KeyOf(jobs[i])
               && (recipient != "" ==> built[i].emailTo == Some(recipient))
    ensures var apps := Attempts(built, deliveries);
            forall i | 0 <= i < |jobs| ::
              && ModelJob.KeyOf(apps[i].job) == ModelJob.KeyOf(jobs[i])
              && (recipient != "" ==> apps[i].emailTo == Some(recipient)
                                      && (apps[i].applied <==> deliveries(i).Delivered?))
  {
    var apps := Attempts(built, deliveries);
    forall i | 0 <= i < |jobs|
      ensures ModelJob.KeyOf(apps[i].job) == ModelJob.KeyOf(jobs[i])
      ensures recipient != "" ==> apps[i].emailTo == Some(recipient) && (apps[i].applied <==> deliveries(i).Delivered?)
    {
      var a := Attempt(built[i], deliveries(i));
      assert apps[i] == a;
      assert a.(applied := built[i].applied) == built[i];
      assert a.job == built[i].job && a.emailTo == built[i].emailTo;
    }
  }

  /** `start_job_founding()` on the found jobs, sending every application
      to `recipient` (a fixed address in the source), with the persisted
      applicant read through `LegacyApplicant`. */
  method StartJobFounding(files: CsvLog.Files, table: ModelJob.JobTable, settings: Settings, env: Env,
                          jobs: seq<ModelJob.Job>, recipient: string, world: World)
    returns (r: Outcome, applications: seq<Application>)
    requires table.Valid()
    modifies files, table
    ensures table.Valid()
    ensures Run(files.contents, ModelJob.Store(table.rows, table.next), r, applications)
         == FoundingEffect(old(files.contents), ModelJob.Store(old(table.rows), old(table.next)),
                           settings, jobs, recipient, world)
  {
    var applicant := ModelApplicant.NewApplicant(settings.applicant, None, None, None, None, None, None, None, None);
    r := ModelJob.LogJobs(files, settings, jobs);
    if r.Raised? {
      return r, [];
    }
    var stamps := seq(|jobs|, i requires 0 <= i < |jobs| => world.saveClock(i));
    var failures := seq(|jobs|, i requires 0 <= i < |jobs| => world.saveFailure(i));
    ghost var store := ModelJob.Store(table.rows, table.next);
    var saved := table.SaveJobs(jobs, stamps, failures);
    assert stamps == SaveStamps(world, |jobs|) && failures == SaveFailures(world, |jobs|);
    var built, coverLetters, outcome := BuildApplications(LegacyApplicant(applicant), saved, Some(recipient), world.inputs);
    if outcome.Raised? {
      return outcome, [];
    }
    assert coverLetters == CoverLettersOf(built);
    LogCoverLetters(files, settings, coverLetters);
    applications := ApplyAll(files, settings, env, built, world.deliveries, world.clock);
    assert applications == Attempts(built, world.deliveries);
    r := Done;
  }
}
