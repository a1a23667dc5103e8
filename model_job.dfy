/** The persisted job posting of job_applier/models/job.py: the `jobs`
    table with its upsert by natural key `(source, source_id)`, the
    aggregation over the registered finders, and the CSV job log. */
module ModelJob {
  import opened Values
  import opened Config
  import CsvLog
  import Finders

  datatype SalaryType = Hourly | Annually
  datatype Workspace = OnSite | Hybrid

  /** A row of the `jobs` table (and the object the scraper fills in). */
  datatype Job = Job(
    id: Option<int>,
    link: Option<string>,
    sourceId: Option<string>,
    source: Option<string>,
    postedOnJb: bool,
    title: Option<string>,
    description: Option<string>,
    date: Option<Time>,
    business: Option<string>,
    location: Option<string>,
    salary: Option<real>,
    salaryType: Option<SalaryType>,
    workspace: Option<Workspace>,
    email: Option<string>,
    createdAt: Option<Time>,
    updatedAt: Option<Time>)

  /** `Job()`: every column unset. */
  function Blank(): Job {
    Job(None, None, None, None, false, None, None, None, None, None, None, None, None, None, None, None)
  }

  /** The natural key a job is looked up by. */
  type JobKey = (Option<string>, Option<string>)

  function KeyOf(j: Job): JobKey {
    (j.source, j.sourceId)
  }

  /** The table's content and the next id the database would hand out. */
  datatype Store = Store(rows: map<JobKey, Job>, next: int)

  predicate IdTaken(rows: map<JobKey, Job>, id: int) {
    exists k | k in rows :: rows[k].id == Some(id)
  }

  /** Every row sits under its own natural key, has an id below `next`,
      and no two rows share an id. */
  predicate StoreValid(s: Store) {
    && (forall k | k in s.rows :: KeyOf(s.rows[k]) == k && s.rows[k].id.Some? && s.rows[k].id.value < s.next)
    && (forall k1, k2 | k1 in s.rows && k2 in s.rows && k1 != k2 :: s.rows[k1].id != s.rows[k2].id)
  }

  /** The first loop of `save_job`: every attribute of the incoming job
      except `id` and `updated_at` is copied onto the stored row. */
  function Merge(incoming: Job, stored: Job): (r: Job)
    ensures r.id == stored.id && r.updatedAt == stored.updatedAt
    ensures r.(id := incoming.id, updatedAt := incoming.updatedAt) == incoming
  {
    incoming.(id := stored.id, updatedAt := stored.updatedAt)
  }

  /** One call of `save_job(job)` at time `now`; `failure` says the database
      raised. The result is the new store, the caller's job afterwards, and
      what the call returned. */
  function SaveEffect(s: Store, job: Job, now: Time, failure: bool): (Store, Job, Option<Job>) {
    var stamped := job.(updatedAt := Some(now));
    var key := KeyOf(stamped);
    if failure then (s, stamped, None)
    else if key in s.rows then
      var merged := Merge(stamped, s.rows[key]);
      (Store(s.rows[key := merged], s.next), merged, Some(merged))
    else if stamped.id.Some? then
      if IdTaken(s.rows, stamped.id.value) then (s, stamped, None)
      else
        var next := if stamped.id.value + 1 > s.next then stamped.id.value + 1 else s.next;
        (Store(s.rows[key := stamped], next), stamped, Some(stamped))
    else
      var inserted := stamped.(id := Some(s.next));
      (Store(s.rows[key := inserted], s.next + 1), inserted, Some(inserted))
  }

  /** Saving keeps the table well formed. */
  lemma SaveKeepsStoreValid(s: Store, job: Job, now: Time, failure: bool)
    requires StoreValid(s)
    ensures StoreValid(SaveEffect(s, job, now, failure).0)
  {
    var s' := SaveEffect(s, job, now, failure).0;
    var key := KeyOf(job);
    forall k1, k2 | k1 in s'.rows && k2 in s'.rows && k1 != k2
      ensures s'.rows[k1].id != s'.rows[k2].id
    {
      if !failure && key !in s.rows && job.id.Some? && !IdTaken(s.rows, job.id.value) {
        if k1 == key {
          assert s.rows[k2].id != job.id;
        } else if k2 == key {
          assert s.rows[k1].id != job.id;
        }
      }
    }
  }

  /** A successful save returns the caller's job, whose key is the key it
      was saved under; a failed one returns nothing. Either way the caller's
      job ends up with its other attributes as it passed them. */
  lemma SaveResult(s: Store, job: Job, now: Time, failure: bool)
    ensures var (s', caller, saved) := SaveEffect(s, job, now, failure);
            && (saved.None? <==> failure || (KeyOf(job) !in s.rows && job.id.Some? && IdTaken(s.rows, job.id.value)))
            && (saved.Some? ==> saved == Some(caller) && KeyOf(job) in s'.rows && s'.rows[KeyOf(job)] == caller)
            && KeyOf(caller) == KeyOf(job)
            && caller.(id := job.id, updatedAt := job.updatedAt) == job
  {
  }

  /** `save_job` stamps `updated_at` before anything else: a failed save
      leaves the table alone but the caller's job is stamped. */
  lemma FailedSaveOnlyStamps(s: Store, job: Job, now: Time)
    ensures SaveEffect(s, job, now, true) == (s, job.(updatedAt := Some(now)), None)
  {
  }

  /** On a key match the stored id and `updated_at` survive, everything
      else (including `created_at`) comes from the incoming job, and the
      caller's job gets all the stored fields back: its stamp reverts. */
  lemma SaveUpdatesExisting(s: Store, job: Job, now: Time)
    requires KeyOf(job) in s.rows
    ensures var (s', caller, saved) := SaveEffect(s, job, now, false);
            var stored := s.rows[KeyOf(job)];
            && s'.rows.Keys == s.rows.Keys
            && caller.id == stored.id && caller.updatedAt == stored.updatedAt
            && caller.createdAt == job.createdAt && caller.title == job.title && caller.email == job.email
            && saved == Some(caller)
  {
  }

  /** Without a match the job is inserted, stamped, with its own id or the
      next free one. */
  lemma SaveInsertsNew(s: Store, job: Job, now: Time)
    requires StoreValid(s)
    requires KeyOf(job) !in s.rows
    requires job.id.None? || !IdTaken(s.rows, job.id.value)
    ensures var (s', caller, saved) := SaveEffect(s, job, now, false);
            && s'.rows == s.rows[KeyOf(job) := caller]
            && caller.updatedAt == Some(now)
            && caller.id == (if job.id.Some? then job.id else Some(s.next))
            && !IdTaken(s.rows, caller.id.value)
  {
    if job.id.None? {
      assert !IdTaken(s.rows, s.next);
    }
  }

  /** Rows under other keys are neither added, removed nor changed. */
  lemma SaveTouchesOneKey(s: Store, job: Job, now: Time, failure: bool, k: JobKey)
    requires k != KeyOf(job)
    ensures var s' := SaveEffect(s, job, now, failure).0;
            (k in s'.rows <==> k in s.rows) && (k in s.rows ==> s'.rows[k] == s.rows[k])
  {
  }

  /** Saving a job with the same natural key again keeps a single row for
      that key, and the row keeps the id it got the first time. */
  lemma SaveTwiceKeepsOneRow(s: Store, a: Job, b: Job, t1: Time, t2: Time)
    requires KeyOf(a) == KeyOf(b)
    requires SaveEffect(s, a, t1, false).2.Some?
    ensures var s1 := SaveEffect(s, a, t1, false).0;
            var s2 := SaveEffect(s1, b, t2, false).0;
            && s2.rows.Keys == s1.rows.Keys
            && s2.rows[KeyOf(b)].id == s1.rows[KeyOf(a)].id
  {
  }

  /** `save_jobs(jobs)`: `save_job` for each job in turn, with the clock
      reading and database outcome of each call. */
  function SaveAllEffect(s: Store, jobs: seq<Job>, stamps: seq<Time>, failures: seq<bool>): (r: (Store, seq<Job>))
    requires |stamps| == |jobs| == |failures|
    ensures |r.1| == |jobs|
  {
    if jobs == [] then (s, [])
    else
      var n := |jobs| - 1;
      var before := SaveAllEffect(s, jobs[..n], stamps[..n], failures[..n]);
      var after := SaveEffect(before.0, jobs[n], stamps[n], failures[n]);
      (after.0, before.1 + [after.1])
  }

  /** After saving a batch the table is still well formed and each job in
      the batch keeps its natural key. */
  lemma {:induction false} SaveAllKeepsStoreValid(s: Store, jobs: seq<Job>, stamps: seq<Time>, failures: seq<bool>)
    requires |stamps| == |jobs| == |failures|
    requires StoreValid(s)
    ensures StoreValid(SaveAllEffect(s, jobs, stamps, failures).0)
    ensures forall i | 0 <= i < |jobs| :: KeyOf(SaveAllEffect(s, jobs, stamps, failures).1[i]) == KeyOf(jobs[i])
  {
    if jobs != [] {
      var n := |jobs| - 1;
      SaveAllKeepsStoreValid(s, jobs[..n], stamps[..n], failures[..n]);
      var before := SaveAllEffect(s, jobs[..n], stamps[..n], failures[..n]);
      SaveKeepsStoreValid(before.0, jobs[n], stamps[n], failures[n]);
      SaveResult(before.0, jobs[n], stamps[n], failures[n]);
    }
  }

  /** The `jobs` table. */
  class JobTable {
    var rows: map<JobKey, Job>
    var next: int

    ghost predicate Valid()
      reads this
    {
      StoreValid(Store(rows, next))
    }

    constructor ()
      ensures Valid()
      ensures rows == map[] && next == 1
    {
      rows := map[];
      next := 1;
    }

    /** `save_job(job)`: returns the caller's job afterwards and what the
        call returned. */
    method SaveJob(job: Job, now: Time, failure: bool) returns (caller: Job, saved: Option<Job>)
      requires Valid()
      modifies this
      ensures Valid()
      ensures (Store(rows, next), caller, saved) == SaveEffect(Store(old(rows), old(next)), job, now, failure)
    {
      SaveKeepsStoreValid(Store(rows, next), job, now, failure);
      caller := job;
      caller := caller.(updatedAt := Some(now));
      var key := KeyOf(caller);
      if failure {
        return caller, None;
      }
      if key in rows {
        var existing := rows[key];
        existing := Merge(caller, existing);
        rows := rows[key := existing];
        caller := existing;
      } else {
        if caller.id.Some? {
          if IdTaken(rows, caller.id.value) {
            return caller, None;
          }
          if caller.id.value + 1 > next {
            next := caller.id.value + 1;
          }
        } else {
          caller := caller.(id := Some(next));
          next := next + 1;
        }
        rows := rows[key := caller];
      }
      saved := Some(caller);
    }

    /** `save_jobs(jobs)`; the callers' jobs afterwards are returned in
        order. */
    method SaveJobs(jobs: seq<Job>, stamps: seq<Time>, failures: seq<bool>) returns (callers: seq<Job>)
      requires Valid()
      requires |stamps| == |jobs| == |failures|
      modifies this
      ensures Valid()
      ensures (Store(rows, next), callers) == SaveAllEffect(Store(old(rows), old(next)), jobs, stamps, failures)
    {
      callers := [];
      var i := 0;
      while i < |jobs|
        invariant 0 <= i <= |jobs|
        invariant Valid()
        invariant (Store(rows, next), callers)
                  == SaveAllEffect(Store(old(rows), old(next)), jobs[..i], stamps[..i], failures[..i])
      {
        assert jobs[..i + 1][..i] == jobs[..i];
        assert stamps[..i + 1][..i] == stamps[..i];
        assert failures[..i + 1][..i] == failures[..i];
        var caller, _ := SaveJob(jobs[i], stamps[i], failures[i]);
        callers := callers + [caller];
        i := i + 1;
      }
      assert jobs[..i] == jobs && stamps[..i] == stamps && failures[..i] == failures;
    }
  }

  /** `find_jobs()`: every registered finder is asked for the configured
      title and location, and their results are concatenated. */
  method FindJobs(finders: seq<(Option<string>, Option<string>) -> seq<Job>>, settings: Settings)
    returns (jobs: seq<Job>)
    ensures jobs == Finders.Collected(finders, settings.jobTitle, settings.jobLocation)
  {
    jobs := Finders.FindAll(finders, settings.jobTitle, settings.jobLocation);
  }

  /** The annotated attributes of the class, which `log` uses as the header. */
  const JobAnnotations: seq<string> :=
    ["id", "link", "source_id", "source", "posted_on_jb", "title", "description", "date",
     "business", "location", "salary", "salary_type", "workspace", "email", "created_at", "updated_at"]

  function SalaryTypeCell(t: Option<SalaryType>): Value {
    match t
    case None => VNone
    case Some(Hourly) => VEnum("SalaryType.HOURLY")
    case Some(Annually) => VEnum("SalaryType.ANNUALLY")
  }

  function WorkspaceCell(w: Option<Workspace>): Value {
    match w
    case None => VNone
    case Some(OnSite) => VEnum("Workspace.ONSITE")
    case Some(Hybrid) => VEnum("Workspace.HYBRID")
  }

  /** The attribute values of a job, in annotation order. */
  function JobRow(j: Job): (row: seq<Value>)
    ensures |row| == |JobAnnotations|
  {
    [OfInt(j.id), OfStr(j.link), OfStr(j.sourceId), OfStr(j.source), VBool(j.postedOnJb),
     OfStr(j.title), OfStr(j.description), OfTime(j.date), OfStr(j.business), OfStr(j.location),
     OfReal(j.salary), SalaryTypeCell(j.salaryType), WorkspaceCell(j.workspace), OfStr(j.email),
     OfTime(j.createdAt), OfTime(j.updatedAt)]
  }

  /** The columns of a job, by name. */
  function Columns(j: Job): (d: Dict)
    ensures |d| == |JobAnnotations|
    ensures forall i | 0 <= i < |JobAnnotations| :: d[i] == (JobAnnotations[i], JobRow(j)[i])
  {
    seq(|JobAnnotations|, i requires 0 <= i < |JobAnnotations| => (JobAnnotations[i], JobRow(j)[i]))
  }

  /** `vars(job)`: the ORM's bookkeeping attribute, then the columns. */
  function JobVars(j: Job): Dict {
    [("_sa_instance_state", VNone)] + Columns(j)
  }

  function JobItems(jobs: seq<Job>): (items: seq<CsvLog.Item>)
    ensures |items| == |jobs|
  {
    seq(|jobs|, i requires 0 <= i < |jobs| => CsvLog.Instance(JobAnnotations, JobVars(jobs[i])))
  }

  lemma AnnotationsDistinct()
    ensures forall i, j | 0 <= i < j < |JobAnnotations| :: JobAnnotations[i] != JobAnnotations[j]
  {
  }

  /** The columns of a job as a dict keyed by the annotations. */
  lemma ColumnsAsDict(j: Job)
    ensures var cols := Columns(j);
            KeysOf(cols) == JobAnnotations && DistinctKeys(cols)
            && CsvLog.Project(JobVars(j), JobAnnotations) == cols
  {
    var cols := Columns(j);
    assert JobVars(j)[1..] == cols;
    AnnotationsDistinct();
    assert KeysOf(cols) == JobAnnotations;
    assert "_sa_instance_state" !in JobAnnotations;
    CsvLog.ProjectKeeps(cols, JobAnnotations);
  }

  /** Logging a job writes its columns in annotation order: the ORM's
      bookkeeping attribute is dropped by the projection onto the header. */
  lemma LoggedJobRow(j: Job)
    ensures CsvLog.ItemLine(JobAnnotations, CsvLog.Instance(JobAnnotations, JobVars(j))) == Ok(JobRow(j))
  {
    var cols := Columns(j);
    ColumnsAsDict(j);
    CsvLog.MappingRoundTrip(cols);
    var line := CsvLog.ItemLine(JobAnnotations, CsvLog.Mapping(cols)).value;
    assert line == JobRow(j) by {
      forall i | 0 <= i < |JobAnnotations| ensures line[i] == JobRow(j)[i] {
        assert cols[i].1 == JobRow(j)[i];
      }
    }
  }

  /** `log_jobs(jobs)`: the jobs are appended to the configured job log. */
  method LogJobs(files: CsvLog.Files, settings: Settings, jobs: seq<Job>) returns (r: Outcome)
    modifies files
    ensures (files.contents, r) == CsvLog.LogEffect(old(files.contents), settings.logs.jobs, JobItems(jobs))
  {
    r := files.Log(settings.logs.jobs, JobItems(jobs));
  }
}
