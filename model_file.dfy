/** The generated-document base class of job_applier/models/file.py: after
    construction the text is filled in if it was not supplied, and then the
    file path, by the two hooks a subclass provides. */
module ModelFile {
  import opened Values
  import ModelApplicant
  import ModelJob

  /** A hook invocation, as recorded by `PostInit`. The file hook records
      the text it saw. */
  datatype Hook = TextHook | FileHook(sawText: Option<string>)

  /** The hooks: the text the text hook yields (or the exception it
      raises), and the file hook as a function of the text at the time it
      is called. */
  type FileHookFn = Option<string> -> Result<Option<string>>

  /** `__post_init__` on the fields `text` and `file_path`: the new text,
      the new file path, how it ended, and the hooks called in order. */
  function PostInitEffect(text: Option<string>, filePath: Option<string>,
                          createText: Result<Option<string>>, createFile: FileHookFn)
    : (Option<string>, Option<string>, Outcome, seq<Hook>)
  {
    var (text1, calls1, out1) :=
      if Truthy(text) then (text, [], Done)
      else if createText.Err? then (text, [TextHook], Raised(createText.fault))
      else (createText.value, [TextHook], Done);
    if out1.Raised? then (text1, filePath, out1, calls1)
    else if Truthy(filePath) then (text1, filePath, Done, calls1)
    else
      var f := createFile(text1);
      if f.Err? then (text1, filePath, Raised(f.fault), calls1 + [FileHook(text1)])
      else (text1, f.value, Done, calls1 + [FileHook(text1)])
  }

  /** Supplied values win: a truthy text or file path is kept and its hook
      is not called; a falsy one is replaced by what the hook returned. */
  lemma SuppliedValuesKept(text: Option<string>, filePath: Option<string>,
                           createText: Result<Option<string>>, createFile: FileHookFn)
    ensures var (t, f, out, calls) := PostInitEffect(text, filePath, createText, createFile);
            && (Truthy(text) <==> TextHook !in calls)
            && (Truthy(text) ==> t == text)
            && (!Truthy(text) && createText.Ok? ==> t == createText.value)
            && (out.Done? ==> (Truthy(filePath) <==> FileHook(t) !in calls))
            && (out.Done? && Truthy(filePath) ==> f == filePath)
            && (out.Done? && !Truthy(filePath) ==> f == createFile(t).value)
  {
  }

  /** The text is settled first, so the file hook sees the final text; each
      hook runs at most once, the text hook before the file hook. */
  lemma FileHookSeesFinalText(text: Option<string>, filePath: Option<string>,
                              createText: Result<Option<string>>, createFile: FileHookFn)
    ensures var (t, f, out, calls) := PostInitEffect(text, filePath, createText, createFile);
            && |calls| <= 2
            && (forall i | 0 <= i < |calls| && calls[i].FileHook? :: calls[i].sawText == t && i == |calls| - 1)
            && (forall i | 0 <= i < |calls| && calls[i] == TextHook :: i == 0)
  {
  }

  /** A failing hook propagates: the fields it would have set keep their
      values, and a failing text hook means the file hook never runs. */
  lemma HookFailurePropagates(text: Option<string>, filePath: Option<string>,
                              createText: Result<Option<string>>, createFile: FileHookFn)
    requires !Truthy(text) && createText.Err?
    ensures PostInitEffect(text, filePath, createText, createFile)
         == (text, filePath, Raised(createText.fault), [TextHook])
  {
  }

  /** An instance of a document model (a cover letter or a résumé). */
  class FileModel {
    var applicant: ModelApplicant.Applicant
    var job: ModelJob.Job
    var text: Option<string>
    var filePath: Option<string>

    /** The dataclass initialiser, before `__post_init__`. */
    constructor (applicant: ModelApplicant.Applicant, job: ModelJob.Job, text: Option<string>, filePath: Option<string>)
      ensures this.applicant == applicant && this.job == job
      ensures this.text == text && this.filePath == filePath
    {
      this.applicant := applicant;
      this.job := job;
      this.text := text;
      this.filePath := filePath;
    }

    /** `__post_init__` */
    method PostInit(createText: Result<Option<string>>, createFile: FileHookFn) returns (r: Outcome, calls: seq<Hook>)
      modifies this
      ensures applicant == old(applicant) && job == old(job)
      ensures (text, filePath, r, calls) == PostInitEffect(old(text), old(filePath), createText, createFile)
    {
      calls := [];
      r := Done;
      if !Truthy(text) {
        calls := [TextHook];
        if createText.Err? {
          return Raised(createText.fault), calls;
        }
        text := createText.value;
      }
      if !Truthy(filePath) {
        calls := calls + [FileHook(text)];
        var f := createFile(text);
        if f.Err? {
          return Raised(f.fault), calls;
        }
        filePath := f.value;
      }
    }
  }
}
