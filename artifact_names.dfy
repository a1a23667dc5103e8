/** Where the generated cover letter and résumé documents go
    (job_applier/models/cover_letter.py and job_applier/models/resume.py):
    the output directory, the file stem built from the applicant's name and
    the job's source id, the two candidate outputs, and the choice between
    them. Rendering the template is not modelled. */
module ArtifactNames {
  import opened Values
  import opened Text
  import opened Paths

  /** The environment of document generation: whether LibreOffice is
      installed, whether converting to PDF succeeds, and the system's
      temporary directory. */
  datatype Office = Office(libreOffice: bool, conversionOk: bool, tempDir: string)

  /** The configured log file's directory, or the temporary directory. */
  function OutputDir(logFile: Option<string>, tempDir: string): (d: string)
    ensures Truthy(logFile) ==> d == Dirname(logFile.value)
    ensures !Truthy(logFile) ==> d == tempDir
  {
    if Truthy(logFile) then Dirname(logFile.value) else tempDir
  }

  /** `f"{first.capitalize()}_{last.capitalize()}{tag}{source_id}"`;
      a missing first or last name fails on `capitalize`. */
  function Stem(firstName: Option<string>, lastName: Option<string>, tag: string, sourceId: Option<string>): (r: Result<string>)
    ensures r.Err? <==> firstName.None? || lastName.None?
    ensures r.Err? ==> r.fault == AttributeError
  {
    if firstName.None? || lastName.None? then Err(AttributeError)
    else Ok(Capitalize(firstName.value) + "_" + Capitalize(lastName.value) + tag + Show(sourceId))
  }

  /** The document saved from the template (with the template's extension)
      and the PDF converted from it. */
  function Outputs(dir: string, stem: string, templatePath: string): (string, string) {
    var ext := SplitExt(Basename(templatePath)).1;
    (Join(dir, stem + ext), Join(dir, stem + ".pdf"))
  }

  /** The PDF when LibreOffice is available (a failed conversion raises),
      else the document with the template's extension. */
  function Deliver(outputs: (string, string), office: Office): (r: Result<string>)
    ensures r.Err? <==> office.libreOffice && !office.conversionOk
    ensures r.Ok? && office.libreOffice ==> r.value == outputs.1
    ensures r.Ok? && !office.libreOffice ==> r.value == outputs.0
  {
    if !office.libreOffice then Ok(outputs.0)
    else if office.conversionOk then Ok(outputs.1)
    else Err(ConversionError)
  }

  /** Both outputs sit in the output directory, under the same stem. */
  lemma OutputsShareDirAndStem(dir: string, stem: string, templatePath: string)
    requires CleanDir(dir)
    requires stem != [] && '/' !in stem
    ensures var (doc, pdf) := Outputs(dir, stem, templatePath);
            var ext := SplitExt(Basename(templatePath)).1;
            && Dirname(doc) == dir && Dirname(pdf) == dir
            && Basename(doc) == stem + ext && Basename(pdf) == stem + ".pdf"
  {
    var ext := SplitExt(Basename(templatePath)).1;
    assert ext == Basename(templatePath)[|SplitExt(Basename(templatePath)).0|..];
    assert '/' !in stem + ext by {
      forall c | c in stem + ext ensures c != '/' {
        if c in ext {
          assert c in Basename(templatePath);
        }
      }
    }
    assert '/' !in stem + ".pdf";
    BasenameOfJoin(dir, stem + ext);
    BasenameOfJoin(dir, stem + ".pdf");
    DirnameOfJoin(dir, stem + ext);
    DirnameOfJoin(dir, stem + ".pdf");
  }

  /** Names without slashes give a stem without slashes. */
  lemma StemHasNoSlash(firstName: string, lastName: string, tag: string, sourceId: Option<string>)
    requires '/' !in firstName && '/' !in lastName && '/' !in tag && '/' !in Show(sourceId)
    ensures var r := Stem(Some(firstName), Some(lastName), tag, sourceId);
            r.Ok? && r.value != [] && '/' !in r.value
  {
    CapitalizeNoSlash(firstName);
    CapitalizeNoSlash(lastName);
  }

  /** The generated document is found in the output directory under the
      stem, with the PDF extension exactly when LibreOffice is available,
      and it is missing only when the conversion fails. */
  lemma GeneratedPath(logFile: Option<string>, office: Office, stem: string, templatePath: string)
    requires CleanDir(office.tempDir)
    requires stem != [] && '/' !in stem
    ensures var r := Deliver(Outputs(OutputDir(logFile, office.tempDir), stem, templatePath), office);
            var ext := SplitExt(Basename(templatePath)).1;
            && (r.Ok? <==> !office.libreOffice || office.conversionOk)
            && (r.Ok? ==>
                  && Dirname(r.value) == OutputDir(logFile, office.tempDir)
                  && Basename(r.value) == stem + (if office.libreOffice then ".pdf" else ext))
  {
    OutputsShareDirAndStem(OutputDir(logFile, office.tempDir), stem, templatePath);
  }
}
