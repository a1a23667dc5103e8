/** The Job Bank scraper of job_applier/scrapers/jobbank/functions.py: the
    search result and every further page of results are gathered in order,
    each article becomes one job through fixed extraction rules, and each
    job with a link is completed from its posting page. The HTML is
    outside the model: an article is the already extracted text of the
    elements the scraper looks for, `None` where an element is missing. */
module JobBank {
  import opened Values
  import opened Text
  import opened ModelJob

  const Domain: string := "https://www.jobbank.gc.ca"
  const IdPrefix: string := "article-"
  const SourceName: string := "jobbank"

  /** What one `<article>` offers. */
  datatype Article = Article(
    id: Option<string>,              // the element's `id` attribute
    linkPath: Option<string>,        // the path of the result link's `href`
    postedOnJb: bool,                // a `postedonJB` marker is present
    title: Option<string>,           // the stripped `noctitle` text
    date: Option<Time>,              // the `date` item, when it parses
    business: Option<string>,
    location: Option<string>,        // the location text without its spans
    salary: Option<string>,          // the salary text without its spans
    telework: Option<string>)        // the `telework` text

  /** What a posting page offers: the stripped description text and the
      address in the "how to apply" answer. */
  datatype Details = Details(description: Option<string>, email: Option<string>)

  /** The posting pages, by link, outside the model. */
  type DetailsSource = string -> Details

  /** `float(re.search(r"\d+\.\d+", text).group())`, or None without a
      match; outside the model. */
  type NumberParser = string -> Option<real>

  // ---------------------------------------------------------------------
  // Pagination

  /** The articles of the further pages, up to the first empty one. A
      response list that ends without an empty page ends the search. */
  function Gathered(pages: seq<seq<Article>>): seq<Article> {
    if pages == [] || pages[0] == [] then [] else pages[0] + Gathered(pages[1..])
  }

  /** The index of the first empty page, or the number of pages. */
  function FirstEmpty(pages: seq<seq<Article>>): (n: nat)
    ensures n <= |pages|
    ensures forall i | 0 <= i < n :: pages[i] != []
    ensures n < |pages| ==> pages[n] == []
  {
    if pages == [] || pages[0] == [] then 0 else 1 + FirstEmpty(pages[1..])
  }

  function Flatten(pages: seq<seq<Article>>): seq<Article> {
    if pages == [] then [] else pages[0] + Flatten(pages[1..])
  }

  /** The further pages are gathered whole and in order, and nothing after
      the first empty page is taken. */
  lemma {:induction false} GatheredPagesInOrder(pages: seq<seq<Article>>)
    ensures Gathered(pages) == Flatten(pages[..FirstEmpty(pages)])
  {
    if pages == [] || pages[0] == [] {
      assert pages[..0] == [];
    } else {
      GatheredPagesInOrder(pages[1..]);
      assert pages[..FirstEmpty(pages)][1..] == pages[1..][..FirstEmpty(pages[1..])];
    }
  }

  /** The first page plus the further ones, as `find_jobs` builds them:
      the inner loop appends each article of a page in turn. */
  method Paginate(first: seq<Article>, pages: seq<seq<Article>>) returns (articles: seq<Article>)
    ensures articles == first + Gathered(pages)
  {
    articles := first;
    var i := 0;
    while i < |pages| && pages[i] != []
      invariant 0 <= i <= |pages|
      invariant articles + Gathered(pages[i..]) == first + Gathered(pages)
    {
      var page := pages[i];
      ghost var before := articles;
      assert Gathered(pages[i..]) == page + Gathered(pages[i + 1..]) by {
        assert pages[i..][1..] == pages[i + 1..];
      }
      for j := 0 to |page|
        invariant articles == before + page[..j]
      {
        articles := articles + [page[j]];
        assert page[..j + 1] == page[..j] + [page[j]];
      }
      assert page[..|page|] == page;
      i := i + 1;
    }
    assert Gathered(pages[i..]) == [];
    assert articles + [] == articles;
  }

  // ---------------------------------------------------------------------
  // Field extraction

  /** `urljoin(DOMAIN, path)` for the path of a result link. */
  function LinkOf(path: string): (r: string)
    ensures |r| >= |Domain| && r[..|Domain|] == Domain
  {
    if path == "" then Domain
    else if path[0] == '/' then Domain + path
    else Domain + "/" + path
  }

  /** `id.replace("article-", "")` */
  function SourceIdOf(id: string): string {
    ReplaceAll(id, IdPrefix, "")
  }

  /** An article id of the usual form `article-<n>` gives the source id
      `<n>`. */
  lemma SourceIdStripsPrefix(n: string)
    requires !Contains(n, IdPrefix)
    ensures SourceIdOf(IdPrefix + n) == n
  {
    ReplaceLeading(IdPrefix, n, "");
    ReplaceAbsent(n, IdPrefix, "");
  }

  /** The salary type from the salary text: "hourly" anywhere in the
      lower-cased text, else "annually", else nothing. */
  function SalaryTypeOf(text: string): (r: Option<SalaryType>)
    ensures r == Some(Hourly) <==> Contains(Lower(text), "hourly")
    ensures r == Some(Annually) <==> !Contains(Lower(text), "hourly") && Contains(Lower(text), "annually")
    ensures r.None? <==> !Contains(Lower(text), "hourly") && !Contains(Lower(text), "annually")
  {
    var t := Lower(text);
    if Contains(t, "hourly") then Some(Hourly)
    else if Contains(t, "annually") then Some(Annually)
    else None
  }

  /** The salary type does not depend on the case of the salary text. */
  lemma SalaryTypeIgnoresCase(text: string)
    ensures SalaryTypeOf(Lower(text)) == SalaryTypeOf(text)
  {
    LowerIdempotent(text);
  }

  /** The workspace from the telework text, matched as written: "on site",
      else "hybrid", else nothing. */
  function WorkspaceOf(text: string): (r: Option<Workspace>)
    ensures r == Some(OnSite) <==> Contains(text, "on site")
    ensures r == Some(Hybrid) <==> !Contains(text, "on site") && Contains(text, "hybrid")
    ensures r.None? <==> !Contains(text, "on site") && !Contains(text, "hybrid")
  {
    if Contains(text, "on site") then Some(OnSite)
    else if Contains(text, "hybrid") then Some(Hybrid)
    else None
  }

  /** Unlike the salary type, the workspace match is case-sensitive:
      "Hybrid" is not recognised. */
  lemma WorkspaceIsCaseSensitive()
    ensures WorkspaceOf("Hybrid") == None
    ensures WorkspaceOf("hybrid") == Some(Hybrid)
  {
    assert OccursAt("hybrid", "hybrid", 0);
    forall i | 0 <= i <= |"Hybrid"| - |"hybrid"| ensures !OccursAt("Hybrid", "hybrid", i) {
      assert "Hybrid"[0] != "hybrid"[0];
    }
  }

  /** The job one article gives before its posting page is read; an
      article without an id fails on `.replace`. */
  function ArticleJob(a: Article, number: NumberParser): (r: Result<Job>)
    ensures r.Err? <==> a.id.None?
    ensures r.Ok? ==>
      && r.value.sourceId == Some(SourceIdOf(a.id.value))
      && r.value.source == Some(SourceName)
      && r.value.postedOnJb == a.postedOnJb
      && r.value.title == (if a.title.Some? then Some(Capitalize(a.title.value)) else None)
      && r.value.date == a.date && r.value.business == a.business && r.value.location == a.location
      && r.value.link == (if a.linkPath.Some? then Some(LinkOf(a.linkPath.value)) else None)
      && r.value.salaryType == (if a.salary.Some? then SalaryTypeOf(a.salary.value) else None)
      && r.value.salary == (if a.salary.Some? then number(Lower(a.salary.value)) else None)
      && r.value.workspace == (if a.telework.Some? then WorkspaceOf(a.telework.value) else None)
      && r.value.id.None? && r.value.description.None? && r.value.email.None?
  {
    if a.id.None? then Err(AttributeError)
    else
      var j := Blank().(
        link := if a.linkPath.Some? then Some(LinkOf(a.linkPath.value)) else None,
        sourceId := Some(SourceIdOf(a.id.value)),
        source := Some(SourceName),
        postedOnJb := a.postedOnJb,
        title := if a.title.Some? then Some(Capitalize(a.title.value)) else None,
        date := a.date,
        business := a.business,
        location := a.location,
        salaryType := if a.salary.Some? then SalaryTypeOf(a.salary.value) else None,
        salary := if a.salary.Some? then number(Lower(a.salary.value)) else None,
        workspace := if a.telework.Some? then WorkspaceOf(a.telework.value) else None);
      Ok(j)
  }

  // ---------------------------------------------------------------------
  // The posting page

  /** The description cleanup: tabs and newlines removed, then every run
      of two or more whitespace characters made one space. */
  function Normalize(s: string): string {
    CollapseSpaces(ReplaceAll(ReplaceAll(s, "\t", ""), "\n", ""))
  }

  /** A normalised description holds no tab, no newline and no two
      whitespace characters in a row. */
  lemma NormalizedDescription(s: string)
    ensures var r := Normalize(s);
            '\t' !in r && '\n' !in r && NoDoubleSpace(r)
  {
    ReplaceCharIsDrop(s, '\t');
    ReplaceCharIsDrop(Drop(s, '\t'), '\n');
    var u := Drop(Drop(s, '\t'), '\n');
    assert '\t' !in u;
  }

  /** `fill_job_details(job)`: without a link the job is returned as it
      is; otherwise the description and the email are taken from the
      posting page where it has them. */
  function FillJobDetails(job: Job, details: DetailsSource): (r: Job)
    ensures !Truthy(job.link) ==> r == job
    ensures r.(description := job.description, email := job.email) == job
    ensures Truthy(job.link) ==>
      r.email == (if details(job.link.value).email.Some? then details(job.link.value).email else job.email)
    ensures Truthy(job.link) ==>
      r.description == (if details(job.link.value).description.Some?
                        then Some(Normalize(details(job.link.value).description.value))
                        else job.description)
  {
    if !Truthy(job.link) then job
    else
      var d := details(job.link.value);
      job.(description := if d.description.Some? then Some(Normalize(d.description.value)) else job.description,
           email := if d.email.Some? then d.email else job.email)
  }

  /** A filled-in description is always normalised, and comes from the
      page of the job's own link. */
  lemma FilledDescriptionNormalised(job: Job, details: DetailsSource)
    requires Truthy(job.link) && details(job.link.value).description.Some?
    ensures FillJobDetails(job, details).description == Some(Normalize(details(job.link.value).description.value))
    ensures var t := FillJobDetails(job, details).description.value;
            '\t' !in t && '\n' !in t && NoDoubleSpace(t)
  {
    NormalizedDescription(details(job.link.value).description.value);
  }

  function ScrapeArticle(a: Article, number: NumberParser, details: DetailsSource): Result<Job> {
    var j := ArticleJob(a, number);
    if j.Err? then j else Ok(FillJobDetails(j.value, details))
  }

  /** The jobs of a list of articles, as the per-article loop builds them:
      the first article without an id stops the search. */
  function ScrapeAll(articles: seq<Article>, number: NumberParser, details: DetailsSource): Result<seq<Job>>
  {
    if articles == [] then Ok([])
    else
      var init := ScrapeAll(articles[..|articles| - 1], number, details);
      var last := ScrapeArticle(articles[|articles| - 1], number, details);
      if init.Err? then init
      else if last.Err? then Err(last.fault)
      else Ok(init.value + [last.value])
  }

  /** Exactly one job per article, in article order; the scrape fails
      exactly when some article has no id. */
  lemma {:induction false} OneJobPerArticle(articles: seq<Article>, number: NumberParser, details: DetailsSource)
    ensures var r := ScrapeAll(articles, number, details);
            && (r.Ok? <==> forall i | 0 <= i < |articles| :: articles[i].id.Some?)
            && (r.Ok? ==> |r.value| == |articles|
                          && forall i | 0 <= i < |articles| :: Ok(r.value[i]) == ScrapeArticle(articles[i], number, details))
  {
    if articles != [] {
      var n := |articles| - 1;
      var init := articles[..n];
      OneJobPerArticle(init, number, details);
      assert forall i | 0 <= i < n :: init[i] == articles[i];
    }
  }

  /** `find_jobs(job_title, location)` given what the server answers: the
      result block's articles (`None` when the block is missing), the
      further pages in the order they are served, and the posting pages. */
  function FindJobsResult(first: Option<seq<Article>>, pages: seq<seq<Article>>, number: NumberParser,
                          details: DetailsSource): Result<seq<Job>> {
    if first.None? then Ok([]) else ScrapeAll(first.value + Gathered(pages), number, details)
  }

  /** Without a result block the search finds nothing; with one, every
      job has source "jobbank" and there is one job per gathered article. */
  lemma FindJobsShape(first: Option<seq<Article>>, pages: seq<seq<Article>>, number: NumberParser,
                      details: DetailsSource)
    ensures first.None? ==> FindJobsResult(first, pages, number, details) == Ok([])
    ensures var r := FindJobsResult(first, pages, number, details);
            first.Some? && r.Ok? ==>
              && |r.value| == |first.value| + |Gathered(pages)|
              && forall i | 0 <= i < |r.value| :: r.value[i].source == Some(SourceName)
  {
    if first.Some? {
      var arts := first.value + Gathered(pages);
      OneJobPerArticle(arts, number, details);
    }
  }

  /** `find_jobs`: pagination, then one job per article in order. */
  method FindJobs(first: Option<seq<Article>>, pages: seq<seq<Article>>, number: NumberParser,
                  details: DetailsSource) returns (r: Result<seq<Job>>)
    ensures r == FindJobsResult(first, pages, number, details)
  {
    if first.None? {
      return Ok([]);
    }
    var articles := Paginate(first.value, pages);
    var result: seq<Job> := [];
    for k := 0 to |articles|
      invariant ScrapeAll(articles[..k], number, details) == Ok(result)
    {
      assert articles[..k + 1][..k] == articles[..k];
      assert articles[..k + 1][k] == articles[k];
      var job := ArticleJob(articles[k], number);
      if job.Err? {
        assert ScrapeAll(articles[..k + 1], number, details).Err?;
        ScrapeFailureSticks(articles, k + 1, number, details);
        return Err(job.fault);
      }
      var filled := FillJobDetails(job.value, details);
      result := result + [filled];
    }
    assert articles[..|articles|] == articles;
    r := Ok(result);
  }

  /** Once a prefix of the articles fails, the whole list fails the same
      way. */
  lemma {:induction false} ScrapeFailureSticks(articles: seq<Article>, k: nat, number: NumberParser,
                                               details: DetailsSource)
    requires k <= |articles|
    requires ScrapeAll(articles[..k], number, details).Err?
    ensures ScrapeAll(articles, number, details) == ScrapeAll(articles[..k], number, details)
    decreases |articles| - k
  {
    if k < |articles| {
      assert articles[..k + 1][..k] == articles[..k];
      ScrapeFailureSticks(articles, k + 1, number, details);
    } else {
      assert articles[..k] == articles;
    }
  }
}
