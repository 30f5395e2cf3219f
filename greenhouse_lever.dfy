/** The Greenhouse and Lever board scrapers with the network and the HTML parser taken
    out. A JSON API answer arrives as its list of job objects, an HTML board as the
    openings the parser would find in the body, whatever the status. */
module GreenhouseLever {
  import opened Wrappers
  import opened Text
  import opened Seqs
  import LinkedInScraper

  type JobListing = LinkedInScraper.JobListing

  /** An answer of an API request. */
  datatype Fetched<T> =
    | Ok(items: seq<T>)  // status 200 with its items
    | NotOk              // any other status: the scraper falls back to the HTML board
    | Failed             // the request raised: the scraper returns what it holds

  // The HTML board request is a `string -> Option<seq<...>>`: `None` when the request
  // raises, otherwise the elements found in the body, whatever the status code.

  /** A Greenhouse API job object; `None` for an absent key. `id` is the text `str()`
      gives for the id. */
  datatype GreenhouseJob = GreenhouseJob(
    title: Option<string>,
    locationName: Option<string>,
    absoluteUrl: Option<string>,
    id: string)

  /** A Greenhouse `opening` element: the text and `href` of its link, and its location. */
  datatype Opening = Opening(link: Option<(string, string)>, location: Option<string>)

  /** A Lever API posting; `location` is `categories.location`. */
  datatype LeverPosting = LeverPosting(
    text: Option<string>,
    location: Option<string>,
    hostedUrl: Option<string>,
    id: Option<string>)

  /** A Lever `posting` element: its `h5` text, the `href` and text of its title link,
      and its location. */
  datatype PostingElement = PostingElement(
    heading: Option<string>,
    link: Option<(string, string)>,
    location: Option<string>)

  // ---------------------------------------------------------- title filter

  /** `[f.lower() for f in title_filter.split(",")]`. */
  function FilterSegments(filter: string): seq<string> {
    var parts := SplitOn(filter, ",");
    seq(|parts|, i requires 0 <= i < |parts| => Lower(parts[i]))
  }

  /** `any(f in title_lower for f in filters)`. */
  predicate AnyIn(segments: seq<string>, title: string)
    decreases |segments|
  {
    segments != [] && (Contains(title, segments[0]) || AnyIn(segments[1..], title))
  }

  lemma {:induction false} AnyInExactly(segments: seq<string>, title: string)
    ensures AnyIn(segments, title) <==> exists i :: 0 <= i < |segments| && Contains(title, segments[i])
    decreases |segments|
  {
    if segments != [] {
      AnyInExactly(segments[1..], title);
      if exists i :: 0 <= i < |segments| && Contains(title, segments[i]) {
        var i :| 0 <= i < |segments| && Contains(title, segments[i]);
        if i > 0 {
          assert segments[1..][i - 1] == segments[i];
        }
      }
    }
  }

  /** A title passes a missing or empty filter, and otherwise when some comma-separated
      segment of the lowercased filter occurs in the lowercased title. */
  predicate TitleWanted(filter: Option<string>, title: string) {
    filter.None? || filter.value == "" || AnyIn(FilterSegments(filter.value), Lower(title))
  }

  /** The filter test of every scraping loop: a missing or empty filter lets every
      title through. */
  method FilterAllows(filter: Option<string>, title: string) returns (wanted: bool)
    ensures wanted == TitleWanted(filter, title)
  {
    wanted := true;
    if filter.Some? && filter.value != "" {
      wanted := AnyIn(FilterSegments(filter.value), Lower(title));
    }
  }

  /** Segments are not trimmed, so a segment that is empty (two adjacent commas, or a
      comma at either end) lets every title through. */
  lemma EmptySegmentWantsAll(filter: string, title: string)
    requires "" in FilterSegments(filter)
    ensures TitleWanted(Some(filter), title)
  {
    var segments := FilterSegments(filter);
    var i :| 0 <= i < |segments| && segments[i] == "";
    ContainsEmpty(Lower(title));
    AnyInExactly(segments, Lower(title));
  }

  /** A title is wanted exactly when one of the segments occurs in it. */
  lemma TitleWantedExactly(filter: string, title: string)
    requires filter != ""
    ensures TitleWanted(Some(filter), title)
            <==> exists i :: 0 <= i < |FilterSegments(filter)| && Contains(Lower(title), FilterSegments(filter)[i])
  {
    AnyInExactly(FilterSegments(filter), Lower(title));
  }

  // ----------------------------------------------------------- board URLs

  /** The Greenhouse board slug: the last path segment once trailing slashes are gone. */
  function GreenhouseSlug(apiUrl: string): string {
    Last(SplitOn(apiUrl, "/"))
  }

  function GreenhouseJobsUrl(slug: string): string {
    "https://boards-api.greenhouse.io/v1/boards/" + slug + "/jobs"
  }

  /** The Lever board slug: the last path segment without its query string. */
  function LeverSlug(apiUrl: string): string {
    SplitOn(Last(SplitOn(apiUrl, "/")), "?")[0]
  }

  function LeverPostingsUrl(slug: string): string {
    "https://api.lever.co/v0/postings/" + slug
  }

  /** An occurrence of a one-character pattern is an occurrence of the character. */
  lemma {:induction false} OneCharContains(s: string, c: char)
    ensures Contains(s, [c]) <==> c in s
    decreases |s|
  {
    if s != [] {
      OneCharContains(s[1..], c);
      assert c in s <==> s[0] == c || c in s[1..];
    }
  }

  /** For a board URL, the Greenhouse slug is a non-empty final segment without `/`. */
  lemma GreenhouseSlugSegment(boardUrl: string)
    requires Contains(RStripChar(boardUrl, '/'), "boards.greenhouse.io")
    ensures var apiUrl := RStripChar(boardUrl, '/'); var slug := GreenhouseSlug(apiUrl);
      slug != [] && '/' !in slug && |slug| <= |apiUrl| && apiUrl[|apiUrl| - |slug|..] == slug
  {
    var apiUrl := RStripChar(boardUrl, '/');
    ContainsLength(apiUrl, "boards.greenhouse.io");
    SplitOnLastNonEmpty(apiUrl, '/');
    SplitOnLast(apiUrl, "/");
    OneCharContains(GreenhouseSlug(apiUrl), '/');
  }

  /** The Lever slug is the start of the last `/` segment of the URL, up to and not
      including its first `?`; it holds neither `/` nor `?`. */
  lemma LeverSlugSegment(apiUrl: string)
    ensures var last := Last(SplitOn(apiUrl, "/")); var slug := LeverSlug(apiUrl);
      && FreeSuffix(last, apiUrl, "/") && slug <= last
      && (Contains(last, "?") ==> |slug| < |last| && last[|slug|] == '?')
      && '/' !in slug && '?' !in slug
  {
    var last := Last(SplitOn(apiUrl, "/"));
    SplitOnLast(apiUrl, "/");
    SplitOnFirst(last, "?");
    var slug := LeverSlug(apiUrl);
    OneCharContains(slug, '?');
    OneCharContains(last, '/');
    if Contains(last, "?") {
      var parts := SplitOn(last, "?");
      JoinSplitOn(last, "?");
      assert parts == [parts[0]] + parts[1..];
      assert last == slug + "?" + Join(parts[1..], "?") by {
        var halves := SplitOnce(last, "?");
      }
    }
  }

  /** `href if href.startswith("http") else board_url.rstrip("/") + href`. */
  function JoinHref(boardUrl: string, href: string): (r: string)
    ensures StartsWith(href, "http") ==> r == href
    ensures !StartsWith(href, "http") ==> r == RStripChar(boardUrl, '/') + href
  {
    if StartsWith(href, "http") then href else RStripChar(boardUrl, '/') + href
  }

  /** `company_name or slug`. */
  function CompanyOr(companyName: string, slug: string): (r: string)
    ensures companyName != "" ==> r == companyName
    ensures companyName == "" ==> r == slug
  {
    if companyName != "" then companyName else slug
  }

  // ------------------------------------------------------------- Greenhouse

  /** The promise every Greenhouse listing keeps. */
  predicate GreenhouseListing(job: JobListing, filter: Option<string>) {
    job.source == "greenhouse" && TitleWanted(filter, job.title)
  }

  /** The listing an API job yields when its title is wanted. */
  function GreenhouseJsonEntry(item: GreenhouseJob, company: string, filter: Option<string>): Option<JobListing> {
    var title := item.title.GetOr("");
    if TitleWanted(filter, title) then
      Some(LinkedInScraper.JobListing(title, company, item.locationName.GetOr(""), item.absoluteUrl.GetOr(""),
                                      "", "", "greenhouse", item.id))
    else None
  }

  function GreenhouseJsonPicker(company: string, filter: Option<string>): (nat, GreenhouseJob) -> Option<JobListing> {
    (i: nat, item: GreenhouseJob) => GreenhouseJsonEntry(item, company, filter)
  }

  /** The listing an opening element describes. */
  function OpeningListing(opening: Opening, boardUrl: string, companyName: string): JobListing {
    var job := LinkedInScraper.EmptyListing("greenhouse");
    var job := if opening.link.Some? then job.(title := opening.link.value.0, url := JoinHref(boardUrl, opening.link.value.1))
               else job;
    var job := if opening.location.Some? then job.(location := opening.location.value) else job;
    job.(company := companyName)
  }

  /** The listing an opening yields when it has a wanted, non-empty title. */
  function GreenhouseHtmlPicker(boardUrl: string, companyName: string, filter: Option<string>)
    : (nat, Opening) -> Option<JobListing>
  {
    (i: nat, opening: Opening) =>
      var job := OpeningListing(opening, boardUrl, companyName);
      if TitleWanted(filter, job.title) && job.title != "" then Some(job) else None
  }

  /** One turn of the API loop: the job's listing, unless its title is filtered out. */
  method PickGreenhouseJob(item: GreenhouseJob, ghost i: nat, company: string, filter: Option<string>)
    returns (picked: Option<JobListing>)
    ensures picked == GreenhouseJsonPicker(company, filter)(i, item)
    ensures picked.Some? ==> GreenhouseJsonListing(picked.value, filter, company)
  {
    var title := item.title.GetOr("");
    var wanted := FilterAllows(filter, title);
    if !wanted {
      return None;
    }
    picked := Some(LinkedInScraper.JobListing(title, company, item.locationName.GetOr(""),
                                              item.absoluteUrl.GetOr(""), "", "", "greenhouse", item.id));
  }

  /** A listing read from the board's API: kept by the filter and under `company`. */
  predicate GreenhouseJsonListing(job: JobListing, filter: Option<string>, company: string) {
    GreenhouseListing(job, filter) && job.company == company
  }

  /** The JSON path: every job whose title passes the filter, in order. */
  method GreenhouseFromJson(items: seq<GreenhouseJob>, company: string, filter: Option<string>)
    returns (jobs: seq<JobListing>)
    ensures jobs == Pick(items, GreenhouseJsonPicker(company, filter))
    ensures forall j :: 0 <= j < |jobs| ==> GreenhouseJsonListing(jobs[j], filter, company)
  {
    jobs := [];
    for i := 0 to |items|
      invariant jobs == Pick(items[..i], GreenhouseJsonPicker(company, filter))
      invariant forall j :: 0 <= j < |jobs| ==> GreenhouseJsonListing(jobs[j], filter, company)
    {
      PickStep(items, GreenhouseJsonPicker(company, filter), i);
      var picked := PickGreenhouseJob(items[i], i, company, filter);
      if picked.Some? {
        jobs := jobs + [picked.value];
      }
    }
    assert items[..|items|] == items;
  }

  /** The listing read from one opening element. */
  method ReadOpening(opening: Opening, boardUrl: string, companyName: string) returns (job: JobListing)
    ensures job == OpeningListing(opening, boardUrl, companyName)
  {
    job := LinkedInScraper.EmptyListing("greenhouse");
    if opening.link.Some? {
      var (text, href) := opening.link.value;
      job := job.(title := text, url := JoinHref(boardUrl, href));
    }
    if opening.location.Some? {
      job := job.(location := opening.location.value);
    }
    job := job.(company := companyName);
  }

  /** A listing read from the board's HTML: kept by the filter, titled, and under the
      given company name. */
  predicate GreenhouseHtmlListing(job: JobListing, filter: Option<string>, companyName: string) {
    GreenhouseListing(job, filter) && job.title != "" && job.company == companyName
  }

  /** One turn of the HTML loop: the opening's listing, unless its title is filtered
      out or empty. */
  method PickOpening(opening: Opening, ghost i: nat, boardUrl: string, companyName: string, filter: Option<string>)
    returns (picked: Option<JobListing>)
    ensures picked == GreenhouseHtmlPicker(boardUrl, companyName, filter)(i, opening)
    ensures picked.Some? ==>
      GreenhouseHtmlListing(picked.value, filter, companyName)
  {
    var job := ReadOpening(opening, boardUrl, companyName);
    var wanted := FilterAllows(filter, job.title);
    if !wanted {
      return None;
    }
    picked := if job.title != "" then Some(job) else None;
  }

  /** The HTML path: every opening with a title that passes the filter, in order. */
  method GreenhouseFromHtml(openings: seq<Opening>, boardUrl: string, companyName: string, filter: Option<string>)
    returns (jobs: seq<JobListing>)
    ensures jobs == Pick(openings, GreenhouseHtmlPicker(boardUrl, companyName, filter))
    ensures forall j :: 0 <= j < |jobs| ==>
      GreenhouseHtmlListing(jobs[j], filter, companyName)
  {
    jobs := [];
    for i := 0 to |openings|
      invariant jobs == Pick(openings[..i], GreenhouseHtmlPicker(boardUrl, companyName, filter))
      invariant forall j :: 0 <= j < |jobs| ==>
        GreenhouseHtmlListing(jobs[j], filter, companyName)
    {
      PickStep(openings, GreenhouseHtmlPicker(boardUrl, companyName, filter), i);
      var picked := PickOpening(openings[i], i, boardUrl, companyName, filter);
      if picked.Some? {
        jobs := jobs + [picked.value];
      }
    }
    assert openings[..|openings|] == openings;
  }

  /** What `scrape_greenhouse_board` returns: the API's listings when a
      `boards.greenhouse.io` URL answers 200, nothing when that request raises, and
      otherwise the listings of the HTML board, nothing when the page request raises. */
  function GreenhouseResult(boardUrl: string, companyName: string, filter: Option<string>,
                            api: string -> Fetched<GreenhouseJob>, html: string -> Option<seq<Opening>>)
    : seq<JobListing>
  {
    var apiUrl := RStripChar(boardUrl, '/');
    var slug := GreenhouseSlug(apiUrl);
    var answer := api(GreenhouseJobsUrl(slug));
    if Contains(apiUrl, "boards.greenhouse.io") && answer.Ok? then
      Pick(answer.items, GreenhouseJsonPicker(CompanyOr(companyName, slug), filter))
    else if Contains(apiUrl, "boards.greenhouse.io") && answer.Failed? then []
    else match html(boardUrl)
      case None => []
      case Some(openings) => Pick(openings, GreenhouseHtmlPicker(boardUrl, companyName, filter))
  }

  /** `scrape_greenhouse_board`: a `boards.greenhouse.io` URL is read through the JSON
      API, whose listings carry the company name or else the slug; another URL, or an
      API answer other than 200, is read as an HTML board, whatever the page's status.
      A failed request gives no listings. */
  method ScrapeGreenhouse(boardUrl: string, companyName: string, filter: Option<string>,
                          api: string -> Fetched<GreenhouseJob>, html: string -> Option<seq<Opening>>)
    returns (jobs: seq<JobListing>)
    ensures jobs == GreenhouseResult(boardUrl, companyName, filter, api, html)
    ensures forall j :: 0 <= j < |jobs| ==> GreenhouseListing(jobs[j], filter)
    ensures var apiUrl := RStripChar(boardUrl, '/'); var slug := GreenhouseSlug(apiUrl);
      var viaApi := Contains(apiUrl, "boards.greenhouse.io");
      && (viaApi && api(GreenhouseJobsUrl(slug)).Ok? ==>
            jobs == Pick(api(GreenhouseJobsUrl(slug)).items, GreenhouseJsonPicker(CompanyOr(companyName, slug), filter)))
      && (viaApi && api(GreenhouseJobsUrl(slug)).Failed? ==> jobs == [])
      && ((!viaApi || api(GreenhouseJobsUrl(slug)).NotOk?) ==>
            jobs == if html(boardUrl).Some? then Pick(html(boardUrl).value, GreenhouseHtmlPicker(boardUrl, companyName, filter))
                    else [])
  {
    var apiUrl := RStripChar(boardUrl, '/');
    if Contains(apiUrl, "boards.greenhouse.io") {
      var slug := GreenhouseSlug(apiUrl);
      var resp := api(GreenhouseJobsUrl(slug));
      if resp.Failed? {
        return [];
      }
      if resp.Ok? {
        jobs := GreenhouseFromJson(resp.items, CompanyOr(companyName, slug), filter);
        return;
      }
    }
    var page := html(boardUrl);
    if page.None? {
      return [];
    }
    jobs := GreenhouseFromHtml(page.value, boardUrl, companyName, filter);
  }

  /** A job whose title is wanted is listed, right after the listings of the jobs before it. */
  lemma WantedJobListed(items: seq<GreenhouseJob>, company: string, filter: Option<string>, j: nat)
    requires j < |items| && TitleWanted(filter, items[j].title.GetOr(""))
    ensures var jobs := Pick(items, GreenhouseJsonPicker(company, filter));
      var at := |Pick(items[..j], GreenhouseJsonPicker(company, filter))|;
      at < |jobs| && jobs[at].title == items[j].title.GetOr("") && jobs[at].jobId == items[j].id
      && jobs[at].company == company
  {
    PickAt(items, GreenhouseJsonPicker(company, filter), j);
  }

  // ------------------------------------------------------------------ Lever

  predicate LeverListing(job: JobListing, filter: Option<string>) {
    job.source == "lever" && TitleWanted(filter, job.title)
  }

  /** The listing an API posting yields when its text is wanted. */
  function LeverJsonPicker(company: string, filter: Option<string>): (nat, LeverPosting) -> Option<JobListing> {
    (i: nat, item: LeverPosting) =>
      var title := item.text.GetOr("");
      if TitleWanted(filter, title) then
        Some(LinkedInScraper.JobListing(title, company, item.location.GetOr(""), item.hostedUrl.GetOr(""),
                                        "", "", "lever", item.id.GetOr("")))
      else None
  }

  /** The listing a posting element describes: the `h5` text as title, or the link text
      when that is empty. */
  function PostingListing(posting: PostingElement, companyName: string): JobListing {
    var job := LinkedInScraper.EmptyListing("lever");
    var job := if posting.heading.Some? then job.(title := posting.heading.value) else job;
    var job := if posting.link.Some? then
                 var job := job.(url := posting.link.value.0);
                 if job.title == "" then job.(title := posting.link.value.1) else job
               else job;
    var job := if posting.location.Some? then job.(location := posting.location.value) else job;
    job.(company := companyName)
  }

  function LeverHtmlPicker(companyName: string, filter: Option<string>): (nat, PostingElement) -> Option<JobListing> {
    (i: nat, posting: PostingElement) =>
      var job := PostingListing(posting, companyName);
      if TitleWanted(filter, job.title) && job.title != "" then Some(job) else None
  }

  /** The JSON path: every posting whose text passes the filter, in order. */
  /** One turn of the API loop: the posting's listing, unless its text is filtered out. */
  method PickLeverPosting(item: LeverPosting, ghost i: nat, company: string, filter: Option<string>)
    returns (picked: Option<JobListing>)
    ensures picked == LeverJsonPicker(company, filter)(i, item)
    ensures picked.Some? ==> LeverJsonListing(picked.value, filter, company)
  {
    var title := item.text.GetOr("");
    var wanted := FilterAllows(filter, title);
    if !wanted {
      return None;
    }
    picked := Some(LinkedInScraper.JobListing(title, company, item.location.GetOr(""),
                                              item.hostedUrl.GetOr(""), "", "", "lever", item.id.GetOr("")));
  }

  /** A listing read from the board's API: kept by the filter and under `company`. */
  predicate LeverJsonListing(job: JobListing, filter: Option<string>, company: string) {
    LeverListing(job, filter) && job.company == company
  }

  method LeverFromJson(items: seq<LeverPosting>, company: string, filter: Option<string>)
    returns (jobs: seq<JobListing>)
    ensures jobs == Pick(items, LeverJsonPicker(company, filter))
    ensures forall j :: 0 <= j < |jobs| ==> LeverJsonListing(jobs[j], filter, company)
  {
    jobs := [];
    for i := 0 to |items|
      invariant jobs == Pick(items[..i], LeverJsonPicker(company, filter))
      invariant forall j :: 0 <= j < |jobs| ==> LeverJsonListing(jobs[j], filter, company)
    {
      PickStep(items, LeverJsonPicker(company, filter), i);
      var picked := PickLeverPosting(items[i], i, company, filter);
      if picked.Some? {
        jobs := jobs + [picked.value];
      }
    }
    assert items[..|items|] == items;
  }

  /** The listing read from one posting element. */
  method ReadPosting(posting: PostingElement, companyName: string) returns (job: JobListing)
    ensures job == PostingListing(posting, companyName)
  {
    job := LinkedInScraper.EmptyListing("lever");
    if posting.heading.Some? {
      job := job.(title := posting.heading.value);
    }
    if posting.link.Some? {
      var (href, text) := posting.link.value;
      job := job.(url := href);
      if job.title == "" {
        job := job.(title := text);
      }
    }
    if posting.location.Some? {
      job := job.(location := posting.location.value);
    }
    job := job.(company := companyName);
  }

  /** The HTML path: every posting element with a wanted, non-empty title, in order. */
  /** A listing read from the board's HTML: kept by the filter, titled, and under the
      given company name. */
  predicate LeverHtmlListing(job: JobListing, filter: Option<string>, companyName: string) {
    LeverListing(job, filter) && job.title != "" && job.company == companyName
  }

  /** One turn of the HTML loop: the posting's listing, unless its title is filtered
      out or empty. */
  method PickPosting(posting: PostingElement, ghost i: nat, companyName: string, filter: Option<string>)
    returns (picked: Option<JobListing>)
    ensures picked == LeverHtmlPicker(companyName, filter)(i, posting)
    ensures picked.Some? ==>
      LeverHtmlListing(picked.value, filter, companyName)
  {
    var job := ReadPosting(posting, companyName);
    var wanted := FilterAllows(filter, job.title);
    if !wanted {
      return None;
    }
    picked := if job.title != "" then Some(job) else None;
  }

  method LeverFromHtml(postings: seq<PostingElement>, companyName: string, filter: Option<string>)
    returns (jobs: seq<JobListing>)
    ensures jobs == Pick(postings, LeverHtmlPicker(companyName, filter))
    ensures forall j :: 0 <= j < |jobs| ==>
      LeverHtmlListing(jobs[j], filter, companyName)
  {
    jobs := [];
    for i := 0 to |postings|
      invariant jobs == Pick(postings[..i], LeverHtmlPicker(companyName, filter))
      invariant forall j :: 0 <= j < |jobs| ==>
        LeverHtmlListing(jobs[j], filter, companyName)
    {
      PickStep(postings, LeverHtmlPicker(companyName, filter), i);
      var picked := PickPosting(postings[i], i, companyName, filter);
      if picked.Some? {
        jobs := jobs + [picked.value];
      }
    }
    assert postings[..|postings|] == postings;
  }

  /** What `scrape_lever_board` returns, laid out like `GreenhouseResult`. */
  function LeverResult(boardUrl: string, companyName: string, filter: Option<string>,
                       api: string -> Fetched<LeverPosting>, html: string -> Option<seq<PostingElement>>)
    : seq<JobListing>
  {
    var apiUrl := RStripChar(boardUrl, '/');
    var slug := LeverSlug(apiUrl);
    var answer := api(LeverPostingsUrl(slug));
    if Contains(apiUrl, "jobs.lever.co") && answer.Ok? then
      Pick(answer.items, LeverJsonPicker(CompanyOr(companyName, slug), filter))
    else if Contains(apiUrl, "jobs.lever.co") && answer.Failed? then []
    else match html(boardUrl)
      case None => []
      case Some(postings) => Pick(postings, LeverHtmlPicker(companyName, filter))
  }

  /** `scrape_lever_board`, laid out like the Greenhouse scraper. */
  method ScrapeLever(boardUrl: string, companyName: string, filter: Option<string>,
                     api: string -> Fetched<LeverPosting>, html: string -> Option<seq<PostingElement>>)
    returns (jobs: seq<JobListing>)
    ensures jobs == LeverResult(boardUrl, companyName, filter, api, html)
    ensures forall j :: 0 <= j < |jobs| ==> LeverListing(jobs[j], filter)
    ensures var apiUrl := RStripChar(boardUrl, '/'); var slug := LeverSlug(apiUrl);
      var viaApi := Contains(apiUrl, "jobs.lever.co");
      && (viaApi && api(LeverPostingsUrl(slug)).Ok? ==>
            jobs == Pick(api(LeverPostingsUrl(slug)).items, LeverJsonPicker(CompanyOr(companyName, slug), filter)))
      && (viaApi && api(LeverPostingsUrl(slug)).Failed? ==> jobs == [])
      && ((!viaApi || api(LeverPostingsUrl(slug)).NotOk?) ==>
            jobs == if html(boardUrl).Some? then Pick(html(boardUrl).value, LeverHtmlPicker(companyName, filter)) else [])
  {
    var apiUrl := RStripChar(boardUrl, '/');
    if Contains(apiUrl, "jobs.lever.co") {
      var slug := LeverSlug(apiUrl);
      var resp := api(LeverPostingsUrl(slug));
      if resp.Failed? {
        return [];
      }
      if resp.Ok? {
        jobs := LeverFromJson(resp.items, CompanyOr(companyName, slug), filter);
        return;
      }
    }
    var page := html(boardUrl);
    if page.None? {
      return [];
    }
    jobs := LeverFromHtml(page.value, companyName, filter);
  }

  /** A posting element without an `h5` title takes its link's text as the title. */
  lemma LinkTextFallback(posting: PostingElement, companyName: string)
    requires posting.heading.None? || posting.heading == Some("")
    requires posting.link.Some?
    ensures PostingListing(posting, companyName).title == posting.link.value.1
    ensures PostingListing(posting, companyName).url == posting.link.value.0
  {
  }
}
