/** The LinkedIn scraper with the network and the HTML parser taken out: a page of
    search results arrives as the job cards the parser would find on it, each card as
    the texts and attributes of the elements the scraper looks up. Request pacing is
    not modelled. */
module LinkedInScraper {
  import opened Wrappers
  import opened Text
  import opened Seqs

  /** A scraped job posting; every field defaults to `""`. */
  datatype JobListing = JobListing(
    title: string,
    company: string,
    location: string,
    url: string,
    description: string,
    datePosted: string,
    source: string,
    jobId: string)

  /** `JobListing(source=source)`. */
  function EmptyListing(source: string): JobListing {
    JobListing("", "", "", "", "", "", source, "")
  }

  /** A `base-card` element: the stripped text of each looked-up element, `None` when the
      element is absent. `link` is the link's `href` attribute (`""` when it has none),
      `time` the `datetime` attribute of the `time` element. */
  datatype Card = Card(
    title: Option<string>,
    company: Option<string>,
    location: Option<string>,
    link: Option<string>,
    time: Option<string>)

  /** One response of the public search endpoint. */
  datatype Page =
    | NotOk(status: int)       // a status other than 200
    | Cards(cards: seq<Card>)  // the cards found on the page, possibly none
    | Failure                  // the request or the parsing raised

  /** A Google result: `href` of its first link (`None` without a link, `""` without an
      `href`), and the stripped text of its `h3`. */
  datatype SearchResult = SearchResult(link: Option<string>, heading: Option<string>)

  /** The `&f_E=` search parameter for an experience level. */
  function ExperienceFilter(level: Option<string>): (r: string)
    ensures r == "" <==> level != Some("mid") && level != Some("senior")
  {
    if level == Some("mid") then "&f_E=3,4"
    else if level == Some("senior") then "&f_E=4,5"
    else ""
  }

  /** The search URL for one page, from the `quote_plus`-encoded query and location. */
  function SearchUrl(query: string, location: string, expFilter: string, start: nat): string {
    "https://www.linkedin.com/jobs/search/?keywords=" + query + "&location=" + location
    + "&f_TPR=r604800" + expFilter + "&start=" + NatToString(start)
  }

  /** `range(0, stop, step)`. */
  function Offsets(start: nat, stop: int, step: nat): (r: seq<nat>)
    requires step > 0
    ensures forall i :: 0 <= i < |r| ==> start <= r[i] < stop
    decreases stop - start
  {
    if start >= stop then [] else [start] + Offsets(start + step, stop, step)
  }

  /** The offsets are `start`, `start + step`, ... in order, and the first offset
      left out is at or above `stop`. */
  lemma {:induction false} OffsetsExactly(start: nat, stop: int, step: nat)
    requires step > 0
    ensures var r := Offsets(start, stop, step);
      (forall i :: 0 <= i < |r| ==> r[i] == start + i * step) && start + |r| * step >= stop
    decreases stop - start
  {
    if start < stop {
      OffsetsExactly(start + step, stop, step);
      var rest := Offsets(start + step, stop, step);
      var r := Offsets(start, stop, step);
      assert r == [start] + rest;
      forall i | 0 < i < |r| ensures r[i] == start + i * step {
        NextMultiple(i - 1, step);
        assert r[i] == rest[i - 1] == start + step + (i - 1) * step;
      }
      NextMultiple(|rest|, step);
    }
  }

  lemma NextMultiple(k: int, step: int)
    ensures (k + 1) * step == k * step + step
  {
  }

  /** `url.split("?")[0]`. */
  function DropQuery(url: string): string {
    SplitOn(url, "?")[0]
  }

  /** `url.split("/view/")[-1].rstrip("/")`. */
  function ViewId(url: string): string {
    RStripChar(Last(SplitOn(url, "/view/")), '/')
  }

  /** The URL kept for a card is its link up to the query string. */
  lemma DropQueryIsPrefix(url: string)
    ensures DropQuery(url) <= url && '?' !in DropQuery(url)
    ensures '?' !in url ==> DropQuery(url) == url
  {
    SplitOnFirst(url, "?");
    var d := DropQuery(url);
    if '?' in d {
      var i :| 0 <= i < |d| && d[i] == '?';
      assert StartsWith(d[i..], "?");
      ContainsIn(d, i, "?");
    }
    if '?' !in url && Contains(url, "?") {
      ContainsWitness(url, "?");
    }
  }

  /** A job id comes from the text after the last `/view/` of the URL: that tail holds
      no `/view/`, and the id is the tail without its trailing slashes. */
  lemma ViewIdSplits(url: string)
    requires Contains(url, "/view/")
    ensures var parts := SplitOn(url, "/view/"); var tail := Last(parts); var id := ViewId(url);
      && |parts| >= 2 && url == Join(parts[..|parts| - 1], "/view/") + "/view/" + tail
      && !Contains(tail, "/view/") && !Contains(id, "/view/")
      && id <= tail && (id == [] || id[|id| - 1] != '/')
      && forall i :: |id| <= i < |tail| ==> tail[i] == '/'
  {
    SplitOnLastSplits(url, "/view/");
    SplitOnLast(url, "/view/");
    var tail := Last(SplitOn(url, "/view/"));
    var id := ViewId(url);
    assert tail == id + tail[|id|..];
    if Contains(id, "/view/") {
      ContainsExtendRight(id, tail[|id|..], "/view/");
    }
  }

  /** An occurrence at position `i` is an occurrence. */
  lemma {:induction false} ContainsIn(s: string, i: nat, p: string)
    requires i <= |s| && StartsWith(s[i..], p)
    ensures Contains(s, p)
    decreases i
  {
    if i > 0 {
      assert s[1..][i - 1..] == s[i..];
      ContainsIn(s[1..], i - 1, p);
    }
  }

  /** A one-character occurrence is an occurrence of that character. */
  lemma {:induction false} ContainsWitness(s: string, p: string)
    requires |p| == 1 && Contains(s, p)
    ensures p[0] in s
    decreases |s|
  {
    if !StartsWith(s, p) {
      ContainsWitness(s[1..], p);
    } else {
      assert s[0] == p[0];
    }
  }

  /** The listing a card describes. */
  function CardListing(card: Card): JobListing {
    var link := LinkFields(card.link);
    JobListing(card.title.GetOr(""), card.company.GetOr(""), card.location.GetOr(""), link.0, "",
               card.time.GetOr(""), "linkedin", link.1)
  }

  /** The URL kept from a card's link, and the job id read from that URL. */
  function LinkFields(link: Option<string>): (string, string) {
    var url := if link.Some? then DropQuery(link.value) else "";
    (url, if Contains(url, "/view/") then ViewId(url) else "")
  }

  /** The listing read from one card: title, company and location from their elements,
      the link without its query string, the job id when the link has `/view/`, and the
      posting date. */
  method ReadCard(card: Card) returns (job: JobListing)
    ensures job == CardListing(card)
    ensures job.source == "linkedin" && job.description == ""
    ensures job.title == card.title.GetOr("") && job.company == card.company.GetOr("")
    ensures job.location == card.location.GetOr("") && job.datePosted == card.time.GetOr("")
    ensures job.url == (if card.link.Some? then DropQuery(card.link.value) else "")
    ensures job.jobId != "" ==> Contains(job.url, "/view/") && job.jobId == ViewId(job.url)
    ensures Contains(job.url, "/view/") ==> job.jobId == ViewId(job.url)
  {
    job := EmptyListing("linkedin");
    if card.title.Some? {
      job := job.(title := card.title.value);
    }
    if card.company.Some? {
      job := job.(company := card.company.value);
    }
    if card.location.Some? {
      job := job.(location := card.location.value);
    }
    if card.link.Some? {
      job := job.(url := DropQuery(card.link.value));
      if Contains(job.url, "/view/") {
        job := job.(jobId := ViewId(job.url));
      }
    }
    if card.time.Some? {
      job := job.(datePosted := card.time.value);
    }
  }

  /** What a listing taken from a card promises: a title and a company. */
  predicate FromCard(job: JobListing) {
    job.source == "linkedin" && job.title != "" && job.company != ""
  }

  /** What a listing from the Google fallback promises: a title and a LinkedIn jobs link. */
  predicate FromGoogle(job: JobListing) {
    job.source == "linkedin_via_google" && job.title != "" && Contains(job.url, "linkedin.com/jobs")
  }

  /** The number of results asked of Google: `min(max_results, 20)`. */
  function ResultCount(maxResults: int): (r: int)
    ensures r <= 20 && r <= maxResults && (r == 20 || r == maxResults)
  {
    if maxResults < 20 then maxResults else 20
  }

  /** The cleaned result heading split at its first `" - "`, both sides stripped. */
  function HeadingParts(text: string): (r: Option<(string, string)>)
  {
    var cleaned := ReplaceAll(text, " | LinkedIn", "");
    if |SplitOn(cleaned, " - ")| >= 2 then
      var halves := SplitOnce(cleaned, " - ");
      Some((Strip(halves.0), Strip(halves.1)))
    else None
  }

  /** With a separator the title is the stripped text before the first `" - "`, which
      holds no separator; without one, the whole heading is the title, `" | LinkedIn"`
      included. */
  lemma HeadingSplit(text: string)
    ensures var cleaned := ReplaceAll(text, " | LinkedIn", "");
      match HeadingParts(text)
      case Some(p) => Contains(cleaned, " - ")
                      && exists before, after :: cleaned == before + " - " + after && !Contains(before, " - ")
                                                && p.0 == Strip(before) && p.1 == Strip(after)
      case None => !Contains(cleaned, " - ")
  {
    var cleaned := ReplaceAll(text, " | LinkedIn", "");
    SplitOnFirst(cleaned, " - ");
    JoinSplitOn(cleaned, " - ");
    if |SplitOn(cleaned, " - ")| >= 2 {
      var halves := SplitOnce(cleaned, " - ");
      assert cleaned == halves.0 + " - " + halves.1;
      assert halves.0 == SplitOn(cleaned, " - ")[0];
    }
  }

  /** The listing a Google result describes. */
  function ResultListing(link: string, heading: Option<string>): JobListing {
    var job := EmptyListing("linkedin_via_google").(url := link);
    if heading.None? then job
    else match HeadingParts(heading.value)
      case Some(p) => job.(title := p.0, company := p.1)
      case None => job.(title := heading.value)
  }

  /** The listing read from a Google result: the link, and the title and company from
      the heading. */
  method ReadResult(link: string, heading: Option<string>) returns (job: JobListing)
    ensures job == ResultListing(link, heading)
    ensures job.source == "linkedin_via_google" && job.url == link
    ensures heading.None? ==> job.title == "" && job.company == ""
    ensures heading.Some? ==> match HeadingParts(heading.value)
      case Some(p) => job.title == p.0 && job.company == p.1
      case None => job.title == heading.value && job.company == ""
  {
    job := EmptyListing("linkedin_via_google");
    job := job.(url := link);
    if heading.Some? {
      var text := heading.value;
      match HeadingParts(text)
      case Some(p) =>
        job := job.(title := p.0, company := p.1);
      case None =>
        job := job.(title := text);
    }
  }

  /** A result whose link goes to LinkedIn jobs; the loop `continue`s past the others. */
  predicate LinksToJobs(result: SearchResult) {
    result.link.Some? && Contains(result.link.value, "linkedin.com/jobs")
  }

  /** The listing kept for a result: one linking to LinkedIn jobs whose heading gives
      a title. */
  function GooglePick(result: SearchResult): Option<JobListing> {
    if !LinksToJobs(result) then None
    else
      var job := ResultListing(result.link.value, result.heading);
      if job.title != "" then Some(job) else None
  }

  /** `GooglePick` as the picker of the results loop. */
  function GooglePicker(): (nat, SearchResult) -> Option<JobListing> {
    (i: nat, result: SearchResult) => GooglePick(result)
  }

  /** The Google search URL: the quoted `site:` query and `min(max_results, 20)` results. */
  function GoogleUrl(query: string, location: string, maxResults: int): string {
    "https://www.google.com/search?q=" + QuotePlus("site:linkedin.com/jobs/view " + query + " " + location)
    + "&num=" + IntToString(ResultCount(maxResults))
  }

  /** The length of the results up to and including the first one linking to LinkedIn
      jobs, or of all of them when none does. */
  function ThroughFirstLink(results: seq<SearchResult>): (n: nat)
    ensures n <= |results|
    decreases |results|
  {
    if results == [] then 0
    else if LinksToJobs(results[0]) then 1
    else 1 + ThroughFirstLink(results[1..])
  }

  /** None of `results` links to LinkedIn jobs. */
  predicate NoJobLinks(results: seq<SearchResult>) {
    forall j :: 0 <= j < |results| ==> !LinksToJobs(results[j])
  }

  lemma NoJobLinksStep(results: seq<SearchResult>, i: nat)
    requires i < |results| && NoJobLinks(results[..i]) && !LinksToJobs(results[i])
    ensures NoJobLinks(results[..i + 1])
  {
    assert forall j :: 0 <= j < i ==> results[..i][j] == results[j];
  }

  lemma {:induction false} ThroughFirstLinkAt(results: seq<SearchResult>, i: nat)
    requires i <= |results| && NoJobLinks(results[..i])
    ensures i < |results| && LinksToJobs(results[i]) ==> ThroughFirstLink(results) == i + 1
    ensures i == |results| ==> ThroughFirstLink(results) == |results|
    decreases i
  {
    if i > 0 {
      assert results[..i][0] == results[0] && !LinksToJobs(results[0]);
      assert results[1..][..i - 1] == results[..i][1..];
      ThroughFirstLinkAt(results[1..], i - 1);
    }
  }

  /** The results the loop keeps: for a positive count the first `maxResults` kept
      results; otherwise the loop stops at the first result linking to LinkedIn jobs. */
  function GoogleTaken(results: seq<SearchResult>, maxResults: int): seq<JobListing> {
    if maxResults >= 1 then Take(Pick(results, GooglePicker()), maxResults)
    else Pick(results[..ThroughFirstLink(results)], GooglePicker())
  }

  /** What the fallback returns: nothing when the request raises, otherwise the results
      it keeps. */
  function GoogleJobs(query: string, location: string, maxResults: int,
                      google: string -> Option<seq<SearchResult>>): seq<JobListing>
  {
    match google(GoogleUrl(query, location, maxResults))
    case None => []
    case Some(results) => GoogleTaken(results, maxResults)
  }

  /** The query sits in one URL parameter, and the requested count is `min(max_results, 20)`. */
  lemma GoogleUrlParameters(query: string, location: string, maxResults: int)
    ensures var q := QuotePlus("site:linkedin.com/jobs/view " + query + " " + location);
      && GoogleUrl(query, location, maxResults) == "https://www.google.com/search?q=" + q + "&num=" + IntToString(ResultCount(maxResults))
      && '&' !in q && '#' !in q
  {
    QuotePlusAlphabet("site:linkedin.com/jobs/view " + query + " " + location);
  }

  /** One turn of the results loop: `linked` unless the loop `continue`s past the result,
      and the listing it keeps, if any. */
  method ResultTurn(result: SearchResult, ghost i: nat) returns (picked: Option<JobListing>, linked: bool)
    ensures linked == LinksToJobs(result)
    ensures picked == GooglePicker()(i, result)
  {
    if result.link.None? || !Contains(result.link.value, "linkedin.com/jobs") {
      return None, false;
    }
    var job := ReadResult(result.link.value, result.heading);
    picked := if job.title != "" then Some(job) else None;
    linked := true;
  }

  /** The listings from position `k` on came from the Google fallback. */
  predicate FromGoogles(jobs: seq<JobListing>, k: nat) {
    forall j :: k <= j < |jobs| ==> FromGoogle(jobs[j])
  }

  /** `_scrape_via_google`: one request to `google` (which answers `None` when it
      raises); keeps results whose link goes to LinkedIn jobs and that yield a title,
      in order, and stops once `maxResults` are kept. */
  method ScrapeViaGoogle(query: string, location: string, maxResults: int,
                         google: string -> Option<seq<SearchResult>>) returns (jobs: seq<JobListing>)
    ensures jobs == GoogleJobs(query, location, maxResults, google)
    ensures |jobs| <= if maxResults < 1 then 1 else maxResults
    ensures FromGoogles(jobs, 0)
  {
    jobs := [];
    var answer := google(GoogleUrl(query, location, maxResults));
    if answer.None? {
      return;
    }
    jobs := TakeResults(answer.value, maxResults);
    GoogleTakenFromGoogle(answer.value, maxResults);
  }

  /** Every listing the results loop keeps is a Google listing. */
  lemma GoogleTakenFromGoogle(results: seq<SearchResult>, maxResults: int)
    ensures FromGoogles(GoogleTaken(results, maxResults), 0)
  {
    GooglePicksFromGoogle(results);
    if maxResults < 1 {
      PickPrefix(results, GooglePicker(), ThroughFirstLink(results));
    }
  }

  /** Every listing the fallback returns is a Google listing. */
  lemma GoogleJobsFromGoogle(query: string, location: string, maxResults: int,
                             google: string -> Option<seq<SearchResult>>)
    ensures FromGoogles(GoogleJobs(query, location, maxResults, google), 0)
  {
    var answer := google(GoogleUrl(query, location, maxResults));
    if answer.Some? {
      GoogleTakenFromGoogle(answer.value, maxResults);
    }
  }

  lemma {:induction false} GooglePicksFromGoogle(results: seq<SearchResult>)
    ensures FromGoogles(Pick(results, GooglePicker()), 0)
    decreases |results|
  {
    if results != [] {
      GooglePicksFromGoogle(results[..|results| - 1]);
    }
  }

  /** The loop over Google's results, which stops once `maxResults` listings are kept. */
  method TakeResults(results: seq<SearchResult>, maxResults: int) returns (jobs: seq<JobListing>)
    ensures jobs == GoogleTaken(results, maxResults)
    ensures |jobs| <= if maxResults < 1 then 1 else maxResults
  {
    jobs := [];
    var i := 0;
    while i < |results|
      invariant 0 <= i <= |results| && jobs == Pick(results[..i], GooglePicker())
      invariant maxResults >= 1 ==> |jobs| < maxResults
      invariant maxResults < 1 ==> jobs == [] && NoJobLinks(results[..i])
    {
      PickStep(results, GooglePicker(), i);
      var picked, linked := ResultTurn(results[i], i);
      if picked.Some? {
        jobs := jobs + [picked.value];
      }
      if linked && |jobs| >= maxResults {
        GoogleStop(results, maxResults, i + 1, true, jobs);
        return;
      }
      if maxResults < 1 {
        NoJobLinksStep(results, i);
      }
      i := i + 1;
    }
    assert results[..i] == results;
    GoogleStop(results, maxResults, i, false, jobs);
  }

  /** Where the results loop stops, after the first `n` results, it has kept what
      `GoogleTaken` describes: either it `stopped` at a result linking to LinkedIn jobs
      once the count was reached, or it ran through every result. */
  lemma GoogleStop(results: seq<SearchResult>, maxResults: int, n: nat, stopped: bool,
                   jobs: seq<JobListing>)
    requires n <= |results| && jobs == Pick(results[..n], GooglePicker())
    requires maxResults >= 1 ==> |jobs| <= maxResults
    requires stopped ==> 1 <= n && LinksToJobs(results[n - 1]) && |jobs| >= maxResults
    requires !stopped ==> n == |results|
    requires maxResults < 1 && stopped ==> NoJobLinks(results[..n - 1])
    requires maxResults < 1 && !stopped ==> NoJobLinks(results)
    ensures jobs == GoogleTaken(results, maxResults)
  {
    if maxResults >= 1 {
      PickCapped(results, GooglePicker(), n, maxResults);
    } else {
      FirstLinkStop(results, n, stopped, jobs);
    }
  }

  /** With no positive count, the loop stops right after the first result linking to
      LinkedIn jobs. */
  lemma FirstLinkStop(results: seq<SearchResult>, n: nat, stopped: bool, jobs: seq<JobListing>)
    requires n <= |results| && jobs == Pick(results[..n], GooglePicker())
    requires stopped ==> 1 <= n && LinksToJobs(results[n - 1])
    requires !stopped ==> n == |results|
    requires stopped ==> NoJobLinks(results[..n - 1])
    requires !stopped ==> NoJobLinks(results)
    ensures jobs == Pick(results[..ThroughFirstLink(results)], GooglePicker())
  {
    if stopped {
      ThroughFirstLinkAt(results, n - 1);
    } else {
      assert results[..n] == results;
      ThroughFirstLinkAt(results, n);
    }
  }

  /** The listing kept for a card: one with a title and a company. */
  function CardPick(card: Card): Option<JobListing> {
    if card.title.GetOr("") != "" && card.company.GetOr("") != "" then Some(CardListing(card)) else None
  }

  /** `CardPick` as the picker of the card loop. */
  function CardPicker(): (nat, Card) -> Option<JobListing> {
    (i: nat, card: Card) => CardPick(card)
  }

  /** One turn of the card loop: the card's listing when it has a title and a company. */
  method PickCard(card: Card, ghost i: nat) returns (picked: Option<JobListing>)
    ensures picked == CardPicker()(i, card)
    ensures picked.Some? ==> FromCard(picked.value)
  {
    var job := ReadCard(card);
    picked := if job.title != "" && job.company != "" then Some(job) else None;
  }

  /** The listings from position `k` on were read from cards. */
  predicate FromCards(jobs: seq<JobListing>, k: nat) {
    forall j :: k <= j < |jobs| ==> FromCard(jobs[j])
  }

  /** What the card loop appends with room for `room` more listings: the first `room`
      kept cards; with no room, the first card alone ends the loop. */
  function CardsTaken(cards: seq<Card>, room: int): seq<JobListing> {
    if room >= 1 then Take(Pick(cards, CardPicker()), room)
    else Pick(Take(cards, 1), CardPicker())
  }

  /** Reads the cards of one page until `maxResults` listings are held: every card with
      a title and a company is appended, in order, until the cap is reached. */
  method TakeCards(jobs0: seq<JobListing>, cards: seq<Card>, maxResults: int) returns (jobs: seq<JobListing>)
    requires |jobs0| < maxResults
    ensures jobs == jobs0 + Take(Pick(cards, CardPicker()), maxResults - |jobs0|)
    ensures |jobs| <= maxResults
    ensures FromCards(jobs, |jobs0|)
  {
    var room := maxResults - |jobs0|;
    var got := TakeRoom(cards, room);
    jobs := jobs0 + got;
  }

  /** The card loop with room for `room` more listings. */
  method TakeRoom(cards: seq<Card>, room: nat) returns (got: seq<JobListing>)
    requires room >= 1
    ensures got == Take(Pick(cards, CardPicker()), room)
    ensures FromCards(got, 0)
  {
    got := [];
    var i := 0;
    while i < |cards|
      invariant 0 <= i <= |cards| && got == Pick(cards[..i], CardPicker()) && |got| < room
      invariant FromCards(got, 0)
    {
      PickStep(cards, CardPicker(), i);
      var picked := PickCard(cards[i], i);
      if picked.Some? {
        got := got + [picked.value];
      }
      if |got| >= room {
        PickPrefix(cards, CardPicker(), i + 1);
        return;
      }
      i := i + 1;
    }
    assert cards[..i] == cards;
  }

  lemma {:induction false} CardPicksFromCards(cards: seq<Card>)
    ensures FromCards(Pick(cards, CardPicker()), 0)
    decreases |cards|
  {
    if cards != [] {
      CardPicksFromCards(cards[..|cards| - 1]);
    }
  }

  /** Every listing the card loop keeps was read from a card with a title and a company. */
  lemma CardsTakenFromCards(cards: seq<Card>, room: int)
    ensures FromCards(CardsTaken(cards, room), 0)
  {
    CardPicksFromCards(cards);
    if room < 1 {
      CardPicksFromCards(Take(cards, 1));
    }
  }

  /** Every listing was read from a card or from a Google result. */
  predicate AllSourced(jobs: seq<JobListing>) {
    forall j :: 0 <= j < |jobs| ==> FromCard(jobs[j]) || FromGoogle(jobs[j])
  }

  /** The search URL for the page at `start`. */
  function PageUrl(query: string, location: string, expFilter: string, start: nat): string {
    SearchUrl(QuotePlus(query), QuotePlus(location), expFilter, start)
  }

  /** One page of the run, read from the listings `jobs` already held: the listings then
      held, and whether the run ends there. A refused page ends in the Google fallback
      asking for `maxResults`; a failed page or one without cards ends in the fallback
      asking for what is still missing; otherwise the page's cards are taken, and the run
      ends once `maxResults` are held. */
  function PageStep(query: string, location: string, maxResults: int,
                    google: string -> Option<seq<SearchResult>>,
                    page: Page, jobs: seq<JobListing>): (seq<JobListing>, bool)
  {
    if page.NotOk? then (jobs + GoogleJobs(query, location, maxResults, google), true)
    else if page.Failure? || page.cards == [] then (jobs + GoogleJobs(query, location, maxResults - |jobs|, google), true)
    else
      var next := jobs + CardsTaken(page.cards, maxResults - |jobs|);
      (next, |next| >= maxResults)
  }

  /** The pages at `starts`, one `PageStep` each, until one ends the run. */
  function LinkedInRun(query: string, location: string, maxResults: int, expFilter: string,
                       fetch: string -> Page, google: string -> Option<seq<SearchResult>>,
                       starts: seq<nat>, jobs: seq<JobListing>): seq<JobListing>
    decreases |starts|, 1
  {
    if starts == [] then jobs else RunPage(query, location, maxResults, expFilter, fetch, google, starts, jobs)
  }

  /** The page at the first offset, then the rest of the run unless it ends there. */
  function RunPage(query: string, location: string, maxResults: int, expFilter: string,
                   fetch: string -> Page, google: string -> Option<seq<SearchResult>>,
                   starts: seq<nat>, jobs: seq<JobListing>): seq<JobListing>
    requires starts != []
    decreases |starts|, 0
  {
    var step := PageStep(query, location, maxResults, google,
                         fetch(PageUrl(query, location, expFilter, starts[0])), jobs);
    if step.1 then step.0
    else LinkedInRun(query, location, maxResults, expFilter, fetch, google, starts[1..], step.0)
  }

  /** A page that ends the run: refused, failed, or without cards. */
  predicate EndsRun(page: Page) {
    page.NotOk? || page.Failure? || page.cards == []
  }

  /** Pages after the first one that ends the run are never requested: a search service
      answering the same up to that page gives the same listings. */
  lemma {:induction false} LinkedInStopsAtFallback(query: string, location: string, maxResults: int, expFilter: string,
                                                  fetch: string -> Page, fetch2: string -> Page,
                                                  google: string -> Option<seq<SearchResult>>,
                                                  starts: seq<nat>, jobs: seq<JobListing>, k: nat)
    requires k < |starts|
    requires forall j :: 0 <= j <= k ==>
      fetch(PageUrl(query, location, expFilter, starts[j])) == fetch2(PageUrl(query, location, expFilter, starts[j]))
    requires EndsRun(fetch(PageUrl(query, location, expFilter, starts[k])))
    ensures LinkedInRun(query, location, maxResults, expFilter, fetch, google, starts, jobs)
         == LinkedInRun(query, location, maxResults, expFilter, fetch2, google, starts, jobs)
    decreases k
  {
    var page := fetch(PageUrl(query, location, expFilter, starts[0]));
    assert page == fetch2(PageUrl(query, location, expFilter, starts[0]));
    assert LinkedInRun(query, location, maxResults, expFilter, fetch, google, starts, jobs)
        == RunPage(query, location, maxResults, expFilter, fetch, google, starts, jobs);
    assert LinkedInRun(query, location, maxResults, expFilter, fetch2, google, starts, jobs)
        == RunPage(query, location, maxResults, expFilter, fetch2, google, starts, jobs);
    var step := PageStep(query, location, maxResults, google, page, jobs);
    if k > 0 && !EndsRun(page) && !step.1 {
      var next := step.0;
      forall j | 0 <= j <= k - 1
        ensures fetch(PageUrl(query, location, expFilter, starts[1..][j]))
             == fetch2(PageUrl(query, location, expFilter, starts[1..][j]))
      {
        assert starts[1..][j] == starts[j + 1];
      }
      assert starts[1..][k - 1] == starts[k];
      LinkedInStopsAtFallback(query, location, maxResults, expFilter, fetch, fetch2, google, starts[1..], next, k - 1);
    }
  }

  /** `scrape_linkedin_jobs`: pages of 25 from offset 0; a refused request falls back to
      the Google search (asking for `maxResults` results), as do a page without cards
      and a failure (asking for what is still missing). The listings are those of the
      run over the offsets, cut to `maxResults`; each was read from a card or from a
      Google result. */
  method ScrapeLinkedIn(query: string, location: string, maxResults: int, experienceLevel: Option<string>,
                        fetch: string -> Page, google: string -> Option<seq<SearchResult>>)
    returns (jobs: seq<JobListing>)
    ensures jobs == SlicePrefix(LinkedInRun(query, location, maxResults, ExperienceFilter(experienceLevel),
                                            fetch, google, Offsets(0, maxResults, 25), []), maxResults)
    ensures |jobs| <= if maxResults < 0 then 0 else maxResults
    ensures AllSourced(jobs)
  {
    jobs := [];
    var expFilter := ExperienceFilter(experienceLevel);
    var starts := Offsets(0, maxResults, 25);
    ghost var run := LinkedInRun(query, location, maxResults, expFilter, fetch, google, starts, []);
    var k := 0;
    while k < |starts|
      invariant 0 <= k <= |starts|
      invariant run == LinkedInRun(query, location, maxResults, expFilter, fetch, google, starts[k..], jobs)
      invariant jobs == [] || |jobs| < maxResults
      invariant maxResults <= 0 ==> jobs == []
    {
      assert starts[k..][1..] == starts[k + 1..];
      assert run == RunPage(query, location, maxResults, expFilter, fetch, google, starts[k..], jobs);
      var page := fetch(SearchUrl(QuotePlus(query), QuotePlus(location), expFilter, starts[k]));
      var done;
      jobs, done := ScrapePage(query, location, maxResults, google, page, jobs);
      if done {
        break;
      }
      k := k + 1;
    }
    RunSourced(query, location, maxResults, expFilter, fetch, google, starts, []);
    jobs := SlicePrefix(jobs, maxResults);
    AllSourcedPrefix(run, jobs);
  }

  /** The body of the page loop for one fetched page: `done` when the loop breaks. */
  method ScrapePage(query: string, location: string, maxResults: int,
                    google: string -> Option<seq<SearchResult>>, page: Page, jobs0: seq<JobListing>)
    returns (jobs: seq<JobListing>, done: bool)
    requires |jobs0| < maxResults
    ensures (jobs, done) == PageStep(query, location, maxResults, google, page, jobs0)
    ensures !done ==> |jobs| < maxResults
  {
    if page.NotOk? {
      var more := ScrapeViaGoogle(query, location, maxResults, google);
      return jobs0 + more, true;
    }
    if page.Failure? || page.cards == [] {
      var more := ScrapeViaGoogle(query, location, maxResults - |jobs0|, google);
      return jobs0 + more, true;
    }
    jobs := TakeCards(jobs0, page.cards, maxResults);
    done := |jobs| >= maxResults;
  }

  /** One page keeps every listing sourced. */
  lemma PageStepSourced(query: string, location: string, maxResults: int,
                        google: string -> Option<seq<SearchResult>>, page: Page, jobs: seq<JobListing>)
    requires AllSourced(jobs)
    ensures AllSourced(PageStep(query, location, maxResults, google, page, jobs).0)
  {
    if page.NotOk? {
      GoogleJobsFromGoogle(query, location, maxResults, google);
      AllSourcedAppend(jobs, GoogleJobs(query, location, maxResults, google));
    } else if page.Failure? || page.cards == [] {
      GoogleJobsFromGoogle(query, location, maxResults - |jobs|, google);
      AllSourcedAppend(jobs, GoogleJobs(query, location, maxResults - |jobs|, google));
    } else {
      CardsTakenFromCards(page.cards, maxResults - |jobs|);
      AllSourcedCards(jobs, CardsTaken(page.cards, maxResults - |jobs|));
    }
  }

  /** A run keeps every listing sourced. */
  lemma {:induction false} RunSourced(query: string, location: string, maxResults: int, expFilter: string,
                                      fetch: string -> Page, google: string -> Option<seq<SearchResult>>,
                                      starts: seq<nat>, jobs: seq<JobListing>)
    requires AllSourced(jobs)
    ensures AllSourced(LinkedInRun(query, location, maxResults, expFilter, fetch, google, starts, jobs))
    decreases |starts|
  {
    if starts != [] {
      assert LinkedInRun(query, location, maxResults, expFilter, fetch, google, starts, jobs)
          == RunPage(query, location, maxResults, expFilter, fetch, google, starts, jobs);
      var page := fetch(PageUrl(query, location, expFilter, starts[0]));
      PageStepSourced(query, location, maxResults, google, page, jobs);
      var step := PageStep(query, location, maxResults, google, page, jobs);
      if !step.1 {
        RunSourced(query, location, maxResults, expFilter, fetch, google, starts[1..], step.0);
      }
    }
  }

  lemma AllSourcedAppend(jobs: seq<JobListing>, more: seq<JobListing>)
    requires AllSourced(jobs) && FromGoogles(more, 0)
    ensures AllSourced(jobs + more)
  {
  }

  lemma AllSourcedCards(jobs: seq<JobListing>, more: seq<JobListing>)
    requires AllSourced(jobs) && FromCards(more, 0)
    ensures AllSourced(jobs + more)
  {
  }

  lemma AllSourcedPrefix(jobs: seq<JobListing>, r: seq<JobListing>)
    requires AllSourced(jobs) && r <= jobs
    ensures AllSourced(r)
  {
  }
}
