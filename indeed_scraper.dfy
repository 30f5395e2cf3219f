/** The Indeed scraper with the network and the HTML parser taken out: a page of
    results arrives as the job cards the parser would find on it. */
module IndeedScraper {
  import opened Wrappers
  import opened Text
  import opened Seqs
  import LinkedInScraper

  /** A job card: the title element's stripped text together with the `href` of the link
      inside it (`None` without a link, `""` without an `href`), and the stripped texts of
      the company and location elements. */
  datatype Card = Card(
    title: Option<(string, Option<string>)>,
    company: Option<string>,
    location: Option<string>)

  /** One response of the search page. */
  datatype Page =
    | NotOk(status: int)       // a status other than 200: scraping stops
    | Cards(cards: seq<Card>)  // the cards found, possibly none
    | Failure                  // the request or the parsing raised: scraping stops

  /** A site-relative link is made absolute; any other link is kept. */
  function AbsoluteUrl(href: string): (r: string)
    ensures StartsWith(href, "/") ==> r == "https://www.indeed.com" + href
    ensures !StartsWith(href, "/") ==> r == href
  {
    if StartsWith(href, "/") then "https://www.indeed.com" + href else href
  }

  /** `url.split("jk=")[-1].split("&")[0]`. */
  function JobKey(url: string): string {
    SplitOn(Last(SplitOn(url, "jk=")), "&")[0]
  }

  /** The job key is the start of the text after the last `jk=` and runs up to, not
      including, the first `&` after it. */
  lemma JobKeyAfterLastMarker(url: string)
    requires Contains(url, "jk=")
    ensures var parts := SplitOn(url, "jk="); var tail := Last(parts); var key := JobKey(url);
      && url == Join(parts[..|parts| - 1], "jk=") + "jk=" + tail
      && !Contains(tail, "jk=") && key <= tail && !Contains(key, "&")
      && (Contains(tail, "&") ==> |key| < |tail| && tail[|key|] == '&')
  {
    SplitOnLastSplits(url, "jk=");
    SplitOnLast(url, "jk=");
    var tail := Last(SplitOn(url, "jk="));
    SplitOnFirst(tail, "&");
    var key := JobKey(url);
    if Contains(tail, "&") {
      var parts := SplitOn(tail, "&");
      JoinSplitOn(tail, "&");
      assert parts == [parts[0]] + parts[1..];
      assert tail == key + "&" + Join(parts[1..], "&") by {
        var halves := SplitOnce(tail, "&");
      }
    }
  }

  /** The stripped text of a card's title element, `""` without one. */
  function TitleText(card: Card): string {
    if card.title.Some? then card.title.value.0 else ""
  }

  /** The URL read from a card's title link, `""` without a link. */
  function CardUrl(card: Card): string {
    if card.title.Some? && card.title.value.1.Some? then AbsoluteUrl(card.title.value.1.value) else ""
  }

  /** The listing a card describes. */
  function CardListing(card: Card): LinkedInScraper.JobListing {
    var url := CardUrl(card);
    LinkedInScraper.JobListing(TitleText(card), card.company.GetOr(""), card.location.GetOr(""), url, "", "",
                               "indeed", if Contains(url, "jk=") then JobKey(url) else "")
  }

  /** The listing read from one card: title and link from the title element, the link
      made absolute, the job id after `jk=` when the link has one, and the company and
      location from their elements. */
  method ReadCard(card: Card) returns (job: LinkedInScraper.JobListing)
    ensures job == CardListing(card)
    ensures job.source == "indeed" && job.description == "" && job.datePosted == ""
    ensures job.title == (if card.title.Some? then card.title.value.0 else "")
    ensures job.company == card.company.GetOr("") && job.location == card.location.GetOr("")
    ensures job.url == (if card.title.Some? && card.title.value.1.Some? then AbsoluteUrl(card.title.value.1.value) else "")
    ensures job.jobId == (if Contains(job.url, "jk=") then JobKey(job.url) else "")
  {
    job := LinkedInScraper.EmptyListing("indeed");
    if card.title.Some? {
      job := job.(title := card.title.value.0);
      if card.title.value.1.Some? {
        var href := card.title.value.1.value;
        if StartsWith(href, "/") {
          job := job.(url := "https://www.indeed.com" + href);
        } else {
          job := job.(url := href);
        }
        if Contains(job.url, "jk=") {
          job := job.(jobId := JobKey(job.url));
        }
      }
    }
    if card.company.Some? {
      job := job.(company := card.company.value);
    }
    if card.location.Some? {
      job := job.(location := card.location.value);
    }
  }

  /** What a kept Indeed listing promises. */
  predicate Kept(job: LinkedInScraper.JobListing) {
    job.source == "indeed" && job.title != "" && job.company != ""
  }

  /** The listings from position `k` on are kept Indeed listings. */
  predicate KeptFrom(jobs: seq<LinkedInScraper.JobListing>, k: nat) {
    forall j :: k <= j < |jobs| ==> Kept(jobs[j])
  }

  /** The listing kept for a card: one with a title and a company. */
  function CardPick(card: Card): Option<LinkedInScraper.JobListing> {
    if TitleText(card) != "" && card.company.GetOr("") != "" then Some(CardListing(card)) else None
  }

  /** `CardPick` as the picker of the card loop. */
  function CardPicker(): (nat, Card) -> Option<LinkedInScraper.JobListing> {
    (i: nat, card: Card) => CardPick(card)
  }

  /** One turn of the card loop: the card's listing when it has a title and a company. */
  method PickCard(card: Card, ghost i: nat) returns (picked: Option<LinkedInScraper.JobListing>)
    ensures picked == CardPicker()(i, card)
    ensures picked.Some? ==> Kept(picked.value)
  {
    var job := ReadCard(card);
    picked := if job.title != "" && job.company != "" then Some(job) else None;
  }

  /** What the card loop appends with room for `room` more listings: the first `room`
      kept cards; with no room, the first card alone ends the loop. */
  function CardsTaken(cards: seq<Card>, room: int): seq<LinkedInScraper.JobListing> {
    if room >= 1 then Take(Pick(cards, CardPicker()), room)
    else Pick(Take(cards, 1), CardPicker())
  }

  /** The search URL for one page, from the `quote_plus`-encoded query and location. */
  function SearchUrl(query: string, location: string, start: nat): string {
    "https://www.indeed.com/jobs?q=" + query + "&l=" + location + "&fromage=7&start=" + NatToString(start)
  }

  /** The search URL for the page at `start`. */
  function PageUrl(query: string, location: string, start: nat): string {
    SearchUrl(QuotePlus(query), QuotePlus(location), start)
  }

  /** Reads the cards of one page until `maxResults` listings are held: every card with
      a title and a company is appended, in order, until the cap is reached. */
  method TakeCards(jobs0: seq<LinkedInScraper.JobListing>, cards: seq<Card>, maxResults: int)
    returns (jobs: seq<LinkedInScraper.JobListing>)
    requires |jobs0| < maxResults
    ensures jobs == jobs0 + Take(Pick(cards, CardPicker()), maxResults - |jobs0|)
    ensures |jobs| <= maxResults
    ensures KeptFrom(jobs, |jobs0|)
  {
    var room := maxResults - |jobs0|;
    var got := TakeRoom(cards, room);
    jobs := jobs0 + got;
  }

  /** The card loop with room for `room` more listings. */
  method TakeRoom(cards: seq<Card>, room: nat) returns (got: seq<LinkedInScraper.JobListing>)
    requires room >= 1
    ensures got == Take(Pick(cards, CardPicker()), room)
    ensures KeptFrom(got, 0)
  {
    got := [];
    var i := 0;
    while i < |cards|
      invariant 0 <= i <= |cards| && got == Pick(cards[..i], CardPicker()) && |got| < room
      invariant KeptFrom(got, 0)
    {
      PickStep(cards, CardPicker(), i);
      var picked := PickCard(cards[i], i);
      if picked.Some? {
        got := got + [picked.value];
      }
      if |got| >= room {
        PickPrefix(cards, CardPicker(), i + 1);
        return;
      }
      i := i + 1;
    }
    assert cards[..i] == cards;
  }

  lemma {:induction false} CardPicksKept(cards: seq<Card>)
    ensures KeptFrom(Pick(cards, CardPicker()), 0)
    decreases |cards|
  {
    if cards != [] {
      CardPicksKept(cards[..|cards| - 1]);
    }
  }

  /** Every listing the card loop keeps has a title and a company. */
  lemma CardsTakenKept(cards: seq<Card>, room: int)
    ensures KeptFrom(CardsTaken(cards, room), 0)
  {
    CardPicksKept(cards);
    if room < 1 {
      CardPicksKept(Take(cards, 1));
    }
  }

  /** One page of the run, read from the listings `jobs` already held: the listings then
      held, and whether the run ends there. A refused or failed page ends the run with
      what is held; otherwise the page's cards are taken (none when it has no cards), and
      the run ends once `maxResults` are held. */
  function PageStep(maxResults: int, page: Page, jobs: seq<LinkedInScraper.JobListing>)
    : (seq<LinkedInScraper.JobListing>, bool)
  {
    if !page.Cards? then (jobs, true)
    else
      var next := jobs + CardsTaken(page.cards, maxResults - |jobs|);
      (next, |next| >= maxResults)
  }

  /** The pages at `starts`, one `PageStep` each, until one ends the run. */
  function IndeedRun(query: string, location: string, maxResults: int, fetch: string -> Page,
                     starts: seq<nat>, jobs: seq<LinkedInScraper.JobListing>): seq<LinkedInScraper.JobListing>
    decreases |starts|, 1
  {
    if starts == [] then jobs else RunPage(query, location, maxResults, fetch, starts, jobs)
  }

  /** The page at the first offset, then the rest of the run unless it ends there. */
  function RunPage(query: string, location: string, maxResults: int, fetch: string -> Page,
                   starts: seq<nat>, jobs: seq<LinkedInScraper.JobListing>): seq<LinkedInScraper.JobListing>
    requires starts != []
    decreases |starts|, 0
  {
    var step := PageStep(maxResults, fetch(PageUrl(query, location, starts[0])), jobs);
    if step.1 then step.0
    else IndeedRun(query, location, maxResults, fetch, starts[1..], step.0)
  }

  /** Pages after the first refused or failed one are never requested: a search service
      answering the same up to that page gives the same listings, which are those held
      before it. */
  lemma {:induction false} IndeedStopsAtRefusal(query: string, location: string, maxResults: int,
                                                fetch: string -> Page, fetch2: string -> Page,
                                                starts: seq<nat>, jobs: seq<LinkedInScraper.JobListing>, k: nat)
    requires k < |starts|
    requires forall j :: 0 <= j <= k ==>
      fetch(PageUrl(query, location, starts[j])) == fetch2(PageUrl(query, location, starts[j]))
    requires !fetch(PageUrl(query, location, starts[k])).Cards?
    ensures IndeedRun(query, location, maxResults, fetch, starts, jobs)
         == IndeedRun(query, location, maxResults, fetch2, starts, jobs)
    ensures IndeedRun(query, location, maxResults, fetch, starts, jobs)
         == IndeedRun(query, location, maxResults, fetch, starts[..k], jobs)
    decreases k
  {
    var page := fetch(PageUrl(query, location, starts[0]));
    assert page == fetch2(PageUrl(query, location, starts[0]));
    assert IndeedRun(query, location, maxResults, fetch, starts, jobs)
        == RunPage(query, location, maxResults, fetch, starts, jobs);
    assert IndeedRun(query, location, maxResults, fetch2, starts, jobs)
        == RunPage(query, location, maxResults, fetch2, starts, jobs);
    var step := PageStep(maxResults, page, jobs);
    if k == 0 {
      assert starts[..k] == [];
    } else {
      assert IndeedRun(query, location, maxResults, fetch, starts[..k], jobs)
          == RunPage(query, location, maxResults, fetch, starts[..k], jobs);
      assert starts[..k][0] == starts[0];
      if !step.1 {
        forall j | 0 <= j <= k - 1
          ensures fetch(PageUrl(query, location, starts[1..][j]))
               == fetch2(PageUrl(query, location, starts[1..][j]))
        {
          assert starts[1..][j] == starts[j + 1];
        }
        assert starts[1..][k - 1] == starts[k];
        assert starts[..k][1..] == starts[1..][..k - 1];
        IndeedStopsAtRefusal(query, location, maxResults, fetch, fetch2, starts[1..], step.0, k - 1);
      }
    }
  }

  /** `scrape_indeed_jobs`: pages of 10 from offset 0 below `maxResults`; a refused or
      failed request ends the scraping. The listings are those of the run over the
      offsets, cut to `maxResults`; each has a title and a company. */
  method ScrapeIndeed(query: string, location: string, maxResults: int, fetch: string -> Page)
    returns (jobs: seq<LinkedInScraper.JobListing>)
    ensures jobs == SlicePrefix(IndeedRun(query, location, maxResults, fetch,
                                          LinkedInScraper.Offsets(0, maxResults, 10), []), maxResults)
    ensures |jobs| <= if maxResults < 0 then 0 else maxResults
    ensures KeptFrom(jobs, 0)
  {
    jobs := [];
    var starts := LinkedInScraper.Offsets(0, maxResults, 10);
    ghost var run := IndeedRun(query, location, maxResults, fetch, starts, []);
    var k := 0;
    while k < |starts|
      invariant 0 <= k <= |starts|
      invariant run == IndeedRun(query, location, maxResults, fetch, starts[k..], jobs)
      invariant jobs == [] || |jobs| < maxResults
      invariant maxResults <= 0 ==> jobs == []
    {
      assert starts[k..][1..] == starts[k + 1..];
      assert run == RunPage(query, location, maxResults, fetch, starts[k..], jobs);
      var page := fetch(SearchUrl(QuotePlus(query), QuotePlus(location), starts[k]));
      var done;
      jobs, done := ScrapePage(maxResults, page, jobs);
      if done {
        break;
      }
      k := k + 1;
    }
    RunKept(query, location, maxResults, fetch, starts, []);
    jobs := SlicePrefix(jobs, maxResults);
    KeptPrefix(run, jobs);
  }

  /** The body of the page loop for one fetched page: `done` when the loop breaks. */
  method ScrapePage(maxResults: int, page: Page, jobs0: seq<LinkedInScraper.JobListing>)
    returns (jobs: seq<LinkedInScraper.JobListing>, done: bool)
    requires |jobs0| < maxResults
    ensures (jobs, done) == PageStep(maxResults, page, jobs0)
    ensures !done ==> |jobs| < maxResults
  {
    if !page.Cards? {
      return jobs0, true;
    }
    jobs := TakeCards(jobs0, page.cards, maxResults);
    done := |jobs| >= maxResults;
  }

  /** A run adds only kept listings. */
  lemma {:induction false} RunKept(query: string, location: string, maxResults: int, fetch: string -> Page,
                                   starts: seq<nat>, jobs: seq<LinkedInScraper.JobListing>)
    requires KeptFrom(jobs, 0)
    ensures KeptFrom(IndeedRun(query, location, maxResults, fetch, starts, jobs), 0)
    decreases |starts|
  {
    if starts != [] {
      assert IndeedRun(query, location, maxResults, fetch, starts, jobs)
          == RunPage(query, location, maxResults, fetch, starts, jobs);
      var page := fetch(PageUrl(query, location, starts[0]));
      var step := PageStep(maxResults, page, jobs);
      if page.Cards? {
        CardsTakenKept(page.cards, maxResults - |jobs|);
        KeptAppend(jobs, CardsTaken(page.cards, maxResults - |jobs|));
      }
      if !step.1 {
        RunKept(query, location, maxResults, fetch, starts[1..], step.0);
      }
    }
  }

  lemma KeptAppend(jobs: seq<LinkedInScraper.JobListing>, more: seq<LinkedInScraper.JobListing>)
    requires KeptFrom(jobs, 0) && KeptFrom(more, 0)
    ensures KeptFrom(jobs + more, 0)
  {
  }

  lemma KeptPrefix(jobs: seq<LinkedInScraper.JobListing>, r: seq<LinkedInScraper.JobListing>)
    requires KeptFrom(jobs, 0) && r <= jobs
    ensures KeptFrom(r, 0)
  {
  }
}
