/** The web API's own logic: the suggestion-session cache behind the two-phase
    tailoring flow, file-name sanitising, the finalize step's session lifecycle, and
    the scrape endpoints' de-duplication, tracking and board routing. The clock is a
    parameter (microseconds for the cache, an ISO string for the tracker); the
    renderers, the cover-letter writer and the network are parameters or left out. */
module Api {
  import opened Wrappers
  import opened Seqs
  import opened Text
  import JdParser
  import ResumeTailor
  import AtsOptimizer
  import ApplicationTracker
  import LinkedInScraper
  import IndeedScraper
  import GreenhouseLever

  type Bundle = ResumeTailor.Bundle
  type JobListing = LinkedInScraper.JobListing
  type Tracker = ApplicationTracker.Tracker
  type Application = ApplicationTracker.Application

  // ------------------------------------------------------------ session cache

  /** Microseconds in a day. */
  const DayMicros: int := 86_400_000_000

  /** `(later - earlier).seconds`: the seconds component of the difference, with whole
      days dropped, as Python's `timedelta` normalises it (days may be negative,
      seconds never are). Times are microseconds. */
  function AgeSeconds(later: int, earlier: int): (r: nat)
    ensures r < 86_400
  {
    ((later - earlier) % DayMicros) / 1_000_000
  }

  /** The cache's age test: strictly more than 1800 seconds. */
  predicate Expired(now: int, created: int) {
    AgeSeconds(now, created) > 1800
  }

  datatype CacheEntry = CacheEntry(data: Bundle, created: int)

  /** The entries the cleaning pass keeps, judged against the clock reading `cutoff`. */
  function Purge(entries: map<string, CacheEntry>, cutoff: int): map<string, CacheEntry> {
    map k | k in entries && !Expired(cutoff, entries[k].created) :: entries[k]
  }

  /** What a lookup at `now` answers. */
  function Lookup(entries: map<string, CacheEntry>, id: string, now: int): Option<Bundle> {
    if id in entries && !Expired(now, entries[id].created) then Some(entries[id].data) else None
  }

  /** The cache after a lookup at `now`: an expired entry found is deleted. */
  function AfterLookup(entries: map<string, CacheEntry>, id: string, now: int): map<string, CacheEntry> {
    if id in entries && Expired(now, entries[id].created) then entries - {id} else entries
  }

  /** The module-level `_suggestion_cache` dictionary. */
  class SuggestionCache {
    var entries: map<string, CacheEntry>

    constructor ()
      ensures entries == map[]
    {
      entries := map[];
    }

    /** `_cache_suggestions`: stores `data` under `id` stamped `now`, then deletes every
        entry that is expired at a second clock reading `cutoff`. */
    method CacheSuggestions(id: string, data: Bundle, now: int, cutoff: int)
      modifies this
      ensures entries == Purge(old(entries)[id := CacheEntry(data, now)], cutoff)
    {
      entries := entries[id := CacheEntry(data, now)];
      ghost var full := entries;
      var expired := set k | k in entries && Expired(cutoff, entries[k].created);
      var rest := expired;
      while rest != {}
        invariant rest <= expired
        invariant entries == full - (expired - rest)
        decreases rest
      {
        var k :| k in rest;
        entries := entries - {k};
        rest := rest - {k};
      }
      assert entries == Purge(full, cutoff);
    }

    /** `_get_cached_suggestions`: the data stored under `id` unless the entry is absent
        or expired at `now`; an expired entry is deleted, nothing else changes. */
    method GetCachedSuggestions(id: string, now: int) returns (r: Option<Bundle>)
      modifies this
      ensures r == Lookup(old(entries), id, now)
      ensures entries == AfterLookup(old(entries), id, now)
    {
      if id !in entries {
        return None;
      }
      var entry := entries[id];
      if AgeSeconds(now, entry.created) > 1800 {
        entries := entries - {id};
        return None;
      }
      return Some(entry.data);
    }
  }

  /** The cleaning pass keeps exactly the entries that are not expired, unchanged. */
  lemma PurgeKeepsFresh(entries: map<string, CacheEntry>, cutoff: int, k: string)
    requires k in entries
    ensures k in Purge(entries, cutoff) <==> !Expired(cutoff, entries[k].created)
    ensures k in Purge(entries, cutoff) ==> Purge(entries, cutoff)[k] == entries[k]
  {
  }

  /** An age below 1801 seconds is never expired; in particular the entry just inserted
      survives the cleaning pass that follows it, when the two clock readings are less
      than 1801 seconds apart. */
  lemma YoungNotExpired(now: int, created: int)
    requires 0 <= now - created < 1_801_000_000
    ensures !Expired(now, created)
  {
    assert (now - created) % DayMicros == now - created;
  }

  /** Caching then looking up: the data just cached under `id` is found again at any
      later reading at which its age test passes, whatever was cached under `id`
      before; every other surviving entry keeps its old value. */
  lemma {:induction false} CacheThenGet(entries: map<string, CacheEntry>, id: string, data: Bundle,
                                       now: int, cutoff: int, later: int)
    requires 0 <= cutoff - now < 1_801_000_000
    requires !Expired(later, now)
    ensures var after := Purge(entries[id := CacheEntry(data, now)], cutoff);
      && Lookup(after, id, later) == Some(data)
      && AfterLookup(after, id, later) == after
      && forall k :: k in after && k != id ==> k in entries && after[k] == entries[k]
  {
    YoungNotExpired(cutoff, now);
  }

  /** Adding a whole day to the age does not change the test. */
  lemma DayIgnored(now: int, created: int)
    ensures AgeSeconds(now + DayMicros, created) == AgeSeconds(now, created)
  {
    var x := now - created;
    assert (x + DayMicros) % DayMicros == x % DayMicros;
  }

  /** Whole days are ignored: an entry is judged only by the seconds left over after
      removing full days from its age. */
  lemma {:induction false} DaysIgnored(now: int, created: int, days: nat)
    ensures Expired(now + days * DayMicros, created) == Expired(now, created)
    decreases days
  {
    if days > 0 {
      DaysIgnored(now, created, days - 1);
      DayIgnored(now + (days - 1) * DayMicros, created);
      assert now + (days - 1) * DayMicros + DayMicros == now + days * DayMicros;
    }
  }

  /** The test is strict at 1800 seconds, and an entry a day and a second old counts as
      one second old. */
  lemma ExpiryBoundary(created: int)
    ensures !Expired(created + 1_800_999_999, created)
    ensures Expired(created + 1_801_000_000, created)
    ensures !Expired(created + DayMicros + 1_000_000, created)
  {
    assert (1_800_999_999 % DayMicros) / 1_000_000 == 1800;
    assert (1_801_000_000 % DayMicros) / 1_000_000 == 1801;
    assert ((DayMicros + 1_000_000) % DayMicros) / 1_000_000 == 1;
  }

  // -------------------------------------------------------------- file names

  /** ASCII `str.isalnum`. */
  predicate IsAlnum(c: char) {
    ('a' <= c <= 'z') || ('A' <= c <= 'Z') || ('0' <= c <= '9')
  }

  /** The characters a sanitised name may hold. */
  predicate FilenameChar(c: char) {
    IsAlnum(c) || c in "._- "
  }

  function SanitizeChar(c: char): char {
    if FilenameChar(c) then c else '_'
  }

  /** `sanitize_filename`: every other character becomes `_`, then the result is
      stripped and cut to 50 characters. */
  function SanitizeFilename(text: string): (r: string)
    ensures |r| <= 50
    ensures forall i :: 0 <= i < |r| ==> FilenameChar(r[i])
  {
    var mapped := seq(|text|, i requires 0 <= i < |text| => SanitizeChar(text[i]));
    assert forall i :: 0 <= i < |mapped| ==> FilenameChar(mapped[i]);
    var stripped := Strip(mapped);
    StripSlice(mapped);
    assert forall i :: 0 <= i < |stripped| ==> FilenameChar(stripped[i]);
    Take(stripped, 50)
  }

  /** A name that is already safe, unpadded and short is kept as it is. */
  lemma SanitizeKeepsSafe(text: string)
    requires |text| <= 50 && forall i :: 0 <= i < |text| ==> FilenameChar(text[i])
    requires text == [] || (!IsSpace(text[0]) && !IsSpace(text[|text| - 1]))
    ensures SanitizeFilename(text) == text
  {
    var mapped := seq(|text|, i requires 0 <= i < |text| => SanitizeChar(text[i]));
    assert mapped == text;
  }

  /** The base name the finalize step gives every output file. */
  function BaseName(name: Option<string>, company: string, title: string, timestamp: string): string {
    SanitizeFilename(ReplaceAll(name.GetOr("Candidate"), " ", "_")) + "_" + SanitizeFilename(company) + "_"
      + SanitizeFilename(title) + "_" + timestamp
  }

  // ------------------------------------------------------------ de-duplication

  /** The key scraped jobs are de-duplicated on. */
  function DedupKey(job: JobListing): (string, string) {
    (Lower(job.company), Lower(job.title))
  }

  function Keys(jobs: seq<JobListing>): set<(string, string)> {
    set j | j in jobs :: DedupKey(j)
  }

  /** The keys of the jobs that have a title. */
  function TitledKeys(jobs: seq<JobListing>): set<(string, string)> {
    set j | j in jobs && j.title != "" :: DedupKey(j)
  }

  /** The de-duplication loop, one job at a time from the front: a job is kept when it
      has a title and its key was not kept before. */
  function Dedup(jobs: seq<JobListing>): seq<JobListing>
    decreases |jobs|
  {
    if jobs == [] then []
    else
      var kept := Dedup(jobs[..|jobs| - 1]);
      var job := jobs[|jobs| - 1];
      if DedupKey(job) !in Keys(kept) && job.title != "" then kept + [job] else kept
  }

  /** The loop over `all_jobs` with its `seen` set and `unique` list. */
  method Deduplicate(all: seq<JobListing>) returns (unique: seq<JobListing>)
    ensures unique == Dedup(all)
  {
    var seen: set<(string, string)> := {};
    unique := [];
    for i := 0 to |all|
      invariant unique == Dedup(all[..i])
      invariant seen == Keys(unique)
    {
      assert all[..i + 1][..i] == all[..i];
      var job := all[i];
      var key := (Lower(job.company), Lower(job.title));
      if key !in seen && job.title != "" {
        seen := seen + {key};
        unique := unique + [job];
      }
    }
    assert all[..|all|] == all;
  }

  /** The kept keys are exactly the keys of the jobs with a title. */
  lemma {:induction false} DedupKeys(jobs: seq<JobListing>)
    ensures Keys(Dedup(jobs)) == TitledKeys(jobs)
    decreases |jobs|
  {
    if jobs != [] {
      var init := jobs[..|jobs| - 1];
      DedupKeys(init);
      assert jobs == init + [jobs[|jobs| - 1]];
      assert TitledKeys(jobs) == TitledKeys(init) + (if jobs[|jobs| - 1].title != "" then {DedupKey(jobs[|jobs| - 1])} else {});
    }
  }

  /** Whether `jobs[i]` is the first job with a title and its key. */
  function FirstOfKey(jobs: seq<JobListing>): (nat, JobListing) -> Option<JobListing> {
    (i: nat, job: JobListing) =>
      if i <= |jobs| && job.title != "" && DedupKey(job) !in TitledKeys(jobs[..i]) then Some(job) else None
  }

  /** De-duplication keeps, in order, exactly the first job with a title of each key. */
  lemma {:induction false} DedupFirstOccurrences(jobs: seq<JobListing>)
    ensures Dedup(jobs) == Pick(jobs, FirstOfKey(jobs))
  {
    var n := 0;
    while n < |jobs|
      invariant n <= |jobs|
      invariant Dedup(jobs[..n]) == Pick(jobs[..n], FirstOfKey(jobs))
    {
      PickStep(jobs, FirstOfKey(jobs), n);
      DedupKeys(jobs[..n]);
      assert jobs[..n + 1][..n] == jobs[..n];
      n := n + 1;
    }
    assert jobs[..|jobs|] == jobs;
  }

  /** Every kept job has a title, and no two kept jobs share a key. */
  lemma {:induction false} DedupDistinct(jobs: seq<JobListing>)
    ensures |Dedup(jobs)| <= |jobs|
    ensures forall i :: 0 <= i < |Dedup(jobs)| ==> Dedup(jobs)[i].title != "" && Dedup(jobs)[i] in jobs
    ensures forall i, j :: 0 <= i < j < |Dedup(jobs)| ==> DedupKey(Dedup(jobs)[i]) != DedupKey(Dedup(jobs)[j])
    decreases |jobs|
  {
    if jobs != [] {
      var init := jobs[..|jobs| - 1];
      DedupDistinct(init);
      var kept := Dedup(init);
      var job := jobs[|jobs| - 1];
      if DedupKey(job) !in Keys(kept) && job.title != "" {
        forall i | 0 <= i < |kept|
          ensures DedupKey(kept[i]) != DedupKey(job)
        {
          assert kept[i] in kept;
        }
      }
    }
  }

  // ------------------------------------------------------------------ tracking

  /** The (company, title) pairs the tracker holds. */
  function Pairs(apps: seq<Application>): set<(string, string)> {
    set a | a in apps :: (a.company, a.title)
  }

  function JobPairs(jobs: seq<JobListing>): set<(string, string)> {
    set j | j in jobs :: (j.company, j.title)
  }

  /** The scraped jobs the tracking loop adds, in order: those whose exact company and
      title are neither tracked already nor added earlier in the loop. */
  function NewJobs(apps: seq<Application>, jobs: seq<JobListing>): seq<JobListing>
    decreases |jobs|
  {
    if jobs == [] then [] else NextAdded(apps, NewJobs(apps, jobs[..|jobs| - 1]), jobs[|jobs| - 1])
  }

  /** One step of the tracking loop: `job` is added unless its pair is already held. */
  function NextAdded(apps: seq<Application>, added: seq<JobListing>, job: JobListing): seq<JobListing> {
    if (job.company, job.title) in Pairs(apps) + JobPairs(added) then added else added + [job]
  }

  /** The record the tracking loop stores for a scraped job. */
  function Discovered(id: int, job: JobListing, now: string): Application {
    ApplicationTracker.NewRecord(id, job.company, job.title, job.location, job.url, job.source, "discovered",
                                 "", "", 0.0, None, None, "", now)
  }

  /** The records stored for `jobs`, numbered from `firstId`. */
  function Records(firstId: int, jobs: seq<JobListing>, now: string): seq<Application> {
    seq(|jobs|, k requires 0 <= k < |jobs| => Discovered(firstId + k, jobs[k], now))
  }

  lemma RecordsSnoc(firstId: int, jobs: seq<JobListing>, job: JobListing, now: string)
    ensures Records(firstId, jobs + [job], now) == Records(firstId, jobs, now) + [Discovered(firstId + |jobs|, job, now)]
  {
  }

  lemma PairsOfRecords(apps: seq<Application>, firstId: int, jobs: seq<JobListing>, now: string)
    ensures Pairs(apps + Records(firstId, jobs, now)) == Pairs(apps) + JobPairs(jobs)
  {
    var recs := Records(firstId, jobs, now);
    forall p | p in JobPairs(jobs)
      ensures p in Pairs(apps + recs)
    {
      var j :| j in jobs && p == (j.company, j.title);
      var k :| 0 <= k < |jobs| && jobs[k] == j;
      assert (apps + recs)[|apps| + k] == recs[k];
    }
  }

  lemma HasApplicationPairs(apps: seq<Application>, company: string, title: string)
    ensures ApplicationTracker.HasApplication(apps, company, title) <==> (company, title) in Pairs(apps)
  {
    if (company, title) in Pairs(apps) {
      var a :| a in apps && (a.company, a.title) == (company, title);
      var i :| 0 <= i < |apps| && apps[i] == a;
    }
  }

  /** The loop that follows both scrape endpoints: every job whose exact company and
      title the tracker does not hold yet is added as `discovered`; the count added is
      returned. */
  method TrackNew(tracker: Tracker, jobs: seq<JobListing>, now: string) returns (newCount: nat)
    modifies tracker
    ensures newCount == |NewJobs(old(tracker.applications), jobs)|
    ensures tracker.applications
         == old(tracker.applications) + Records(old(tracker.nextId), NewJobs(old(tracker.applications), jobs), now)
    ensures tracker.nextId == old(tracker.nextId) + newCount
    ensures old(tracker.Valid()) ==> tracker.Valid()
  {
    ghost var apps0 := tracker.applications;
    ghost var id0 := tracker.nextId;
    newCount := 0;
    for i := 0 to |jobs|
      invariant newCount == |NewJobs(apps0, jobs[..i])|
      invariant tracker.applications == apps0 + Records(id0, NewJobs(apps0, jobs[..i]), now)
      invariant tracker.nextId == id0 + newCount
      invariant old(tracker.Valid()) ==> tracker.Valid()
    {
      assert jobs[..i + 1][..i] == jobs[..i];
      assert NewJobs(apps0, jobs[..i + 1]) == NextAdded(apps0, NewJobs(apps0, jobs[..i]), jobs[i]);
      var isNew := TrackJob(tracker, apps0, id0, NewJobs(apps0, jobs[..i]), jobs[i], now);
      if isNew {
        newCount := newCount + 1;
      }
    }
    assert jobs[..|jobs|] == jobs;
  }

  /** One pass of the tracking loop: the job is added as `discovered` unless the tracker
      already holds its exact company and title. */
  method TrackJob(tracker: Tracker, ghost apps0: seq<Application>, ghost id0: int, ghost added: seq<JobListing>,
                  job: JobListing, now: string)
    returns (isNew: bool)
    requires tracker.applications == apps0 + Records(id0, added, now) && tracker.nextId == id0 + |added|
    modifies tracker
    ensures NextAdded(apps0, added, job) == if isNew then added + [job] else added
    ensures tracker.applications == apps0 + Records(id0, NextAdded(apps0, added, job), now)
    ensures tracker.nextId == id0 + |NextAdded(apps0, added, job)|
    ensures old(tracker.Valid()) ==> tracker.Valid()
  {
    PairsOfRecords(apps0, id0, added, now);
    HasApplicationPairs(tracker.applications, job.company, job.title);
    isNew := !tracker.CheckDuplicate(job.company, job.title);
    if isNew {
      var appId := tracker.AddApplication(job.company, job.title, job.location, job.url, job.source, "discovered",
                                          "", "", 0.0, None, None, "", now);
      RecordsSnoc(id0, added, job, now);
    }
  }

  /** After tracking, every scraped job's company and title is held by the tracker, and
      nothing is stored twice by one run. */
  lemma NewJobsComplete(apps: seq<Application>, jobs: seq<JobListing>)
    ensures Pairs(apps) + JobPairs(NewJobs(apps, jobs)) == Pairs(apps) + JobPairs(jobs)
    ensures forall i :: 0 <= i < |NewJobs(apps, jobs)| ==> (NewJobs(apps, jobs)[i].company, NewJobs(apps, jobs)[i].title) !in Pairs(apps)
    ensures forall i, j :: 0 <= i < j < |NewJobs(apps, jobs)| ==>
      (NewJobs(apps, jobs)[i].company, NewJobs(apps, jobs)[i].title) != (NewJobs(apps, jobs)[j].company, NewJobs(apps, jobs)[j].title)
  {
    NewJobsCover(apps, jobs);
    NewJobsFreshDistinct(apps, jobs);
  }

  /** No job of `added` has a pair already in `apps`, and no two share a pair. */
  predicate FreshDistinct(apps: seq<Application>, added: seq<JobListing>) {
    && (forall i :: 0 <= i < |added| ==> (added[i].company, added[i].title) !in Pairs(apps))
    && (forall i, j :: 0 <= i < j < |added| ==> (added[i].company, added[i].title) != (added[j].company, added[j].title))
  }

  lemma {:induction false} NewJobsCover(apps: seq<Application>, jobs: seq<JobListing>)
    ensures Pairs(apps) + JobPairs(NewJobs(apps, jobs)) == Pairs(apps) + JobPairs(jobs)
    decreases |jobs|
  {
    if jobs != [] {
      var init := jobs[..|jobs| - 1];
      var job := jobs[|jobs| - 1];
      NewJobsCover(apps, init);
      var added := NewJobs(apps, init);
      assert jobs == init + [job];
      JobPairsSnoc(init, job);
      JobPairsSnoc(added, job);
    }
  }

  lemma JobPairsSnoc(jobs: seq<JobListing>, job: JobListing)
    ensures JobPairs(jobs + [job]) == JobPairs(jobs) + {(job.company, job.title)}
  {
    assert forall j :: j in jobs + [job] <==> j in jobs || j == job;
  }

  lemma {:induction false} NewJobsFreshDistinct(apps: seq<Application>, jobs: seq<JobListing>)
    ensures FreshDistinct(apps, NewJobs(apps, jobs))
    decreases |jobs|
  {
    if jobs != [] {
      var job := jobs[|jobs| - 1];
      NewJobsFreshDistinct(apps, jobs[..|jobs| - 1]);
      NextAddedFreshDistinct(apps, NewJobs(apps, jobs[..|jobs| - 1]), job);
    }
  }

  lemma NextAddedFreshDistinct(apps: seq<Application>, added: seq<JobListing>, job: JobListing)
    requires FreshDistinct(apps, added)
    ensures FreshDistinct(apps, NextAdded(apps, added, job))
  {
    if (job.company, job.title) !in Pairs(apps) + JobPairs(added) {
      forall i | 0 <= i < |added|
        ensures (added[i].company, added[i].title) != (job.company, job.title)
      {
        assert added[i] in added;
      }
      var r := added + [job];
      assert forall i :: 0 <= i < |added| ==> r[i] == added[i];
    }
  }

  // ------------------------------------------------------------------ finalize

  /** The job description finalize scores against: the cached job's fields with `""`
      and `[]` as defaults; preferred skills are not carried over. */
  function JobDescription(job: ResumeTailor.JobSnapshot): JdParser.ParsedJD {
    JdParser.ParsedJD(job.title.GetOr(""), job.company.GetOr(""), job.location.GetOr(""), job.industry.GetOr(""),
                      job.seniority.GetOr(""), job.summary.GetOr(""), job.requiredSkills, [], job.techStack,
                      job.keywords)
  }

  /** The coverage report of the resume the edits make of a bundle. */
  function FinalReport(b: Bundle, edits: ResumeTailor.UserEdits): AtsOptimizer.AtsReport {
    AtsOptimizer.Coverage(ResumeTailor.SkillsOf(b, edits),
                          ResumeTailor.WorkExperience(b.experiences, edits) + ResumeTailor.ResearchExperience(b.experiences, edits),
                          ResumeTailor.Projects(b.projects, edits), JobDescription(b.job))
  }

  /** The tracker record of a finished resume. */
  function ResumeRecord(id: int, jd: JdParser.ParsedJD, ats: AtsOptimizer.AtsReport, outputDir: string,
                        baseName: string, now: string): Application
  {
    ApplicationTracker.NewRecord(id, jd.company, jd.title, jd.location, "", "web_ui", "resume_ready",
                                 outputDir + "/" + baseName + ".pdf", outputDir + "/" + baseName + "_cover_letter.txt",
                                 ats.overallScore, Some(ats.matchedRequired + ats.matchedTech),
                                 Some(ats.missingRequired + ats.missingTech), "", now)
  }

  /** The middle of finalize: the tailored resume is built from the bundle and the
      edits, scored against the cached job, and the output files' base name chosen. */
  method ScoreSession(b: Bundle, edits: ResumeTailor.UserEdits, timestamp: string)
    returns (jd: JdParser.ParsedJD, ats: AtsOptimizer.AtsReport, baseName: string)
    ensures jd == JobDescription(b.job) && ats == FinalReport(b, edits)
    ensures baseName == BaseName(b.profile.personal.name, jd.company, jd.title, timestamp)
  {
    var tailored := ResumeTailor.ApplyUserEdits(b, edits);
    jd := JobDescription(b.job);
    ats := AtsOptimizer.AnalyzeAtsCoverage(tailored, jd);
    baseName := BaseName(tailored.personal.name, jd.company, jd.title, timestamp);
  }

  datatype FinalizeOutcome =
    | Finalized(applicationId: int, job: JdParser.ParsedJD, ats: AtsOptimizer.AtsReport, baseName: string)
    | Refused(status: int)

  /** The successful end of finalize: the session is read (it is found, so the read
      changes nothing), the application tracked as `resume_ready` with the report's
      score and its required and tech keyword lists, and then the session deleted. */
  method CompleteSession(cache: SuggestionCache, tracker: Tracker, sessionId: string, now: int,
                         jd: JdParser.ParsedJD, ats: AtsOptimizer.AtsReport, baseName: string, outputDir: string,
                         nowIso: string)
    returns (appId: int)
    requires Lookup(cache.entries, sessionId, now).Some?
    modifies cache, tracker
    ensures appId == old(tracker.nextId) && tracker.nextId == appId + 1
    ensures tracker.applications == old(tracker.applications) + [ResumeRecord(appId, jd, ats, outputDir, baseName, nowIso)]
    ensures cache.entries == old(cache.entries) - {sessionId}
    ensures old(tracker.Valid()) ==> tracker.Valid()
  {
    var found := cache.GetCachedSuggestions(sessionId, now);
    appId := tracker.AddApplication(jd.company, jd.title, jd.location, "", "web_ui", "resume_ready",
                                    outputDir + "/" + baseName + ".pdf",
                                    outputDir + "/" + baseName + "_cover_letter.txt",
                                    ats.overallScore, Some(ats.matchedRequired + ats.matchedTech),
                                    Some(ats.missingRequired + ats.missingTech), "", nowIso);
    if sessionId in cache.entries {
      cache.entries := cache.entries - {sessionId};
    }
  }

  /** `finalize_endpoint`. Without an API key it answers 400 and touches nothing. A
      session the lookup does not find (absent or expired, and then deleted) answers 404.
      Otherwise the edits are applied and the resume scored; if writing the output files
      fails (`outputsWritten` false) it answers 500 and the session stays cached for a
      retry; if they are written, the application is tracked as `resume_ready` and only
      then is the session deleted. Scoring reads nothing but the cached bundle, so it is
      computed from the entry the lookup finds before the lookup is performed. */
  method Finalize(cache: SuggestionCache, tracker: Tracker, apiKeySet: bool, sessionId: string,
                  edits: ResumeTailor.UserEdits, now: int, nowIso: string, timestamp: string, outputDir: string,
                  outputsWritten: bool)
    returns (out: FinalizeOutcome)
    modifies cache, tracker
    ensures !apiKeySet ==> out == Refused(400) && cache.entries == old(cache.entries)
    ensures apiKeySet ==> cache.entries == AfterLookup(old(cache.entries), sessionId, now) - (if out.Finalized? then {sessionId} else {})
    ensures apiKeySet && Lookup(old(cache.entries), sessionId, now).None? ==> out == Refused(404)
    ensures apiKeySet && Lookup(old(cache.entries), sessionId, now).Some? && !outputsWritten ==> out == Refused(500)
    ensures apiKeySet && Lookup(old(cache.entries), sessionId, now).Some? && outputsWritten ==>
      var b := Lookup(old(cache.entries), sessionId, now).value;
      var jd := JobDescription(b.job);
      var ats := FinalReport(b, edits);
      var baseName := BaseName(b.profile.personal.name, jd.company, jd.title, timestamp);
      && out == Finalized(old(tracker.nextId), jd, ats, baseName)
      && tracker.applications == old(tracker.applications) + [ResumeRecord(out.applicationId, jd, ats, outputDir, baseName, nowIso)]
      && tracker.nextId == old(tracker.nextId) + 1
    ensures out.Refused? ==> tracker.applications == old(tracker.applications) && tracker.nextId == old(tracker.nextId)
    ensures old(tracker.Valid()) ==> tracker.Valid()
  {
    if !apiKeySet {
      return Refused(400);
    }
    var found := Lookup(cache.entries, sessionId, now);
    if found.None? || !outputsWritten {
      var suggestions := cache.GetCachedSuggestions(sessionId, now);
      return Refused(if suggestions.None? then 404 else 500);
    }
    var jd, ats, baseName := ScoreSession(found.value, edits, timestamp);
    var appId := CompleteSession(cache, tracker, sessionId, now, jd, ats, baseName, outputDir, nowIso);
    return Finalized(appId, jd, ats, baseName);
  }

  // ------------------------------------------------------------------ scraping

  /** `req.query or "AI ML Engineer"`. */
  function QueryOr(query: Option<string>): (r: string)
    ensures r != []
    ensures query.Some? && query.value != [] ==> r == query.value
  {
    if query.Some? && query.value != [] then query.value else "AI ML Engineer"
  }

  /** Whether a job came from a source the request asked for. */
  predicate FromRequestedSource(job: JobListing, source: string) {
    || (source in {"all", "linkedin"} && (LinkedInScraper.FromCard(job) || LinkedInScraper.FromGoogle(job)))
    || (source in {"all", "indeed"} && IndeedScraper.Kept(job))
  }

  /** `scrape_jobs`: LinkedIn and then Indeed are scraped for up to 15 listings each, as
      `source` asks; the listings are de-duplicated, the new ones tracked, and the count
      of unique listings, the count added and the first 20 unique listings returned.
      `scraped` and `unique` are the intermediate lists the endpoint does not return. */
  method ScrapeJobs(tracker: Tracker, query: Option<string>, source: string, now: string,
                    linkedinPages: string -> LinkedInScraper.Page,
                    google: string -> Option<seq<LinkedInScraper.SearchResult>>,
                    indeedPages: string -> IndeedScraper.Page)
    returns (totalFound: nat, newAdded: nat, jobs: seq<JobListing>, ghost scraped: seq<JobListing>, ghost unique: seq<JobListing>)
    modifies tracker
    ensures scraped == (if source in {"all", "linkedin"} then LinkedInFound(QueryOr(query), linkedinPages, google) else [])
                     + (if source in {"all", "indeed"} then IndeedFound(QueryOr(query), indeedPages) else [])
    ensures forall i :: 0 <= i < |scraped| ==> FromRequestedSource(scraped[i], source)
    ensures source !in {"all", "linkedin", "indeed"} ==> scraped == []
    ensures |scraped| <= 30
    ensures unique == Dedup(scraped) && totalFound == |unique| && jobs == Take(unique, 20)
    ensures newAdded == |NewJobs(old(tracker.applications), unique)|
    ensures tracker.applications
         == old(tracker.applications) + Records(old(tracker.nextId), NewJobs(old(tracker.applications), unique), now)
    ensures old(tracker.Valid()) ==> tracker.Valid()
  {
    var all := ScrapeSources(QueryOr(query), source, linkedinPages, google, indeedPages);
    scraped := all;
    var kept := Deduplicate(all);
    unique := kept;
    newAdded := TrackNew(tracker, kept, now);
    totalFound := |kept|;
    jobs := Take(kept, 20);
  }

  /** What `scrape_linkedin_jobs(query, "United States", max_results=15)` returns. */
  function LinkedInFound(q: string, linkedinPages: string -> LinkedInScraper.Page,
                         google: string -> Option<seq<LinkedInScraper.SearchResult>>): seq<JobListing> {
    SlicePrefix(LinkedInScraper.LinkedInRun(q, "United States", 15, LinkedInScraper.ExperienceFilter(None),
                                            linkedinPages, google, LinkedInScraper.Offsets(0, 15, 25), []), 15)
  }

  /** What `scrape_indeed_jobs(query, "United States", max_results=15)` returns. */
  function IndeedFound(q: string, indeedPages: string -> IndeedScraper.Page): seq<JobListing> {
    SlicePrefix(IndeedScraper.IndeedRun(q, "United States", 15, indeedPages, LinkedInScraper.Offsets(0, 15, 10), []), 15)
  }

  /** The scraping part of `scrape_jobs`: LinkedIn and then Indeed, up to 15 listings
      each, as `source` asks. */
  method ScrapeSources(q: string, source: string,
                       linkedinPages: string -> LinkedInScraper.Page,
                       google: string -> Option<seq<LinkedInScraper.SearchResult>>,
                       indeedPages: string -> IndeedScraper.Page)
    returns (all: seq<JobListing>)
    ensures all == (if source in {"all", "linkedin"} then LinkedInFound(q, linkedinPages, google) else [])
                 + (if source in {"all", "indeed"} then IndeedFound(q, indeedPages) else [])
    ensures forall i :: 0 <= i < |all| ==> FromRequestedSource(all[i], source)
    ensures source !in {"all", "linkedin", "indeed"} ==> all == []
    ensures |all| <= 30
  {
    var fromLinkedIn := ScrapeLinkedInPart(q, source, linkedinPages, google);
    var fromIndeed := ScrapeIndeedPart(q, source, indeedPages);
    all := fromLinkedIn + fromIndeed;
    RequestedAppend(fromLinkedIn, fromIndeed, source);
  }

  /** The LinkedIn branch of `scrape_jobs`. */
  method ScrapeLinkedInPart(q: string, source: string,
                            linkedinPages: string -> LinkedInScraper.Page,
                            google: string -> Option<seq<LinkedInScraper.SearchResult>>)
    returns (found: seq<JobListing>)
    ensures found == if source in {"all", "linkedin"} then LinkedInFound(q, linkedinPages, google) else []
    ensures forall i :: 0 <= i < |found| ==> FromRequestedSource(found[i], source)
    ensures |found| <= 15
  {
    found := [];
    if source in {"all", "linkedin"} {
      found := LinkedInScraper.ScrapeLinkedIn(q, "United States", 15, None, linkedinPages, google);
      LinkedInRequested(found, source);
    }
  }

  /** The Indeed branch of `scrape_jobs`. */
  method ScrapeIndeedPart(q: string, source: string, indeedPages: string -> IndeedScraper.Page)
    returns (found: seq<JobListing>)
    ensures found == if source in {"all", "indeed"} then IndeedFound(q, indeedPages) else []
    ensures forall i :: 0 <= i < |found| ==> FromRequestedSource(found[i], source)
    ensures |found| <= 15
  {
    found := [];
    if source in {"all", "indeed"} {
      found := IndeedScraper.ScrapeIndeed(q, "United States", 15, indeedPages);
      IndeedRequested(found, source);
    }
  }

  lemma LinkedInRequested(found: seq<JobListing>, source: string)
    requires source in {"all", "linkedin"} && LinkedInScraper.AllSourced(found)
    ensures forall i :: 0 <= i < |found| ==> FromRequestedSource(found[i], source)
  {
  }

  lemma IndeedRequested(found: seq<JobListing>, source: string)
    requires source in {"all", "indeed"} && IndeedScraper.KeptFrom(found, 0)
    ensures forall i :: 0 <= i < |found| ==> FromRequestedSource(found[i], source)
  {
  }

  lemma RequestedAppend(a: seq<JobListing>, b: seq<JobListing>, source: string)
    requires forall i :: 0 <= i < |a| ==> FromRequestedSource(a[i], source)
    requires forall i :: 0 <= i < |b| ==> FromRequestedSource(b[i], source)
    ensures forall i :: 0 <= i < |a + b| ==> FromRequestedSource((a + b)[i], source)
  {
  }

  /** The board a URL is routed to. */
  datatype Board = GreenhouseBoard | LeverBoard | UnknownBoard

  /** `scrape_board`'s dispatch: "greenhouse" anywhere in the URL wins over "lever". */
  function RouteBoard(url: string): (r: Board)
    ensures r == GreenhouseBoard <==> Contains(url, "greenhouse")
    ensures r == LeverBoard <==> !Contains(url, "greenhouse") && Contains(url, "lever")
    ensures r == UnknownBoard <==> !Contains(url, "greenhouse") && !Contains(url, "lever")
  {
    if Contains(url, "greenhouse") then GreenhouseBoard
    else if Contains(url, "lever") then LeverBoard
    else UnknownBoard
  }

  /** `scrape_board`: the routed scraper's listings are tracked and all returned. A URL
      of neither kind raises a 400 inside the endpoint's catch-all, which answers it as
      a 500 and tracks nothing. */
  method ScrapeBoard(tracker: Tracker, url: string, filter: Option<string>, now: string,
                     greenhouseApi: string -> GreenhouseLever.Fetched<GreenhouseLever.GreenhouseJob>,
                     greenhouseHtml: string -> Option<seq<GreenhouseLever.Opening>>,
                     leverApi: string -> GreenhouseLever.Fetched<GreenhouseLever.LeverPosting>,
                     leverHtml: string -> Option<seq<GreenhouseLever.PostingElement>>)
    returns (status: int, totalFound: nat, newAdded: nat, jobs: seq<JobListing>)
    modifies tracker
    ensures RouteBoard(url) == UnknownBoard ==>
      status == 500 && jobs == [] && tracker.applications == old(tracker.applications)
      && tracker.nextId == old(tracker.nextId)
    ensures RouteBoard(url) != UnknownBoard ==>
      && status == 200 && totalFound == |jobs|
      && newAdded == |NewJobs(old(tracker.applications), jobs)|
      && tracker.applications
         == old(tracker.applications) + Records(old(tracker.nextId), NewJobs(old(tracker.applications), jobs), now)
    ensures RouteBoard(url) == GreenhouseBoard ==>
      jobs == GreenhouseLever.GreenhouseResult(url, "", filter, greenhouseApi, greenhouseHtml)
    ensures RouteBoard(url) == LeverBoard ==>
      jobs == GreenhouseLever.LeverResult(url, "", filter, leverApi, leverHtml)
    ensures RouteBoard(url) == GreenhouseBoard ==> forall j :: 0 <= j < |jobs| ==> GreenhouseLever.GreenhouseListing(jobs[j], filter)
    ensures RouteBoard(url) == LeverBoard ==> forall j :: 0 <= j < |jobs| ==> GreenhouseLever.LeverListing(jobs[j], filter)
    ensures old(tracker.Valid()) ==> tracker.Valid()
  {
    match RouteBoard(url) {
      case UnknownBoard =>
        return 500, 0, 0, [];
      case GreenhouseBoard =>
        jobs := GreenhouseLever.ScrapeGreenhouse(url, "", filter, greenhouseApi, greenhouseHtml);
      case LeverBoard =>
        jobs := GreenhouseLever.ScrapeLever(url, "", filter, leverApi, leverHtml);
    }
    newAdded := TrackNew(tracker, jobs, now);
    status, totalFound := 200, |jobs|;
  }
}
