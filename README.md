# jobpilot core, modelled in Dafny

jobpilot tailors a resume to a job description in two phases. First, an AI proposes which
experiences and projects to include and how to reword each bullet. Then a reviewer accepts,
rejects or edits each proposal and the final resume is produced. Around that it scores
keyword coverage, keeps a tracker of applications, renders the resume as LaTeX, and scrapes
job boards. This project models that logic and proves what it promises:

- `resume_tailor.dfy` (module `ResumeTailor`): the phase-two reconciliation
  `apply_user_edits` and the older keyword scorer `compute_ats_score`. JSON objects are
  datatypes, and every key whose absence matters is an `Option`. `TailoredResume` is a
  class, because the scorer writes its score fields in place.
- `ats_optimizer.dfy` (module `AtsOptimizer`): the detailed coverage report
  `analyze_ats_coverage` and its four-tier recommendation. Scores are exact ratios
  (`real`), not rounded floats.
- `api.py`'s own logic (module `Api`):
  - the suggestion-session cache, a class over a `map`, with the clock as a parameter;
  - `sanitize_filename`;
  - the session lifecycle of the finalize endpoint;
  - the de-duplication and tracking loops of `scrape_jobs`;
  - the board routing of `scrape_board`.
- `application_tracker.dfy` (module `ApplicationTracker`): the tracker's
  `{"next_id", "applications"}` data as a class with those two fields. Its operations are
  methods, and its queries are functions.
- `latex_generator.dfy` (module `LatexGenerator`): `_escape_latex`, the bullet, contact,
  skills, entry and certification blocks, the section assembly, and the document text of
  `generate_latex`.
- `linkedin_scraper.dfy`, `indeed_scraper.dfy` and `greenhouse_lever.dfy`: the scrapers with
  the network and the HTML parser taken out. Each response arrives as the elements the
  parser would have found. Each request, including the Google fallback, is a function
  parameter from URL to response. The URLs are built as the source builds them,
  `quote_plus` included.
- `jd_parser.dfy` (the `ParsedJD` record), `wrappers.dfy` (`Option`), and `text.dfy` and
  `seqs.dfy` (string and sequence helpers: `str.lower`, `in`, `split`, `join`, `strip`,
  `replace`, order-preserving filtering).

Methods that loop in the source are `while`/`for` loops here. Each is proved against a
specification function, and the properties are proved as lemmas about those functions.

## Model

| member | source | states |
|---|---|---|
| ResumeTailor.ApplyUserEdits | engine/resume_tailor.py:385-501 | Work and research entries are the included experiences, routed by `source` and kept in order. Projects are the included projects. Skills come from the edits when sent, otherwise from the bundle. Title, company, personal details, education and certifications are copied from job and profile. Score fields start empty. |
| ResumeTailor.KeepExperience | engine/resume_tailor.py:417-451 | One experience yields its entry, with resolved bullets and defaulted fields, exactly when the toggle or the AI flag includes it, and nothing otherwise. |
| ResumeTailor.SelectExperiences | engine/resume_tailor.py:417-456 | The experiences loop returns exactly the work and research lists of the included experiences, routed by `source`. |
| ResumeTailor.SelectProjects | engine/resume_tailor.py:459-485 | The projects loop returns exactly the included projects, bullets resolved, in input order. |
| ResumeTailor.BuildBullets | engine/resume_tailor.py:425-441 | The per-bullet loop computes the resolved bullet list for the entry's decisions. |
| ResumeTailor.RejectEmitsOriginal | engine/resume_tailor.py:431-433 | A `reject` decision puts the bullet's original text (default `""`) at the bullet's output position, even when the AI action is `remove`. |
| ResumeTailor.EditEmitsText | engine/resume_tailor.py:434-436 | An `edit` decision emits its `text` whenever that key is present, including `""`. Otherwise it emits the suggestion, and failing that the original. |
| ResumeTailor.AcceptDropsRemoved | engine/resume_tailor.py:437-440 | A missing, `accept` or other decision on a bullet the AI marked `remove` adds nothing, and the entry ends with fewer bullets than it had. |
| ResumeTailor.AcceptEmitsSuggested | engine/resume_tailor.py:437-441 | Otherwise a defaulted decision emits the suggestion, falling back to the original. |
| ResumeTailor.BulletsKeepOrder | engine/resume_tailor.py:427-441 | What a prefix of the bullets yields is a prefix of the output, and the output is never longer than the input. |
| ResumeTailor.PickGrowth | engine/resume_tailor.py:427-441 | Each input element after a prefix adds at most one output element. |
| ResumeTailor.UnknownIndicesIgnored | engine/resume_tailor.py:426-428 | Decisions keyed by indices the entry does not have change nothing. |
| ResumeTailor.IncludedExperienceRouted | engine/resume_tailor.py:417-422 | An included experience appears in exactly one list, research or work according to `source`, right after those included before it. |
| ResumeTailor.ExcludedExperienceDropped | engine/resume_tailor.py:420-422 | An excluded experience contributes to neither list. |
| ResumeTailor.ExplicitToggleWins | engine/resume_tailor.py:420 | An explicit toggle decides inclusion over the AI's `selected` flag, in both directions. |
| ResumeTailor.RoutingPartition | engine/resume_tailor.py:453-456 | Work plus research hold exactly one entry per included experience. |
| ResumeTailor.UnknownExperienceIdsIgnored | engine/resume_tailor.py:418-426 | Toggles and decisions for ids the bundle does not hold change neither list. |
| ResumeTailor.ProjectRouted | engine/resume_tailor.py:459-485 | An included project is appended after those before it; an excluded one adds nothing. |
| ResumeTailor.Ratio | engine/resume_tailor.py:77 | `num / den`, or 1 when `den` is 0; it lies in [0, 1] whenever `num <= den`. |
| ResumeTailor.RatioBelowOne | engine/resume_tailor.py:77 | A ratio of a smaller count over a larger one is below 1. |
| ResumeTailor.RatioMonotone | engine/resume_tailor.py:77 | A ratio grows with its numerator. |
| ResumeTailor.BuildLegacyResumeText | engine/resume_tailor.py:54-63 | The text loops build list-valued skill categories joined with spaces, then every experience bullet, then every project bullet, each followed by a space. |
| ResumeTailor.AppendBullets | engine/resume_tailor.py:59-60 | One bullet loop appends each bullet followed by a space. |
| ResumeTailor.AppendSkillWords | engine/resume_tailor.py:55-57 | The skills loop appends the text of the list-valued categories only, in order. |
| ResumeTailor.AppendExperienceBullets | engine/resume_tailor.py:58-60 | The experience loop appends every bullet of every entry, in order. |
| ResumeTailor.AppendProjectBullets | engine/resume_tailor.py:61-63 | The project loop appends every bullet of every project, in order. |
| ResumeTailor.PartitionKeywords | engine/resume_tailor.py:67-73 | Matched holds exactly the keywords the lowercased text contains and missing holds the others; each keyword appears once and the two lengths sum to the set's size. |
| ResumeTailor.ComputeAtsScore | engine/resume_tailor.py:47-79 | With no keywords the score is 1 and the resume is untouched. Otherwise the matched and missing lists partition the lowercased keyword set, the score is the matched fraction and is stored, and it lies in [0, 1]. |
| AtsOptimizer.AddLowered | engine/ats_optimizer.py:18-26 | Each `add` loop adds every term, lowercased. |
| AtsOptimizer.BuildCoverageText | engine/ats_optimizer.py:29-40 | The text loops build list-valued skills, then each experience's bullets and title, then each project's bullets and title, all lowercased and space-terminated. |
| AtsOptimizer.AppendEntryText | engine/ats_optimizer.py:33-36 | One entry adds its lowercased bullets and then its lowercased title, each followed by a space. |
| AtsOptimizer.Categorize | engine/ats_optimizer.py:50-66 | A categorising loop yields the matched and missing lists of its terms, in input order. |
| AtsOptimizer.CategorizeSplits | engine/ats_optimizer.py:50-66 | A term is listed as matched iff it is in the input and the text contains its lowercase form, and as missing iff it is in the input and the text does not. |
| AtsOptimizer.CategorizeCounts | engine/ats_optimizer.py:50-66 | Matched and missing together are exactly as long as the input. |
| AtsOptimizer.ScoreCoverage | engine/ats_optimizer.py:50-89 | The three categorisations and both scores form the report for the text. |
| AtsOptimizer.AnalyzeAtsCoverage | engine/ats_optimizer.py:12-89 | The report for the resume's skills, its work and research experiences, and its projects against the job description. |
| AtsOptimizer.MatchedAllWithinSkills | engine/ats_optimizer.py:70 | The matched set draws only on required, preferred and tech-stack terms, and lies within all JD keywords. |
| AtsOptimizer.CoverageCounts | engine/ats_optimizer.py:50-71 | The matched set is no larger than the keyword set, and each category's matched and missing lists split it. |
| AtsOptimizer.ScoresInRange | engine/ats_optimizer.py:69-75 | The split counts hold, and both unrounded scores lie in [0, 1]. |
| AtsOptimizer.CoverageBounds | engine/ats_optimizer.py:68-89 | In every report, total matched is at most total keywords and both scores lie in [0, 1]. |
| AtsOptimizer.KeywordOnlyTermUnmatched | engine/ats_optimizer.py:18-20 | A term found only among `keywords` enlarges the total but never the matched set, so matched is strictly smaller than the total. |
| AtsOptimizer.KeywordOnlyTermCapsScore | engine/ats_optimizer.py:69-71 | With such a term the overall score stays below 1, whatever the resume says. |
| AtsOptimizer.AllRequiredFound | engine/ats_optimizer.py:74-75 | When every required skill is found, the required score is 1, nothing is missing, and the advice is "Strong" or else "Good". |
| AtsOptimizer.RequiredScoreOfWhole | engine/ats_optimizer.py:75 | All required skills matched gives a required score of 1. |
| AtsOptimizer.MatchSurvivesAppend | engine/ats_optimizer.py:50-54 | A term matched in a text stays matched once more text follows. |
| AtsOptimizer.MatchCountGrows | engine/ats_optimizer.py:50-66 | Appending text never shortens a matched list. |
| AtsOptimizer.AppendingTextKeepsMatches | engine/ats_optimizer.py:50-75 | Appending text keeps the matched set and can only raise both scores. |
| AtsOptimizer.ExperienceBulletInText | engine/ats_optimizer.py:33-35 | Whatever a lowercased experience bullet contains is found in the whole text. |
| AtsOptimizer.RequiredSkillInBulletMatched | engine/ats_optimizer.py:33-54 | A required skill written in any experience bullet, in any letter case, is reported as matched and not as missing. |
| AtsOptimizer.AdviceTierBands | engine/ats_optimizer.py:94-102 | "Strong" iff req ≥ 0.9 and score ≥ 0.7; "Good" iff req ≥ 0.7 otherwise; "Moderate" iff 0.5 ≤ req < 0.7; "Weak" iff req < 0.5. |
| AtsOptimizer.AdviceTierMonotone | engine/ats_optimizer.py:94-102 | A better required score never gives worse advice at the same overall score. |
| AtsOptimizer.TierTextInitial | engine/ats_optimizer.py:95-102 | Each band's sentence opens with the band's own initial letter. |
| AtsOptimizer.RecommendationNamesTier | engine/ats_optimizer.py:92-102 | Two equal recommendations come from the same band. |
| Api.AgeSeconds | api.py:104 | `timedelta.seconds`: the age in seconds with whole days dropped, always below 86400. |
| Api.SuggestionCache.CacheSuggestions | api.py:96-106 | The entry is stored, or overwritten, with its creation time. Then exactly the entries expired at the second clock reading are deleted. |
| Api.SuggestionCache.GetCachedSuggestions | api.py:108-115 | The result is the stored data when the entry is present and unexpired, otherwise None. An expired entry is deleted; nothing else changes. |
| Api.PurgeKeepsFresh | api.py:103-106 | The purge keeps an entry iff it is not expired, and keeps it unchanged. |
| Api.YoungNotExpired | api.py:102-104 | An entry less than 1801 s old is kept, so the entry just inserted survives its own purge. |
| Api.CacheThenGet | api.py:96-115 | After caching, a lookup while the age test passes returns the new data, whatever was there before, and changes nothing. Every other survivor keeps its old value. |
| Api.DaysIgnored | api.py:104 | Adding whole days to an age does not change the expiry test. |
| Api.ExpiryBoundary | api.py:112 | The test is strict at 1800 s, and an entry one day and one second old counts as one second old. |
| Api.SanitizeFilename | api.py:117-118 | The result holds at most 50 characters, each alphanumeric or one of `._- `. |
| Api.SanitizeKeepsSafe | api.py:117-118 | A short, unpadded name made only of allowed characters comes back unchanged. |
| Api.ScoreSession | api.py:384-409 | The job description is the cached job with defaults. The report scores the edited resume. The base name joins the sanitized name, company, title and timestamp. |
| Api.CompleteSession | api.py:427-443 | The application is tracked as `resume_ready` with the report's score and keyword lists, the new id is returned, and only then is the session deleted. |
| Api.Finalize | api.py:372-470 | Missing API key gives 400 and no change. A lookup that fails gives 404, after the expired entry is deleted. Failed output gives 500 and the session stays cached. Success tracks one record and deletes the session. The tracker changes only on success. |
| Api.Deduplicate | api.py:654-661 | The loop computes the de-duplication of the scraped list. |
| Api.DedupKeys | api.py:654-661 | The kept lowercase (company, title) keys are exactly those of the jobs with a title. |
| Api.DedupFirstOccurrences | api.py:654-661 | De-duplication keeps, in order, exactly the first titled job of each key. |
| Api.DedupDistinct | api.py:654-661 | Every kept job has a title and comes from the input, and no two kept jobs share a key. |
| Api.TrackNew | api.py:663-675 | Each job whose exact company and title are not yet tracked is added as `discovered` under consecutive ids. The count added is returned, and the tracker stays valid. |
| Api.TrackJob | api.py:665-675 | One pass adds the job exactly when its company and title are not yet held, under the next id, and keeps the tracker valid. |
| Api.NewJobsComplete | api.py:663-675 | After tracking, every scraped (company, title) is held. No added job was tracked before, and no run adds the same pair twice. |
| Api.QueryOr | api.py:643 | An empty or missing query becomes the non-empty default; a given query is kept. |
| Api.ScrapeJobs | api.py:639-684 | The scraped list is exactly LinkedIn's 15-result search, when asked for, followed by Indeed's, when asked for, both for the query or its default. Listings therefore come only from the sources asked for, at most 30. The result is de-duplicated, the new ones tracked, and the unique count and the first 20 returned. |
| Api.ScrapeSources | api.py:646-652 | The scraped list is LinkedIn's 15 then Indeed's 15, each only when `source` asks for it and nothing for any other `source`, and every listing keeps its scraper's promises. |
| Api.RouteBoard | api.py:691-696 | Routes to Greenhouse iff the URL contains "greenhouse", to Lever iff it contains "lever" but not "greenhouse", and to neither otherwise. |
| Api.ScrapeBoard | api.py:687-716 | An unknown board answers 500 and tracks nothing. A Greenhouse or Lever board returns exactly what that board's scraper returns for the URL, with no company name, and tracks the new listings. Each listing keeps its scraper's promises. |
| ApplicationTracker.Tracker.constructor | tracker/application_tracker.py:24 | A missing file loads as `next_id` 1 with no applications. |
| ApplicationTracker.Tracker.AddApplication | tracker/application_tracker.py:50-80 | Returns the old `next_id`, increments it by one, and appends exactly the new record. Ids stay unique. |
| ApplicationTracker.Tracker.UpdateStatus | tracker/application_tracker.py:83-106 | Only the first record with the id changes: it gets the status, its date stamp and the note. An unknown id changes nothing. |
| ApplicationTracker.Tracker.SetFollowUp | tracker/application_tracker.py:109-121 | Only the first record with the id gets the follow-up date and `updated_at`. An unknown id changes nothing. |
| ApplicationTracker.Tracker.GetApplications | tracker/application_tracker.py:124-130 | Newest first by `created_at`, and a permutation of the records, or of those with the given status when one is given. |
| ApplicationTracker.Tracker.GetFollowUps | tracker/application_tracker.py:133-142 | The follow-ups are a filter of the records, never more than those held; `FollowUpsExactly` states which records pass. |
| ApplicationTracker.Tracker.GetStats | tracker/application_tracker.py:154-172 | Returns the record count, the per-status counts in first-seen order, and the unrounded average of the positive scores. |
| ApplicationTracker.FirstIndex | tracker/application_tracker.py:89-90 | Finds the first record with the id, or reports that none has it. |
| ApplicationTracker.HasApplication | tracker/application_tracker.py:145-151 | True iff some record has exactly that company and title, case-sensitively. |
| ApplicationTracker.AddedIsDuplicate | tracker/application_tracker.py:145-151 | After an application is added, the duplicate check for its company and title succeeds. |
| ApplicationTracker.StatusStamps | tracker/application_tracker.py:91-103 | Sets status and `updated_at`. `applied`, `response` and `interview` stamp their own date and no other, and other statuses stamp none. A missing or empty note leaves the notes unchanged. |
| ApplicationTracker.AppendNoteEndsWithNote | tracker/application_tracker.py:101-103 | A note without trailing whitespace ends the notes, behind `[` plus the date part of now plus `] `. |
| ApplicationTracker.InsertDesc | tracker/application_tracker.py:130 | Insertion keeps the multiset of records plus the new one. |
| ApplicationTracker.SortDesc | tracker/application_tracker.py:130 | The sort is a permutation. |
| ApplicationTracker.SortDescSorted | tracker/application_tracker.py:130 | The sort's output is ordered newest first. |
| ApplicationTracker.InsertDescSorted | tracker/application_tracker.py:130 | Inserting into a newest-first list keeps it newest first. |
| ApplicationTracker.StatusFilterExactly | tracker/application_tracker.py:128-129 | The status filter keeps exactly the records with that status. |
| ApplicationTracker.FollowUpsExactly | tracker/application_tracker.py:138-142 | A record is due iff its follow-up date is set, not after now, and its status is still open. |
| ApplicationTracker.Bump | tracker/application_tracker.py:163 | One count increments an existing key or appends a new one. |
| ApplicationTracker.BumpCount | tracker/application_tracker.py:163 | Keys stay distinct, only the bumped status's count rises by one, and no foreign key appears. |
| ApplicationTracker.BumpSum | tracker/application_tracker.py:163 | Each bump raises the sum of the counts by one. |
| ApplicationTracker.StatusCountsCorrect | tracker/application_tracker.py:158-163 | `by_status` has one key per status, each counting exactly the records with it, and the counts sum to `total`. |
| ApplicationTracker.PositiveScores | tracker/application_tracker.py:165 | The kept scores are all positive and no more than the records. |
| ApplicationTracker.ValidIdsLocate | tracker/application_tracker.py:53-54 | With unique ids, every record is the first and only one carrying its id, so `update_status` and `set_follow_up` change exactly that record. The counter names no record, so the next added id is fresh. |
| ApplicationTracker.AverageScoreBounds | tracker/application_tracker.py:165-166 | The average is 0 with no positive scores, and otherwise positive and no more than any common bound on the scores. |
| LatexGenerator.EscapeLatex | output/latex_generator.py:15-32 | Empty text stays empty. The nine sequential replacements compute the per-character escape. |
| LatexGenerator.ChainIsEscape | output/latex_generator.py:19-31 | Braces come before `~` and `^`, so the chain of whole-text replacements equals one left-to-right per-character map. |
| LatexGenerator.EscapeCharIsFate | output/latex_generator.py:19-29 | Each of `& % $ # _ { }` becomes backslash plus itself. `~` and `^` become `\textasciitilde{}` and `\textasciicircum{}`. Every other character, including backslash, is kept. |
| LatexGenerator.EachChainOneChar | output/latex_generator.py:30-31 | For a table with distinct keys whose replacements never feed a later entry, the chain maps one character to its table entry. |
| LatexGenerator.EscapePlain | output/latex_generator.py:19-32 | Text without special characters is unchanged. |
| LatexGenerator.EscapeLeavesNoBareSpecial | output/latex_generator.py:19-32 | No `~` or `^` survives, and every `& % $ # _` in the output follows a backslash. |
| LatexGenerator.EscapeNoNewline | output/latex_generator.py:19-32 | Escaping adds no line breaks. |
| LatexGenerator.EscapeAppend | output/latex_generator.py:30-31 | Escaping distributes over concatenation. |
| LatexGenerator.BuildBulletItems | output/latex_generator.py:35-41 | One `\resumeItem{\textbullet\ ...}` line per escaped bullet, in order, joined by newlines. The block is empty iff there are no bullets. |
| LatexGenerator.BulletBlockLines | output/latex_generator.py:35-41 | Splitting a block of line-free bullets at its newlines gives back exactly the bullet lines. |
| LatexGenerator.LinkUrl | output/latex_generator.py:70-84 | A link starting with "http" is kept. Any other link gets its prefix, so the result starts with "http" and ends with the value. |
| LatexGenerator.BuildContactLine | output/latex_generator.py:58-86 | Joins the given email, phone, LinkedIn, GitHub and Website parts, in that order, with the LaTeX vertical-bar separator between parts. |
| LatexGenerator.AppendLink | output/latex_generator.py:70-84 | One link step appends its `\href` part exactly when the link is given. |
| LatexGenerator.ContactLineParts | output/latex_generator.py:58-86 | One part per given field; the line is empty iff no field is given; every link URL starts with "http". |
| LatexGenerator.BuildSkillsSection | output/latex_generator.py:112-126 | The skills lines of the four known categories, in fixed order, joined by newlines. |
| LatexGenerator.SkillLines | output/latex_generator.py:119-125 | There are never more lines than categories. |
| LatexGenerator.UnknownCategoryIgnored | output/latex_generator.py:119-120 | A category under any other key never changes the skills lines. |
| LatexGenerator.SkillLinesShown | output/latex_generator.py:119-125 | Each known category with a non-empty value is printed, and the lines are empty iff all four are empty. |
| LatexGenerator.BuildEducationSection | output/latex_generator.py:103-109 | One subheading per education entry, separated by `\vspace{2pt}`; empty iff there are no entries. |
| LatexGenerator.BuildExperienceSection | output/latex_generator.py:129-150 | One subheading with its bullet block per entry, joined by newlines; empty iff there are no entries. |
| LatexGenerator.BuildProjectsSection | output/latex_generator.py:153-162 | One subheading with its bullet block per project, joined by newlines; empty iff there are no projects. |
| LatexGenerator.CertificationsBlock | output/latex_generator.py:165-169 | The certifications line is empty iff there are no certifications. |
| LatexGenerator.AddSection | output/latex_generator.py:175-207 | One `sections.append` adds the rendered section exactly when its content is non-empty, or always for skills and education. |
| LatexGenerator.AssembleSections | output/latex_generator.py:173-207 | The rendered sections, in the fixed order, each optional one only when its content is non-empty. |
| LatexGenerator.SectionOrder | output/latex_generator.py:171-207 | Skills first, Education always present, ranks strictly increasing in the order Skills, Experience, Research, Projects, Education, Certifications. Each optional section is present iff its list is non-empty. |
| LatexGenerator.GenerateLatex | output/latex_generator.py:96-209 | The document text is the centred escaped name and contact line, then the sections joined by blank lines. |
| LinkedInScraper.ExperienceFilter | scrapers/linkedin_scraper.py:59-63 | "mid" maps to `&f_E=3,4` and "senior" to `&f_E=4,5`; the filter is empty iff the level is neither. |
| LinkedInScraper.Offsets | scrapers/linkedin_scraper.py:65 | `range(start, stop, step)`: every offset is in [start, stop). |
| LinkedInScraper.OffsetsExactly | scrapers/linkedin_scraper.py:65 | The offsets are start, start + step, ..., in order, exactly those below stop. |
| LinkedInScraper.DropQueryIsPrefix | scrapers/linkedin_scraper.py:113 | The kept URL is a prefix of the link without `?`, and a link without a query is kept whole. |
| LinkedInScraper.ViewIdSplits | scrapers/linkedin_scraper.py:115-116 | The id is the text after the last `/view/`, with trailing slashes removed. |
| LinkedInScraper.ReadCard | scrapers/linkedin_scraper.py:97-120 | Title, company, location and date come from their elements, and the URL is the link without its query. When the URL holds `/view/` the job id is the text after its last occurrence, and a non-empty id implies it does. |
| LinkedInScraper.PickCard | scrapers/linkedin_scraper.py:96-123 | One card yields its listing exactly when it has a title and a company, and that listing is a LinkedIn card listing. |
| LinkedInScraper.TakeRoom | scrapers/linkedin_scraper.py:96-126 | With room for `room` more listings, the card loop returns exactly the first `room` listings of the cards that have a title and a company, in order. |
| LinkedInScraper.TakeCards | scrapers/linkedin_scraper.py:96-126 | The card loop keeps the earlier listings and appends the first kept cards, in order, up to `max_results` in all. |
| LinkedInScraper.CardsTakenFromCards | scrapers/linkedin_scraper.py:122-123 | Every listing the card loop appends came from a card with a title and a company. |
| LinkedInScraper.ScrapePage | scrapers/linkedin_scraper.py:75-134 | A refused page ends the run with the Google fallback asked for `max_results`. A failed page, or one without cards, ends it with the fallback asked for what is still missing. Otherwise the page's cards are taken, and the run ends once `max_results` are held. |
| LinkedInScraper.ScrapeLinkedIn | scrapers/linkedin_scraper.py:43-136 | The result is the page-by-page run over offsets 0, 25, ... below `max_results`, on the `quote_plus`-encoded search URLs, cut to `max_results`. Each listing comes from a card with title and company or from the Google fallback. |
| LinkedInScraper.LinkedInStopsAtFallback | scrapers/linkedin_scraper.py:79-94 | Pages after the first refused, failed or empty one are never requested: two services answering the same up to that page give the same listings. |
| LinkedInScraper.PageStepSourced | scrapers/linkedin_scraper.py:79-131 | One page appends only card listings and Google listings. |
| LinkedInScraper.RunSourced | scrapers/linkedin_scraper.py:65-134 | The whole run holds only card listings and Google listings. |
| LinkedInScraper.ResultCount | scrapers/linkedin_scraper.py:145 | `min(max_results, 20)`. |
| LinkedInScraper.GoogleUrlParameters | scrapers/linkedin_scraper.py:144-145 | The Google request is the `quote_plus`-encoded `site:` query, which holds no `&` or `#`, followed by `&num=` and `min(max_results, 20)`. |
| LinkedInScraper.HeadingSplit | scrapers/linkedin_scraper.py:164-169 | Every occurrence of the LinkedIn marker (a space, a vertical bar, a space, then "LinkedIn") is removed from the heading, not just a trailing one; then the title is the stripped text before the first " - " and the company the stripped rest. Without a separator there is no split. |
| LinkedInScraper.ReadResult | scrapers/linkedin_scraper.py:157-169 | The result's link is the URL. A split heading gives title and company; otherwise the whole heading is the title. |
| LinkedInScraper.ResultTurn | scrapers/linkedin_scraper.py:153-172 | A result whose link does not go to `linkedin.com/jobs` is skipped. Any other result yields its listing exactly when the heading gives a title. |
| LinkedInScraper.TakeResults | scrapers/linkedin_scraper.py:152-175 | The results loop returns the first `max_results` kept results, in order. With `max_results` of 0 or less it stops right after the first result linking to LinkedIn jobs. |
| LinkedInScraper.GoogleStop | scrapers/linkedin_scraper.py:171-175 | Wherever the results loop stops, whether at the count or at the end, it holds exactly what the fallback returns. |
| LinkedInScraper.FirstLinkStop | scrapers/linkedin_scraper.py:174-175 | With no positive count, the loop holds the picks of the results up to and including the first one linking to LinkedIn jobs. |
| LinkedInScraper.ScrapeViaGoogle | scrapers/linkedin_scraper.py:139-180 | One request to the encoded Google URL. A request that raises gives nothing. Otherwise the result is what the results loop keeps, at most `max_results` listings (one when `max_results` is below 1), each a Google listing. |
| LinkedInScraper.GoogleTakenFromGoogle | scrapers/linkedin_scraper.py:157-172 | Every listing the results loop keeps has a title and a `linkedin.com/jobs` link, with source `linkedin_via_google`. |
| LinkedInScraper.GoogleJobsFromGoogle | scrapers/linkedin_scraper.py:139-180 | Every listing the fallback returns is a Google listing. |
| Text.QuotePlusAlphabet | scrapers/linkedin_scraper.py:54-55 | A `quote_plus`-encoded value holds only letters, digits, `_.-~`, `+` and `%`, so it cannot end the URL parameter it is placed in. |
| Text.QuotePlusKeepsSafe | scrapers/indeed_scraper.py:26-27 | Text made only of letters, digits and `_.-~` is left unchanged. |
| Text.QuotePlusSpace | scrapers/linkedin_scraper.py:144-145 | A space becomes `+`, and no other character does. |
| Text.QuotePlusAppend | scrapers/linkedin_scraper.py:144-145 | Encoding distributes over concatenation, so the `site:` query encodes piece by piece. |
| Text.Strip | scrapers/linkedin_scraper.py:166-167 | `str.strip()`: the result is no longer than the input, and neither starts nor ends with whitespace. |
| Text.StripSlice | scrapers/linkedin_scraper.py:166-167 | The stripped text is a contiguous slice of the input. |
| IndeedScraper.AbsoluteUrl | scrapers/indeed_scraper.py:66-70 | An href starting with "/" is prefixed with `https://www.indeed.com`; any other is kept verbatim. |
| IndeedScraper.JobKeyAfterLastMarker | scrapers/indeed_scraper.py:72-73 | The job key starts right after the last `jk=` and runs up to, not including, the first `&`. |
| IndeedScraper.ReadCard | scrapers/indeed_scraper.py:56-87 | Title, company and location come from their elements and the URL from the title link. The job id is the `jk=` key when the URL holds `jk=`, and empty otherwise. |
| IndeedScraper.PickCard | scrapers/indeed_scraper.py:56-90 | One card yields its listing exactly when it has a title and a company. |
| IndeedScraper.TakeRoom | scrapers/indeed_scraper.py:55-93 | With room for `room` more listings, the card loop returns exactly the first `room` kept cards, in order. |
| IndeedScraper.TakeCards | scrapers/indeed_scraper.py:55-93 | The card loop keeps the earlier listings and appends the first kept cards, in order, up to `max_results` in all, each with a title and a company. |
| IndeedScraper.CardsTakenKept | scrapers/indeed_scraper.py:89-90 | Every listing the card loop appends has a title and a company. |
| IndeedScraper.ScrapePage | scrapers/indeed_scraper.py:37-100 | A refused or failed page ends the run with what is held. Otherwise the page's cards are taken, none for a page without cards, and the run ends once `max_results` are held. |
| IndeedScraper.IndeedStopsAtRefusal | scrapers/indeed_scraper.py:37-97 | Pages after the first refused or failed one are never requested. The result is what the pages before it gave. |
| IndeedScraper.RunKept | scrapers/indeed_scraper.py:25-100 | The whole run holds only Indeed listings with a title and a company. |
| IndeedScraper.ScrapeIndeed | scrapers/indeed_scraper.py:17-102 | The result is the page-by-page run over offsets 0, 10, 20, ... below `max_results`, on the `quote_plus`-encoded search URLs, cut to `max_results`. Each listing has a title and a company. |
| GreenhouseLever.AnyInExactly | scrapers/greenhouse_lever.py:51-52 | `any(f in title for f in filters)` holds iff some segment occurs in the title. |
| GreenhouseLever.TitleWantedExactly | scrapers/greenhouse_lever.py:49-53 | A non-empty filter wants a title iff some comma-separated lowercased segment occurs in the lowercased title. |
| GreenhouseLever.EmptySegmentWantsAll | scrapers/greenhouse_lever.py:51 | Segments are not trimmed, so an empty segment wants every title. |
| GreenhouseLever.GreenhouseSlugSegment | scrapers/greenhouse_lever.py:37-40 | The slug is the last `/` segment after trailing slashes are stripped: it is non-empty and holds no `/`. |
| GreenhouseLever.LeverSlugSegment | scrapers/greenhouse_lever.py:111 | The Lever slug is the start of the URL's last `/` segment, up to and not including its first `?`. It holds neither `/` nor `?`. |
| GreenhouseLever.JoinHref | scrapers/greenhouse_lever.py:79 | An href starting with "http" is kept; otherwise it is appended to the board URL with trailing slashes stripped. |
| GreenhouseLever.CompanyOr | scrapers/greenhouse_lever.py:57 | The company name when non-empty, else the slug. |
| GreenhouseLever.GreenhouseFromJson | scrapers/greenhouse_lever.py:45-63 | Every API job whose title passes the filter, in order, with the company given. |
| GreenhouseLever.GreenhouseFromHtml | scrapers/greenhouse_lever.py:72-94 | Every opening with a non-empty title that passes the filter, in order, with joined URLs. |
| GreenhouseLever.PickGreenhouseJob | scrapers/greenhouse_lever.py:46-63 | One API job gives a listing with the given company exactly when its title passes the filter. |
| GreenhouseLever.PickOpening | scrapers/greenhouse_lever.py:73-94 | One opening gives a listing exactly when its title is non-empty and passes the filter; the listing carries the company name. |
| GreenhouseLever.ScrapeGreenhouse | scrapers/greenhouse_lever.py:30-99 | A `boards.greenhouse.io` URL reads the API, and a 200 answer gives its filtered jobs. A non-200 API answer, or another URL, falls back to the HTML board. Its openings are read from the body whatever the page's status. A request that raises gives nothing. Every listing passes the filter. |
| GreenhouseLever.WantedJobListed | scrapers/greenhouse_lever.py:45-63 | A job with a wanted title is listed right after the listings of the jobs before it. |
| GreenhouseLever.LeverFromJson | scrapers/greenhouse_lever.py:117-135 | Every posting whose text passes the filter, in order, with the company given. |
| GreenhouseLever.LeverFromHtml | scrapers/greenhouse_lever.py:144-170 | Every posting element with a non-empty title that passes the filter, in order. |
| GreenhouseLever.PickLeverPosting | scrapers/greenhouse_lever.py:118-135 | One API posting gives a listing with the given company exactly when its text passes the filter. |
| GreenhouseLever.PickPosting | scrapers/greenhouse_lever.py:145-170 | One posting element gives a listing exactly when its title is non-empty and passes the filter; the listing carries the company name. |
| GreenhouseLever.ScrapeLever | scrapers/greenhouse_lever.py:102-175 | Works like the Greenhouse scraper, with a `jobs.lever.co` URL and the query-free slug. The HTML board's postings are read whatever the page's status. |
| GreenhouseLever.LinkTextFallback | scrapers/greenhouse_lever.py:147-155 | A posting without an `h5` title takes its link text as title and the link as URL. |

## Left out

**Excluded by design**

- The LLM calls (`tailor_resume`, `generate_suggestions`, `parse_jd`, the cover-letter writer and the resume-upload parser), the network, HTML parsing, sleeps and random pacing. Scrapers receive each response as a function from URL to parsed elements.
- File I/O and subprocesses:
  - the tracker's `_load_data`/`_save_data`, replaced by the in-memory fields;
  - profile saving;
  - the `.tex` write, `pdflatex`, `pdfinfo` and `_get_page_count`;
  - the paths and page count `generate_latex` returns.
- The LaTeX preamble, a fixed block of text before `\begin{document}`: `GenerateLatex` yields the document from `\begin{document}` on.
- The PDF and DOCX renderers and the cover letter.
  - `Api.Finalize`: these are folded into one `outputsWritten` parameter, and a failure answers 500.
  - Scoring is computed before that check, which is equivalent because scoring reads only the cached bundle.
- Concurrency: the tracker lock and request concurrency. The cache is modelled sequentially, as the source has no lock.
- Clocks are parameters:
  - `Api.SuggestionCache.CacheSuggestions` takes the two readings it makes;
  - `Api.SuggestionCache.GetCachedSuggestions` takes one;
  - `ApplicationTracker.Tracker.SetFollowUp` takes the follow-up stamp already computed. The source computes it as now plus `days` days, and date arithmetic is not part of this model.
- `Api.TrackNew`: one `now` stands for the clock reading of every record added in one loop. The source reads the clock once per record.
- Session ids are opaque strings, because `hash(str(...))` is process-specific.
- `ResumeTailor.ComputeAtsScore`, `AtsOptimizer.AnalyzeAtsCoverage` and `ApplicationTracker.Tracker.GetStats` do not model `round(x, 2)`. Scores are exact unrounded ratios, and the recommendation compares them before any rounding, as the source does.
- `ResumeTailor.ComputeAtsScore` stores the unrounded score in `ats_score`.
- The source visits Python sets in an unspecified order:
  - `ResumeTailor.PartitionKeywords` picks an arbitrary order, and only set-level facts are stated;
  - `AtsOptimizer.MatchedAllWithinSkills` states facts about sets only.
- `str.lower` and `str.isalnum` act on ASCII letters and digits only. `strip` removes Python's full whitespace set, as `str.isspace` defines it.
- `Text.QuotePlus` escapes every character outside letters, digits and `_.-~`, as `quote_plus` does with its default `safe=""`.
- `LinkedInScraper.ScrapeLinkedIn` and `IndeedScraper.ScrapeIndeed`: an exception in the middle of a page is modelled as a failed page, which drops the cards already read from that page. A request that raises, and a Google request that raises, are modelled as answers (`Failure`, `None`).
- The HTML selectors and their fallbacks (`base-card`, `job_seen_beacon` and so on) are part of the parser: each page arrives as the cards they would find.
- `ResumeTailor.ApplyUserEdits`: include toggles are a `map<string, bool>` and the `selected` flag is a `bool`. The source tests them with Python truthiness (engine/resume_tailor.py:420), so a non-boolean toggle such as `0`, `""` or `"no"` decides inclusion by its truthiness; that case is not modelled.
- `GreenhouseLever.GreenhouseFromJson`: a job id arrives already converted with `str()`.
- `GreenhouseLever.GreenhouseFromJson` and `GreenhouseLever.LeverFromJson`: a JSON `null` cannot be represented, since a field is either absent (`None`) or a string. In the source a null `location` (scrapers/greenhouse_lever.py:58) or `categories` (line 126) raises in the middle of the loop, and the scraper then returns the listings collected before it. A null title with a filter raises the same way.
- A skill category whose value is neither a list nor a string is not modelled. The scorers skip non-list values, and the LaTeX skills block walks a string value character by character, as `for s in skills` does.
- `ApplicationTracker.Tracker.GetFollowUps` compares ISO dates by code-point order of the strings, as Python does.

**Behaviour of the code worth noting**

- `Api.SuggestionCache.GetCachedSuggestions`: the cache age test reads only the seconds component of the age (`timedelta.seconds`). An entry a day and one second old counts as one second old. The model follows the code.
- `Api.Finalize`: finalize looks the session up and deletes it only after every output is written. It is not an atomic take.
- `Api.ScrapeBoard`: a board of neither kind raises a 400 inside the endpoint's catch-all `except Exception`, which turns it into a 500. The model answers 500.
- `Api.Finalize`: an empty cached bundle is falsy in the source and answers 404. Bundles here are never empty, so that case cannot arise.
- `Api.Finalize`: a failing `add_application` is not modelled, because the tracker write is in memory and cannot fail.
- `LatexGenerator.BuildEducationSection`: the GPA is printed unescaped, exactly as the source does.
- `LatexGenerator.BuildSkillsSection`, `ResumeTailor.ComputeAtsScore` and `AtsOptimizer.AnalyzeAtsCoverage`: the JSON skills object is modelled as a list of pairs, and nothing requires its keys to be distinct. A parsed JSON object always has distinct keys, and only for such a list do the three agree with the source. Given a repeated key, the LaTeX block takes the later pair, while the two scorers read every pair.
