/** The detailed keyword-coverage report (`analyze_ats_coverage`) and the
    recommendation sentence attached to it (`_get_recommendation`). */
module AtsOptimizer {
  import opened Seqs
  import opened Text
  import opened JdParser
  import opened ResumeTailor

  /** Every term of the job description, lowercased and de-duplicated: keywords,
      required skills, preferred skills and tech stack. */
  function AllJdKeywords(jd: ParsedJD): set<string> {
    LowerSet(jd.keywords) + LowerSet(jd.requiredSkills) + LowerSet(jd.preferredSkills) + LowerSet(jd.techStack)
  }

  /** `" ".join(skills).lower() + " "` for every list-valued category. */
  function SkillsCoverageText(skills: Skills): string
    decreases |skills|
  {
    if skills == [] then ""
    else
      var n := |skills| - 1;
      SkillsCoverageText(skills[..n])
      + (match skills[n].1 case SkillList(items) => Lower(Join(items, " ")) + " " case SkillText(_) => "")
  }

  /** Each bullet lowercased and followed by a space. */
  function LoweredBulletsText(bullets: seq<string>): string
    decreases |bullets|
  {
    if bullets == [] then "" else LoweredBulletsText(bullets[..|bullets| - 1]) + Lower(bullets[|bullets| - 1]) + " "
  }

  /** An entry's bullets and then its title. */
  function EntryText(bullets: seq<string>, title: string): string {
    LoweredBulletsText(bullets) + Lower(title) + " "
  }

  function ExperienceCoverageText(exps: seq<ExperienceEntry>): string
    decreases |exps|
  {
    if exps == [] then ""
    else
      var e := exps[|exps| - 1];
      ExperienceCoverageText(exps[..|exps| - 1]) + EntryText(e.bullets, e.title)
  }
  lemma ExperienceCoverageStep(exps: seq<ExperienceEntry>, k: nat)
    requires k < |exps|
    ensures ExperienceCoverageText(exps[..k + 1]) == ExperienceCoverageText(exps[..k]) + EntryText(exps[k].bullets, exps[k].title)
  {
    assert exps[..k + 1][..k] == exps[..k];
  }


  function ProjectCoverageText(projs: seq<ProjectEntry>): string
    decreases |projs|
  {
    if projs == [] then ""
    else
      var p := projs[|projs| - 1];
      ProjectCoverageText(projs[..|projs| - 1]) + EntryText(p.bullets, p.title)
  }
  lemma ProjectCoverageStep(projs: seq<ProjectEntry>, k: nat)
    requires k < |projs|
    ensures ProjectCoverageText(projs[..k + 1]) == ProjectCoverageText(projs[..k]) + EntryText(projs[k].bullets, projs[k].title)
  {
    assert projs[..k + 1][..k] == projs[..k];
  }


  /** The lowercased text the report searches: skills, then each experience's bullets
      and title, then each project's bullets and title. */
  function CoverageText(skills: Skills, exps: seq<ExperienceEntry>, projs: seq<ProjectEntry>): string {
    SkillsCoverageText(skills) + ExperienceCoverageText(exps) + ProjectCoverageText(projs)
  }

  /** The terms whose lowercase form occurs in `text` (`term.lower() in text`), in order. */
  function Matched(terms: seq<string>, text: string): (r: seq<string>)
    ensures |r| <= |terms|
    decreases |terms|
  {
    if terms == [] then []
    else
      var n := |terms| - 1;
      Matched(terms[..n], text) + (if Contains(text, Lower(terms[n])) then [terms[n]] else [])
  }

  /** The other terms, in order. */
  function Missing(terms: seq<string>, text: string): (r: seq<string>)
    ensures |r| <= |terms|
    decreases |terms|
  {
    if terms == [] then []
    else
      var n := |terms| - 1;
      Missing(terms[..n], text) + (if Contains(text, Lower(terms[n])) then [] else [terms[n]])
  }

  // ----------------------------------------------------------- the report

  datatype AtsReport = AtsReport(
    overallScore: real,
    requiredSkillsScore: real,
    matchedRequired: seq<string>,
    missingRequired: seq<string>,
    matchedPreferred: seq<string>,
    missingPreferred: seq<string>,
    matchedTech: seq<string>,
    missingTech: seq<string>,
    totalKeywords: nat,
    totalMatched: nat,
    recommendation: string)

  /** `set(k.lower() for k in matched_required + matched_preferred + matched_tech)`. */
  function MatchedAll(jd: ParsedJD, text: string): set<string> {
    LowerSet(Matched(jd.requiredSkills, text) + Matched(jd.preferredSkills, text)
             + Matched(jd.techStack, text))
  }

  /** The unrounded overall score. */
  function OverallScore(jd: ParsedJD, text: string): real {
    Ratio(|MatchedAll(jd, text)|, |AllJdKeywords(jd)|)
  }

  /** The unrounded required-skills score. */
  function RequiredScore(jd: ParsedJD, text: string): real {
    Ratio(|Matched(jd.requiredSkills, text)|, |jd.requiredSkills|)
  }

  /** The report once the text to search is known. */
  function CoverageOfText(jd: ParsedJD, text: string): AtsReport {
    var score := OverallScore(jd, text);
    var reqScore := RequiredScore(jd, text);
    var missingRequired := Missing(jd.requiredSkills, text);
    AtsReport(score, reqScore,
              Matched(jd.requiredSkills, text), missingRequired,
              Matched(jd.preferredSkills, text), Missing(jd.preferredSkills, text),
              Matched(jd.techStack, text), Missing(jd.techStack, text),
              |AllJdKeywords(jd)|, |MatchedAll(jd, text)|,
              Recommendation(score, reqScore, missingRequired))
  }

  /** The report for a resume's skills, experiences (work then research) and projects. */
  function Coverage(skills: Skills, exps: seq<ExperienceEntry>, projs: seq<ProjectEntry>, jd: ParsedJD): AtsReport {
    CoverageOfText(jd, CoverageText(skills, exps, projs))
  }

  // ------------------------------------------------------- recommendation

  /** The four bands of advice, from best to worst. */
  datatype Tier = Strong | Good | Moderate | Weak

  /** Which band the unrounded scores fall in; the required-skills score decides, and
      only the top band also asks for an overall score of 0.7. */
  function AdviceTier(score: real, reqScore: real): Tier {
    if reqScore >= 0.9 && score >= 0.7 then Strong
    else if reqScore >= 0.7 then Good
    else if reqScore >= 0.5 then Moderate
    else Weak
  }

  /** The opening words of each band's sentence. */
  function TierOpening(tier: Tier): string {
    match tier
    case Strong => "Strong match."
    case Good => "Good match"
    case Moderate => "Moderate match."
    case Weak => "Weak match."
  }

  /** The sentence for a band; the "good" one names the first five missing required skills. */
  function TierText(tier: Tier, missingRequired: seq<string>): string {
    TierOpening(tier) + TierRest(tier, missingRequired)
  }

  /** What follows each band's opening words. */
  function TierRest(tier: Tier, missingRequired: seq<string>): string {
    match tier
    case Strong => " Resume is well-tailored for this role."
    case Good => " but missing some required skills: " + Join(Take(missingRequired, 5), ", ")
                 + ". Consider if you can add these through rewording."
    case Moderate => " Missing several required skills. This role may be a stretch but worth applying if interested."
    case Weak => " Consider whether this role aligns with your background before applying."
  }

  function Recommendation(score: real, reqScore: real, missingRequired: seq<string>): string {
    TierText(AdviceTier(score, reqScore), missingRequired)
  }

  /** Each band's sentence opens with its own first letter. */
  function TierInitial(tier: Tier): char {
    match tier
    case Strong => 'S'
    case Good => 'G'
    case Moderate => 'M'
    case Weak => 'W'
  }

  lemma OpeningInitial(tier: Tier)
    ensures TierOpening(tier) != [] && TierOpening(tier)[0] == TierInitial(tier)
  {
  }

  lemma InitialInjective(t1: Tier, t2: Tier)
    requires TierInitial(t1) == TierInitial(t2)
    ensures t1 == t2
  {
  }

  lemma HeadOfConcat(a: string, b: string)
    requires a != []
    ensures (a + b)[0] == a[0]
  {
  }

  lemma TierTextInitial(tier: Tier, missingRequired: seq<string>)
    ensures |TierText(tier, missingRequired)| > 0 && TierText(tier, missingRequired)[0] == TierInitial(tier)
  {
    OpeningInitial(tier);
    HeadOfConcat(TierOpening(tier), TierRest(tier, missingRequired));
  }

  /** The sentence tells the band: two recommendations are equal only if their bands are. */
  lemma RecommendationNamesTier(s1: real, r1: real, m1: seq<string>, s2: real, r2: real, m2: seq<string>)
    requires Recommendation(s1, r1, m1) == Recommendation(s2, r2, m2)
    ensures AdviceTier(s1, r1) == AdviceTier(s2, r2)
  {
    TierTextInitial(AdviceTier(s1, r1), m1);
    TierTextInitial(AdviceTier(s2, r2), m2);
    InitialInjective(AdviceTier(s1, r1), AdviceTier(s2, r2));
  }

  /** The bands are ordered by the required-skills score: each is reached exactly on its
      interval, and the top one only with an overall score of at least 0.7. */
  lemma AdviceTierBands(score: real, reqScore: real)
    ensures AdviceTier(score, reqScore) == Strong <==> reqScore >= 0.9 && score >= 0.7
    ensures AdviceTier(score, reqScore) == Good <==> reqScore >= 0.7 && !(reqScore >= 0.9 && score >= 0.7)
    ensures AdviceTier(score, reqScore) == Moderate <==> 0.5 <= reqScore < 0.7
    ensures AdviceTier(score, reqScore) == Weak <==> reqScore < 0.5
  {
  }

  /** A better required-skills score never gives worse advice, for the same overall score. */
  lemma AdviceTierMonotone(score: real, r1: real, r2: real)
    requires r1 <= r2
    ensures AdviceTier(score, r2) == Strong || AdviceTier(score, r1) != Strong
    ensures AdviceTier(score, r1) == Good ==> AdviceTier(score, r2) in {Strong, Good}
    ensures AdviceTier(score, r2) == Weak ==> AdviceTier(score, r1) == Weak
  {
  }

  // ------------------------------------------------------------- methods

  /** `acc` plus every term of `terms`, lowercased: one of the `add` loops. */
  method AddLowered(acc: set<string>, terms: seq<string>) returns (r: set<string>)
    ensures r == acc + LowerSet(terms)
  {
    r := acc;
    for i := 0 to |terms|
      invariant r == acc + LowerSet(terms[..i])
    {
      assert terms[..i + 1] == terms[..i] + [terms[i]];
      LowerSetAppend(terms[..i], [terms[i]]);
      r := r + {Lower(terms[i])};
    }
    assert terms[..|terms|] == terms;
  }

  method AppendLoweredBullets(text: string, bullets: seq<string>) returns (r: string)
    ensures r == text + LoweredBulletsText(bullets)
  {
    r := text;
    for j := 0 to |bullets|
      invariant r == text + LoweredBulletsText(bullets[..j])
    {
      assert bullets[..j + 1][..j] == bullets[..j];
      r := r + Lower(bullets[j]) + " ";
    }
    assert bullets[..|bullets|] == bullets;
  }

  method AppendSkillsText(text: string, skills: Skills) returns (r: string)
    ensures r == text + SkillsCoverageText(skills)
  {
    r := text;
    for k := 0 to |skills|
      invariant r == text + SkillsCoverageText(skills[..k])
    {
      assert skills[..k + 1][..k] == skills[..k];
      match skills[k].1
      case SkillList(items) => r := r + Lower(Join(items, " ")) + " ";
      case SkillText(_) =>
    }
    assert skills[..|skills|] == skills;
  }

  /** An entry's lowercased bullets, then its lowercased title, each with a space. */
  method AppendEntryText(text: string, bullets: seq<string>, title: string) returns (r: string)
    ensures r == text + EntryText(bullets, title)
  {
    r := AppendLoweredBullets(text, bullets);
    r := r + Lower(title) + " ";
  }

  method AppendExperiencesText(text: string, exps: seq<ExperienceEntry>) returns (r: string)
    ensures r == text + ExperienceCoverageText(exps)
  {
    r := text;
    for k := 0 to |exps|
      invariant r == text + ExperienceCoverageText(exps[..k])
    {
      ExperienceCoverageStep(exps, k);
      r := AppendEntryText(r, exps[k].bullets, exps[k].title);
    }
    assert exps[..|exps|] == exps;
  }

  method AppendProjectsText(text: string, projs: seq<ProjectEntry>) returns (r: string)
    ensures r == text + ProjectCoverageText(projs)
  {
    r := text;
    for k := 0 to |projs|
      invariant r == text + ProjectCoverageText(projs[..k])
    {
      ProjectCoverageStep(projs, k);
      r := AppendEntryText(r, projs[k].bullets, projs[k].title);
    }
    assert projs[..|projs|] == projs;
  }

  /** The text-building loops of the report, in the order they append. */
  method BuildCoverageText(skills: Skills, exps: seq<ExperienceEntry>, projs: seq<ProjectEntry>)
    returns (text: string)
    ensures text == CoverageText(skills, exps, projs)
  {
    text := AppendSkillsText("", skills);
    text := AppendExperiencesText(text, exps);
    text := AppendProjectsText(text, projs);
  }

  /** One of the three categorising loops: terms found in `text`, and the others, in order. */
  method Categorize(terms: seq<string>, text: string) returns (matched: seq<string>, missing: seq<string>)
    ensures matched == Matched(terms, text)
    ensures missing == Missing(terms, text)
  {
    matched, missing := [], [];
    for i := 0 to |terms|
      invariant matched == Matched(terms[..i], text)
      invariant missing == Missing(terms[..i], text)
    {
      assert terms[..i + 1][..i] == terms[..i];
      if Contains(text, Lower(terms[i])) {
        matched := matched + [terms[i]];
      } else {
        missing := missing + [terms[i]];
      }
    }
    assert terms[..|terms|] == terms;
  }

  /** Categorises the three lists against `text` and scores the result; `all` is the
      set of every lowercased term. */
  method ScoreCoverage(jd: ParsedJD, text: string, all: set<string>) returns (report: AtsReport)
    requires all == AllJdKeywords(jd)
    ensures report == CoverageOfText(jd, text)
  {
    var matchedRequired, missingRequired := Categorize(jd.requiredSkills, text);
    var matchedPreferred, missingPreferred := Categorize(jd.preferredSkills, text);
    var matchedTech, missingTech := Categorize(jd.techStack, text);

    var total := |all|;
    var matchedAll := LowerSet(matchedRequired + matchedPreferred + matchedTech);
    var score := if total > 0 then |matchedAll| as real / total as real else 1.0;
    var reqTotal := |jd.requiredSkills|;
    var reqScore := if reqTotal > 0 then |matchedRequired| as real / reqTotal as real else 1.0;

    report := AtsReport(score, reqScore, matchedRequired, missingRequired,
                        matchedPreferred, missingPreferred, matchedTech, missingTech,
                        total, |matchedAll|, Recommendation(score, reqScore, missingRequired));
  }

  /** Scores the tailored resume against the job description. */
  method AnalyzeAtsCoverage(t: TailoredResume, jd: ParsedJD) returns (report: AtsReport)
    ensures report == Coverage(t.technicalSkills, t.workExperience + t.researchExperience, t.projects, jd)
  {
    var all := AddLowered({}, jd.keywords);
    all := AddLowered(all, jd.requiredSkills);
    all := AddLowered(all, jd.preferredSkills);
    all := AddLowered(all, jd.techStack);
    var text := BuildCoverageText(t.technicalSkills, t.workExperience + t.researchExperience, t.projects);
    report := ScoreCoverage(jd, text, all);
  }

  // ------------------------------------------------------------ properties

  /** A term is listed as matched exactly when it occurs in the text, and as missing
      exactly when it does not. */
  lemma {:induction false} CategorizeSplits(terms: seq<string>, text: string, term: string)
    ensures term in Matched(terms, text) <==> term in terms && Contains(text, Lower(term))
    ensures term in Missing(terms, text) <==> term in terms && !Contains(text, Lower(term))
    decreases |terms|
  {
    if terms != [] {
      var n := |terms| - 1;
      CategorizeSplits(terms[..n], text, term);
      assert terms == terms[..n] + [terms[n]];
    }
  }

  /** Each term lands in exactly one of the two lists, so together they are as long as the input. */
  lemma {:induction false} CategorizeCounts(terms: seq<string>, text: string)
    ensures |Matched(terms, text)| + |Missing(terms, text)| == |terms|
    decreases |terms|
  {
    if terms != [] {
      CategorizeCounts(terms[..|terms| - 1], text);
    }
  }

  lemma {:induction false} SubsetCard<T>(a: set<T>, b: set<T>)
    requires a <= b
    ensures |a| <= |b|
    decreases |b|
  {
    if b != {} {
      var x :| x in b;
      SubsetCard(a - {x}, b - {x});
    }
  }

  lemma FilterLowerSubset(s: seq<string>, text: string)
    ensures LowerSet(Matched(s, text)) <= LowerSet(s)
  {
    var f := Matched(s, text);
    forall k | k in LowerSet(f) ensures k in LowerSet(s) {
      var t :| t in f && Lower(t) == k;
      CategorizeSplits(s, text, t);
    }
  }

  /** The matched set only draws on required, preferred and tech-stack terms. */
  lemma MatchedAllWithinSkills(jd: ParsedJD, text: string)
    ensures MatchedAll(jd, text) <= LowerSet(jd.requiredSkills) + LowerSet(jd.preferredSkills) + LowerSet(jd.techStack)
    ensures MatchedAll(jd, text) <= AllJdKeywords(jd)
  {
    var mr, mp, mt := Matched(jd.requiredSkills, text), Matched(jd.preferredSkills, text),
                      Matched(jd.techStack, text);
    LowerSetAppend(mr + mp, mt);
    LowerSetAppend(mr, mp);
    FilterLowerSubset(jd.requiredSkills, text);
    FilterLowerSubset(jd.preferredSkills, text);
    FilterLowerSubset(jd.techStack, text);
  }

  /** The three categorisations split their lists, and the matched set is no larger
      than the set of all terms. */
  lemma CoverageCounts(jd: ParsedJD, text: string)
    ensures |MatchedAll(jd, text)| <= |AllJdKeywords(jd)|
    ensures |Matched(jd.requiredSkills, text)| + |Missing(jd.requiredSkills, text)| == |jd.requiredSkills|
    ensures |Matched(jd.preferredSkills, text)| + |Missing(jd.preferredSkills, text)| == |jd.preferredSkills|
    ensures |Matched(jd.techStack, text)| + |Missing(jd.techStack, text)| == |jd.techStack|
  {
    MatchedAllWithinSkills(jd, text);
    SubsetCard(MatchedAll(jd, text), AllJdKeywords(jd));
    CategorizeCounts(jd.requiredSkills, text);
    CategorizeCounts(jd.preferredSkills, text);
    CategorizeCounts(jd.techStack, text);
  }

  /** What a report promises about its own numbers. */
  predicate ReportInRange(r: AtsReport, jd: ParsedJD) {
    && r.totalMatched <= r.totalKeywords
    && 0.0 <= r.overallScore <= 1.0
    && 0.0 <= r.requiredSkillsScore <= 1.0
    && |r.matchedRequired| + |r.missingRequired| == |jd.requiredSkills|
    && |r.matchedPreferred| + |r.missingPreferred| == |jd.preferredSkills|
    && |r.matchedTech| + |r.missingTech| == |jd.techStack|
  }

  /** The report's counts and scores stay in range: no more matched terms than terms,
      both scores between 0 and 1, and every term of each list reported once. */
  lemma CoverageBounds(skills: Skills, exps: seq<ExperienceEntry>, projs: seq<ProjectEntry>, jd: ParsedJD)
    ensures ReportInRange(Coverage(skills, exps, projs, jd), jd)
  {
    var text := CoverageText(skills, exps, projs);
    ScoresInRange(jd, text);
    var r := Coverage(skills, exps, projs, jd);
    assert r.totalMatched <= r.totalKeywords;
    assert 0.0 <= r.overallScore <= 1.0;
    assert 0.0 <= r.requiredSkillsScore <= 1.0;
  }

  lemma ScoresInRange(jd: ParsedJD, text: string)
    ensures |MatchedAll(jd, text)| <= |AllJdKeywords(jd)|
    ensures |Matched(jd.requiredSkills, text)| + |Missing(jd.requiredSkills, text)| == |jd.requiredSkills|
    ensures |Matched(jd.preferredSkills, text)| + |Missing(jd.preferredSkills, text)| == |jd.preferredSkills|
    ensures |Matched(jd.techStack, text)| + |Missing(jd.techStack, text)| == |jd.techStack|
    ensures 0.0 <= OverallScore(jd, text) <= 1.0 && 0.0 <= RequiredScore(jd, text) <= 1.0
  {
    CoverageCounts(jd, text);
  }

  /** A term that appears only among the keywords counts in the total but is never
      among the matched ones. */
  lemma KeywordOnlyTermUnmatched(jd: ParsedJD, text: string, k: string)
    requires k in jd.keywords
    requires Lower(k) !in LowerSet(jd.requiredSkills) + LowerSet(jd.preferredSkills) + LowerSet(jd.techStack)
    ensures |MatchedAll(jd, text)| < |AllJdKeywords(jd)|
  {
    MatchedAllWithinSkills(jd, text);
    var m, all := MatchedAll(jd, text), AllJdKeywords(jd);
    assert Lower(k) in LowerSet(jd.keywords);
    assert Lower(k) in all && Lower(k) !in m;
    assert m <= all - {Lower(k)};
    SubsetCard(m, all - {Lower(k)});
    assert |all - {Lower(k)}| == |all| - 1;
  }

  /** A term that appears only among the keywords counts in the total but can never be
      matched, so the overall score stays below 1. */
  lemma KeywordOnlyTermCapsScore(jd: ParsedJD, text: string, k: string)
    requires k in jd.keywords
    requires Lower(k) !in LowerSet(jd.requiredSkills) + LowerSet(jd.preferredSkills) + LowerSet(jd.techStack)
    ensures OverallScore(jd, text) < 1.0
  {
    KeywordOnlyTermUnmatched(jd, text, k);
    RatioBelowOne(|MatchedAll(jd, text)|, |AllJdKeywords(jd)|);
  }

  lemma AllRequiredFoundLists(jd: ParsedJD, text: string)
    requires forall k :: k in jd.requiredSkills ==> Contains(text, Lower(k))
    ensures Missing(jd.requiredSkills, text) == []
    ensures |Matched(jd.requiredSkills, text)| == |jd.requiredSkills|
  {
    var x := Missing(jd.requiredSkills, text);
    if x != [] {
      CategorizeSplits(jd.requiredSkills, text, x[0]);
      assert false;
    }
    CategorizeCounts(jd.requiredSkills, text);
  }

  lemma RequiredScoreOfWhole(jd: ParsedJD, text: string)
    requires |Matched(jd.requiredSkills, text)| == |jd.requiredSkills|
    ensures RequiredScore(jd, text) == 1.0
  {
    RatioOfWhole(|jd.requiredSkills|);
  }

  /** With every required skill found, the required score is 1, so the advice is the
      strong one as soon as the overall score reaches 0.7, and the good one otherwise. */
  lemma AllRequiredFound(jd: ParsedJD, text: string, score: real)
    requires forall k :: k in jd.requiredSkills ==> Contains(text, Lower(k))
    ensures RequiredScore(jd, text) == 1.0
    ensures Missing(jd.requiredSkills, text) == []
    ensures AdviceTier(score, RequiredScore(jd, text)) == (if score >= 0.7 then Strong else Good)
  {
    AllRequiredFoundLists(jd, text);
    RequiredScoreOfWhole(jd, text);
  }

  // ------------------------------------------- more text, more matches

  /** A term matched in `text` stays matched once more text follows. */
  lemma MatchSurvivesAppend(terms: seq<string>, text: string, extra: string, term: string)
    requires term in Matched(terms, text)
    ensures term in Matched(terms, text + extra)
  {
    CategorizeSplits(terms, text, term);
    ContainsExtendRight(text, extra, Lower(term));
    CategorizeSplits(terms, text + extra, term);
  }

  /** So each matched list can only grow in length. */
  lemma {:induction false} MatchCountGrows(terms: seq<string>, text: string, extra: string)
    ensures |Matched(terms, text)| <= |Matched(terms, text + extra)|
    decreases |terms|
  {
    if terms != [] {
      var n := |terms| - 1;
      MatchCountGrows(terms[..n], text, extra);
      if Contains(text, Lower(terms[n])) {
        ContainsExtendRight(text, extra, Lower(terms[n]));
      }
    }
  }

  /** Appending text never moves a term from matched to missing: the matched set and
      the overall score can only grow, and so can the required-skills score. */
  lemma AppendingTextKeepsMatches(jd: ParsedJD, text: string, extra: string)
    ensures MatchedAll(jd, text) <= MatchedAll(jd, text + extra)
    ensures OverallScore(jd, text) <= OverallScore(jd, text + extra)
    ensures RequiredScore(jd, text) <= RequiredScore(jd, text + extra)
  {
    var longer := text + extra;
    forall k | k in MatchedAll(jd, text) ensures k in MatchedAll(jd, longer) {
      var mr, mp, mt := Matched(jd.requiredSkills, text), Matched(jd.preferredSkills, text),
                        Matched(jd.techStack, text);
      var t :| t in mr + mp + mt && Lower(t) == k;
      if t in mr {
        MatchSurvivesAppend(jd.requiredSkills, text, extra, t);
      } else if t in mp {
        MatchSurvivesAppend(jd.preferredSkills, text, extra, t);
      } else {
        MatchSurvivesAppend(jd.techStack, text, extra, t);
      }
      var lr, lp, lt := Matched(jd.requiredSkills, longer), Matched(jd.preferredSkills, longer),
                        Matched(jd.techStack, longer);
      assert t in lr + lp + lt;
    }
    SubsetCard(MatchedAll(jd, text), MatchedAll(jd, longer));
    MatchCountGrows(jd.requiredSkills, text, extra);
    CoverageCounts(jd, longer);
    CategorizeCounts(jd.requiredSkills, longer);
    ScoresGrow(|MatchedAll(jd, text)|, |MatchedAll(jd, longer)|, |AllJdKeywords(jd)|);
    ScoresGrow(|Matched(jd.requiredSkills, text)|, |Matched(jd.requiredSkills, longer)|,
               |jd.requiredSkills|);
  }

  lemma ScoresGrow(a: nat, b: nat, den: nat)
    requires a <= b <= den
    ensures Ratio(a, den) <= Ratio(b, den)
  {
    if den > 0 {
      RatioMonotone(a, b, den);
    }
  }

  // ------------------------------------- what the text search can find

  lemma {:induction false} BulletFound(bullets: seq<string>, j: nat, p: string)
    requires j < |bullets| && Contains(Lower(bullets[j]), p)
    ensures Contains(LoweredBulletsText(bullets), p)
    decreases |bullets|
  {
    var n := |bullets| - 1;
    if j == n {
      ContainsExtendLeft(LoweredBulletsText(bullets[..n]), Lower(bullets[n]), p);
      ContainsExtendRight(LoweredBulletsText(bullets[..n]) + Lower(bullets[n]), " ", p);
    } else {
      BulletFound(bullets[..n], j, p);
      ContainsExtendRight(LoweredBulletsText(bullets[..n]), Lower(bullets[n]) + " ", p);
      assert LoweredBulletsText(bullets) == LoweredBulletsText(bullets[..n]) + (Lower(bullets[n]) + " ");
    }
  }

  lemma {:induction false} ExperienceBulletFound(exps: seq<ExperienceEntry>, e: nat, j: nat, p: string)
    requires e < |exps| && j < |exps[e].bullets| && Contains(Lower(exps[e].bullets[j]), p)
    ensures Contains(ExperienceCoverageText(exps), p)
    decreases |exps|
  {
    var n := |exps| - 1;
    var last := exps[n];
    if e == n {
      BulletFound(last.bullets, j, p);
      ContainsExtendRight(LoweredBulletsText(last.bullets), Lower(last.title) + " ", p);
      assert EntryText(last.bullets, last.title) == LoweredBulletsText(last.bullets) + (Lower(last.title) + " ");
      ContainsExtendLeft(ExperienceCoverageText(exps[..n]), EntryText(last.bullets, last.title), p);
    } else {
      ExperienceBulletFound(exps[..n], e, j, p);
      ContainsExtendRight(ExperienceCoverageText(exps[..n]), EntryText(last.bullets, last.title), p);
    }
  }

  /** Whatever an experience bullet contains is found in the whole text. */
  lemma ExperienceBulletInText(skills: Skills, exps: seq<ExperienceEntry>, projs: seq<ProjectEntry>,
                               e: nat, j: nat, p: string)
    requires e < |exps| && j < |exps[e].bullets| && Contains(Lower(exps[e].bullets[j]), p)
    ensures Contains(CoverageText(skills, exps, projs), p)
  {
    ExperienceBulletFound(exps, e, j, p);
    ContainsExtendLeft(SkillsCoverageText(skills), ExperienceCoverageText(exps), p);
    ContainsExtendRight(SkillsCoverageText(skills) + ExperienceCoverageText(exps), ProjectCoverageText(projs), p);
  }

  /** A required skill written in any experience bullet, in any letter case, is reported
      as matched. */
  lemma RequiredSkillInBulletMatched(skills: Skills, exps: seq<ExperienceEntry>, projs: seq<ProjectEntry>,
                                     jd: ParsedJD, s: nat, e: nat, j: nat)
    requires s < |jd.requiredSkills| && e < |exps| && j < |exps[e].bullets|
    requires Contains(Lower(exps[e].bullets[j]), Lower(jd.requiredSkills[s]))
    ensures jd.requiredSkills[s] in Coverage(skills, exps, projs, jd).matchedRequired
    ensures jd.requiredSkills[s] !in Coverage(skills, exps, projs, jd).missingRequired
  {
    var text := CoverageText(skills, exps, projs);
    ExperienceBulletInText(skills, exps, projs, e, j, Lower(jd.requiredSkills[s]));
    CategorizeSplits(jd.requiredSkills, text, jd.requiredSkills[s]);
    assert Coverage(skills, exps, projs, jd).matchedRequired == Matched(jd.requiredSkills, text);
    assert Coverage(skills, exps, projs, jd).missingRequired == Missing(jd.requiredSkills, text);
  }
}
