/** Phase two of tailoring: reconciling the AI's suggestions with the
    reviewer's accept/reject/edit decisions (`apply_user_edits`), and the
    older keyword score written into the result (`compute_ats_score`).

    JSON objects become datatypes. A string or boolean field whose absence
    `dict.get` tells apart from an empty value is an `Option`; a list or map
    field whose absence behaves exactly like the empty value is a plain
    `seq` or `map`, empty when the key is missing. */
module ResumeTailor {
  import opened Wrappers
  import opened Seqs
  import opened Text
  import opened JdParser

  // ---------------------------------------------------------------- bundle

  /** One line of resume content and the AI's opinion on it. */
  datatype BulletSuggestion = BulletSuggestion(
    original: Option<string>,
    suggested: Option<string>,
    action: Option<string>)

  datatype ExperienceSuggestion = ExperienceSuggestion(
    id: Option<string>,
    source: Option<string>,
    title: Option<string>,
    company: Option<string>,
    location: Option<string>,
    startDate: Option<string>,
    endDate: Option<string>,
    selected: Option<bool>,
    bullets: seq<BulletSuggestion>)

  datatype ProjectSuggestion = ProjectSuggestion(
    id: Option<string>,
    title: Option<string>,
    institution: Option<string>,
    date: Option<string>,
    selected: Option<bool>,
    bullets: seq<BulletSuggestion>)

  /** A skill category's value: normally a list of skills; the scorers skip
      any other value, and a plain string is the other shape a client sends. */
  datatype SkillValue = SkillList(items: seq<string>) | SkillText(text: string)

  /** Skill category -> value, in the dictionary's insertion order. */
  type Skills = seq<(string, SkillValue)>

  datatype Links = Links(linkedin: Option<string>, github: Option<string>, website: Option<string>)

  datatype Personal = Personal(
    name: Option<string>,
    email: Option<string>,
    phone: Option<string>,
    links: Links)

  datatype Education = Education(
    institution: Option<string>,
    location: Option<string>,
    degree: Option<string>,
    gpa: Option<string>,
    startDate: Option<string>,
    endDate: Option<string>)

  datatype Profile = Profile(personal: Personal, education: seq<Education>, certifications: seq<string>)

  datatype JobSnapshot = JobSnapshot(
    title: Option<string>,
    company: Option<string>,
    location: Option<string>,
    industry: Option<string>,
    seniority: Option<string>,
    summary: Option<string>,
    requiredSkills: seq<string>,
    techStack: seq<string>,
    keywords: seq<string>)

  /** What phase one produced and the session cache holds. */
  datatype Bundle = Bundle(
    job: JobSnapshot,
    profile: Profile,
    experiences: seq<ExperienceSuggestion>,
    projects: seq<ProjectSuggestion>,
    skills: Option<Skills>)

  // ------------------------------------------------------------ user edits

  /** `{"action": ..., "text": ...}`; an absent decision is `{}`. */
  datatype Decision = Decision(action: Option<string>, text: Option<string>)

  const NoDecision := Decision(None, None)

  /** Bullet decisions are keyed by `str(i)`, `i` the bullet's position. */
  datatype UserEdits = UserEdits(
    selectedExperiences: map<string, bool>,
    bulletDecisions: map<string, map<string, Decision>>,
    selectedProjects: map<string, bool>,
    projectBulletDecisions: map<string, map<string, Decision>>,
    skills: Option<Skills>)

  // ---------------------------------------------------------------- output

  datatype ExperienceEntry = ExperienceEntry(
    id: string,
    title: string,
    company: string,
    location: string,
    startDate: string,
    endDate: string,
    bullets: seq<string>)

  datatype ProjectEntry = ProjectEntry(
    id: string,
    title: string,
    institution: string,
    date: string,
    bullets: seq<string>)

  /** The finished resume handed to the renderers and the scorers. */
  class TailoredResume {
    var targetTitle: string
    var targetCompany: string
    var personal: Personal
    var education: seq<Education>
    var technicalSkills: Skills
    var workExperience: seq<ExperienceEntry>
    var researchExperience: seq<ExperienceEntry>
    var projects: seq<ProjectEntry>
    var certifications: seq<string>
    var atsScore: real
    var keywordsMatched: seq<string>
    var keywordsMissing: seq<string>

    constructor (targetTitle: string, targetCompany: string, personal: Personal,
                 education: seq<Education>, technicalSkills: Skills,
                 workExperience: seq<ExperienceEntry>, researchExperience: seq<ExperienceEntry>,
                 projects: seq<ProjectEntry>, certifications: seq<string>)
      ensures this.targetTitle == targetTitle && this.targetCompany == targetCompany
      ensures this.personal == personal && this.education == education
      ensures this.technicalSkills == technicalSkills
      ensures this.workExperience == workExperience && this.researchExperience == researchExperience
      ensures this.projects == projects && this.certifications == certifications
      ensures atsScore == 0.0 && keywordsMatched == [] && keywordsMissing == []
    {
      this.targetTitle := targetTitle;
      this.targetCompany := targetCompany;
      this.personal := personal;
      this.education := education;
      this.technicalSkills := technicalSkills;
      this.workExperience := workExperience;
      this.researchExperience := researchExperience;
      this.projects := projects;
      this.certifications := certifications;
      atsScore := 0.0;
      keywordsMatched := [];
      keywordsMissing := [];
    }
  }

  // --------------------------------------------------- reconciliation rules

  /** An explicit toggle for the id wins; otherwise the AI's `selected`, false when absent. */
  predicate Included(explicit: map<string, bool>, id: string, aiSelected: Option<bool>) {
    if id in explicit then explicit[id] else aiSelected.GetOr(false)
  }

  /** The reviewer's decision for bullet `i`, `{}` when there is none. */
  function DecisionAt(decisions: map<string, Decision>, i: nat): Decision {
    var key := NatToString(i);
    if key in decisions then decisions[key] else NoDecision
  }

  /** The text a bullet contributes, or `None` when it is dropped. */
  function ResolveBullet(b: BulletSuggestion, d: Decision): Option<string> {
    var action := d.action.GetOr("accept");
    if action == "reject" then Some(b.original.GetOr(""))
    else if action == "edit" then Some(d.text.GetOr(b.suggested.GetOr(b.original.GetOr(""))))
    else if b.action == Some("remove") then None
    else Some(b.suggested.GetOr(b.original.GetOr("")))
  }

  function BulletPicker(decisions: map<string, Decision>): (nat, BulletSuggestion) -> Option<string> {
    (i: nat, b: BulletSuggestion) => ResolveBullet(b, DecisionAt(decisions, i))
  }

  /** The bullets an included entry ends up with. */
  function ResolveBullets(bullets: seq<BulletSuggestion>, decisions: map<string, Decision>): seq<string> {
    Pick(bullets, BulletPicker(decisions))
  }

  function DecisionsFor(all: map<string, map<string, Decision>>, id: string): map<string, Decision> {
    if id in all then all[id] else map[]
  }

  predicate ExperienceIncluded(e: ExperienceSuggestion, edits: UserEdits) {
    Included(edits.selectedExperiences, e.id.GetOr(""), e.selected)
  }

  predicate IsResearch(e: ExperienceSuggestion) {
    e.source == Some("research_experience")
  }

  function ExperienceEntryOf(e: ExperienceSuggestion, edits: UserEdits): ExperienceEntry {
    var id := e.id.GetOr("");
    ExperienceEntry(id, e.title.GetOr(""), e.company.GetOr(""), e.location.GetOr(""),
                    e.startDate.GetOr(""), e.endDate.GetOr(""),
                    ResolveBullets(e.bullets, DecisionsFor(edits.bulletDecisions, id)))
  }

  function WorkPicker(edits: UserEdits): (nat, ExperienceSuggestion) -> Option<ExperienceEntry> {
    (i: nat, e: ExperienceSuggestion) =>
      if ExperienceIncluded(e, edits) && !IsResearch(e) then Some(ExperienceEntryOf(e, edits)) else None
  }

  function ResearchPicker(edits: UserEdits): (nat, ExperienceSuggestion) -> Option<ExperienceEntry> {
    (i: nat, e: ExperienceSuggestion) =>
      if ExperienceIncluded(e, edits) && IsResearch(e) then Some(ExperienceEntryOf(e, edits)) else None
  }

  function WorkExperience(exps: seq<ExperienceSuggestion>, edits: UserEdits): seq<ExperienceEntry> {
    Pick(exps, WorkPicker(edits))
  }

  function ResearchExperience(exps: seq<ExperienceSuggestion>, edits: UserEdits): seq<ExperienceEntry> {
    Pick(exps, ResearchPicker(edits))
  }

  predicate ProjectIncluded(p: ProjectSuggestion, edits: UserEdits) {
    Included(edits.selectedProjects, p.id.GetOr(""), p.selected)
  }

  function ProjectEntryOf(p: ProjectSuggestion, edits: UserEdits): ProjectEntry {
    var id := p.id.GetOr("");
    ProjectEntry(id, p.title.GetOr(""), p.institution.GetOr(""), p.date.GetOr(""),
                 ResolveBullets(p.bullets, DecisionsFor(edits.projectBulletDecisions, id)))
  }

  function ProjectPicker(edits: UserEdits): (nat, ProjectSuggestion) -> Option<ProjectEntry> {
    (i: nat, p: ProjectSuggestion) =>
      if ProjectIncluded(p, edits) then Some(ProjectEntryOf(p, edits)) else None
  }

  function Projects(projs: seq<ProjectSuggestion>, edits: UserEdits): seq<ProjectEntry> {
    Pick(projs, ProjectPicker(edits))
  }

  /** The reviewer's full skill mapping when sent, else the bundle's, else `{}`. */
  function SkillsOf(s: Bundle, edits: UserEdits): Skills {
    edits.skills.GetOr(s.skills.GetOr([]))
  }

  // -------------------------------------------------------- apply_user_edits

  /** The per-bullet loop of `apply_user_edits`, shared by experiences and projects. */
  method BuildBullets(bullets: seq<BulletSuggestion>, decisions: map<string, Decision>)
    returns (out: seq<string>)
    ensures out == ResolveBullets(bullets, decisions)
  {
    out := [];
    for i := 0 to |bullets|
      invariant out == ResolveBullets(bullets[..i], decisions)
    {
      PickStep(bullets, BulletPicker(decisions), i);
      var info := bullets[i];
      var key := NatToString(i);
      var decision := if key in decisions then decisions[key] else NoDecision;
      assert DecisionAt(decisions, i) == decision;
      assert BulletPicker(decisions)(i, info) == ResolveBullet(info, decision);
      var action := decision.action.GetOr("accept");
      if action == "reject" {
        out := out + [info.original.GetOr("")];
      } else if action == "edit" {
        out := out + [decision.text.GetOr(info.suggested.GetOr(info.original.GetOr("")))];
      } else {
        if info.action == Some("remove") {
          continue;
        }
        out := out + [info.suggested.GetOr(info.original.GetOr(""))];
      }
    }
    assert bullets[..|bullets|] == bullets;
  }

  /** Builds the tailored resume from a suggestion bundle and the reviewer's edits. */
  method ApplyUserEdits(s: Bundle, edits: UserEdits) returns (t: TailoredResume)
    ensures fresh(t)
    ensures t.workExperience == WorkExperience(s.experiences, edits)
    ensures t.researchExperience == ResearchExperience(s.experiences, edits)
    ensures t.projects == Projects(s.projects, edits)
    ensures t.technicalSkills == SkillsOf(s, edits)
    ensures t.targetTitle == s.job.title.GetOr("") && t.targetCompany == s.job.company.GetOr("")
    ensures t.personal == s.profile.personal && t.education == s.profile.education
    ensures t.certifications == s.profile.certifications
    ensures t.atsScore == 0.0 && t.keywordsMatched == [] && t.keywordsMissing == []
  {
    var work, research := SelectExperiences(s.experiences, edits);
    var projects := SelectProjects(s.projects, edits);
    var skills := if edits.skills.Some? then edits.skills.value else s.skills.GetOr([]);
    t := new TailoredResume(s.job.title.GetOr(""), s.job.company.GetOr(""), s.profile.personal,
                            s.profile.education, skills, work, research, projects,
                            s.profile.certifications);
  }

  /** One turn of the experiences loop: the entry for a kept experience, with its
      bullets resolved, or nothing. */
  method KeepExperience(exp: ExperienceSuggestion, edits: UserEdits) returns (kept: Option<ExperienceEntry>)
    ensures kept == if ExperienceIncluded(exp, edits) then Some(ExperienceEntryOf(exp, edits)) else None
  {
    var expId := exp.id.GetOr("");
    var keep := if expId in edits.selectedExperiences then edits.selectedExperiences[expId]
                   else exp.selected.GetOr(false);
    if !keep {
      return None;
    }
    var decisions := if expId in edits.bulletDecisions then edits.bulletDecisions[expId] else map[];
    var bullets := BuildBullets(exp.bullets, decisions);
    kept := Some(ExperienceEntry(expId, exp.title.GetOr(""), exp.company.GetOr(""),
                                 exp.location.GetOr(""), exp.startDate.GetOr(""),
                                 exp.endDate.GetOr(""), bullets));
  }

  /** The experiences loop of `apply_user_edits`: each kept experience, with its bullets
      resolved, goes to research when its source says so and to work otherwise. */
  method SelectExperiences(exps: seq<ExperienceSuggestion>, edits: UserEdits)
    returns (work: seq<ExperienceEntry>, research: seq<ExperienceEntry>)
    ensures work == WorkExperience(exps, edits) && research == ResearchExperience(exps, edits)
  {
    work, research := [], [];
    for k := 0 to |exps|
      invariant work == WorkExperience(exps[..k], edits)
      invariant research == ResearchExperience(exps[..k], edits)
    {
      PickStep(exps, WorkPicker(edits), k);
      PickStep(exps, ResearchPicker(edits), k);
      var exp := exps[k];
      var kept := KeepExperience(exp, edits);
      if kept.None? {
        continue;
      }
      if exp.source == Some("research_experience") {
        research := research + [kept.value];
      } else {
        work := work + [kept.value];
      }
    }
    assert exps[..|exps|] == exps;
  }

  /** The projects loop of `apply_user_edits`: each kept project, bullets resolved. */
  method SelectProjects(projs: seq<ProjectSuggestion>, edits: UserEdits) returns (projects: seq<ProjectEntry>)
    ensures projects == Projects(projs, edits)
  {
    projects := [];
    for k := 0 to |projs|
      invariant projects == Projects(projs[..k], edits)
    {
      PickStep(projs, ProjectPicker(edits), k);
      var proj := projs[k];
      var projId := proj.id.GetOr("");
      var keep := if projId in edits.selectedProjects then edits.selectedProjects[projId]
                     else proj.selected.GetOr(false);
      if !keep {
        continue;
      }
      var decisions := if projId in edits.projectBulletDecisions then edits.projectBulletDecisions[projId]
                       else map[];
      var bullets := BuildBullets(proj.bullets, decisions);
      projects := projects + [ProjectEntry(projId, proj.title.GetOr(""), proj.institution.GetOr(""),
                                           proj.date.GetOr(""), bullets)];
    }
    assert projs[..|projs|] == projs;
  }

  // ------------------------------------------------ properties of the rules

  /** How many output bullets come from bullets before position `j`. */
  function EmittedBefore(bullets: seq<BulletSuggestion>, decisions: map<string, Decision>, j: nat): nat
    requires j <= |bullets|
  {
    |ResolveBullets(bullets[..j], decisions)|
  }

  /** `reject` gives back the original text, whatever the AI's own action. */
  lemma RejectEmitsOriginal(bullets: seq<BulletSuggestion>, decisions: map<string, Decision>, j: nat)
    requires j < |bullets| && DecisionAt(decisions, j).action == Some("reject")
    ensures EmittedBefore(bullets, decisions, j) < |ResolveBullets(bullets, decisions)|
    ensures ResolveBullets(bullets, decisions)[EmittedBefore(bullets, decisions, j)]
            == bullets[j].original.GetOr("")
  {
    PickAt(bullets, BulletPicker(decisions), j);
  }

  /** `edit` gives back the decision's `text` whenever that key is present, even `""`;
      without it the suggestion, and failing that the original. */
  lemma EditEmitsText(bullets: seq<BulletSuggestion>, decisions: map<string, Decision>, j: nat)
    requires j < |bullets| && DecisionAt(decisions, j).action == Some("edit")
    ensures EmittedBefore(bullets, decisions, j) < |ResolveBullets(bullets, decisions)|
    ensures ResolveBullets(bullets, decisions)[EmittedBefore(bullets, decisions, j)]
            == DecisionAt(decisions, j).text.GetOr(bullets[j].suggested.GetOr(bullets[j].original.GetOr("")))
  {
    PickAt(bullets, BulletPicker(decisions), j);
  }

  predicate DefaultAccept(d: Decision) {
    d.action.GetOr("accept") != "reject" && d.action.GetOr("accept") != "edit"
  }

  /** Growth bound: the bullets after position `m` add at most one output each. */
  lemma {:induction false} PickGrowth<A, B>(s: seq<A>, f: (nat, A) -> Option<B>, m: nat)
    requires m <= |s|
    ensures |Pick(s, f)| <= |Pick(s[..m], f)| + (|s| - m)
    decreases |s| - m
  {
    if m < |s| {
      PickGrowth(s, f, m + 1);
      PickStep(s, f, m);
    } else {
      assert s[..m] == s;
    }
  }

  /** A missing decision, `accept` or any other action drops a bullet the AI marked
      `remove`: it adds nothing, and the entry ends up with fewer bullets than it had. */
  lemma AcceptDropsRemoved(bullets: seq<BulletSuggestion>, decisions: map<string, Decision>, j: nat)
    requires j < |bullets| && DefaultAccept(DecisionAt(decisions, j))
    requires bullets[j].action == Some("remove")
    ensures ResolveBullets(bullets[..j + 1], decisions) == ResolveBullets(bullets[..j], decisions)
    ensures |ResolveBullets(bullets, decisions)| < |bullets|
  {
    PickSkip(bullets, BulletPicker(decisions), j);
    PickGrowth(bullets, BulletPicker(decisions), j + 1);
  }

  /** Otherwise acceptance gives the suggestion, falling back to the original. */
  lemma AcceptEmitsSuggested(bullets: seq<BulletSuggestion>, decisions: map<string, Decision>, j: nat)
    requires j < |bullets| && DefaultAccept(DecisionAt(decisions, j))
    requires bullets[j].action != Some("remove")
    ensures EmittedBefore(bullets, decisions, j) < |ResolveBullets(bullets, decisions)|
    ensures ResolveBullets(bullets, decisions)[EmittedBefore(bullets, decisions, j)]
            == bullets[j].suggested.GetOr(bullets[j].original.GetOr(""))
  {
    PickAt(bullets, BulletPicker(decisions), j);
  }

  /** The output bullets keep input order: what the first `m` bullets give is a prefix of
      the whole, and no entry gains bullets. */
  lemma BulletsKeepOrder(bullets: seq<BulletSuggestion>, decisions: map<string, Decision>, m: nat)
    requires m <= |bullets|
    ensures ResolveBullets(bullets[..m], decisions) <= ResolveBullets(bullets, decisions)
    ensures |ResolveBullets(bullets, decisions)| <= |bullets|
  {
    PickPrefix(bullets, BulletPicker(decisions), m);
  }

  /** The `str(i)` keys of an entry with `n` bullets. */
  function IndexKeys(n: nat): set<string> {
    set i | 0 <= i < n :: NatToString(i)
  }

  /** Decisions keyed by indices the entry does not have are never consulted. */
  lemma UnknownIndicesIgnored(bullets: seq<BulletSuggestion>, decisions: map<string, Decision>)
    ensures ResolveBullets(bullets, decisions)
            == ResolveBullets(bullets, map k | k in decisions && k in IndexKeys(|bullets|) :: decisions[k])
  {
    var kept := map k | k in decisions && k in IndexKeys(|bullets|) :: decisions[k];
    forall i | 0 <= i < |bullets|
      ensures BulletPicker(decisions)(i, bullets[i]) == BulletPicker(kept)(i, bullets[i])
    {
      var key := NatToString(i);
      assert key in IndexKeys(|bullets|);
      assert key in kept <==> key in decisions;
      assert DecisionAt(decisions, i) == DecisionAt(kept, i);
    }
    PickCongruent(bullets, BulletPicker(decisions), BulletPicker(kept));
  }

  /** An included experience lands in exactly one list, after the ones included before it. */
  lemma IncludedExperienceRouted(exps: seq<ExperienceSuggestion>, edits: UserEdits, j: nat)
    requires j < |exps| && ExperienceIncluded(exps[j], edits)
    ensures !IsResearch(exps[j]) ==>
              var at := |WorkExperience(exps[..j], edits)|;
              at < |WorkExperience(exps, edits)| && WorkExperience(exps, edits)[at] == ExperienceEntryOf(exps[j], edits)
              && ResearchExperience(exps[..j + 1], edits) == ResearchExperience(exps[..j], edits)
    ensures IsResearch(exps[j]) ==>
              var at := |ResearchExperience(exps[..j], edits)|;
              at < |ResearchExperience(exps, edits)| && ResearchExperience(exps, edits)[at] == ExperienceEntryOf(exps[j], edits)
              && WorkExperience(exps[..j + 1], edits) == WorkExperience(exps[..j], edits)
  {
    if IsResearch(exps[j]) {
      PickAt(exps, ResearchPicker(edits), j);
      PickSkip(exps, WorkPicker(edits), j);
    } else {
      PickAt(exps, WorkPicker(edits), j);
      PickSkip(exps, ResearchPicker(edits), j);
    }
  }

  /** An excluded experience contributes nothing to either list. */
  lemma ExcludedExperienceDropped(exps: seq<ExperienceSuggestion>, edits: UserEdits, j: nat)
    requires j < |exps| && !ExperienceIncluded(exps[j], edits)
    ensures WorkExperience(exps[..j + 1], edits) == WorkExperience(exps[..j], edits)
    ensures ResearchExperience(exps[..j + 1], edits) == ResearchExperience(exps[..j], edits)
  {
    PickSkip(exps, WorkPicker(edits), j);
    PickSkip(exps, ResearchPicker(edits), j);
  }

  /** An explicit toggle decides over the AI's recommendation: `true` includes the
      experience, `false` leaves it out. */
  lemma ExplicitToggleWins(exps: seq<ExperienceSuggestion>, edits: UserEdits, j: nat)
    requires j < |exps| && exps[j].id.GetOr("") in edits.selectedExperiences
    ensures edits.selectedExperiences[exps[j].id.GetOr("")] ==>
              ExperienceEntryOf(exps[j], edits) in WorkExperience(exps, edits) + ResearchExperience(exps, edits)
    ensures !edits.selectedExperiences[exps[j].id.GetOr("")] ==>
              WorkExperience(exps[..j + 1], edits) == WorkExperience(exps[..j], edits)
              && ResearchExperience(exps[..j + 1], edits) == ResearchExperience(exps[..j], edits)
  {
    if edits.selectedExperiences[exps[j].id.GetOr("")] {
      IncludedExperienceRouted(exps, edits, j);
      var w, r := WorkExperience(exps, edits), ResearchExperience(exps, edits);
      if IsResearch(exps[j]) {
        assert r[|ResearchExperience(exps[..j], edits)|] in r;
      } else {
        assert w[|WorkExperience(exps[..j], edits)|] in w;
      }
    } else {
      ExcludedExperienceDropped(exps, edits, j);
    }
  }

  function CountIncluded(exps: seq<ExperienceSuggestion>, edits: UserEdits): nat
    decreases |exps|
  {
    if exps == [] then 0
    else CountIncluded(exps[..|exps| - 1], edits) + (if ExperienceIncluded(exps[|exps| - 1], edits) then 1 else 0)
  }

  /** Work and research together hold one entry per included experience. */
  lemma {:induction false} RoutingPartition(exps: seq<ExperienceSuggestion>, edits: UserEdits)
    ensures |WorkExperience(exps, edits)| + |ResearchExperience(exps, edits)| == CountIncluded(exps, edits)
    decreases |exps|
  {
    if exps != [] {
      var n := |exps| - 1;
      RoutingPartition(exps[..n], edits);
      PickStep(exps, WorkPicker(edits), n);
      PickStep(exps, ResearchPicker(edits), n);
      assert exps[..n + 1] == exps;
    }
  }

  /** The edits restricted to the ids the bundle's experiences carry. */
  function KnownExperienceEdits(exps: seq<ExperienceSuggestion>, edits: UserEdits): UserEdits {
    var ids := set e | e in exps :: e.id.GetOr("");
    edits.(selectedExperiences := map k | k in edits.selectedExperiences && k in ids :: edits.selectedExperiences[k],
           bulletDecisions := map k | k in edits.bulletDecisions && k in ids :: edits.bulletDecisions[k])
  }

  /** Edits for experience ids the bundle does not hold change nothing. */
  lemma UnknownExperienceIdsIgnored(exps: seq<ExperienceSuggestion>, edits: UserEdits)
    ensures WorkExperience(exps, edits) == WorkExperience(exps, KnownExperienceEdits(exps, edits))
    ensures ResearchExperience(exps, edits) == ResearchExperience(exps, KnownExperienceEdits(exps, edits))
  {
    var known := KnownExperienceEdits(exps, edits);
    forall i | 0 <= i < |exps|
      ensures WorkPicker(edits)(i, exps[i]) == WorkPicker(known)(i, exps[i])
      ensures ResearchPicker(edits)(i, exps[i]) == ResearchPicker(known)(i, exps[i])
    {
      assert exps[i] in exps;
      assert ExperienceEntryOf(exps[i], edits) == ExperienceEntryOf(exps[i], known);
    }
    PickCongruent(exps, WorkPicker(edits), WorkPicker(known));
    PickCongruent(exps, ResearchPicker(edits), ResearchPicker(known));
  }

  /** An included project keeps its place among the included ones; an excluded one adds nothing. */
  lemma ProjectRouted(projs: seq<ProjectSuggestion>, edits: UserEdits, j: nat)
    requires j < |projs|
    ensures ProjectIncluded(projs[j], edits) ==>
              var at := |Projects(projs[..j], edits)|;
              at < |Projects(projs, edits)| && Projects(projs, edits)[at] == ProjectEntryOf(projs[j], edits)
    ensures !ProjectIncluded(projs[j], edits) ==> Projects(projs[..j + 1], edits) == Projects(projs[..j], edits)
  {
    if ProjectIncluded(projs[j], edits) {
      PickAt(projs, ProjectPicker(edits), j);
    } else {
      PickSkip(projs, ProjectPicker(edits), j);
    }
  }

  // ---------------------------------------------------- compute_ats_score

  /** `num / den if den else 1.0`, as an exact ratio. */
  function Ratio(num: nat, den: nat): (r: real)
    ensures den == 0 ==> r == 1.0
    ensures num <= den ==> 0.0 <= r <= 1.0
  {
    if den == 0 then 1.0 else num as real / den as real
  }

  lemma RatioOfWhole(n: nat)
    ensures Ratio(n, n) == 1.0
  {
  }

  lemma RatioBelowOne(num: nat, den: nat)
    requires num < den
    ensures Ratio(num, den) < 1.0
  {
    var d := den as real;
    assert d / d == 1.0;
    assert d / d - num as real / d == (d - num as real) / d;
  }

  lemma RatioMonotone(a: nat, b: nat, den: nat)
    requires a <= b && den > 0
    ensures Ratio(a, den) <= Ratio(b, den)
  {
    var d := den as real;
    assert b as real / d - a as real / d == (b as real - a as real) / d;
  }

  /** The older scorer's keyword set: keywords, required skills and tech stack, lowercased. */
  function LegacyKeywords(jd: ParsedJD): set<string> {
    LowerSet(jd.keywords + jd.requiredSkills + jd.techStack)
  }

  /** `" ".join(values) + " "` for every list-valued category, in order. */
  function SkillsText(skills: Skills): string
    decreases |skills|
  {
    if skills == [] then ""
    else
      var n := |skills| - 1;
      SkillsText(skills[..n]) + (match skills[n].1 case SkillList(items) => Join(items, " ") + " " case SkillText(_) => "")
  }

  /** Each bullet followed by a space. */
  function BulletsText(bullets: seq<string>): string
    decreases |bullets|
  {
    if bullets == [] then "" else BulletsText(bullets[..|bullets| - 1]) + bullets[|bullets| - 1] + " "
  }

  function ExperienceBulletsText(exps: seq<ExperienceEntry>): string
    decreases |exps|
  {
    if exps == [] then "" else ExperienceBulletsText(exps[..|exps| - 1]) + BulletsText(exps[|exps| - 1].bullets)
  }

  function ProjectBulletsText(projs: seq<ProjectEntry>): string
    decreases |projs|
  {
    if projs == [] then "" else ProjectBulletsText(projs[..|projs| - 1]) + BulletsText(projs[|projs| - 1].bullets)
  }

  /** The text the older scorer searches (before lowercasing): skills, then every
      experience bullet, then every project bullet; titles are not included. */
  function LegacyResumeText(skills: Skills, exps: seq<ExperienceEntry>, projs: seq<ProjectEntry>): string {
    SkillsText(skills) + ExperienceBulletsText(exps) + ProjectBulletsText(projs)
  }

  method AppendBullets(text: string, bullets: seq<string>) returns (r: string)
    ensures r == text + BulletsText(bullets)
  {
    r := text;
    for j := 0 to |bullets|
      invariant r == text + BulletsText(bullets[..j])
    {
      assert bullets[..j + 1][..j] == bullets[..j];
      r := r + bullets[j] + " ";
    }
    assert bullets[..|bullets|] == bullets;
  }

  method BuildLegacyResumeText(skills: Skills, exps: seq<ExperienceEntry>, projs: seq<ProjectEntry>)
    returns (text: string)
    ensures text == LegacyResumeText(skills, exps, projs)
  {
    text := AppendSkillWords("", skills);
    text := AppendExperienceBullets(text, exps);
    text := AppendProjectBullets(text, projs);
  }

  /** The skills loop: each list-valued category's items joined by spaces, then a space. */
  method AppendSkillWords(text: string, skills: Skills) returns (r: string)
    ensures r == text + SkillsText(skills)
  {
    r := text;
    for k := 0 to |skills|
      invariant r == text + SkillsText(skills[..k])
    {
      assert skills[..k + 1][..k] == skills[..k];
      match skills[k].1
      case SkillList(items) => r := r + Join(items, " ") + " ";
      case SkillText(_) =>
    }
    assert skills[..|skills|] == skills;
  }

  method AppendExperienceBullets(text: string, exps: seq<ExperienceEntry>) returns (r: string)
    ensures r == text + ExperienceBulletsText(exps)
  {
    r := text;
    for k := 0 to |exps|
      invariant r == text + ExperienceBulletsText(exps[..k])
    {
      assert exps[..k + 1][..k] == exps[..k];
      r := AppendBullets(r, exps[k].bullets);
    }
    assert exps[..|exps|] == exps;
  }

  method AppendProjectBullets(text: string, projs: seq<ProjectEntry>) returns (r: string)
    ensures r == text + ProjectBulletsText(projs)
  {
    r := text;
    for k := 0 to |projs|
      invariant r == text + ProjectBulletsText(projs[..k])
    {
      assert projs[..k + 1][..k] == projs[..k];
      r := AppendBullets(r, projs[k].bullets);
    }
    assert projs[..|projs|] == projs;
  }

  /** `matched` holds exactly the keywords `text` contains (after `kw.lower()`), `missing`
      exactly the others, each keyword once. */
  ghost predicate Partitioned(matched: seq<string>, missing: seq<string>, keywords: set<string>, text: string) {
    && (forall k :: k in matched <==> k in keywords && Contains(text, Lower(k)))
    && (forall k :: k in missing <==> k in keywords && !Contains(text, Lower(k)))
    && |matched| + |missing| == |keywords|
  }

  /** Splits `keywords` into those `text` contains (after `kw.lower()`) and the rest,
      visiting the set in an unspecified order, as iterating a Python set does. */
  method PartitionKeywords(keywords: set<string>, text: string) returns (matched: seq<string>, missing: seq<string>)
    ensures Partitioned(matched, missing, keywords, text)
  {
    matched, missing := [], [];
    var rest := keywords;
    while rest != {}
      invariant rest <= keywords
      invariant forall k :: k in matched <==> k in keywords - rest && Contains(text, Lower(k))
      invariant forall k :: k in missing <==> k in keywords - rest && !Contains(text, Lower(k))
      invariant |matched| + |missing| + |rest| == |keywords|
      decreases |rest|
    {
      var kw :| kw in rest;
      if Contains(text, Lower(kw)) {
        matched := matched + [kw];
      } else {
        missing := missing + [kw];
      }
      rest := rest - {kw};
    }
  }

  /** Scores `t` against `jd` and records the matched and missing keywords and the
      score in `t`; with no keywords it answers 1.0 and leaves `t` untouched. */
  method ComputeAtsScore(t: TailoredResume, jd: ParsedJD) returns (score: real)
    modifies t`keywordsMatched, t`keywordsMissing, t`atsScore
    ensures LegacyKeywords(jd) == {} ==> score == 1.0 && unchanged(t)
    ensures LegacyKeywords(jd) != {} ==>
      var text := Lower(LegacyResumeText(t.technicalSkills, t.workExperience + t.researchExperience, t.projects));
      && Partitioned(t.keywordsMatched, t.keywordsMissing, LegacyKeywords(jd), text)
      && score == Ratio(|t.keywordsMatched|, |LegacyKeywords(jd)|)
      && t.atsScore == score
    ensures 0.0 <= score <= 1.0
  {
    var keywords := LegacyKeywords(jd);
    if keywords == {} {
      return 1.0;
    }
    var text := BuildLegacyResumeText(t.technicalSkills, t.workExperience + t.researchExperience, t.projects);
    var matched, missing := PartitionKeywords(keywords, Lower(text));
    t.keywordsMatched := matched;
    t.keywordsMissing := missing;
    score := Ratio(|matched|, |keywords|);
    t.atsScore := score;
  }
}
