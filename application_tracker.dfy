/** The application tracker: a list of job-application records with an id counter.
    The JSON file the source loads and saves around every call is the state of a
    `Tracker` object here; the lock around each call is not modelled. Timestamps are
    ISO-8601 strings the caller passes in. */
module ApplicationTracker {
  import opened Wrappers
  import opened Seqs
  import opened Text

  /** One tracked application, as stored in the `applications` list. */
  datatype Application = Application(
    id: int,
    company: string,
    title: string,
    location: string,
    url: string,
    source: string,
    status: string,
    resumePath: string,
    coverLetterPath: string,
    atsScore: real,
    keywordsMatched: seq<string>,
    keywordsMissing: seq<string>,
    notes: string,
    dateDiscovered: string,
    dateApplied: string,
    dateResponse: string,
    dateInterview: string,
    followUpDate: string,
    createdAt: string,
    updatedAt: string)

  /** The record `add_application` creates: every date but the creation stamps empty. */
  function NewRecord(id: int, company: string, title: string, location: string, url: string, source: string,
                     status: string, resumePath: string, coverLetterPath: string, atsScore: real,
                     keywordsMatched: Option<seq<string>>, keywordsMissing: Option<seq<string>>,
                     notes: string, now: string): Application
  {
    Application(id, company, title, location, url, source, status, resumePath, coverLetterPath, atsScore,
                keywordsMatched.GetOr([]), keywordsMissing.GetOr([]), notes,
                now, "", "", "", "", now, now)
  }

  /** `f"{existing}\n[{now[:10]}] {notes}".strip()`. */
  function AppendNote(existing: string, now: string, note: string): string {
    Strip(existing + "\n" + NoteStamp(now, note))
  }

  /** A note prefixed with the date part of `now`: `[YYYY-MM-DD] note`. */
  function NoteStamp(now: string, note: string): string {
    "[" + Take(now, 10) + "] " + note
  }

  /** The record after `update_status`: status and `updated_at` set, the matching date
      stamped, and a non-empty note appended. */
  function WithStatus(app: Application, status: string, notes: Option<string>, now: string): Application {
    var a := app.(status := status, updatedAt := now);
    var a := if status == "applied" then a.(dateApplied := now)
             else if status == "response" then a.(dateResponse := now)
             else if status == "interview" then a.(dateInterview := now)
             else a;
    if notes.Some? && notes.value != "" then a.(notes := AppendNote(a.notes, now, notes.value)) else a
  }

  /** The position of the first record with id `id`, if any. */
  function FirstIndex(apps: seq<Application>, id: int): (r: Option<nat>)
    ensures r.Some? ==> r.value < |apps| && apps[r.value].id == id
    ensures r.Some? ==> forall j :: 0 <= j < r.value ==> apps[j].id != id
    ensures r.None? ==> forall j :: 0 <= j < |apps| ==> apps[j].id != id
    decreases |apps|
  {
    if apps == [] then None
    else if apps[0].id == id then Some(0)
    else match FirstIndex(apps[1..], id)
      case None => None
      case Some(k) => Some(k + 1)
  }

  /** `any(a["company"] == company and a["title"] == title for a in apps)`. */
  function HasApplication(apps: seq<Application>, company: string, title: string): (r: bool)
    ensures r <==> exists i :: 0 <= i < |apps| && apps[i].company == company && apps[i].title == title
    decreases |apps|
  {
    if apps == [] then false
    else (apps[0].company == company && apps[0].title == title) || HasApplication(apps[1..], company, title)
  }

  /** Statuses whose follow-ups are no longer pending. */
  predicate Closed(status: string) {
    status == "rejected" || status == "withdrawn" || status == "offer"
  }

  /** A follow-up is due once its date is set and not after `now` (ISO strings compare
      as text), unless the application is closed. */
  predicate FollowUpDue(a: Application, now: string) {
    a.followUpDate != "" && LexLe(a.followUpDate, now) && !Closed(a.status)
  }

  function DuePicker(now: string): Application -> bool {
    (a: Application) => FollowUpDue(a, now)
  }

  function HasStatus(status: string): Application -> bool {
    (a: Application) => a.status == status
  }

  // ------------------------------------------------ ordering by created_at

  /** Newest first: `created_at` never increases along the list. */
  predicate SortedDesc(s: seq<Application>) {
    forall i, j :: 0 <= i < j < |s| ==> LexLe(s[j].createdAt, s[i].createdAt)
  }

  /** Inserts `x` after every record at least as new, so records with equal stamps keep
      their input order. */
  function InsertDesc(s: seq<Application>, x: Application): (r: seq<Application>)
    ensures multiset(r) == multiset(s) + multiset{x}
    decreases |s|
  {
    if s == [] then [x]
    else if LexLe(x.createdAt, s[0].createdAt) then
      assert s == [s[0]] + s[1..];
      [s[0]] + InsertDesc(s[1..], x)
    else [x] + s
  }

  /** `sorted(apps, key=created_at, reverse=True)`: newest first; the order among equal timestamps is not modelled. */
  function SortDesc(s: seq<Application>): (r: seq<Application>)
    ensures multiset(r) == multiset(s)
    decreases |s|
  {
    if s == [] then []
    else
      var n := |s| - 1;
      assert s == s[..n] + [s[n]];
      InsertDesc(SortDesc(s[..n]), s[n])
  }

  /** No record in `s` is newer than `t`. */
  predicate NoNewerThan(s: seq<Application>, t: string) {
    forall k :: 0 <= k < |s| ==> LexLe(s[k].createdAt, t)
  }

  /** Every record in `s` and `x` is no newer than `t`, so the same holds after inserting. */
  lemma {:induction false} InsertDescBounded(s: seq<Application>, x: Application, t: string)
    requires NoNewerThan(s, t) && LexLe(x.createdAt, t)
    ensures NoNewerThan(InsertDesc(s, x), t)
    decreases |s|
  {
    var r := InsertDesc(s, x);
    if s == [] {
      assert r == [x];
    } else if LexLe(x.createdAt, s[0].createdAt) {
      var rest := InsertDesc(s[1..], x);
      assert NoNewerThan(s[1..], t) by {
        forall k | 0 <= k < |s[1..]| ensures LexLe(s[1..][k].createdAt, t) {
          assert s[1..][k] == s[k + 1];
        }
      }
      InsertDescBounded(s[1..], x, t);
      assert r == [s[0]] + rest;
      forall k | 0 <= k < |r| ensures LexLe(r[k].createdAt, t) {
        if k > 0 {
          assert r[k] == rest[k - 1];
        }
      }
    } else {
      assert r == [x] + s;
      forall k | 0 < k < |r| ensures LexLe(r[k].createdAt, t) {
        assert r[k] == s[k - 1];
      }
    }
  }

  lemma {:induction false} InsertDescSorted(s: seq<Application>, x: Application)
    requires SortedDesc(s)
    ensures SortedDesc(InsertDesc(s, x))
    decreases |s|
  {
    if s != [] {
      if LexLe(x.createdAt, s[0].createdAt) {
        InsertDescSorted(s[1..], x);
        var rest := InsertDesc(s[1..], x);
        InsertDescBounded(s[1..], x, s[0].createdAt);
        var r := [s[0]] + rest;
        assert InsertDesc(s, x) == r;
        forall i, j | 0 <= i < j < |r| ensures LexLe(r[j].createdAt, r[i].createdAt) {
          if i > 0 {
            assert r[i] == rest[i - 1] && r[j] == rest[j - 1];
          } else {
            assert r[j] == rest[j - 1];
          }
        }
      } else {
        var r := [x] + s;
        LexLeTotal(x.createdAt, s[0].createdAt);
        forall j | 0 < j < |r| ensures LexLe(r[j].createdAt, x.createdAt) {
          if j > 1 {
            LexLeTransitive(s[j - 1].createdAt, s[0].createdAt, x.createdAt);
          }
        }
      }
    }
  }

  lemma {:induction false} SortDescSorted(s: seq<Application>)
    ensures SortedDesc(SortDesc(s))
    decreases |s|
  {
    if s != [] {
      SortDescSorted(s[..|s| - 1]);
      InsertDescSorted(SortDesc(s[..|s| - 1]), s[|s| - 1]);
    }
  }

  // ---------------------------------------------------- status counting

  /** `by_status[s] = by_status.get(s, 0) + 1` on a dictionary kept in insertion order. */
  function Bump(counts: seq<(string, nat)>, s: string): (r: seq<(string, nat)>)
    ensures |r| == |counts| || |r| == |counts| + 1
    decreases |counts|
  {
    if counts == [] then [(s, 1)]
    else if counts[0].0 == s then [(s, counts[0].1 + 1)] + counts[1..]
    else [counts[0]] + Bump(counts[1..], s)
  }

  /** The `by_status` dictionary of a list of records. */
  function StatusCounts(apps: seq<Application>): seq<(string, nat)>
    decreases |apps|
  {
    if apps == [] then [] else Bump(StatusCounts(apps[..|apps| - 1]), apps[|apps| - 1].status)
  }

  function SumCounts(counts: seq<(string, nat)>): nat
    decreases |counts|
  {
    if counts == [] then 0 else counts[0].1 + SumCounts(counts[1..])
  }

  /** The count recorded for `s`, 0 when absent. */
  function CountOf(counts: seq<(string, nat)>, s: string): nat
    decreases |counts|
  {
    if counts == [] then 0 else if counts[0].0 == s then counts[0].1 else CountOf(counts[1..], s)
  }

  /** The number of records with status `s`. */
  function Occurrences(apps: seq<Application>, s: string): nat
    decreases |apps|
  {
    if apps == [] then 0 else Occurrences(apps[..|apps| - 1], s) + (if apps[|apps| - 1].status == s then 1 else 0)
  }

  predicate DistinctKeys(counts: seq<(string, nat)>) {
    forall i, j :: 0 <= i < j < |counts| ==> counts[i].0 != counts[j].0
  }

  lemma {:induction false} BumpSum(counts: seq<(string, nat)>, s: string)
    ensures SumCounts(Bump(counts, s)) == SumCounts(counts) + 1
    decreases |counts|
  {
    if counts != [] && counts[0].0 != s {
      BumpSum(counts[1..], s);
    }
  }

  lemma BumpCount(counts: seq<(string, nat)>, s: string, t: string)
    requires DistinctKeys(counts)
    ensures DistinctKeys(Bump(counts, s))
    ensures CountOf(Bump(counts, s), t) == CountOf(counts, t) + (if s == t then 1 else 0)
    ensures forall i :: 0 <= i < |Bump(counts, s)| ==> Bump(counts, s)[i].0 == s || Bump(counts, s)[i].0 in KeysOf(counts)
  {
    BumpKeys(counts, s);
    BumpDistinct(counts, s);
    BumpCountOf(counts, s, t);
  }

  lemma {:induction false} BumpKeys(counts: seq<(string, nat)>, s: string)
    ensures forall i :: 0 <= i < |Bump(counts, s)| ==> Bump(counts, s)[i].0 == s || Bump(counts, s)[i].0 in KeysOf(counts)
    decreases |counts|
  {
    if counts != [] && counts[0].0 != s {
      BumpKeys(counts[1..], s);
      var r := Bump(counts, s);
      var rest := Bump(counts[1..], s);
      assert r == [counts[0]] + rest;
      forall i | 0 <= i < |r| ensures r[i].0 == s || r[i].0 in KeysOf(counts) {
        if i > 0 {
          assert r[i] == rest[i - 1];
          if r[i].0 != s {
            var k :| 0 <= k < |counts[1..]| && counts[1..][k].0 == r[i].0;
            assert counts[k + 1].0 == r[i].0;
          }
        }
      }
    } else if counts != [] {
      var r := Bump(counts, s);
      assert forall i :: 1 <= i < |r| ==> r[i] == counts[i];
    }
  }

  lemma {:induction false} BumpDistinct(counts: seq<(string, nat)>, s: string)
    requires DistinctKeys(counts)
    ensures DistinctKeys(Bump(counts, s))
    decreases |counts|
  {
    if counts != [] && counts[0].0 != s {
      BumpDistinct(counts[1..], s);
      BumpKeys(counts[1..], s);
      var r := Bump(counts, s);
      var rest := Bump(counts[1..], s);
      assert r == [counts[0]] + rest;
      forall i, j | 0 <= i < j < |r| ensures r[i].0 != r[j].0 {
        if i == 0 {
          var rj := r[j].0;
          assert rj == rest[j - 1].0;
          if rj in KeysOf(counts[1..]) {
            var k :| 0 <= k < |counts[1..]| && counts[1..][k].0 == rj;
            assert counts[k + 1].0 == rj;
          }
        } else {
          assert r[i] == rest[i - 1] && r[j] == rest[j - 1];
        }
      }
    } else if counts != [] {
      var r := Bump(counts, s);
      assert forall i :: 1 <= i < |r| ==> r[i] == counts[i];
    }
  }

  lemma {:induction false} BumpCountOf(counts: seq<(string, nat)>, s: string, t: string)
    ensures CountOf(Bump(counts, s), t) == CountOf(counts, t) + (if s == t then 1 else 0)
    decreases |counts|
  {
    if counts != [] && counts[0].0 != s {
      BumpCountOf(counts[1..], s, t);
      assert Bump(counts, s) == [counts[0]] + Bump(counts[1..], s);
    } else if counts != [] {
      var r := Bump(counts, s);
      assert r[1..] == counts[1..];
    }
  }

  function KeysOf(counts: seq<(string, nat)>): set<string> {
    set i | 0 <= i < |counts| :: counts[i].0
  }

  /** `by_status` has one key per status, each counting exactly the records with that
      status, and the counts add up to the number of records. */
  lemma {:induction false} StatusCountsCorrect(apps: seq<Application>, s: string)
    ensures DistinctKeys(StatusCounts(apps))
    ensures CountOf(StatusCounts(apps), s) == Occurrences(apps, s)
    ensures SumCounts(StatusCounts(apps)) == |apps|
    decreases |apps|
  {
    if apps != [] {
      var n := |apps| - 1;
      StatusCountsCorrect(apps[..n], s);
      BumpCount(StatusCounts(apps[..n]), apps[n].status, s);
      BumpSum(StatusCounts(apps[..n]), apps[n].status);
    }
  }

  // ------------------------------------------------------ average score

  function SumReals(xs: seq<real>): real
    decreases |xs|
  {
    if xs == [] then 0.0 else SumReals(xs[..|xs| - 1]) + xs[|xs| - 1]
  }

  /** `[a["ats_score"] for a in apps if a.get("ats_score", 0) > 0]`. */
  function PositiveScores(apps: seq<Application>): (r: seq<real>)
    ensures |r| <= |apps|
    ensures forall i :: 0 <= i < |r| ==> r[i] > 0.0
    decreases |apps|
  {
    if apps == [] then []
    else
      var n := |apps| - 1;
      PositiveScores(apps[..n]) + (if apps[n].atsScore > 0.0 then [apps[n].atsScore] else [])
  }

  /** `sum(scores) / len(scores) if scores else 0`. */
  function AverageScore(scores: seq<real>): real {
    if scores == [] then 0.0 else SumReals(scores) / |scores| as real
  }

  lemma {:induction false} SumRealsBounds(xs: seq<real>, hi: real)
    requires forall i :: 0 <= i < |xs| ==> 0.0 < xs[i] <= hi
    ensures 0.0 <= SumReals(xs) <= |xs| as real * hi
    decreases |xs|
  {
    if xs != [] {
      SumRealsBounds(xs[..|xs| - 1], hi);
    }
  }

  lemma AverageBounds(xs: seq<real>, hi: real)
    requires forall i :: 0 <= i < |xs| ==> 0.0 < xs[i] <= hi
    ensures 0.0 <= AverageScore(xs)
    ensures xs != [] ==> 0.0 < AverageScore(xs) <= hi
  {
    if xs != [] {
      SumRealsBounds(xs, hi);
      SumPositive(xs);
      AverageAtMost(SumReals(xs), |xs| as real, hi);
    }
  }

  /** The average of positive scores that are at most `hi` is positive and at most `hi`
      (0 with no scores). */
  lemma AverageScoreBounds(apps: seq<Application>, hi: real)
    requires forall i :: 0 <= i < |apps| ==> apps[i].atsScore <= hi
    ensures 0.0 <= AverageScore(PositiveScores(apps))
    ensures PositiveScores(apps) != [] ==> 0.0 < AverageScore(PositiveScores(apps)) <= hi
  {
    PositiveScoresAtMost(apps, hi);
    AverageBounds(PositiveScores(apps), hi);
  }

  lemma {:induction false} PositiveScoresAtMost(apps: seq<Application>, hi: real)
    requires forall i :: 0 <= i < |apps| ==> apps[i].atsScore <= hi
    ensures forall i :: 0 <= i < |PositiveScores(apps)| ==> PositiveScores(apps)[i] <= hi
    decreases |apps|
  {
    if apps != [] {
      PositiveScoresAtMost(apps[..|apps| - 1], hi);
    }
  }

  lemma {:induction false} SumPositive(xs: seq<real>)
    requires xs != [] && forall i :: 0 <= i < |xs| ==> xs[i] > 0.0
    ensures SumReals(xs) > 0.0
    decreases |xs|
  {
    if |xs| > 1 {
      SumPositive(xs[..|xs| - 1]);
    }
  }

  lemma AverageAtMost(sum: real, n: real, hi: real)
    requires n >= 1.0 && 0.0 < sum <= n * hi
    ensures 0.0 < sum / n <= hi
  {
    assert sum / n <= (n * hi) / n;
  }

  // -------------------------------------------------------------- store

  /** The tracker's data: `{"next_id": ..., "applications": [...]}`. */
  class Tracker {
    var nextId: int
    var applications: seq<Application>

    /** Ids are unique and all below the counter. */
    predicate Valid()
      reads this
    {
      && (forall i :: 0 <= i < |applications| ==> applications[i].id < nextId)
      && (forall i, j :: 0 <= i < j < |applications| ==> applications[i].id != applications[j].id)
    }

    /** The data a missing file loads as. */
    constructor ()
      ensures nextId == 1 && applications == []
      ensures Valid()
    {
      nextId := 1;
      applications := [];
    }

    /** Records a new application under the next id and returns that id. */
    method AddApplication(company: string, title: string, location: string, url: string, source: string,
                          status: string, resumePath: string, coverLetterPath: string, atsScore: real,
                          keywordsMatched: Option<seq<string>>, keywordsMissing: Option<seq<string>>,
                          notes: string, now: string) returns (appId: int)
      modifies this
      ensures appId == old(nextId) && nextId == old(nextId) + 1
      ensures applications == old(applications) + [NewRecord(appId, company, title, location, url, source, status,
                                                             resumePath, coverLetterPath, atsScore, keywordsMatched,
                                                             keywordsMissing, notes, now)]
      ensures old(Valid()) ==> Valid()
    {
      appId := nextId;
      nextId := nextId + 1;
      var app := Application(appId, company, title, location, url, source, status, resumePath, coverLetterPath,
                             atsScore, if keywordsMatched.Some? then keywordsMatched.value else [],
                             if keywordsMissing.Some? then keywordsMissing.value else [], notes,
                             now, "", "", "", "", now, now);
      applications := applications + [app];
    }

    /** Sets the status of the first record with id `appId`; an unknown id changes nothing. */
    method UpdateStatus(appId: int, status: string, notes: Option<string>, now: string)
      modifies this
      ensures nextId == old(nextId)
      ensures match FirstIndex(old(applications), appId)
        case None => applications == old(applications)
        case Some(i) => applications == old(applications)[i := WithStatus(old(applications)[i], status, notes, now)]
      ensures old(Valid()) ==> Valid()
    {
      var i := 0;
      while i < |applications|
        invariant 0 <= i <= |applications| && applications == old(applications)
        invariant forall j :: 0 <= j < i ==> applications[j].id != appId
      {
        if applications[i].id == appId {
          var app := applications[i];
          app := app.(status := status, updatedAt := now);
          if status == "applied" {
            app := app.(dateApplied := now);
          } else if status == "response" {
            app := app.(dateResponse := now);
          } else if status == "interview" {
            app := app.(dateInterview := now);
          }
          if notes.Some? && notes.value != "" {
            app := app.(notes := AppendNote(app.notes, now, notes.value));
          }
          applications := applications[i := app];
          FirstIndexIs(old(applications), appId, i);
          return;
        }
        i := i + 1;
      }
    }

    /** Sets the follow-up date of the first record with id `appId`; `followUp` is the
        timestamp `days` days after the clock reading, `now` the later reading stored
        as `updated_at`. */
    method SetFollowUp(appId: int, followUp: string, now: string)
      modifies this
      ensures nextId == old(nextId)
      ensures match FirstIndex(old(applications), appId)
        case None => applications == old(applications)
        case Some(i) => applications == old(applications)[i := old(applications)[i].(followUpDate := followUp, updatedAt := now)]
      ensures old(Valid()) ==> Valid()
    {
      var i := 0;
      while i < |applications|
        invariant 0 <= i <= |applications| && applications == old(applications)
        invariant forall j :: 0 <= j < i ==> applications[j].id != appId
      {
        if applications[i].id == appId {
          applications := applications[i := applications[i].(followUpDate := followUp, updatedAt := now)];
          FirstIndexIs(old(applications), appId, i);
          return;
        }
        i := i + 1;
      }
    }

    /** The records, restricted to status `status` when it is given and non-empty,
        newest first. */
    function GetApplications(status: Option<string>): (r: seq<Application>)
      reads this
      ensures SortedDesc(r)
      ensures status.Some? && status.value != "" ==> multiset(r) == multiset(Filter(applications, HasStatus(status.value)))
      ensures !(status.Some? && status.value != "") ==> multiset(r) == multiset(applications)
    {
      var apps := if status.Some? && status.value != "" then Filter(applications, HasStatus(status.value)) else applications;
      SortDescSorted(apps);
      SortDesc(apps)
    }

    /** The open applications whose follow-up date has come. */
    function GetFollowUps(now: string): (r: seq<Application>)
      reads this
      ensures |r| <= |applications|
    {
      Filter(applications, DuePicker(now))
    }

    function CheckDuplicate(company: string, title: string): bool
      reads this
    {
      HasApplication(applications, company, title)
    }

    /** `get_stats`: the number of records, the per-status counts in first-seen order,
        and the average of the positive scores. */
    method GetStats() returns (total: nat, byStatus: seq<(string, nat)>, avgScore: real)
      ensures total == |applications|
      ensures byStatus == StatusCounts(applications)
      ensures avgScore == AverageScore(PositiveScores(applications))
    {
      var apps := applications;
      total := |apps|;
      byStatus := [];
      for i := 0 to |apps|
        invariant byStatus == StatusCounts(apps[..i])
      {
        assert apps[..i + 1][..i] == apps[..i];
        byStatus := Bump(byStatus, apps[i].status);
      }
      assert apps[..|apps|] == apps;
      var scores := PositiveScores(apps);
      avgScore := if |scores| > 0 then SumReals(scores) / |scores| as real else 0.0;
    }
  }

  lemma FirstIndexIs(apps: seq<Application>, id: int, i: nat)
    requires i < |apps| && apps[i].id == id
    requires forall j :: 0 <= j < i ==> apps[j].id != id
    ensures FirstIndex(apps, id) == Some(i)
  {
  }

  /** In a valid tracker every record is the first, and so the only, one with its id,
      so the updates by id touch exactly that record; the counter names no record yet,
      so the next added id is fresh. */
  lemma ValidIdsLocate(t: Tracker)
    requires t.Valid()
    ensures forall i :: 0 <= i < |t.applications| ==> FirstIndex(t.applications, t.applications[i].id) == Some(i)
    ensures FirstIndex(t.applications, t.nextId) == None
  {
    forall i | 0 <= i < |t.applications|
      ensures FirstIndex(t.applications, t.applications[i].id) == Some(i)
    {
      FirstIndexIs(t.applications, t.applications[i].id, i);
    }
  }

  // ------------------------------------------------------- properties

  /** The status update stamps exactly the date the new status names, and a note is
      appended only when one is given and non-empty. */
  lemma StatusStamps(app: Application, status: string, notes: Option<string>, now: string)
    ensures var a := WithStatus(app, status, notes, now);
      && a.status == status && a.updatedAt == now
      && a.dateApplied == (if status == "applied" then now else app.dateApplied)
      && a.dateResponse == (if status == "response" then now else app.dateResponse)
      && a.dateInterview == (if status == "interview" then now else app.dateInterview)
      && (notes.None? || notes.value == "" ==> a.notes == app.notes)
      && a.id == app.id && a.company == app.company && a.title == app.title
      && a.followUpDate == app.followUpDate && a.createdAt == app.createdAt
  {
  }

  /** `strip` keeps a tail that starts and ends with non-whitespace. */
  lemma {:induction false} StripKeepsTail(head: string, tail: string)
    requires tail != [] && !IsSpace(tail[0]) && !IsSpace(tail[|tail| - 1])
    ensures var r := Strip(head + tail); |tail| <= |r| && r[|r| - |tail|..] == tail
    decreases |head|
  {
    var s := head + tail;
    if head == [] {
      assert s == tail;
    } else if IsSpace(head[0]) {
      assert s[0] == head[0] && s[1..] == head[1..] + tail;
      StripKeepsTail(head[1..], tail);
    } else {
      assert s[0] == head[0] && s[|s| - 1] == tail[|tail| - 1];
      assert s[|head|..] == tail;
    }
  }

  /** A note without trailing whitespace ends the notes, stamped with the date part
      of `now`: `strip` can only remove whitespace, and the stamp's `[` is not. */
  lemma AppendNoteEndsWithNote(existing: string, now: string, note: string)
    requires note != [] && !IsSpace(note[|note| - 1])
    ensures var stamped := NoteStamp(now, note);
      var r := AppendNote(existing, now, note);
      |stamped| <= |r| && r[|r| - |stamped|..] == stamped
  {
    var stamped := NoteStamp(now, note);
    assert stamped[0] == '[';
    assert stamped[|stamped| - 1] == note[|note| - 1];
    StripKeepsTail(existing + "\n", stamped);
  }

  /** The due follow-ups are exactly the open records whose date has come. */
  lemma FollowUpsExactly(apps: seq<Application>, now: string, a: Application)
    ensures a in Filter(apps, DuePicker(now)) <==> a in apps && a.followUpDate != "" && LexLe(a.followUpDate, now)
                                                   && !Closed(a.status)
  {
    FilterMember(apps, DuePicker(now), a);
  }

  /** Filtering by status keeps exactly the records with that status. */
  lemma StatusFilterExactly(apps: seq<Application>, status: string, a: Application)
    ensures a in Filter(apps, HasStatus(status)) <==> a in apps && a.status == status
  {
    FilterMember(apps, HasStatus(status), a);
  }

  /** After adding an application, a duplicate check for its company and title succeeds. */
  lemma AddedIsDuplicate(apps: seq<Application>, r: Application)
    ensures HasApplication(apps + [r], r.company, r.title)
  {
    assert (apps + [r])[|apps|] == r;
  }
}
