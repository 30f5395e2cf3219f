/** The LaTeX resume writer: escaping of user text, the bullet blocks, the contact
    line, one block per resume section, and the order in which the sections appear.
    The fixed preamble, writing the `.tex` file and running `pdflatex` are not part
    of this model. */
module LatexGenerator {
  import opened Wrappers
  import opened Text
  import opened ResumeTailor

  // ------------------------------------------------------------- escaping

  /** The replacement table of `_escape_latex`, in the dictionary's order: the braces
      come before the two replacements that insert braces. */
  const Replacements: seq<(char, string)> := [
    ('&', "\\&"), ('%', "\\%"), ('$', "\\$"), ('#', "\\#"), ('_', "\\_"),
    ('{', "\\{"), ('}', "\\}"), ('~', "\\textasciitilde{}"), ('^', "\\textasciicircum{}")]

  /** The characters escaped by a backslash in front of them. */
  predicate BackslashEscaped(c: char) {
    c == '&' || c == '%' || c == '$' || c == '#' || c == '_' || c == '{' || c == '}'
  }

  /** What one character of the input becomes. */
  function EscapeChar(c: char): string {
    if BackslashEscaped(c) then ['\\', c]
    else if c == '~' then "\\textasciitilde{}"
    else if c == '^' then "\\textasciicircum{}"
    else [c]
  }

  /** The escaped text as one left-to-right pass over the characters. */
  function Escape(s: string): string
    decreases |s|
  {
    if s == [] then "" else Escape(s[..|s| - 1]) + EscapeChar(s[|s| - 1])
  }

  /** The replacements of `reps`, applied one after another with `str.replace`. */
  function ReplaceChain(s: string, reps: seq<(char, string)>): string
    decreases |reps|
  {
    if reps == [] then s
    else
      var n := |reps| - 1;
      ReplaceAll(ReplaceChain(s, reps[..n]), [reps[n].0], reps[n].1)
  }

  /** `_escape_latex`: an empty text stays empty; otherwise every entry of the table
      is applied in turn to the whole text. The result is the per-character map. */
  method EscapeLatex(text: string) returns (r: string)
    ensures r == Escape(text)
  {
    if text == [] {
      return "";
    }
    r := text;
    for i := 0 to |Replacements|
      invariant r == ReplaceChain(text, Replacements[..i])
    {
      assert Replacements[..i + 1][..i] == Replacements[..i];
      r := ReplaceAll(r, [Replacements[i].0], Replacements[i].1);
    }
    assert Replacements[..|Replacements|] == Replacements;
    ChainIsEscape(text);
  }

  // ---------------------------------- why the chain is a per-character map

  /** The chain with each replacement done character by character. */
  function EachChain(s: string, reps: seq<(char, string)>): string
    decreases |reps|
  {
    if reps == [] then s
    else
      var n := |reps| - 1;
      ReplaceEach(EachChain(s, reps[..n]), reps[n].0, reps[n].1)
  }

  lemma {:induction false} ChainOfEach(s: string, reps: seq<(char, string)>)
    ensures ReplaceChain(s, reps) == EachChain(s, reps)
    decreases |reps|
  {
    if reps != [] {
      var n := |reps| - 1;
      ChainOfEach(s, reps[..n]);
      ReplaceSingleChar(EachChain(s, reps[..n]), reps[n].0, reps[n].1);
    }
  }

  lemma {:induction false} EachChainEmpty(reps: seq<(char, string)>)
    ensures EachChain("", reps) == ""
    decreases |reps|
  {
    if reps != [] {
      EachChainEmpty(reps[..|reps| - 1]);
    }
  }

  lemma {:induction false} EachChainAppend(a: string, b: string, reps: seq<(char, string)>)
    ensures EachChain(a + b, reps) == EachChain(a, reps) + EachChain(b, reps)
    decreases |reps|
  {
    if reps != [] {
      var n := |reps| - 1;
      EachChainAppend(a, b, reps[..n]);
      ReplaceEachAppend(EachChain(a, reps[..n]), EachChain(b, reps[..n]), reps[n].0, reps[n].1);
    }
  }

  /** What the table makes of a single character: the replacement of its entry, or
      the character itself. */
  function Fate(c: char, reps: seq<(char, string)>): string
    decreases |reps|
  {
    if reps == [] then [c]
    else if reps[|reps| - 1].0 == c then reps[|reps| - 1].1
    else Fate(c, reps[..|reps| - 1])
  }

  predicate DistinctKeys(reps: seq<(char, string)>) {
    forall j, k :: 0 <= j < k < |reps| ==> reps[j].0 != reps[k].0
  }

  /** No replacement inserts a character that a later entry replaces. */
  predicate LaterKeysAbsent(reps: seq<(char, string)>) {
    forall j, k :: 0 <= j < k < |reps| ==> reps[k].0 !in reps[j].1
  }

  lemma {:induction false} FateHit(c: char, reps: seq<(char, string)>, j: nat)
    requires DistinctKeys(reps) && j < |reps| && reps[j].0 == c
    ensures Fate(c, reps) == reps[j].1
    decreases |reps|
  {
    if j < |reps| - 1 {
      FateHit(c, reps[..|reps| - 1], j);
    }
  }

  lemma {:induction false} FateMiss(c: char, reps: seq<(char, string)>)
    requires forall j :: 0 <= j < |reps| ==> reps[j].0 != c
    ensures Fate(c, reps) == [c]
    decreases |reps|
  {
    if reps != [] {
      FateMiss(c, reps[..|reps| - 1]);
    }
  }

  lemma {:induction false} FateAvoids(c: char, reps: seq<(char, string)>, d: char)
    requires d != c && forall j :: 0 <= j < |reps| ==> d !in reps[j].1
    ensures d !in Fate(c, reps)
    decreases |reps|
  {
    if reps != [] {
      FateAvoids(c, reps[..|reps| - 1], d);
    }
  }

  /** For a table with distinct keys whose replacements never feed a later entry, the
      chain turns a single character into its own replacement and nothing more. */
  lemma {:induction false} EachChainOneChar(c: char, reps: seq<(char, string)>)
    requires DistinctKeys(reps) && LaterKeysAbsent(reps)
    ensures EachChain([c], reps) == Fate(c, reps)
    decreases |reps|
  {
    if reps != [] {
      var n := |reps| - 1;
      var init := reps[..n];
      EachChainOneChar(c, init);
      if reps[n].0 == c {
        FateMiss(c, init);
        assert ReplaceEach([c], c, reps[n].1) == reps[n].1 + ReplaceEach([], c, reps[n].1);
      } else {
        FateAvoids(c, init, reps[n].0);
      }
    }
  }

  lemma TableFacts()
    ensures DistinctKeys(Replacements) && LaterKeysAbsent(Replacements)
  {
    TableKeysDistinct();
    TableKeysNotReinserted();
  }

  lemma TableKeysDistinct()
    ensures DistinctKeys(Replacements)
  {
  }

  /** The first seven replacements are a backslash and the key itself; the last two
      hold neither `~` nor `^`. */
  lemma TableKeysNotReinserted()
    ensures LaterKeysAbsent(Replacements)
  {
    var t := Replacements;
    forall j, k | 0 <= j < k < |t| ensures t[k].0 !in t[j].1 {
      if j < 7 {
        assert t[j].1 == ['\\', t[j].0];
      } else {
        assert j == 7 && k == 8;
      }
    }
  }

  lemma EscapeCharIsFate(c: char)
    ensures Fate(c, Replacements) == EscapeChar(c)
  {
    var t := Replacements;
    TableFacts();
    if c == '&' { FateHit(c, t, 0); }
    else if c == '%' { FateHit(c, t, 1); }
    else if c == '$' { FateHit(c, t, 2); }
    else if c == '#' { FateHit(c, t, 3); }
    else if c == '_' { FateHit(c, t, 4); }
    else if c == '{' { FateHit(c, t, 5); }
    else if c == '}' { FateHit(c, t, 6); }
    else if c == '~' { FateHit(c, t, 7); }
    else if c == '^' { FateHit(c, t, 8); }
    else { FateMiss(c, t); }
  }

  /** The chain of nine whole-text replacements equals the single left-to-right
      per-character map: escaping the braces first means the braces that the `~` and
      `^` replacements insert are never escaped again. */
  lemma ChainIsEscape(s: string)
    ensures ReplaceChain(s, Replacements) == Escape(s)
  {
    ChainOfEach(s, Replacements);
    EachChainIsEscape(s);
  }

  lemma {:induction false} EachChainIsEscape(s: string)
    ensures EachChain(s, Replacements) == Escape(s)
    decreases |s|
  {
    if s == [] {
      EachChainEmpty(Replacements);
    } else {
      var n := |s| - 1;
      EachChainIsEscape(s[..n]);
      assert s == s[..n] + [s[n]];
      EachChainAppend(s[..n], [s[n]], Replacements);
      ChainOneChar(s[n]);
      assert Escape(s) == Escape(s[..n]) + EscapeChar(s[n]);
    }
  }

  lemma ChainOneChar(c: char)
    ensures EachChain([c], Replacements) == EscapeChar(c)
  {
    TableFacts();
    EachChainOneChar(c, Replacements);
    EscapeCharIsFate(c);
  }

  // --------------------------------------------------- what escaping does

  lemma {:induction false} EscapeAppend(a: string, b: string)
    ensures Escape(a + b) == Escape(a) + Escape(b)
    decreases |b|
  {
    if b != [] {
      var n := |b| - 1;
      assert (a + b)[..|a + b| - 1] == a + b[..n];
      EscapeAppend(a, b[..n]);
    } else {
      assert a + b == a;
    }
  }

  /** Text without any of the nine special characters is left as it is. */
  lemma {:induction false} EscapePlain(s: string)
    requires forall i :: 0 <= i < |s| ==> !BackslashEscaped(s[i]) && s[i] != '~' && s[i] != '^'
    ensures Escape(s) == s
    decreases |s|
  {
    if s != [] {
      EscapePlain(s[..|s| - 1]);
    }
  }

  /** A character that needs a backslash in front. */
  predicate Special(c: char) {
    c == '&' || c == '%' || c == '$' || c == '#' || c == '_'
  }

  lemma EscapeCharShape(c: char)
    ensures '~' !in EscapeChar(c) && '^' !in EscapeChar(c)
    ensures forall i :: 0 <= i < |EscapeChar(c)| && Special(EscapeChar(c)[i]) ==> i == 1 && EscapeChar(c)[0] == '\\'
  {
  }

  /** No `~` or `^` survives escaping, and every `&`, `%`, `$`, `#` or `_` in the
      result sits right after a backslash. */
  lemma {:induction false} EscapeLeavesNoBareSpecial(s: string)
    ensures '~' !in Escape(s) && '^' !in Escape(s)
    ensures forall i :: 0 <= i < |Escape(s)| && Special(Escape(s)[i]) ==> 0 < i && Escape(s)[i - 1] == '\\'
    decreases |s|
  {
    if s != [] {
      var n := |s| - 1;
      EscapeLeavesNoBareSpecial(s[..n]);
      EscapeCharShape(s[n]);
      var pre, last := Escape(s[..n]), EscapeChar(s[n]);
      assert Escape(s) == pre + last;
      forall i | 0 <= i < |pre + last| && Special((pre + last)[i])
        ensures 0 < i && (pre + last)[i - 1] == '\\'
      {
        if i >= |pre| {
          assert (pre + last)[i] == last[i - |pre|];
          assert (pre + last)[i - 1] == last[i - |pre| - 1];
        } else {
          assert (pre + last)[i] == pre[i];
          assert (pre + last)[i - 1] == pre[i - 1];
        }
      }
    }
  }

  /** Escaping adds no line breaks. */
  lemma {:induction false} EscapeNoNewline(s: string)
    requires '\n' !in s
    ensures '\n' !in Escape(s)
    decreases |s|
  {
    if s != [] {
      var n := |s| - 1;
      EscapeNoNewline(s[..n]);
      assert s[n] in s;
      EscapeCharNoNewline(s[n]);
      assert Escape(s) == Escape(s[..n]) + EscapeChar(s[n]);
    }
  }

  lemma EscapeCharNoNewline(c: char)
    requires c != '\n'
    ensures '\n' !in EscapeChar(c)
  {
  }

  // ------------------------------------------------------------- bullets

  /** One `\resumeItem` line for a bullet. */
  function BulletLine(bullet: string): string {
    "          \\resumeItem{\\textbullet\\ " + Escape(bullet) + "}"
  }

  function BulletLines(bullets: seq<string>): (r: seq<string>)
    ensures |r| == |bullets| && forall i :: 0 <= i < |bullets| ==> r[i] == BulletLine(bullets[i])
  {
    seq(|bullets|, i requires 0 <= i < |bullets| => BulletLine(bullets[i]))
  }

  /** `_build_bullet_items`: one line per bullet, in order, joined by line breaks; no
      bullets give the empty text. */
  method BuildBulletItems(bullets: seq<string>) returns (r: string)
    ensures r == Join(BulletLines(bullets), "\n")
    ensures r == "" <==> bullets == []
  {
    var lines: seq<string> := [];
    for i := 0 to |bullets|
      invariant lines == BulletLines(bullets[..i])
    {
      var text := EscapeLatex(bullets[i]);
      lines := lines + ["          \\resumeItem{\\textbullet\\ " + text + "}"];
    }
    assert bullets[..|bullets|] == bullets;
    r := Join(lines, "\n");
    JoinEmpty(lines, "\n");
  }

  /** Bullets without line breaks come back one per line: splitting the block at its
      line breaks gives exactly the bullet lines. */
  lemma BulletBlockLines(bullets: seq<string>)
    requires bullets != [] && forall i :: 0 <= i < |bullets| ==> '\n' !in bullets[i]
    ensures SplitOn(Join(BulletLines(bullets), "\n"), "\n") == BulletLines(bullets)
  {
    var lines := BulletLines(bullets);
    forall i | 0 <= i < |lines| ensures '\n' !in lines[i] {
      BulletLineNoNewline(bullets[i]);
    }
    SplitOnJoin(lines, '\n');
  }

  lemma BulletLineNoNewline(bullet: string)
    requires '\n' !in bullet
    ensures '\n' !in BulletLine(bullet)
  {
    EscapeNoNewline(bullet);
  }

  // -------------------------------------------------------- contact line

  /** A truthy optional text: present and not empty. */
  predicate Given(o: Option<string>) {
    o.Some? && o.value != ""
  }

  /** A profile link as written, when it starts with `http`, or else behind `prefix`. */
  function LinkUrl(value: string, prefix: string): (r: string)
    ensures StartsWith(prefix, "http") ==> StartsWith(r, "http")
    ensures |value| <= |r| && r[|r| - |value|..] == value
    ensures StartsWith(value, "http") ==> r == value
  {
    if StartsWith(value, "http") then value else prefix + value
  }

  /** `\href{url}{shown}`. */
  function Href(url: string, shown: string): string {
    "\\href{" + url + "}{" + shown + "}"
  }

  /** The parts of the contact line, in the order email, phone, LinkedIn, GitHub,
      website, each only when given. */
  function ContactParts(p: Personal): seq<string> {
    EmailPart(p) + PhonePart(p) + LinkPart(p.links.linkedin, "https://linkedin.com/in/", "LinkedIn")
    + LinkPart(p.links.github, "https://github.com/", "GitHub") + LinkPart(p.links.website, "https://", "Website")
  }

  function EmailPart(p: Personal): seq<string> {
    if Given(p.email) then [Href("mailto:" + p.email.value, Escape(p.email.value))] else []
  }

  function PhonePart(p: Personal): seq<string> {
    if Given(p.phone) then [Escape(p.phone.value)] else []
  }

  function LinkPart(link: Option<string>, prefix: string, name: string): seq<string> {
    if Given(link) then [Href(LinkUrl(link.value, prefix), name)] else []
  }

  /** How many of the five contact fields are given. */
  function GivenCount(p: Personal): nat {
    (if Given(p.email) then 1 else 0) + (if Given(p.phone) then 1 else 0)
    + (if Given(p.links.linkedin) then 1 else 0) + (if Given(p.links.github) then 1 else 0)
    + (if Given(p.links.website) then 1 else 0)
  }

  /** `_build_contact_line`: the given parts joined by ` $|$ `. */
  method BuildContactLine(p: Personal) returns (line: string)
    ensures line == Join(ContactParts(p), " $|$ ")
  {
    var parts: seq<string> := [];
    if Given(p.email) {
      var shown := EscapeLatex(p.email.value);
      parts := parts + [Href("mailto:" + p.email.value, shown)];
    }
    if Given(p.phone) {
      var shown := EscapeLatex(p.phone.value);
      parts := parts + [shown];
    }
    assert parts == EmailPart(p) + PhonePart(p);
    parts := AppendLink(parts, p.links.linkedin, "https://linkedin.com/in/", "LinkedIn");
    parts := AppendLink(parts, p.links.github, "https://github.com/", "GitHub");
    parts := AppendLink(parts, p.links.website, "https://", "Website");
    line := Join(parts, " $|$ ");
  }

  /** One link of the contact line: a value not starting with `http` gets `prefix`. */
  method AppendLink(parts: seq<string>, link: Option<string>, prefix: string, name: string)
    returns (r: seq<string>)
    ensures r == parts + LinkPart(link, prefix, name)
  {
    r := parts;
    if Given(link) {
      var url := link.value;
      if !StartsWith(url, "http") {
        url := prefix + url;
      }
      r := r + [Href(url, name)];
    }
  }

  /** One part per given field; the line is empty exactly when no field is given, and
      every link in it is absolute. */
  lemma ContactLineParts(p: Personal)
    ensures |ContactParts(p)| == GivenCount(p)
    ensures Join(ContactParts(p), " $|$ ") == "" <==> GivenCount(p) == 0
    ensures Given(p.links.linkedin) ==> StartsWith(LinkUrl(p.links.linkedin.value, "https://linkedin.com/in/"), "http")
    ensures Given(p.links.github) ==> StartsWith(LinkUrl(p.links.github.value, "https://github.com/"), "http")
    ensures Given(p.links.website) ==> StartsWith(LinkUrl(p.links.website.value, "https://"), "http")
  {
    ContactPartsCount(p);
    ContactPartsNonEmpty(p);
    JoinEmpty(ContactParts(p), " $|$ ");
  }

  lemma ContactPartsCount(p: Personal)
    ensures |ContactParts(p)| == GivenCount(p)
  {
  }

  lemma ContactPartsNonEmpty(p: Personal)
    ensures NonEmptyParts(ContactParts(p))
  {
    if Given(p.phone) {
      EscapeNonEmpty(p.phone.value);
    }
    var front := EmailPart(p) + PhonePart(p);
    NonEmptyConcat(EmailPart(p), PhonePart(p));
    var linkedin := LinkPart(p.links.linkedin, "https://linkedin.com/in/", "LinkedIn");
    var github := LinkPart(p.links.github, "https://github.com/", "GitHub");
    var website := LinkPart(p.links.website, "https://", "Website");
    NonEmptyConcat(front, linkedin);
    NonEmptyConcat(front + linkedin, github);
    NonEmptyConcat(front + linkedin + github, website);
  }

  /** Every part of `parts` has some text. */
  predicate NonEmptyParts(parts: seq<string>) {
    forall i :: 0 <= i < |parts| ==> parts[i] != ""
  }

  lemma NonEmptyConcat(a: seq<string>, b: seq<string>)
    requires NonEmptyParts(a) && NonEmptyParts(b)
    ensures NonEmptyParts(a + b)
  {
  }

  lemma EscapeNonEmpty(s: string)
    requires s != ""
    ensures Escape(s) != ""
  {
    assert |EscapeChar(s[|s| - 1])| >= 1;
  }

  // --------------------------------------------------------------- skills

  /** The categories printed and their headings, in the order they are printed. */
  const SkillLabels: seq<(string, string)> := [
    ("languages", "Programming Languages"), ("data_engineering", "Data Engineering"),
    ("cloud_and_tools", "Libraries \\& Tools"), ("ai_ml", "AI/ML")]

  /** `technical_skills.get(key)`: the value stored under `key`; a later entry for the
      same key replaces an earlier one, as when the dictionary was built. */
  function SkillValueOf(skills: Skills, key: string): Option<SkillValue>
    decreases |skills|
  {
    if skills == [] then None
    else if skills[|skills| - 1].0 == key then Some(skills[|skills| - 1].1)
    else SkillValueOf(skills[..|skills| - 1], key)
  }

  /** What the comprehension walks over: a list's items, or a text's characters. */
  function SkillItems(v: Option<SkillValue>): seq<string> {
    match v
    case None => []
    case Some(SkillList(items)) => items
    case Some(SkillText(text)) => seq(|text|, i requires 0 <= i < |text| => [text[i]])
  }

  function EscapeAll(items: seq<string>): (r: seq<string>)
    ensures |r| == |items| && forall i :: 0 <= i < |items| ==> r[i] == Escape(items[i])
  {
    seq(|items|, i requires 0 <= i < |items| => Escape(items[i]))
  }

  /** One category's line: its heading in bold, then its escaped items. */
  function SkillLine(heading: string, items: seq<string>): string {
    "  \\resumeItem{\\textbf{" + heading + "}: " + Join(EscapeAll(items), ", ") + "}"
  }

  /** The lines of the categories of `labels` with a non-empty value, in order. */
  function SkillLines(skills: Skills, labels: seq<(string, string)>): (r: seq<string>)
    ensures |r| <= |labels|
    decreases |labels|
  {
    if labels == [] then []
    else
      var n := |labels| - 1;
      var items := SkillItems(SkillValueOf(skills, labels[n].0));
      SkillLines(skills, labels[..n]) + (if items != [] then [SkillLine(labels[n].1, items)] else [])
  }

  /** The technical-skills lines of `generate_latex`. */
  method BuildSkillsSection(skills: Skills) returns (section: string)
    ensures section == Join(SkillLines(skills, SkillLabels), "\n")
  {
    var lines: seq<string> := [];
    for i := 0 to |SkillLabels|
      invariant lines == SkillLines(skills, SkillLabels[..i])
    {
      assert SkillLabels[..i + 1][..i] == SkillLabels[..i];
      var items := SkillItems(SkillValueOf(skills, SkillLabels[i].0));
      if items != [] {
        var escaped := EscapeAll(items);
        lines := lines + ["  \\resumeItem{\\textbf{" + SkillLabels[i].1 + "}: " + Join(escaped, ", ") + "}"];
      }
    }
    assert SkillLabels[..|SkillLabels|] == SkillLabels;
    section := Join(lines, "\n");
  }

  lemma {:induction false} SkillValueOfOther(skills: Skills, key: string, v: SkillValue, other: string)
    requires other != key
    ensures SkillValueOf(skills + [(key, v)], other) == SkillValueOf(skills, other)
  {
    assert (skills + [(key, v)])[..|skills|] == skills;
  }

  /** A category under any other key never changes the skills lines. */
  lemma {:induction false} UnknownCategoryIgnored(skills: Skills, labels: seq<(string, string)>, key: string, v: SkillValue)
    requires forall j :: 0 <= j < |labels| ==> labels[j].0 != key
    ensures SkillLines(skills + [(key, v)], labels) == SkillLines(skills, labels)
    decreases |labels|
  {
    if labels != [] {
      var n := |labels| - 1;
      UnknownCategoryIgnored(skills, labels[..n], key, v);
      SkillValueOfOther(skills, key, v, labels[n].0);
    }
  }

  /** A category of `labels` with a non-empty value is printed; the lines are empty
      exactly when every category of `labels` is missing or empty. */
  lemma SkillLinesShown(skills: Skills, labels: seq<(string, string)>)
    ensures forall j :: 0 <= j < |labels| && SkillItems(SkillValueOf(skills, labels[j].0)) != [] ==>
      SkillLine(labels[j].1, SkillItems(SkillValueOf(skills, labels[j].0))) in SkillLines(skills, labels)
    ensures SkillLines(skills, labels) == [] <==> forall j :: 0 <= j < |labels| ==> SkillItems(SkillValueOf(skills, labels[j].0)) == []
  {
    SkillLinesPrinted(skills, labels);
    SkillLinesEmpty(skills, labels);
  }

  lemma {:induction false} SkillLinesPrinted(skills: Skills, labels: seq<(string, string)>)
    ensures forall j :: 0 <= j < |labels| && SkillItems(SkillValueOf(skills, labels[j].0)) != [] ==>
      SkillLine(labels[j].1, SkillItems(SkillValueOf(skills, labels[j].0))) in SkillLines(skills, labels)
    decreases |labels|
  {
    if labels != [] {
      var n := |labels| - 1;
      SkillLinesPrinted(skills, labels[..n]);
      SkillLinesSnoc(skills, labels);
      forall j | 0 <= j < |labels| && SkillItems(SkillValueOf(skills, labels[j].0)) != []
        ensures SkillLine(labels[j].1, SkillItems(SkillValueOf(skills, labels[j].0))) in SkillLines(skills, labels)
      {
        if j < n {
          assert labels[..n][j] == labels[j];
        }
      }
    }
  }

  /** The lines for `labels` are those for all but its last category, then the last
      one's line when it has items. */
  lemma SkillLinesSnoc(skills: Skills, labels: seq<(string, string)>)
    requires labels != []
    ensures var n := |labels| - 1; var items := SkillItems(SkillValueOf(skills, labels[n].0));
      SkillLines(skills, labels) == SkillLines(skills, labels[..n]) + (if items != [] then [SkillLine(labels[n].1, items)] else [])
  {
  }

  /** Every category of `labels` is missing from `skills` or has no items. */
  predicate NoneShown(skills: Skills, labels: seq<(string, string)>) {
    forall j :: 0 <= j < |labels| ==> SkillItems(SkillValueOf(skills, labels[j].0)) == []
  }

  lemma {:induction false} SkillLinesEmpty(skills: Skills, labels: seq<(string, string)>)
    ensures SkillLines(skills, labels) == [] <==> NoneShown(skills, labels)
    decreases |labels|
  {
    if labels != [] {
      var n := |labels| - 1;
      SkillLinesEmpty(skills, labels[..n]);
      SkillLinesEmptyStep(skills, labels);
      NoneShownStep(skills, labels);
    }
  }

  lemma SkillLinesEmptyStep(skills: Skills, labels: seq<(string, string)>)
    requires labels != []
    ensures SkillLines(skills, labels) == [] <==>
      SkillLines(skills, labels[..|labels| - 1]) == [] && SkillItems(SkillValueOf(skills, labels[|labels| - 1].0)) == []
  {
  }

  lemma NoneShownStep(skills: Skills, labels: seq<(string, string)>)
    requires labels != []
    ensures NoneShown(skills, labels) <==>
      NoneShown(skills, labels[..|labels| - 1]) && SkillItems(SkillValueOf(skills, labels[|labels| - 1].0)) == []
  {
    assert forall j :: 0 <= j < |labels| - 1 ==> labels[..|labels| - 1][j] == labels[j];
  }

  // ------------------------------------------------------ entry blocks

  /** The four-part `\resumeSubheading` header. */
  function Subheading(topLeft: string, topRight: string, bottomLeft: string, bottomRight: string): string {
    "  \\resumeSubheading\n      {" + topLeft + "}{" + topRight + "}\n      {" + bottomLeft + "}{" + bottomRight + "}"
  }

  /** An entry's header followed by its bullet list. */
  function WithBullets(header: string, bullets: seq<string>): string {
    header + "\n      \\resumeSubHeadingList\n" + Join(BulletLines(bullets), "\n") + "\n      \\resumeSubHeadingListEnd"
  }

  /** A work or research entry: title and dates, then company and location. */
  function ExperienceItem(e: ExperienceEntry): string {
    WithBullets(Subheading(Escape(e.title), Escape(e.startDate) + " -- " + Escape(e.endDate),
                           Escape(e.company), Escape(e.location)), e.bullets)
  }

  /** A project: title and date, then institution and an empty right side. */
  function ProjectItem(p: ProjectEntry): string {
    WithBullets(Subheading(Escape(p.title), Escape(p.date), Escape(p.institution), ""), p.bullets)
  }

  /** The GPA shown after the degree, unescaped, when one is given. */
  function GpaText(gpa: Option<string>): string {
    if Given(gpa) then " (GPA: " + gpa.value + ")" else ""
  }

  /** An education entry: institution and location, then degree (and GPA) and dates. */
  function EducationItem(e: Education): string {
    Subheading(Escape(e.institution.GetOr("")), Escape(e.location.GetOr("")),
               Escape(e.degree.GetOr("")) + GpaText(e.gpa),
               Escape(e.startDate.GetOr("")) + " -- " + Escape(e.endDate.GetOr("")))
  }

  function ExperienceItems(exps: seq<ExperienceEntry>): (r: seq<string>)
    ensures |r| == |exps| && forall i :: 0 <= i < |r| ==> r[i] != ""
    decreases |exps|
  {
    if exps == [] then [] else ExperienceItems(exps[..|exps| - 1]) + [ExperienceItem(exps[|exps| - 1])]
  }

  function ProjectItems(projs: seq<ProjectEntry>): (r: seq<string>)
    ensures |r| == |projs| && forall i :: 0 <= i < |r| ==> r[i] != ""
    decreases |projs|
  {
    if projs == [] then [] else ProjectItems(projs[..|projs| - 1]) + [ProjectItem(projs[|projs| - 1])]
  }

  function EducationItems(edus: seq<Education>): (r: seq<string>)
    ensures |r| == |edus| && forall i :: 0 <= i < |r| ==> r[i] != ""
    decreases |edus|
  {
    if edus == [] then [] else EducationItems(edus[..|edus| - 1]) + [EducationItem(edus[|edus| - 1])]
  }

  /** Between two education entries. */
  const EducationSeparator: string := "\n  \\vspace{2pt}\n"

  /** The work or research block: one item per entry, joined by line breaks; empty
      exactly when there are no entries. */
  method BuildExperienceSection(exps: seq<ExperienceEntry>) returns (section: string)
    ensures section == Join(ExperienceItems(exps), "\n")
    ensures section == "" <==> exps == []
  {
    var items: seq<string> := [];
    for i := 0 to |exps|
      invariant items == ExperienceItems(exps[..i])
    {
      assert exps[..i + 1][..i] == exps[..i];
      var e := exps[i];
      var bullets := BuildBulletItems(e.bullets);
      var header := Subheading(Escape(e.title), Escape(e.startDate) + " -- " + Escape(e.endDate),
                               Escape(e.company), Escape(e.location));
      items := items + [header + "\n      \\resumeSubHeadingList\n" + bullets + "\n      \\resumeSubHeadingListEnd"];
    }
    assert exps[..|exps|] == exps;
    section := Join(items, "\n");
    JoinEmpty(items, "\n");
  }

  /** The projects block; empty exactly when there are no projects. */
  method BuildProjectsSection(projs: seq<ProjectEntry>) returns (section: string)
    ensures section == Join(ProjectItems(projs), "\n")
    ensures section == "" <==> projs == []
  {
    var items: seq<string> := [];
    for i := 0 to |projs|
      invariant items == ProjectItems(projs[..i])
    {
      assert projs[..i + 1][..i] == projs[..i];
      var p := projs[i];
      var bullets := BuildBulletItems(p.bullets);
      var header := Subheading(Escape(p.title), Escape(p.date), Escape(p.institution), "");
      items := items + [header + "\n      \\resumeSubHeadingList\n" + bullets + "\n      \\resumeSubHeadingListEnd"];
    }
    assert projs[..|projs|] == projs;
    section := Join(items, "\n");
    JoinEmpty(items, "\n");
  }

  /** The education block, entries separated by a small vertical space; empty exactly
      when there is no entry. */
  method BuildEducationSection(edus: seq<Education>) returns (section: string)
    ensures section == Join(EducationItems(edus), EducationSeparator)
    ensures section == "" <==> edus == []
  {
    var items: seq<string> := [];
    for i := 0 to |edus|
      invariant items == EducationItems(edus[..i])
    {
      assert edus[..i + 1][..i] == edus[..i];
      var e := edus[i];
      var gpa := if Given(e.gpa) then " (GPA: " + e.gpa.value + ")" else "";
      items := items + [Subheading(Escape(e.institution.GetOr("")), Escape(e.location.GetOr("")),
                                   Escape(e.degree.GetOr("")) + gpa,
                                   Escape(e.startDate.GetOr("")) + " -- " + Escape(e.endDate.GetOr("")))];
    }
    assert edus[..|edus|] == edus;
    section := Join(items, EducationSeparator);
    JoinEmpty(items, EducationSeparator);
  }

  /** The certifications line: every certification escaped, comma-separated; nothing
      without certifications. */
  function CertificationsBlock(certs: seq<string>): (r: string)
    ensures r == "" <==> certs == []
  {
    if certs != [] then "  \\resumeItem{" + Join(EscapeAll(certs), ", ") + "}" else ""
  }

  // ------------------------------------------------------------- sections

  datatype SectionKind =
    | SkillsSection | ExperienceSection | ResearchSection | ProjectsSection | EducationSection | CertificationsSection

  function Title(k: SectionKind): string {
    match k
    case SkillsSection => "Technical Skills"
    case ExperienceSection => "Experience"
    case ResearchSection => "Research Experience"
    case ProjectsSection => "Projects"
    case EducationSection => "Education"
    case CertificationsSection => "Certifications"
  }

  /** The fixed position of each kind of section. */
  function Rank(k: SectionKind): nat {
    match k
    case SkillsSection => 0
    case ExperienceSection => 1
    case ResearchSection => 2
    case ProjectsSection => 3
    case EducationSection => 4
    case CertificationsSection => 5
  }

  datatype Section = Section(kind: SectionKind, content: string)

  /** A section: its title and its content inside an item list. */
  function RenderSection(s: Section): string {
    "\\section{" + Title(s.kind) + "}\n\\resumeSubHeadingList\n" + s.content + "\n\\resumeSubHeadingListEnd"
  }

  /** A section of kind `kind`, shown when `always` holds or its content is not empty. */
  function Shown(kind: SectionKind, content: string, always: bool): seq<Section> {
    if always || content != "" then [Section(kind, content)] else []
  }

  /** The sections from their contents: skills and education always, the others only
      when their content is not empty. */
  function SectionsOf(skills: string, work: string, research: string, projects: string, education: string,
                      certs: string): seq<Section> {
    Shown(SkillsSection, skills, true) + Shown(ExperienceSection, work, false)
    + Shown(ResearchSection, research, false) + Shown(ProjectsSection, projects, false)
    + Shown(EducationSection, education, true) + Shown(CertificationsSection, certs, false)
  }

  function Rendered(sections: seq<Section>): (r: seq<string>)
    ensures |r| == |sections|
    decreases |sections|
  {
    if sections == [] then [] else Rendered(sections[..|sections| - 1]) + [RenderSection(sections[|sections| - 1])]
  }

  lemma RenderedSnoc(sections: seq<Section>, s: Section)
    ensures Rendered(sections + [s]) == Rendered(sections) + [RenderSection(s)]
  {
    assert (sections + [s])[..|sections|] == sections;
  }

  /** The resume's sections for its skills, experiences, projects, education and
      certifications. */
  function ResumeSections(skills: Skills, work: seq<ExperienceEntry>, research: seq<ExperienceEntry>,
                          projects: seq<ProjectEntry>, education: seq<Education>, certs: seq<string>): seq<Section> {
    SectionsOf(Join(SkillLines(skills, SkillLabels), "\n"), Join(ExperienceItems(work), "\n"),
               Join(ExperienceItems(research), "\n"), Join(ProjectItems(projects), "\n"),
               Join(EducationItems(education), EducationSeparator), CertificationsBlock(certs))
  }

  function Kinds(sections: seq<Section>): (r: seq<SectionKind>)
    ensures |r| == |sections| && forall i :: 0 <= i < |sections| ==> r[i] == sections[i].kind
  {
    seq(|sections|, i requires 0 <= i < |sections| => sections[i].kind)
  }

  lemma KindsAppend(a: seq<Section>, b: seq<Section>)
    ensures Kinds(a + b) == Kinds(a) + Kinds(b)
  {
  }

  function ShownKinds(kind: SectionKind, content: string, always: bool): seq<SectionKind> {
    if always || content != "" then [kind] else []
  }

  /** Showing sections in rank order keeps the ranks increasing. */
  lemma RanksExtend(ks: seq<SectionKind>, kind: SectionKind, content: string, always: bool)
    requires forall i, j :: 0 <= i < j < |ks| ==> Rank(ks[i]) < Rank(ks[j])
    requires forall i :: 0 <= i < |ks| ==> Rank(ks[i]) < Rank(kind)
    ensures var r := ks + ShownKinds(kind, content, always);
      forall i, j :: 0 <= i < j < |r| ==> Rank(r[i]) < Rank(r[j])
  {
  }

  lemma KindsShown(kind: SectionKind, content: string, always: bool)
    ensures Kinds(Shown(kind, content, always)) == ShownKinds(kind, content, always)
  {
  }

  /** The kinds of the sections built from their contents. */
  lemma SectionsOfKinds(skills: string, work: string, research: string, projects: string, education: string,
                        certs: string)
    ensures Kinds(SectionsOf(skills, work, research, projects, education, certs))
      == [SkillsSection] + ShownKinds(ExperienceSection, work, false) + ShownKinds(ResearchSection, research, false)
         + ShownKinds(ProjectsSection, projects, false) + [EducationSection]
         + ShownKinds(CertificationsSection, certs, false)
  {
    var s1 := Shown(SkillsSection, skills, true);
    var s2 := s1 + Shown(ExperienceSection, work, false);
    var s3 := s2 + Shown(ResearchSection, research, false);
    var s4 := s3 + Shown(ProjectsSection, projects, false);
    var s5 := s4 + Shown(EducationSection, education, true);
    assert SectionsOf(skills, work, research, projects, education, certs) == s5 + Shown(CertificationsSection, certs, false);
    KindsShown(SkillsSection, skills, true);
    KindsShown(ExperienceSection, work, false);
    KindsShown(ResearchSection, research, false);
    KindsShown(ProjectsSection, projects, false);
    KindsShown(EducationSection, education, true);
    KindsShown(CertificationsSection, certs, false);
    KindsAppend(s1, Shown(ExperienceSection, work, false));
    KindsAppend(s2, Shown(ResearchSection, research, false));
    KindsAppend(s3, Shown(ProjectsSection, projects, false));
    KindsAppend(s4, Shown(EducationSection, education, true));
    KindsAppend(s5, Shown(CertificationsSection, certs, false));
  }

  /** The kinds shown for the four optional contents, in rank order. */
  function KindSeq(work: bool, research: bool, projects: bool, certs: bool): seq<SectionKind> {
    [SkillsSection] + (if work then [ExperienceSection] else []) + (if research then [ResearchSection] else [])
    + (if projects then [ProjectsSection] else []) + [EducationSection] + (if certs then [CertificationsSection] else [])
  }

  lemma KindSeqOrdered(work: bool, research: bool, projects: bool, certs: bool)
    ensures var ks := KindSeq(work, research, projects, certs);
      forall i, j :: 0 <= i < j < |ks| ==> Rank(ks[i]) < Rank(ks[j])
  {
    var k1 := [SkillsSection];
    var k2 := k1 + ShownKinds(ExperienceSection, "", work);
    var k3 := k2 + ShownKinds(ResearchSection, "", research);
    var k4 := k3 + ShownKinds(ProjectsSection, "", projects);
    var k5 := k4 + [EducationSection];
    RanksExtend(k1, ExperienceSection, "", work);
    RanksExtend(k2, ResearchSection, "", research);
    RanksExtend(k3, ProjectsSection, "", projects);
    RanksExtend(k4, EducationSection, "", true);
    RanksExtend(k5, CertificationsSection, "", certs);
    assert k5 + ShownKinds(CertificationsSection, "", certs) == KindSeq(work, research, projects, certs);
  }

  /** Skills first, Education present, ranks increasing, and each of the four optional
      kinds present exactly when its flag is set. */
  predicate Layout(ks: seq<SectionKind>, work: bool, research: bool, projects: bool, certs: bool) {
    && ks != [] && ks[0] == SkillsSection && EducationSection in ks
    && (forall i, j :: 0 <= i < j < |ks| ==> Rank(ks[i]) < Rank(ks[j]))
    && (ExperienceSection in ks <==> work) && (ResearchSection in ks <==> research)
    && (ProjectsSection in ks <==> projects) && (CertificationsSection in ks <==> certs)
  }

  lemma KindSeqMembers(work: bool, research: bool, projects: bool, certs: bool)
    ensures var ks := KindSeq(work, research, projects, certs);
      && ks[0] == SkillsSection && EducationSection in ks
      && (ExperienceSection in ks <==> work) && (ResearchSection in ks <==> research)
      && (ProjectsSection in ks <==> projects) && (CertificationsSection in ks <==> certs)
  {
  }

  /** The order and presence of the sections, from their contents. */
  lemma SectionsOfOrder(skills: string, work: string, research: string, projects: string, education: string,
                        certs: string)
    ensures Layout(Kinds(SectionsOf(skills, work, research, projects, education, certs)),
                   work != "", research != "", projects != "", certs != "")
  {
    SectionsOfKinds(skills, work, research, projects, education, certs);
    var w, r, p, c := work != "", research != "", projects != "", certs != "";
    assert Kinds(SectionsOf(skills, work, research, projects, education, certs)) == KindSeq(w, r, p, c);
    KindSeqOrdered(w, r, p, c);
    KindSeqMembers(w, r, p, c);
  }

  /** The sections come in the fixed order Skills, Experience, Research, Projects,
      Education, Certifications; Skills is first and Education always present; each
      of the other four is present exactly when its list is not empty. */
  lemma SectionOrder(skills: Skills, work: seq<ExperienceEntry>, research: seq<ExperienceEntry>,
                     projects: seq<ProjectEntry>, education: seq<Education>, certs: seq<string>)
    ensures Layout(Kinds(ResumeSections(skills, work, research, projects, education, certs)),
                   work != [], research != [], projects != [], certs != [])
  {
    var sk, wk, rs := Join(SkillLines(skills, SkillLabels), "\n"), Join(ExperienceItems(work), "\n"),
                      Join(ExperienceItems(research), "\n");
    var pj, ed, ce := Join(ProjectItems(projects), "\n"), Join(EducationItems(education), EducationSeparator),
                      CertificationsBlock(certs);
    JoinEmpty(ExperienceItems(work), "\n");
    JoinEmpty(ExperienceItems(research), "\n");
    JoinEmpty(ProjectItems(projects), "\n");
    assert (wk != "") == (work != []) && (rs != "") == (research != []);
    assert (pj != "") == (projects != []) && (ce != "") == (certs != []);
    SectionsOfOrder(sk, wk, rs, pj, ed, ce);
  }

  // ------------------------------------------------------------- document

  /** The document from `\begin{document}` on: the centred name and contact line,
      then the sections separated by blank lines. */
  function DocumentText(name: string, contact: string, body: string): string {
    "\\begin{document}\n\n\\begin{center}\n  \\textbf{\\Huge " + name + "} \\\\\n  \\small " + contact
    + "\n\\end{center}\n\n" + body + "\n\n\\end{document}"
  }

  /** The resume's LaTeX for its profile and sections. */
  function ResumeTex(personal: Personal, skills: Skills, work: seq<ExperienceEntry>, research: seq<ExperienceEntry>,
                     projects: seq<ProjectEntry>, education: seq<Education>, certs: seq<string>): string {
    DocumentText(Escape(personal.name.GetOr("")), Join(ContactParts(personal), " $|$ "),
                 Join(Rendered(ResumeSections(skills, work, research, projects, education, certs)), "\n\n"))
  }

  /** One `sections.append` of `generate_latex`, guarded by its content unless `always`. */
  method AddSection(sections: seq<string>, ghost before: seq<Section>, kind: SectionKind, content: string,
                    always: bool)
    returns (r: seq<string>)
    requires sections == Rendered(before)
    ensures r == Rendered(before + Shown(kind, content, always))
  {
    r := sections;
    if always || content != "" {
      r := r + [RenderSection(Section(kind, content))];
      RenderedSnoc(before, Section(kind, content));
    } else {
      assert before + [] == before;
    }
  }

  /** The list of rendered sections, in the fixed order, each optional one only when
      its content is not empty. */
  method AssembleSections(skills: string, work: string, research: string, projects: string, education: string,
                          certs: string)
    returns (sections: seq<string>)
    ensures sections == Rendered(SectionsOf(skills, work, research, projects, education, certs))
  {
    ghost var shown: seq<Section> := [];
    sections := AddSection([], shown, SkillsSection, skills, true);
    shown := shown + Shown(SkillsSection, skills, true);
    sections := AddSection(sections, shown, ExperienceSection, work, false);
    shown := shown + Shown(ExperienceSection, work, false);
    sections := AddSection(sections, shown, ResearchSection, research, false);
    shown := shown + Shown(ResearchSection, research, false);
    sections := AddSection(sections, shown, ProjectsSection, projects, false);
    shown := shown + Shown(ProjectsSection, projects, false);
    sections := AddSection(sections, shown, EducationSection, education, true);
    shown := shown + Shown(EducationSection, education, true);
    sections := AddSection(sections, shown, CertificationsSection, certs, false);
    shown := shown + Shown(CertificationsSection, certs, false);
    assert [] + Shown(SkillsSection, skills, true) == Shown(SkillsSection, skills, true);
  }

  /** `generate_latex` up to the text of the `.tex` file. */
  method GenerateLatex(t: TailoredResume) returns (tex: string)
    ensures tex == ResumeTex(t.personal, t.technicalSkills, t.workExperience, t.researchExperience, t.projects,
                             t.education, t.certifications)
  {
    var name := EscapeLatex(t.personal.name.GetOr(""));
    var contact := BuildContactLine(t.personal);
    var education := BuildEducationSection(t.education);
    var skills := BuildSkillsSection(t.technicalSkills);
    var work := BuildExperienceSection(t.workExperience);
    var research := BuildExperienceSection(t.researchExperience);
    var projects := BuildProjectsSection(t.projects);
    var certs := "";
    if t.certifications != [] {
      certs := "  \\resumeItem{" + Join(EscapeAll(t.certifications), ", ") + "}";
    }
    var sections := AssembleSections(skills, work, research, projects, education, certs);
    var body := Join(sections, "\n\n");
    tex := DocumentText(name, contact, body);
  }
}
