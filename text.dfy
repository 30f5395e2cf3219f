/** The Python `str` operations the application relies on, over `seq<char>`. */
module Text {

  /** `c.lower()` for ASCII letters; every other character is left as it is. */
  function LowerChar(c: char): char {
    if 'A' <= c <= 'Z' then (c as int + 32) as char else c
  }

  /** `s.lower()`, character by character. */
  function Lower(s: string): (r: string)
    ensures |r| == |s|
    decreases |s|
  {
    if s == [] then [] else [LowerChar(s[0])] + Lower(s[1..])
  }

  /** Lowercasing works character by character. */
  lemma {:induction false} LowerAt(s: string, i: nat)
    requires i < |s|
    ensures Lower(s)[i] == LowerChar(s[i])
    decreases |s|
  {
    if i > 0 {
      LowerAt(s[1..], i - 1);
    }
  }

  lemma {:induction false} LowerAppend(a: string, b: string)
    ensures Lower(a + b) == Lower(a) + Lower(b)
    decreases |a|
  {
    if a != [] {
      LowerAppend(a[1..], b);
      assert (a + b)[1..] == a[1..] + b;
    } else {
      assert a + b == b;
    }
  }

  /** `set(k.lower() for k in terms)`. */
  function LowerSet(terms: seq<string>): set<string> {
    set k | k in terms :: Lower(k)
  }

  lemma LowerSetAppend(a: seq<string>, b: seq<string>)
    ensures LowerSet(a + b) == LowerSet(a) + LowerSet(b)
  {
    assert forall k :: k in a + b <==> k in a || k in b;
  }

  /** `c.isspace()`: the characters Python's `str.strip()` removes. */
  predicate IsSpace(c: char) {
    c == ' ' || '\t' <= c <= '\r' || '\U{1c}' <= c <= '\U{1f}' || c == '\U{85}' || c == '\U{a0}'
    || c == '\U{1680}' || '\U{2000}' <= c <= '\U{200a}' || c == '\U{2028}' || c == '\U{2029}'
    || c == '\U{202f}' || c == '\U{205f}' || c == '\U{3000}'
  }

  /** `s.startswith(p)`. */
  predicate StartsWith(s: string, p: string) {
    |p| <= |s| && s[..|p|] == p
  }

  /** `p in s`: `p` occurs in `s` as a contiguous substring. */
  predicate Contains(s: string, p: string)
    decreases |s|
  {
    StartsWith(s, p) || (s != [] && Contains(s[1..], p))
  }

  /** Text appended after `s` never removes an occurrence. */
  lemma {:induction false} ContainsExtendRight(s: string, t: string, p: string)
    requires Contains(s, p)
    ensures Contains(s + t, p)
    decreases |s|
  {
    if StartsWith(s, p) {
      assert (s + t)[..|p|] == s[..|p|];
    } else {
      ContainsExtendRight(s[1..], t, p);
      assert (s + t)[1..] == s[1..] + t;
    }
  }

  /** Text prepended before `t` never removes an occurrence. */
  lemma {:induction false} ContainsExtendLeft(s: string, t: string, p: string)
    requires Contains(t, p)
    ensures Contains(s + t, p)
    decreases |s|
  {
    if s == [] {
      assert s + t == t;
    } else {
      ContainsExtendLeft(s[1..], t, p);
      assert (s + t)[1..] == s[1..] + t;
    }
  }

  /** `s[:n]` for `n >= 0`. */
  function Take<T>(s: seq<T>, n: nat): (r: seq<T>)
    ensures |r| <= n && r <= s
    ensures |s| <= n ==> r == s
  {
    if n <= |s| then s[..n] else s
  }

  /** `s[:n]` for any integer `n`: a negative `n` counts from the end. */
  function SlicePrefix<T>(s: seq<T>, n: int): (r: seq<T>)
    ensures r <= s
    ensures n >= 0 ==> r == Take(s, n)
  {
    if n >= 0 then Take(s, n) else s[..if |s| + n >= 0 then |s| + n else 0]
  }

  /** Drops the trailing characters `drop` accepts: `s.rstrip(...)`. */
  function TrimEnd(s: string, drop: char -> bool): (r: string)
    ensures r <= s
    ensures r == [] || !drop(r[|r| - 1])
    ensures forall i :: |r| <= i < |s| ==> drop(s[i])
    decreases |s|
  {
    if s != [] && drop(s[|s| - 1]) then TrimEnd(s[..|s| - 1], drop) else s
  }

  /** `s.rstrip(c)` for one character `c`. */
  function RStripChar(s: string, c: char): (r: string)
    ensures r <= s && (r == [] || r[|r| - 1] != c)
    ensures forall i :: |r| <= i < |s| ==> s[i] == c
  {
    TrimEnd(s, x => x == c)
  }

  /** `s.strip()`: whitespace is removed from both ends, one character at a time. */
  function Strip(s: string): (r: string)
    ensures |r| <= |s|
    ensures r == [] || (!IsSpace(r[0]) && !IsSpace(r[|r| - 1]))
    decreases |s|
  {
    if s == [] then []
    else if IsSpace(s[0]) then Strip(s[1..])
    else if IsSpace(s[|s| - 1]) then Strip(s[..|s| - 1])
    else s
  }

  /** What `strip` leaves is a slice of its input. */
  lemma StripSlice(s: string)
    ensures exists i, j :: 0 <= i <= j <= |s| && Strip(s) == s[i..j]
  {
    var i, j := StripBounds(s);
  }

  /** Where the slice `strip` leaves starts and ends. */
  lemma {:induction false} StripBounds(s: string) returns (i: nat, j: nat)
    ensures i <= j <= |s| && Strip(s) == s[i..j]
    decreases |s|
  {
    if s == [] {
      i, j := 0, 0;
    } else if IsSpace(s[0]) {
      var i', j' := StripBounds(s[1..]);
      i, j := i' + 1, j' + 1;
      assert s[1..][i'..j'] == s[i..j];
    } else if IsSpace(s[|s| - 1]) {
      i, j := StripBounds(s[..|s| - 1]);
      assert s[..|s| - 1][i..j] == s[i..j];
    } else {
      i, j := 0, |s|;
    }
  }

  /** `sep.join(parts)`. */
  function Join(parts: seq<string>, sep: string): string
    decreases |parts|
  {
    if parts == [] then ""
    else if |parts| == 1 then parts[0]
    else parts[0] + sep + Join(parts[1..], sep)
  }

  /** Appending one more part, as a loop that builds `lines` and joins them at the end does. */
  lemma {:induction false} JoinSnoc(parts: seq<string>, x: string, sep: string)
    requires parts != []
    ensures Join(parts + [x], sep) == Join(parts, sep) + sep + x
    decreases |parts|
  {
    if |parts| == 1 {
    } else {
      assert (parts + [x])[1..] == parts[1..] + [x];
      JoinSnoc(parts[1..], x, sep);
    }
  }

  lemma JoinHeadExtend(a: string, rest: seq<string>, sep: string)
    requires rest != []
    ensures Join([a + rest[0]] + rest[1..], sep) == a + Join(rest, sep)
  {
    var parts := [a + rest[0]] + rest[1..];
    assert parts[1..] == rest[1..];
  }

  /** `s.split(pat)` for a non-empty `pat`: the pieces between non-overlapping
      occurrences of `pat`, scanning left to right. */
  function SplitOn(s: string, pat: string): (parts: seq<string>)
    requires pat != []
    ensures parts != []
    decreases |s|
  {
    if |s| < |pat| then [s]
    else if s[..|pat|] == pat then [""] + SplitOn(s[|pat|..], pat)
    else
      var rest := SplitOn(s[1..], pat);
      [[s[0]] + rest[0]] + rest[1..]
  }

  /** Splitting and joining back with the same separator gives the text back. */
  lemma {:induction false} JoinSplitOn(s: string, pat: string)
    requires pat != []
    ensures Join(SplitOn(s, pat), pat) == s
    decreases |s|
  {
    if |s| < |pat| {
    } else if s[..|pat|] == pat {
      JoinSplitOn(s[|pat|..], pat);
      var rest := SplitOn(s[|pat|..], pat);
      assert SplitOn(s, pat) == [""] + rest;
      assert ([""] + rest)[1..] == rest;
      assert Join([""] + rest, pat) == "" + pat + Join(rest, pat);
      assert s == pat + s[|pat|..];
    } else {
      JoinSplitOn(s[1..], pat);
      var rest := SplitOn(s[1..], pat);
      assert SplitOn(s, pat) == [[s[0]] + rest[0]] + rest[1..];
      JoinHeadExtend([s[0]], rest, pat);
      assert s == [s[0]] + s[1..];
    }
  }

  /** A piece without the separator character, the separator and the rest split into
      that piece and the pieces of the rest. */
  lemma {:induction false} SplitOnPiece(a: string, c: char, rest: string)
    requires c !in a
    ensures SplitOn(a + [c] + rest, [c]) == [a] + SplitOn(rest, [c])
    decreases |a|
  {
    var s := a + [c] + rest;
    if a == [] {
      assert s[..1] == [c] && s[1..] == rest;
    } else {
      assert s[..1] != [c] by {
        assert s[0] == a[0] && a[0] in a;
      }
      assert s[1..] == a[1..] + [c] + rest;
      SplitOnPiece(a[1..], c, rest);
      assert [s[0]] + a[1..] == a;
    }
  }

  lemma {:induction false} SplitOnAbsent(a: string, c: char)
    requires c !in a
    ensures SplitOn(a, [c]) == [a]
    decreases |a|
  {
    if |a| >= 1 {
      assert a[..1] != [c] by {
        assert a[0] in a;
      }
      SplitOnAbsent(a[1..], c);
      assert [a[0]] + a[1..] == a;
    }
  }

  /** Joining pieces that do not contain the separator character and splitting again
      gives the pieces back. */
  lemma {:induction false} SplitOnJoin(parts: seq<string>, c: char)
    requires parts != [] && forall i :: 0 <= i < |parts| ==> c !in parts[i]
    ensures SplitOn(Join(parts, [c]), [c]) == parts
    decreases |parts|
  {
    if |parts| == 1 {
      SplitOnAbsent(parts[0], c);
    } else {
      assert forall i :: 0 <= i < |parts| - 1 ==> parts[1..][i] == parts[i + 1];
      SplitOnJoin(parts[1..], c);
      assert Join(parts, [c]) == parts[0] + [c] + Join(parts[1..], [c]);
      SplitOnPiece(parts[0], c, Join(parts[1..], [c]));
      assert parts == [parts[0]] + parts[1..];
    }
  }

  /** Joining non-empty pieces gives the empty text only when there are none. */
  lemma JoinEmpty(parts: seq<string>, sep: string)
    requires forall i :: 0 <= i < |parts| ==> parts[i] != ""
    ensures Join(parts, sep) == "" <==> parts == []
  {
    if |parts| > 1 {
      assert |Join(parts, sep)| >= |parts[0]|;
    }
  }

  /** A text shorter than `p` cannot contain it. */
  lemma {:induction false} ContainsLength(s: string, p: string)
    requires Contains(s, p)
    ensures |p| <= |s|
    decreases |s|
  {
    if !StartsWith(s, p) {
      ContainsLength(s[1..], p);
    }
  }

  /** Every text contains the empty string. */
  lemma ContainsEmpty(s: string)
    ensures Contains(s, "")
  {
    assert StartsWith(s, "");
  }

  /** `s.split(pat)[0]`: a prefix of `s` with no occurrence of `pat`; without an
      occurrence the split gives `s` back alone. */
  lemma {:induction false} SplitOnFirst(s: string, pat: string)
    requires pat != []
    ensures var first := SplitOn(s, pat)[0]; first <= s && !Contains(first, pat)
    ensures !Contains(s, pat) <==> SplitOn(s, pat) == [s]
    decreases |s|
  {
    var parts := SplitOn(s, pat);
    if |s| < |pat| {
      if Contains(s, pat) {
        ContainsLength(s, pat);
      }
    } else if s[..|pat|] == pat {
      if Contains("", pat) {
        ContainsLength("", pat);
      }
      assert StartsWith(s, pat);
      assert parts != [s] by {
        assert |parts| >= 2;
      }
    } else {
      SplitOnFirst(s[1..], pat);
      var rest := SplitOn(s[1..], pat);
      var first := [s[0]] + rest[0];
      assert first <= s;
      assert !StartsWith(s, pat);
      if !Contains(s, pat) {
        assert !Contains(s[1..], pat);
        assert rest == [s[1..]];
        assert s == [s[0]] + s[1..];
      } else {
        assert Contains(s[1..], pat);
        assert rest != [s[1..]];
        if |rest| == 1 {
          JoinSplitOn(s[1..], pat);
        }
      }
    }
  }

  /** The last item of a non-empty sequence: `xs[-1]`. */
  function Last<T>(xs: seq<T>): T
    requires xs != []
  {
    xs[|xs| - 1]
  }

  /** `last` is a suffix of `s` with no occurrence of `pat`. */
  predicate FreeSuffix(last: string, s: string, pat: string) {
    |last| <= |s| && s[|s| - |last|..] == last && !Contains(last, pat)
  }

  lemma FreeSuffixOfDrop(last: string, s: string, k: nat, pat: string)
    requires k <= |s| && FreeSuffix(last, s[k..], pat)
    ensures FreeSuffix(last, s, pat)
  {
    assert s[k..][|s| - k - |last|..] == s[|s| - |last|..];
  }

  /** `s.split(pat)[-1]`: a suffix of `s` with no occurrence of `pat`. */
  lemma {:induction false} SplitOnLast(s: string, pat: string)
    requires pat != []
    ensures FreeSuffix(Last(SplitOn(s, pat)), s, pat)
    decreases |s|
  {
    if |s| < |pat| {
      SplitOnLastShort(s, pat);
    } else if s[..|pat|] == pat {
      SplitOnLast(s[|pat|..], pat);
      SplitOnLastMatch(s, pat);
    } else {
      SplitOnLast(s[1..], pat);
      SplitOnLastSkip(s, pat);
    }
  }

  lemma SplitOnLastShort(s: string, pat: string)
    requires pat != [] && |s| < |pat|
    ensures FreeSuffix(Last(SplitOn(s, pat)), s, pat)
  {
    if Contains(s, pat) {
      ContainsLength(s, pat);
    }
    assert SplitOn(s, pat) == [s];
  }

  /** A split that starts at an occurrence of `pat` ends like the split of the rest. */
  lemma SplitOnLastMatch(s: string, pat: string)
    requires pat != [] && |pat| <= |s| && s[..|pat|] == pat
    requires FreeSuffix(Last(SplitOn(s[|pat|..], pat)), s[|pat|..], pat)
    ensures FreeSuffix(Last(SplitOn(s, pat)), s, pat)
  {
    var rest := SplitOn(s[|pat|..], pat);
    assert SplitOn(s, pat) == [""] + rest;
    assert Last(SplitOn(s, pat)) == Last(rest);
    FreeSuffixOfDrop(Last(rest), s, |pat|, pat);
  }

  /** A split that does not start at an occurrence of `pat` ends like the split of
      `s[1..]`, or is `s` itself when that split has one piece. */
  lemma SplitOnLastSkip(s: string, pat: string)
    requires pat != [] && |pat| <= |s| && s[..|pat|] != pat
    requires FreeSuffix(Last(SplitOn(s[1..], pat)), s[1..], pat)
    ensures FreeSuffix(Last(SplitOn(s, pat)), s, pat)
  {
    if |SplitOn(s[1..], pat)| == 1 {
      SplitOnLastWhole(s, pat);
    } else {
      SplitOnSkipLast(s, pat);
      FreeSuffixOfDrop(Last(SplitOn(s[1..], pat)), s, 1, pat);
    }
  }

  lemma SplitOnSkipLast(s: string, pat: string)
    requires pat != [] && |pat| <= |s| && s[..|pat|] != pat && |SplitOn(s[1..], pat)| > 1
    ensures Last(SplitOn(s, pat)) == Last(SplitOn(s[1..], pat))
  {
    var rest := SplitOn(s[1..], pat);
    assert SplitOn(s, pat) == [[s[0]] + rest[0]] + rest[1..];
    LastOfNewHead([s[0]] + rest[0], rest);
  }

  /** Replacing the head of a sequence of at least two items keeps its last one. */
  lemma LastOfNewHead<T>(x: T, xs: seq<T>)
    requires |xs| > 1
    ensures Last([x] + xs[1..]) == Last(xs)
  {
  }

  /** When `s[1..]` splits into one piece and `s` does not start with `pat`, the last
      piece of `s` is all of `s`, which holds no occurrence. */
  lemma SplitOnLastWhole(s: string, pat: string)
    requires pat != [] && |pat| <= |s| && s[..|pat|] != pat && |SplitOn(s[1..], pat)| == 1
    ensures FreeSuffix(Last(SplitOn(s, pat)), s, pat)
  {
    var rest := SplitOn(s[1..], pat);
    JoinSplitOn(s[1..], pat);
    assert rest == [s[1..]];
    SplitOnFirst(s[1..], pat);
    assert !Contains(s[1..], pat);
    assert !StartsWith(s, pat);
    assert SplitOn(s, pat) == [[s[0]] + s[1..]];
    assert [s[0]] + s[1..] == s;
  }

  /** When `pat` occurs, `s` is everything up to the last occurrence, `pat`, and the
      last piece. */
  lemma SplitOnLastSplits(s: string, pat: string)
    requires pat != [] && Contains(s, pat)
    ensures var parts := SplitOn(s, pat);
      |parts| >= 2 && s == Join(parts[..|parts| - 1], pat) + pat + Last(parts)
  {
    var parts := SplitOn(s, pat);
    SplitOnFirst(s, pat);
    JoinSplitOn(s, pat);
    var init := parts[..|parts| - 1];
    assert parts == init + [Last(parts)];
    JoinSnoc(init, Last(parts), pat);
  }

  /** Splitting a non-empty text on one character it does not end with leaves a
      non-empty last piece. */
  lemma SplitOnLastNonEmpty(s: string, c: char)
    requires s != [] && s[|s| - 1] != c
    ensures Last(SplitOn(s, [c])) != []
  {
    var parts := SplitOn(s, [c]);
    if Contains(s, [c]) {
      SplitOnLastSplits(s, [c]);
    } else {
      SplitOnFirst(s, [c]);
    }
  }

  /** `s.replace(pat, rep)` for a non-empty `pat`. */
  function ReplaceAll(s: string, pat: string, rep: string): string
    requires pat != []
  {
    Join(SplitOn(s, pat), rep)
  }

  /** Replacing one character, character by character. */
  function ReplaceEach(s: string, c: char, rep: string): (r: string)
    ensures c !in s ==> r == s
    decreases |s|
  {
    if s == [] then "" else (if s[0] == c then rep else [s[0]]) + ReplaceEach(s[1..], c, rep)
  }

  lemma {:induction false} ReplaceEachAppend(a: string, b: string, c: char, rep: string)
    ensures ReplaceEach(a + b, c, rep) == ReplaceEach(a, c, rep) + ReplaceEach(b, c, rep)
    decreases |a|
  {
    if a == [] {
      assert a + b == b;
    } else {
      assert (a + b)[1..] == a[1..] + b;
      ReplaceEachAppend(a[1..], b, c, rep);
    }
  }

  /** `s.replace(c, rep)` for a one-character pattern replaces each occurrence of `c`
      independently of its neighbours. */
  lemma {:induction false} ReplaceSingleChar(s: string, c: char, rep: string)
    ensures ReplaceAll(s, [c], rep) == ReplaceEach(s, c, rep)
    decreases |s|
  {
    if s == [] {
      assert SplitOn(s, [c]) == [""];
    } else {
      ReplaceSingleChar(s[1..], c, rep);
      if s[..1] == [c] {
        ReplaceAtMatch(s, c, rep);
      } else {
        ReplaceAtOther(s, c, rep);
      }
    }
  }

  lemma ReplaceAtMatch(s: string, c: char, rep: string)
    requires s != [] && s[..1] == [c]
    requires ReplaceAll(s[1..], [c], rep) == ReplaceEach(s[1..], c, rep)
    ensures ReplaceAll(s, [c], rep) == ReplaceEach(s, c, rep)
  {
    var rest := SplitOn(s[1..], [c]);
    assert SplitOn(s, [c]) == [""] + rest;
    assert ([""] + rest)[1..] == rest;
    assert Join([""] + rest, rep) == "" + rep + Join(rest, rep);
    assert s[0] == c;
    assert ReplaceEach(s, c, rep) == rep + ReplaceEach(s[1..], c, rep);
  }

  lemma ReplaceAtOther(s: string, c: char, rep: string)
    requires s != [] && s[..1] != [c]
    requires ReplaceAll(s[1..], [c], rep) == ReplaceEach(s[1..], c, rep)
    ensures ReplaceAll(s, [c], rep) == ReplaceEach(s, c, rep)
  {
    var rest := SplitOn(s[1..], [c]);
    assert SplitOn(s, [c]) == [[s[0]] + rest[0]] + rest[1..];
    JoinHeadExtend([s[0]], rest, rep);
    assert s[0] != c;
    assert ReplaceEach(s, c, rep) == [s[0]] + ReplaceEach(s[1..], c, rep);
  }

  /** `text.split(pat, 1)` when `pat` occurs: the text before its first occurrence and
      everything after it. */
  function SplitOnce(s: string, pat: string): (r: (string, string))
    requires pat != [] && |SplitOn(s, pat)| >= 2
    ensures r.0 + pat + r.1 == s
  {
    var parts := SplitOn(s, pat);
    JoinSplitOn(s, pat);
    assert parts == [parts[0]] + parts[1..];
    (parts[0], Join(parts[1..], pat))
  }

  /** The ASCII digit for `d`. */
  function DigitChar(d: nat): char
    requires d < 10
  {
    ('0' as int + d) as char
  }

  /** `str(n)` for a non-negative integer. */
  function NatToString(n: nat): (r: string)
    ensures r != []
    ensures forall i :: 0 <= i < |r| ==> '0' <= r[i] <= '9'
    decreases n
  {
    if n < 10 then [DigitChar(n)] else NatToString(n / 10) + [DigitChar(n % 10)]
  }

  /** Python's `a <= b` on strings: lexicographic by code point. */
  predicate LexLe(a: string, b: string)
    decreases |a|
  {
    a == [] || (b != [] && (a[0] < b[0] || (a[0] == b[0] && LexLe(a[1..], b[1..]))))
  }

  lemma {:induction false} LexLeTotal(a: string, b: string)
    ensures LexLe(a, b) || LexLe(b, a)
    decreases |a|
  {
    if a != [] && b != [] && a[0] == b[0] {
      LexLeTotal(a[1..], b[1..]);
    }
  }

  lemma {:induction false} LexLeTransitive(a: string, b: string, c: string)
    requires LexLe(a, b) && LexLe(b, c)
    ensures LexLe(a, c)
    decreases |a|
  {
    if a != [] && a[0] == b[0] && b[0] == c[0] {
      LexLeTransitive(a[1..], b[1..], c[1..]);
    }
  }

  /** `str(n)` for any integer. */
  function IntToString(n: int): (r: string)
    ensures r != []
    ensures n >= 0 ==> r == NatToString(n)
    ensures n < 0 ==> r[0] == '-'
  {
    if n >= 0 then NatToString(n) else "-" + NatToString(-n)
  }

  // ------------------------------------------------------------------ quote_plus

  /** The characters `urllib.parse.quote_plus` always leaves as they are. */
  predicate UrlSafe(c: char) {
    'A' <= c <= 'Z' || 'a' <= c <= 'z' || '0' <= c <= '9' || c == '_' || c == '.' || c == '-' || c == '~'
  }

  /** The UTF-8 encoding of one character, one number per byte. */
  function Utf8(c: char): (r: seq<nat>)
    ensures 1 <= |r| <= 4
    ensures forall i :: 0 <= i < |r| ==> r[i] < 256
    ensures (c as int < 0x80) <==> |r| == 1
  {
    var n := c as int;
    if n < 0x80 then [n]
    else if n < 0x800 then [0xC0 + n / 0x40, 0x80 + n % 0x40]
    else if n < 0x1_0000 then [0xE0 + n / 0x1000, 0x80 + n / 0x40 % 0x40, 0x80 + n % 0x40]
    else [0xF0 + n / 0x4_0000, 0x80 + n / 0x1000 % 0x40, 0x80 + n / 0x40 % 0x40, 0x80 + n % 0x40]
  }

  /** An upper-case hexadecimal digit. */
  function HexDigit(d: nat): (r: char)
    requires d < 16
    ensures UrlSafe(r)
  {
    if d < 10 then DigitChar(d) else ('A' as int + d - 10) as char
  }

  /** `%XX` for each byte. */
  function PercentBytes(bytes: seq<nat>): (r: string)
    requires forall i :: 0 <= i < |bytes| ==> bytes[i] < 256
    ensures |r| == 3 * |bytes|
    ensures forall i :: 0 <= i < |r| ==> UrlSafe(r[i]) || r[i] == '%'
    decreases |bytes|
  {
    if bytes == [] then []
    else ['%', HexDigit(bytes[0] / 16), HexDigit(bytes[0] % 16)] + PercentBytes(bytes[1..])
  }

  /** How `quote_plus` writes one character: kept when always safe, `+` for a space, and
      otherwise the percent-escapes of its UTF-8 bytes. */
  function QuoteChar(c: char): string {
    if UrlSafe(c) then [c]
    else if c == ' ' then "+"
    else PercentBytes(Utf8(c))
  }

  /** The concatenation of `f` applied to each character of `s`. */
  function ConcatMap(s: string, f: char -> string): string
    decreases |s|, 1
  {
    if s == [] then [] else ConcatHead(s, f)
  }

  /** `f` of the first character, then the rest mapped. */
  function ConcatHead(s: string, f: char -> string): string
    requires s != []
    decreases |s|, 0
  {
    f(s[0]) + ConcatMap(s[1..], f)
  }

  lemma {:induction false} ConcatMapAppend(a: string, b: string, f: char -> string)
    ensures ConcatMap(a + b, f) == ConcatMap(a, f) + ConcatMap(b, f)
    decreases |a|
  {
    if a == [] {
      assert a + b == b;
    } else {
      ConcatMapAppend(a[1..], b, f);
      assert (a + b)[0] == a[0] && (a + b)[1..] == a[1..] + b;
      assert ConcatMap(a + b, f) == ConcatHead(a + b, f);
      assert ConcatMap(a, f) == ConcatHead(a, f);
    }
  }

  /** `urllib.parse.quote_plus(s)`, character by character. */
  function QuotePlus(s: string): string {
    ConcatMap(s, QuoteChar)
  }

  /** Quoting distributes over concatenation. */
  lemma QuotePlusAppend(a: string, b: string)
    ensures QuotePlus(a + b) == QuotePlus(a) + QuotePlus(b)
  {
    ConcatMapAppend(a, b, QuoteChar);
  }

  /** A quoted value holds only always-safe characters, `+` and `%`: no space, `&`, `=`,
      `?` or `#` can end the URL parameter it is placed in. */
  lemma {:induction false} QuotePlusAlphabet(s: string)
    ensures forall i :: 0 <= i < |QuotePlus(s)| ==> UrlSafe(QuotePlus(s)[i]) || QuotePlus(s)[i] in "+%"
    decreases |s|
  {
    if s != [] {
      QuotePlusAlphabet(s[1..]);
      var head := QuoteChar(s[0]);
      var rest := QuotePlus(s[1..]);
      assert QuotePlus(s) == ConcatHead(s, QuoteChar) == head + rest;
      forall i | 0 <= i < |head + rest|
        ensures UrlSafe((head + rest)[i]) || (head + rest)[i] in "+%"
      {
        if i >= |head| {
          assert (head + rest)[i] == rest[i - |head|];
        }
      }
    }
  }

  /** Text made only of always-safe characters is left unchanged. */
  lemma {:induction false} QuotePlusKeepsSafe(s: string)
    requires forall i :: 0 <= i < |s| ==> UrlSafe(s[i])
    ensures QuotePlus(s) == s
    decreases |s|
  {
    if s != [] {
      QuotePlusKeepsSafe(s[1..]);
      assert QuotePlus(s) == ConcatHead(s, QuoteChar) == QuoteChar(s[0]) + QuotePlus(s[1..]);
      assert s == [s[0]] + s[1..];
    }
  }

  /** Every space becomes `+`, and nothing else does: `+` itself is escaped. */
  lemma QuotePlusSpace(c: char)
    ensures QuoteChar(c) == "+" <==> c == ' '
  {
    if c != ' ' && !UrlSafe(c) {
      assert QuoteChar(c)[0] == '%';
    }
  }
}
