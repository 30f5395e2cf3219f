/** Sequence shapes shared by the loops of the application: a filtering
    comprehension and an append-inside-a-loop-with-`continue`. */
module Seqs {
  import opened Wrappers
  import opened Text

  /** `[x for x in s if p(x)]`. */
  function Filter<A>(s: seq<A>, p: A -> bool): (r: seq<A>)
    ensures |r| <= |s|
    decreases |s|
  {
    if s == [] then []
    else
      var n := |s| - 1;
      Filter(s[..n], p) + (if p(s[n]) then [s[n]] else [])
  }

  /** Exactly the elements of `s` that satisfy `p` survive. */
  lemma {:induction false} FilterMember<A>(s: seq<A>, p: A -> bool, x: A)
    ensures x in Filter(s, p) <==> x in s && p(x)
    decreases |s|
  {
    if s != [] {
      var n := |s| - 1;
      FilterMember(s[..n], p, x);
      assert s == s[..n] + [s[n]];
    }
  }

  lemma FilterAppend<A>(s: seq<A>, t: seq<A>, p: A -> bool)
    ensures Filter(s + t, p) == Filter(s, p) + Filter(t, p)
    decreases |t|
  {
    if t == [] {
      assert s + t == s;
    } else {
      var n := |t| - 1;
      assert (s + t)[..|s + t| - 1] == s + t[..n];
      FilterAppend(s, t[..n], p);
    }
  }

  /** The values `f` keeps, in order; `f` also sees each element's position.
      This is a `for i, x in enumerate(s)` loop that appends or `continue`s. */
  function Pick<A, B>(s: seq<A>, f: (nat, A) -> Option<B>): (r: seq<B>)
    ensures |r| <= |s|
    decreases |s|, 1
  {
    if s == [] then [] else PickLast(s, f)
  }

  /** The picks before the last element, then the last element's pick, if any. */
  function PickLast<A, B>(s: seq<A>, f: (nat, A) -> Option<B>): (r: seq<B>)
    requires s != []
    ensures |r| <= |s|
    decreases |s|, 0
  {
    var n := |s| - 1;
    var prev := Pick(s[..n], f);
    match f(n, s[n])
    case Some(b) => prev + [b]
    case None => prev
  }

  /** One loop step: the picks of a longer prefix extend those of the shorter one. */
  lemma PickStep<A, B>(s: seq<A>, f: (nat, A) -> Option<B>, j: nat)
    requires j < |s|
    ensures Pick(s[..j + 1], f) ==
              Pick(s[..j], f) + (if f(j, s[j]).Some? then [f(j, s[j]).value] else [])
  {
    assert s[..j + 1][..j] == s[..j];
    assert Pick(s[..j + 1], f) == PickLast(s[..j + 1], f);
  }

  /** What is picked from a prefix is a prefix of what is picked from the whole. */
  lemma {:induction false} PickPrefix<A, B>(s: seq<A>, f: (nat, A) -> Option<B>, m: nat)
    requires m <= |s|
    ensures Pick(s[..m], f) <= Pick(s, f)
    decreases |s| - m
  {
    if m == |s| {
      assert s[..m] == s;
    } else {
      var n := |s| - 1;
      PickPrefix(s[..n], f, m);
      assert s[..n][..m] == s[..m];
    }
  }

  /** Element `j`, when kept, lands right after everything kept before it. */
  lemma PickAt<A, B>(s: seq<A>, f: (nat, A) -> Option<B>, j: nat)
    requires j < |s| && f(j, s[j]).Some?
    ensures |Pick(s[..j], f)| < |Pick(s, f)|
    ensures Pick(s, f)[|Pick(s[..j], f)|] == f(j, s[j]).value
  {
    PickStep(s, f, j);
    PickPrefix(s, f, j + 1);
  }

  /** Element `j`, when dropped, adds nothing. */
  lemma PickSkip<A, B>(s: seq<A>, f: (nat, A) -> Option<B>, j: nat)
    requires j < |s| && f(j, s[j]).None?
    ensures Pick(s[..j + 1], f) == Pick(s[..j], f)
  {
    PickStep(s, f, j);
  }

  /** Only the values `f` takes on the elements of `s` matter. */
  lemma {:induction false} PickCongruent<A, B>(s: seq<A>, f: (nat, A) -> Option<B>, g: (nat, A) -> Option<B>)
    requires forall i :: 0 <= i < |s| ==> f(i, s[i]) == g(i, s[i])
    ensures Pick(s, f) == Pick(s, g)
    decreases |s|
  {
    if s != [] {
      var n := |s| - 1;
      assert forall i :: 0 <= i < n ==> s[..n][i] == s[i];
      PickCongruent(s[..n], f, g);
    }
  }

  /** A loop that picks from `s` until `cap` values are kept, stopped after `n` elements,
      has kept the first `cap` picks: it stopped at the cap, or ran through `s`. */
  lemma PickCapped<A, B>(s: seq<A>, f: (nat, A) -> Option<B>, n: nat, cap: nat)
    requires n <= |s| && |Pick(s[..n], f)| <= cap
    requires n < |s| ==> |Pick(s[..n], f)| >= cap
    ensures Pick(s[..n], f) == Take(Pick(s, f), cap)
  {
    if n < |s| {
      PickPrefix(s, f, n);
    } else {
      assert s[..n] == s;
    }
  }
}
