// What can be read off the syntax of a pattern, proved for every pattern.

module RegexFacts {
  import opened Text
  import opened Regex

  // Some character class of `r` contains `c`.
  predicate Consumes(r: Regex, c: char) {
    match r
    case One(cls) => Has(cls, c)
    case Cat(a, b) => Consumes(a, c) || Consumes(b, c)
    case Either(a, b) => Consumes(a, c) || Consumes(b, c)
    case Repeat(b, _, _, _) => Consumes(b, c)
    case _ => false
  }

  // No match of `r` has fewer characters.
  function MinLen(r: Regex): nat {
    match r
    case One(_) => 1
    case Cat(a, b) => MinLen(a) + MinLen(b)
    case Either(a, b) => if MinLen(a) <= MinLen(b) then MinLen(a) else MinLen(b)
    case Repeat(b, lo, _, _) => lo * MinLen(b)
    case _ => 0
  }

  // A non-empty match of `r` may start with `c`.
  predicate MayStart(r: Regex, c: char) {
    match r
    case One(cls) => Has(cls, c)
    case Cat(a, b) => MayStart(a, c) || (MinLen(a) == 0 && MayStart(b, c))
    case Either(a, b) => MayStart(a, c) || MayStart(b, c)
    case Repeat(b, _, _, _) => MayStart(b, c)
    case _ => false
  }

  // A non-empty match of `r` may end with `c`.
  predicate MayEnd(r: Regex, c: char) {
    match r
    case One(cls) => Has(cls, c)
    case Cat(a, b) => MayEnd(b, c) || (MinLen(b) == 0 && MayEnd(a, c))
    case Either(a, b) => MayEnd(a, c) || MayEnd(b, c)
    case Repeat(b, _, _, _) => MayEnd(b, c)
    case _ => false
  }

  // Every match of `r` contains `c`.
  predicate Needs(r: Regex, c: char) {
    match r
    case One(cls) => cls == Lit(c)
    case Cat(a, b) => Needs(a, c) || Needs(b, c)
    case Either(a, b) => Needs(a, c) && Needs(b, c)
    case Repeat(b, lo, _, _) => lo > 0 && Needs(b, c)
    case _ => false
  }

  // `r` asks nothing of the characters around the match.
  predicate Blind(r: Regex) {
    match r
    case One(_) => true
    case Cat(a, b) => Blind(a) && Blind(b)
    case Either(a, b) => Blind(a) && Blind(b)
    case Repeat(b, _, _, _) => Blind(b)
    case _ => false
  }

  // `r` may look at neighbouring digits, but not at word boundaries.
  predicate NoWordEdge(r: Regex) {
    match r
    case Cat(a, b) => NoWordEdge(a) && NoWordEdge(b)
    case Either(a, b) => NoWordEdge(a) && NoWordEdge(b)
    case Repeat(b, _, _, _) => NoWordEdge(b)
    case WordEdge => false
    case _ => true
  }

  // A character that no match of `r` can contain and that looks, from the other
  // side, like the edge of the text.
  predicate Barrier(r: Regex, c: char) { !Consumes(r, c) && !IsWord(c) }

  lemma {:induction false} MatchLength(r: Regex, x: Ctx, s: string, n: nat)
    requires Matches(r, x, s, n)
    ensures MinLen(r) <= n
    decreases |s|, r
  {
    hide Matches;
    var m := Parse(r, x, s, n);
    match r
    case One(_) =>
    case Cat(a, b) =>
      MatchLength(a, x, s, m);
      MatchLength(b, After(x, s, m), s[m..], n - m);
    case Either(a, b) =>
      if Matches(a, x, s, n) { MatchLength(a, x, s, n); } else { MatchLength(b, x, s, n); }
    case Repeat(b, lo, hi, _) =>
      if !(lo == 0 && n == 0) {
        MatchLength(b, x, s, m);
        MatchLength(Again(r), After(x, s, m), s[m..], n - m);
        if lo > 0 {
          assert lo * MinLen(b) == MinLen(b) + (lo - 1) * MinLen(b);
        }
      }
    case _ =>
  }

  lemma {:induction false} MatchAlphabet(r: Regex, x: Ctx, s: string, n: nat, k: nat)
    requires Matches(r, x, s, n) && k < n
    ensures Consumes(r, s[k])
    decreases |s|, r
  {
    hide Matches;
    var m := Parse(r, x, s, n);
    match r
    case One(_) =>
    case Cat(a, b) =>
      if k < m { MatchAlphabet(a, x, s, m, k); } else { MatchAlphabet(b, After(x, s, m), s[m..], n - m, k - m); }
    case Either(a, b) =>
      if Matches(a, x, s, n) { MatchAlphabet(a, x, s, n, k); } else { MatchAlphabet(b, x, s, n, k); }
    case Repeat(b, lo, hi, _) =>
      if k < m { MatchAlphabet(b, x, s, m, k); } else { MatchAlphabet(Again(r), After(x, s, m), s[m..], n - m, k - m); }
    case _ =>
  }

  lemma {:induction false} MatchStart(r: Regex, x: Ctx, s: string, n: nat)
    requires Matches(r, x, s, n) && n > 0
    ensures MayStart(r, s[0])
    decreases |s|, r
  {
    hide Matches;
    var m := Parse(r, x, s, n);
    match r
    case One(_) =>
    case Cat(a, b) =>
      MatchLength(a, x, s, m);
      if m > 0 { MatchStart(a, x, s, m); } else { MatchStart(b, After(x, s, m), s[m..], n - m); }
    case Either(a, b) =>
      if Matches(a, x, s, n) { MatchStart(a, x, s, n); } else { MatchStart(b, x, s, n); }
    case Repeat(b, lo, hi, _) =>
      MatchStart(b, x, s, m);
    case _ =>
  }

  lemma {:induction false} MatchEnd(r: Regex, x: Ctx, s: string, n: nat)
    requires Matches(r, x, s, n) && n > 0
    ensures MayEnd(r, s[n - 1])
    decreases |s|, r
  {
    hide Matches;
    var m := Parse(r, x, s, n);
    match r
    case One(_) =>
    case Cat(a, b) =>
      MatchLength(b, After(x, s, m), s[m..], n - m);
      if m < n {
        MatchEnd(b, After(x, s, m), s[m..], n - m);
        assert s[m..][n - m - 1] == s[n - 1];
      } else {
        MatchEnd(a, x, s, m);
      }
    case Either(a, b) =>
      if Matches(a, x, s, n) { MatchEnd(a, x, s, n); } else { MatchEnd(b, x, s, n); }
    case Repeat(b, lo, hi, _) =>
      if m < n {
        MatchEnd(Again(r), After(x, s, m), s[m..], n - m);
        assert s[m..][n - m - 1] == s[n - 1];
      } else {
        MatchEnd(b, x, s, m);
      }
    case _ =>
  }

  lemma {:induction false} MatchNeeds(r: Regex, x: Ctx, s: string, n: nat, c: char)
    requires Matches(r, x, s, n) && Needs(r, c)
    ensures exists k :: 0 <= k < n && s[k] == c
    decreases |s|, r
  {
    hide Matches;
    var m := Parse(r, x, s, n);
    match r
    case One(_) => assert s[0] == c;
    case Cat(a, b) =>
      if Needs(a, c) {
        MatchNeeds(a, x, s, m, c);
      } else {
        MatchNeeds(b, After(x, s, m), s[m..], n - m, c);
        var k :| 0 <= k < n - m && s[m..][k] == c;
        assert s[m + k] == c;
      }
    case Either(a, b) =>
      if Matches(a, x, s, n) { MatchNeeds(a, x, s, n, c); } else { MatchNeeds(b, x, s, n, c); }
    case Repeat(b, lo, hi, _) =>
      MatchNeeds(b, x, s, m, c);
    case _ =>
  }

  // A blind pattern matches the same stretch whatever surrounds it.
  lemma {:induction false} BlindMatch(r: Regex, x: Ctx, y: Ctx, s: string, t: string, n: nat)
    requires Blind(r) && Matches(r, x, s, n)
    requires n <= |t| && s[..n] == t[..n]
    ensures Matches(r, y, t, n)
    decreases |s|, r
  {
    hide Matches;
    var m := Parse(r, x, s, n);
    CutEqual(s, t, m, n);
    match r
    case One(_) =>
      assert s[..n][0] == t[..n][0];
      LeafMatches(r, y, t, n);
    case Cat(a, b) =>
      BlindMatch(a, x, y, s, t, m);
      BlindMatch(b, After(x, s, m), After(y, t, m), s[m..], t[m..], n - m);
      CatMatches(r, y, t, m, n);
    case Either(a, b) =>
      if Matches(a, x, s, n) { BlindMatch(a, x, y, s, t, n); } else { BlindMatch(b, x, y, s, t, n); }
      LeafMatches(r, y, t, n);
    case Repeat(b, lo, hi, _) =>
      if lo == 0 && n == 0 {
        LeafMatches(r, y, t, n);
      } else {
        BlindMatch(b, x, y, s, t, m);
        BlindMatch(Again(r), After(x, s, m), After(y, t, m), s[m..], t[m..], n - m);
        RepeatMatches(r, y, t, m, n);
      }
    case _ =>
  }

  lemma CutEqual(s: string, t: string, m: nat, n: nat)
    requires m <= n <= |s| && n <= |t| && s[..n] == t[..n]
    ensures s[..m] == t[..m] && s[m..][..n - m] == t[m..][..n - m]
  {
    assert s[..m] == s[..n][..m] && t[..m] == t[..n][..m];
    assert s[m..][..n - m] == s[..n][m..] && t[m..][..n - m] == t[..n][m..];
  }

  // What follows a text changes a match inside it only at the very end.
  lemma {:induction false} SamePrefix(r: Regex, x: Ctx, g: string, z: string, n: nat)
    requires n <= |g|
    requires n < |g| || !WordNext(z)
    ensures Matches(r, x, g + z, n) <==> Matches(r, x, g, n)
    decreases |g|, r
  {
    match r
    case One(_) =>
    case Cat(a, b) =>
      forall m: nat | m <= n
        ensures Matches(a, x, g + z, m) <==> Matches(a, x, g, m)
        ensures Matches(b, After(x, g + z, m), (g + z)[m..], n - m) <==> Matches(b, After(x, g, m), g[m..], n - m)
      {
        SamePrefix(a, x, g, z, m);
        assert (g + z)[m..] == g[m..] + z;
        SamePrefix(b, After(x, g, m), g[m..], z, n - m);
      }
    case Either(a, b) =>
      SamePrefix(a, x, g, z, n);
      SamePrefix(b, x, g, z, n);
    case Repeat(b, lo, hi, _) =>
      forall m: nat | 0 < m <= n
        ensures Matches(b, x, g + z, m) <==> Matches(b, x, g, m)
        ensures Matches(Again(r), After(x, g + z, m), (g + z)[m..], n - m) <==>
          Matches(Again(r), After(x, g, m), g[m..], n - m)
      {
        SamePrefix(b, x, g, z, m);
        assert (g + z)[m..] == g[m..] + z;
        SamePrefix(Again(r), After(x, g, m), g[m..], z, n - m);
      }
    case _ =>
  }

  // A barrier cuts the matcher off exactly as the end of the text would: the same
  // lengths, tried in the same order.
  lemma {:induction false} BarrierEnds(r: Regex, x: Ctx, a: string, z: string)
    requires z != [] ==> Barrier(r, z[0])
    ensures Ends(r, x, a + z) == Ends(r, x, a)
    decreases 2 * |a| + 1, r, 0
  {
    match r
    case One(_) =>
    case Cat(f, g) =>
      BarrierEnds(f, x, a, z);
      BarrierChain(Ends(f, x, a), g, x, a, z);
    case Either(f, g) =>
      BarrierEnds(f, x, a, z);
      BarrierEnds(g, x, a, z);
    case Repeat(b, lo, hi, _) =>
      BarrierEnds(b, x, a, z);
      BarrierIterate(Ends(b, x, a), Again(r), x, a, z);
    case _ =>
  }

  lemma {:induction false} BarrierChain(ns: seq<nat>, b: Regex, x: Ctx, a: string, z: string)
    requires Within(ns, |a|)
    requires z != [] ==> Barrier(b, z[0])
    ensures Chain(ns, b, x, a + z) == Chain(ns, b, x, a)
    decreases 2 * |a| + 1, b, 1 + |ns|
  {
    if ns != [] {
      assert (a + z)[ns[0]..] == a[ns[0]..] + z;
      BarrierEnds(b, After(x, a, ns[0]), a[ns[0]..], z);
      BarrierChain(ns[1..], b, x, a, z);
    }
  }

  lemma {:induction false} BarrierIterate(ns: seq<nat>, again: Regex, x: Ctx, a: string, z: string)
    requires Within(ns, |a|)
    requires z != [] ==> Barrier(again, z[0])
    ensures Iterate(ns, again, x, a + z) == Iterate(ns, again, x, a)
    decreases 2 * |a|, |ns|
  {
    if ns != [] {
      if ns[0] > 0 {
        assert (a + z)[ns[0]..] == a[ns[0]..] + z;
        BarrierEnds(again, After(x, a, ns[0]), a[ns[0]..], z);
      }
      BarrierIterate(ns[1..], again, x, a, z);
    }
  }

  // A repeated single class: the lengths in range whose characters are all in it.
  lemma {:induction false} ClassRun(r: Regex, x: Ctx, s: string, n: nat)
    requires r.Repeat? && r.body.One?
    ensures Matches(r, x, s, n) <==>
      && r.lo <= n <= |s| && (r.hi.Some? ==> n <= r.hi.value)
      && forall k :: 0 <= k < n ==> Has(r.body.cls, s[k])
    decreases n
  {
    if 0 < n <= |s| {
      ClassRun(Again(r), After(x, s, 1), s[1..], n - 1);
      assert forall m: nat :: Matches(r.body, x, s, m) ==> m == 1;
      if Matches(r.body, x, s, 1) && Matches(Again(r), After(x, s, 1), s[1..], n - 1) {
        assert forall k :: 0 < k < n ==> s[k] == s[1..][k - 1];
      }
    }
  }
}
