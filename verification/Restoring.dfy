// Restoring the references: when it undoes shielding, and what it makes of a redacted text,
// for all texts, also those that spell placeholders themselves.

module Restoring {
  import opened Text
  import opened Regex
  import opened RegexFacts
  import opened Scan
  import opened Patterns
  import opened PatternFacts
  import opened Pii
  import opened Survival
  import opened RefScan
  import opened Tags

  /* ---- one replacement ---- */

  lemma ReplaceStep(s: string, from: string, to: string)
    requires from != [] && s != []
    requires |s| < |from| || s[..|from|] != from
    ensures Replace(s, from, to) == [s[0]] + Replace(s[1..], from, to)
  {
  }

  // No occurrence starts in a stretch without the first character of the pattern.
  lemma {:induction false} ReplaceSkip(a: string, b: string, from: string, to: string)
    requires from != [] && Lacks(a, from[0])
    ensures Replace(a + b, from, to) == a + Replace(b, from, to)
    decreases |a|
  {
    if a == [] {
      assert a + b == b;
    } else {
      assert (a + b)[1..] == a[1..] + b;
      if |a + b| >= |from| { assert (a + b)[..|from|][0] == a[0]; }
      ReplaceStep(a + b, from, to);
      ReplaceSkip(a[1..], b, from, to);
      assert a == [a[0]] + a[1..];
    }
  }

  lemma ReplaceHere(from: string, b: string, to: string)
    requires from != []
    ensures Replace(from + b, from, to) == to + Replace(b, from, to)
  {
    assert (from + b)[..|from|] == from && (from + b)[|from|..] == b;
  }

  lemma TagLacks(k: nat)
    ensures Lacks(Tag(k), NUL)
  {
  }

  // A placeholder is not the beginning of another placeholder.
  lemma OtherPlaceholder(j: nat, k: nat, y: string)
    requires j != k
    ensures var s := Placeholder(j) + y; |s| < |Placeholder(k)| || s[..|Placeholder(k)|] != Placeholder(k)
  {
    var s, from := Placeholder(j) + y, Placeholder(k);
    TagLacks(j);
    TagLacks(k);
    var u, v := |Tag(j)|, |Tag(k)|;
    if |s| >= |from| && s[..|from|] == from {
      assert forall i :: 0 <= i < |from| ==> s[i] == from[i];
      assert s[1 + u] == NUL && from[1 + v] == NUL;
      assert forall i :: 0 <= i < u ==> s[1 + i] == Tag(j)[i];
      assert forall i :: 0 <= i < v ==> from[1 + i] == Tag(k)[i];
      if u != v { assert false; }
      assert Tag(j) == s[1..1 + u] && Tag(k) == from[1..1 + v];
      assert Decimal(j) == Tag(j)[3..] && Decimal(k) == Tag(k)[3..];
      DecimalInjective(j, k);
      assert false;
    }
  }

  // A different placeholder is passed over, unless the text behind it starts with 'R'.
  lemma PassPlaceholder(j: nat, k: nat, y: string, to: string)
    requires j != k && (y == [] || y[0] != 'R')
    ensures Replace(Placeholder(j) + y, Placeholder(k), to) == Placeholder(j) + Replace(y, Placeholder(k), to)
  {
    hide Replace, Decimal;
    var from, z := Placeholder(k), [NUL] + y;
    OtherPlaceholder(j, k, y);
    ReplaceStep(Placeholder(j) + y, from, to);
    assert (Placeholder(j) + y)[1..] == Tag(j) + z;
    TagLacks(j);
    ReplaceSkip(Tag(j), z, from, to);
    assert from[1] == 'R';
    if |z| >= |from| { assert z[..|from|][1] == z[1]; }
    ReplaceStep(z, from, to);
    assert z[1..] == y;
  }

  lemma PlaceholderHead(k: nat)
    ensures Placeholder(k) != [] && Placeholder(k)[0] == NUL
  {
  }

  lemma Assoc(a: string, b: string, c: string)
    ensures a + b + c == a + (b + c)
  {
  }

  lemma ReplaceEmpty(from: string, to: string)
    requires from != []
    ensures Replace("", from, to) == ""
  {
  }

  lemma UnshieldStep(text: string, saved: seq<string>, k: nat)
    requires k < |saved|
    ensures Unshielded(text, saved, k) == Unshielded(Replace(text, Placeholder(k), saved[k]), saved, k + 1)
  {
  }

  /* ---- spelling a placeholder ---- */

  predicate OccursAt(a: string, s: string, k: nat) { k + |a| <= |s| && s[k..k + |a|] == a }

  predicate Occurs(a: string, s: string) { exists k: nat :: k <= |s| && OccursAt(a, s, k) }

  // None of the first `n` placeholders is spelled out.
  predicate SpellsNone(s: string, n: nat) { forall i: nat :: i < n ==> !Occurs(Placeholder(i), s) }

  // The text spells one of the placeholders that its own references get.
  predicate Spells(text: string) { !SpellsNone(text, |Hits(Scanned(BusinessRef, text))|) }

  // Word characters and then NUL.
  predicate Closing(w: string) {
    w != [] && w[|w| - 1] == NUL && forall k :: 0 <= k < |w| - 1 ==> IsWord(w[k])
  }

  lemma PlaceholderShape(i: nat)
    ensures var p := Placeholder(i); |p| >= 6 && p[0] == NUL && p[1] == 'R' && Closing(p[1..])
  {
  }

  // What can stand for a placeholder: no NUL, and something that is no word character.
  predicate Sealed(h: string) { Lacks(h, NUL) && exists k :: 0 <= k < |h| && !IsWord(h[k]) }

  lemma SealedNotIn(h: string, y: string, w: string)
    requires Sealed(h) && Closing(w)
    ensures !(w <= h + y)
  {
    var k :| 0 <= k < |h| && !IsWord(h[k]);
    var i := if |w| <= |h| then |w| - 1 else k;
    assert w[i] != h[i] == (h + y)[i];
  }

  // Word characters up to a NUL are in the text before a replacement as they are after it.
  lemma {:induction false} HeadKept(t: string, j: nat, h: string, w: string)
    requires Sealed(h) && Closing(w) && w <= Replace(t, Placeholder(j), h)
    ensures w <= t
    decreases |t|
  {
    var from := Placeholder(j);
    PlaceholderShape(j);
    hide Placeholder, Closing, Sealed, Occurs;
    if |t| >= |from| && t[..|from|] == from {
      SealedNotIn(h, Replace(t[|from|..], from, h), w);
    } else if |t| >= |from| {
      assert w[0] == t[0] by { ClosingHead(w); }
      if |w| > 1 {
        ClosingTail(w);
        HeadKept(t[1..], j, h, w[1..]);
        assert w == [w[0]] + w[1..] && t == [t[0]] + t[1..];
      } else {
        ClosingHead(w);
        assert w == [t[0]];
      }
    }
  }

  lemma ClosingHead(w: string)
    requires Closing(w)
    ensures w != []
  {
  }

  lemma ClosingTail(w: string)
    requires Closing(w) && |w| > 1
    ensures Closing(w[1..])
  {
  }

  // A replacement leaves none of its placeholder, and spells no other that was not there.
  lemma {:induction false} NothingCreated(s: string, i: nat, j: nat, h: string, k: nat)
    requires Sealed(h) && OccursAt(Placeholder(i), Replace(s, Placeholder(j), h), k)
    ensures i != j && Occurs(Placeholder(i), s)
    decreases |s|
  {
    var from, p := Placeholder(j), Placeholder(i);
    PlaceholderShape(i);
    PlaceholderShape(j);
    hide Placeholder, Closing, Occurs;
    if |s| < |from| {
      OccursHere(p, s, k);
      assert i == j ==> |p| <= |s|;
    } else if s[..|from|] == from {
      var r := Replace(s[|from|..], from, h);
      hide Replace;
      NotInside(p, h, r, k);
      NothingCreated(s[|from|..], i, j, h, k - |h|);
      OccursWithin(p, s, |from|);
    } else {
      ReplaceStep(s, from, h);
      hide Replace;
      if k > 0 {
        OccursUnshift(p, s[0], Replace(s[1..], from, h), k - 1);
        NothingCreated(s[1..], i, j, h, k - 1);
        OccursWithin(p, s, 1);
      } else {
        AtFront(s, i, j, h);
      }
    }
  }

  // The first NUL of an occurrence is not in a sealed text.
  lemma NotInside(p: string, h: string, r: string, k: nat)
    requires p != [] && p[0] == NUL && Sealed(h) && OccursAt(p, h + r, k)
    ensures k >= |h| && OccursAt(p, r, k - |h|)
  {
    assert (h + r)[k] == p[0];
    assert (h + r)[k..k + |p|] == r[k - |h|..k - |h| + |p|];
  }

  lemma OccursUnshift(p: string, c: char, r: string, k: nat)
    requires OccursAt(p, [c] + r, k + 1)
    ensures OccursAt(p, r, k)
  {
    assert ([c] + r)[k + 1..k + 1 + |p|] == r[k..k + |p|];
  }

  // An occurrence that starts with a character that stays was there before.
  lemma AtFront(s: string, i: nat, j: nat, h: string)
    requires Sealed(h) && s != [] && Placeholder(j) != []
    requires |s| < |Placeholder(j)| || s[..|Placeholder(j)|] != Placeholder(j)
    requires OccursAt(Placeholder(i), [s[0]] + Replace(s[1..], Placeholder(j), h), 0)
    ensures i != j && Occurs(Placeholder(i), s)
  {
    var p, r := Placeholder(i), Replace(s[1..], Placeholder(j), h);
    PlaceholderShape(i);
    hide Placeholder, Closing, Occurs, Replace;
    assert ([s[0]] + r)[..|p|] == p && p[0] == s[0] && p[1..] <= r;
    HeadKept(s[1..], j, h, p[1..]);
    assert s == [s[0]] + s[1..] && p == [p[0]] + p[1..] && p <= s;
    OccursHere(p, s, 0);
  }

  lemma OccursHere(a: string, s: string, k: nat)
    requires OccursAt(a, s, k)
    ensures Occurs(a, s)
  {
  }

  // What occurs further on occurs.
  lemma OccursWithin(a: string, s: string, d: nat)
    requires d <= |s| && Occurs(a, s[d..])
    ensures Occurs(a, s)
  {
    var k: nat :| k <= |s[d..]| && OccursAt(a, s[d..], k);
    assert s[d + k..d + k + |a|] == s[d..][k..k + |a|];
    OccursHere(a, s, d + k);
  }

  // So the restored text spells none of the placeholders that were replaced.
  lemma {:induction false} RestoredSpellsNone(s: string, saved: seq<string>, k: nat)
    requires k <= |saved| && SpellsNone(s, k) && forall i :: 0 <= i < |saved| ==> Sealed(saved[i])
    ensures SpellsNone(Unshielded(s, saved, k), |saved|)
    decreases |saved| - k
  {
    hide Replace, Placeholder, Sealed, Occurs;
    if k < |saved| {
      PlaceholderHead(k);
      var t := Replace(s, Placeholder(k), saved[k]);
      forall i: nat | i < k + 1 ensures !Occurs(Placeholder(i), t) {
        if Occurs(Placeholder(i), t) { StillSpelled(s, i, k, saved[k]); }
      }
      RestoredSpellsNone(t, saved, k + 1);
    }
  }

  lemma StillSpelled(s: string, i: nat, j: nat, h: string)
    requires Sealed(h) && Occurs(Placeholder(i), Replace(s, Placeholder(j), h))
    ensures i != j && Occurs(Placeholder(i), s)
  {
    hide Replace, Placeholder, Sealed;
    PlaceholderHead(j);
    var t := Replace(s, Placeholder(j), h);
    var k: nat :| k <= |t| && OccursAt(Placeholder(i), t, k);
    NothingCreated(s, i, j, h, k);
  }

  /* ---- spelling inside gaps ---- */

  predicate AllSealed(p: Parts) { p.More? ==> Sealed(p.hit) && AllSealed(p.rest) }

  predicate InGaps(p: Parts, a: string) { Occurs(a, p.gap) || (p.More? && InGaps(p.rest, a)) }

  // A placeholder lies to one side of a sealed text.
  lemma NoStraddle(g: string, h: string, w: string, i: nat, k: nat)
    requires Sealed(h) && OccursAt(Placeholder(i), g + h + w, k)
    ensures k + |Placeholder(i)| <= |g| || k >= |g| + |h|
  {
    var p, s := Placeholder(i), g + h + w;
    PlaceholderShape(i);
    hide Placeholder;
    var e :| 0 <= e < |h| && !IsWord(h[e]);
    var last := k + |p| - 1;
    assert s[k] == p[0] && s[last] == p[|p| - 1] == p[1..][|p| - 2];
    assert forall j :: 0 <= j < |h| ==> s[|g| + j] == h[j];
    assert !(k < |g| + e < last);
  }

  lemma SideOf(g: string, h: string, w: string, a: string, k: nat)
    requires OccursAt(a, g + h + w, k) && (k + |a| <= |g| || k >= |g| + |h|)
    ensures Occurs(a, g) || Occurs(a, w)
  {
    var s := g + h + w;
    if k + |a| <= |g| {
      assert g[k..k + |a|] == s[k..k + |a|];
      OccursHere(a, g, k);
    } else {
      var d := |g| + |h|;
      assert w[k - d..k - d + |a|] == s[k..k + |a|];
      OccursHere(a, w, k - d);
    }
  }

  lemma OccursBefore(a: string, g: string, w: string)
    requires Occurs(a, g)
    ensures Occurs(a, g + w)
  {
    var k: nat :| k <= |g| && OccursAt(a, g, k);
    assert (g + w)[k..k + |a|] == g[k..k + |a|];
    OccursHere(a, g + w, k);
  }

  lemma OccursBehind(a: string, g: string, w: string)
    requires Occurs(a, w)
    ensures Occurs(a, g + w)
  {
    assert (g + w)[|g|..] == w;
    OccursWithin(a, g + w, |g|);
  }

  lemma {:induction false} GapsAreInside(p: Parts, a: string)
    requires InGaps(p, a)
    ensures Occurs(a, Whole(p))
    decreases p
  {
    hide Occurs;
    match p
    case Last(_) =>
    case More(g, h, rest) =>
      if Occurs(a, g) {
        OccursBefore(a, g, h + Whole(rest));
        Assoc(g, h, Whole(rest));
      } else {
        GapsAreInside(rest, a);
        OccursBehind(a, g + h, Whole(rest));
      }
  }

  // Between sealed texts, placeholders occur in the gaps only.
  lemma {:induction false} OnlyInGaps(p: Parts, i: nat)
    requires AllSealed(p) && Occurs(Placeholder(i), Whole(p))
    ensures InGaps(p, Placeholder(i))
    decreases p
  {
    hide Placeholder, Sealed, Occurs;
    if p.More? {
      var k := Spot(Placeholder(i), Whole(p));
      NoStraddle(p.gap, p.hit, Whole(p.rest), i, k);
      SideOf(p.gap, p.hit, Whole(p.rest), Placeholder(i), k);
      if !Occurs(Placeholder(i), p.gap) { OnlyInGaps(p.rest, i); }
    }
  }

  lemma Spot(a: string, s: string) returns (k: nat)
    requires Occurs(a, s)
    ensures OccursAt(a, s, k)
  {
    k :| k <= |s| && OccursAt(a, s, k);
  }

  function Remasked(p: Parts): Parts {
    match p case Last(g) => p case More(g, h, rest) => More(g, MASK, Remasked(rest))
  }

  lemma {:induction p} RemaskedFacts(p: Parts, a: string)
    ensures Whole(Remasked(p)) == Masked(p) && (InGaps(Remasked(p), a) <==> InGaps(p, a)) && AllSealed(Remasked(p))
  {
    hide Occurs;
    assert Lacks(MASK, NUL) && !IsWord(MASK[0]);
    if p.More? { RemaskedFacts(p.rest, a); }
  }

  // A pass spells no placeholder.
  lemma PassSpells(p: Pattern, s: string, i: nat)
    requires Occurs(Placeholder(i), Pass(p, s))
    ensures Occurs(Placeholder(i), s)
  {
    hide Rx, Split, Occurs, Placeholder;
    NonEmpty(p);
    var q := Scanned(p, s);
    RemaskedFacts(q, Placeholder(i));
    OnlyInGaps(Remasked(q), i);
    GapsAreInside(q, Placeholder(i));
    SplitWhole(Rx(p), EDGE, s);
  }

  lemma {:induction false} PassesSpell(ps: seq<Pattern>, s: string, i: nat)
    requires Occurs(Placeholder(i), Passes(ps, s))
    ensures Occurs(Placeholder(i), s)
    decreases |ps|
  {
    hide Pass, Occurs, Placeholder;
    if ps != [] {
      PassesSpell(ps[1..], Pass(ps[0], s), i);
      PassSpells(ps[0], s, i);
    }
  }

  // The passes leave a placeholder that the text spells, unless they take its number for
  // a telephone number.
  lemma PassesKeepSpelled(s: string, i: nat)
    requires Occurs(Placeholder(i), s) && !Eaten(i)
    ensures Occurs(Placeholder(i), Passes(PASSES, s))
  {
    hide Passes, Occurs, Tag, Eaten;
    var k := Spot(Placeholder(i), s);
    var a, b := s[..k], s[k + |Placeholder(i)|..];
    assert s == a + Placeholder(i) + b;
    PassesShielded(PASSES, a, i, b);
    PassesTagLeft(i);
    OccursHere(Placeholder(i), Placeholder(i), 0);
    OccursBehind(Placeholder(i), Passes(PASSES, a), Placeholder(i));
    OccursBefore(Placeholder(i), Passes(PASSES, a) + Placeholder(i), Passes(PASSES, b));
  }

  lemma {:induction false} SweptInGaps(q: Parts, i: nat)
    ensures InGaps(Swept(PASSES, q), Placeholder(i)) ==> InGaps(q, Placeholder(i))
    ensures !Eaten(i) && InGaps(q, Placeholder(i)) ==> InGaps(Swept(PASSES, q), Placeholder(i))
    decreases q
  {
    hide Passes, Occurs, Placeholder, Eaten;
    var p := Placeholder(i);
    if Occurs(p, Passes(PASSES, q.gap)) { PassesSpell(PASSES, q.gap, i); }
    if !Eaten(i) && Occurs(p, q.gap) { PassesKeepSpelled(q.gap, i); }
    if q.More? { SweptInGaps(q.rest, i); }
  }

  /* ---- references are sealed ---- */

  lemma RefSealed(h: string)
    requires IsRef(EDGE, h, |h|)
    ensures Sealed(h)
  {
    hide Matches, Rx, Consumes;
    PatternStops(BusinessRef, NUL);
    forall k | 0 <= k < |h| ensures h[k] != NUL { MatchAlphabet(Rx(BusinessRef), EDGE, h, |h|, k); }
    hide IsRef;
    var k, _ := RefFacts(EDGE, h, |h|);
    assert !IsWord(h[k]);
  }

  lemma {:induction false} StandingSealed(p: Parts)
    requires Standing(p)
    ensures AllSealed(p) && forall i :: 0 <= i < |Hits(p)| ==> Sealed(Hits(p)[i])
    decreases p
  {
    hide IsRef, Sealed;
    if p.More? {
      RefSealed(p.hit);
      StandingSealed(p.rest);
    }
  }

  /* ---- texts on their way back ---- */

  // What stands for hit `j` when the placeholders below `i` have been restored; if `lossy`,
  // the passes have been over the text.
  function Piece(h: string, j: nat, i: nat, lossy: bool): string {
    if lossy && Eaten(j) then [NUL] + BROKEN + [NUL] else if j < i then h else Placeholder(j)
  }

  // A cut-up text with its hits numbered from `k`, the placeholders below `i` restored.
  function Mixed(p: Parts, k: nat, i: nat, lossy: bool): string {
    match p
    case Last(g) => g
    case More(g, h, rest) => g + Piece(h, k, i, lossy) + Mixed(rest, k + 1, i, lossy)
  }

  // Behind a hit the text does not go on with the letter that placeholders begin with.
  lemma NotTag(p: Parts, k: nat, i: nat, lossy: bool)
    requires Standing(p) && !WordNext(Whole(p))
    ensures var y := Mixed(p, k, i, lossy); y == [] || y[0] != 'R'
  {
    hide IsRef, Piece;
    if p.More? {
      var _, _ := RefFacts(EDGE, p.hit, |p.hit|);
      assert Whole(p) == p.gap + (p.hit + Whole(p.rest));
      assert Mixed(p, k, i, lossy) == p.gap + (Piece(p.hit, k, i, lossy) + Mixed(p.rest, k + 1, i, lossy));
    }
  }

  lemma SkipBroken(i: nat, y: string, to: string)
    requires y == [] || y[0] != 'R'
    ensures var s := [NUL] + BROKEN + [NUL];
      Replace(s + y, Placeholder(i), to) == s + Replace(y, Placeholder(i), to)
  {
    hide Replace, Decimal;
    var from, z, s := Placeholder(i), [NUL] + y, [NUL] + BROKEN + [NUL] + y;
    assert s == [NUL] + (BROKEN + z) && s[4] == '[';
    assert from[1] == 'R' && IsDigit(from[4]);
    if |s| >= |from| { assert s[..|from|][4] == s[4]; }
    ReplaceStep(s, from, to);
    ReplaceSkip(BROKEN, z, from, to);
    if |z| >= |from| { assert z[..|from|][1] == z[1]; }
    ReplaceStep(z, from, to);
    assert z[1..] == y;
  }

  // One replacement of a piece and of what follows it.
  lemma ReplacePiece(h: string, j: nat, i: nat, lossy: bool, y: string, to: string)
    requires (y == [] || y[0] != 'R') && Lacks(h, NUL) && (i == j ==> to == h)
    ensures Replace(Piece(h, j, i, lossy) + y, Placeholder(i), to) ==
      Piece(h, j, i + 1, lossy) + Replace(y, Placeholder(i), to)
  {
    hide Replace, Placeholder, BROKEN;
    PlaceholderHead(i);
    if lossy && Eaten(j) {
      SkipBroken(i, y, to);
    } else if j < i {
      ReplaceSkip(h, y, Placeholder(i), to);
    } else if j == i {
      ReplaceHere(Placeholder(i), y, to);
    } else {
      PassPlaceholder(j, i, y, to);
    }
  }

  lemma OccursShift(a: string, s: string, k: nat)
    requires s != [] && OccursAt(a, s[1..], k)
    ensures OccursAt(a, s, k + 1)
  {
    assert s[k + 1..k + 1 + |a|] == s[1..][k..k + |a|];
  }

  // Nothing is replaced in a stretch where no occurrence starts.
  lemma {:induction false} SkipGap(g: string, z: string, from: string, to: string)
    requires from != [] && forall k :: 0 <= k < |g| ==> !OccursAt(from, g + z, k)
    ensures Replace(g + z, from, to) == g + Replace(z, from, to)
    decreases |g|
  {
    hide Replace;
    if g == [] {
      assert g + z == z;
    } else {
      var s, t := g + z, g[1..];
      assert !OccursAt(from, s, 0);
      ReplaceStep(s, from, to);
      assert s[1..] == t + z && s[0] == g[0];
      hide OccursAt;
      forall k | 0 <= k < |t| ensures !OccursAt(from, t + z, k) {
        if OccursAt(from, t + z, k) { OccursShift(from, s, k); }
      }
      SkipGap(t, z, from, to);
      Assoc([g[0]], t, Replace(z, from, to));
      assert g == [g[0]] + t;
    }
  }

  // A gap that spells nothing and does not end in a word character: no occurrence reaches
  // from it into the piece behind it.
  lemma GapBeforePiece(g: string, h: string, j: nat, i: nat, lossy: bool, y: string, k: nat)
    requires !Occurs(Placeholder(i), g) && !After(EDGE, g, |g|).word && Sealed(h) && k < |g|
    ensures !OccursAt(Placeholder(i), g + (Piece(h, j, i, lossy) + y), k)
  {
    var p, piece := Placeholder(i), Piece(h, j, i, lossy);
    PlaceholderShape(i);
    PieceHead(h, j, i, lossy);
    hide Placeholder, Piece, Occurs, Sealed;
    var s := g + (piece + y);
    if OccursAt(p, s, k) {
      assert s == g + piece + y;
      if k + |p| <= |g| {
        SideOf(g, piece, y, p, k);
        assert g[k..k + |p|] == s[k..k + |p|];
        OccursHere(p, g, k);
      } else if piece == h {
        NoStraddle(g, h, y, i, k);
      } else {
        NulBehind(g, piece + y, p, k);
      }
    }
  }

  lemma PieceHead(h: string, j: nat, i: nat, lossy: bool)
    ensures var piece := Piece(h, j, i, lossy); piece == h || (piece != [] && piece[0] == NUL)
  {
  }

  lemma NulBehind(g: string, z: string, p: string, k: nat)
    requires |p| >= 6 && p[0] == NUL && Closing(p[1..]) && z != [] && z[0] == NUL
    requires k < |g| < k + |p| && OccursAt(p, g + z, k)
    ensures After(EDGE, g, |g|).word
  {
    var s := g + z;
    var d := |g| - k;
    assert s[|g|] == p[d] == p[1..][d - 1] == NUL;
    assert d == |p| - 1;
    assert s[|g| - 1] == p[d - 1] == p[1..][d - 2];
  }

  predicate GapsSpellNone(p: Parts, n: nat) { forall i: nat :: i < n ==> !InGaps(p, Placeholder(i)) }

  // Replacing placeholder `i` puts back the hit with that number, and changes nothing else.
  lemma {:induction false} ReplaceMixed(p: Parts, k: nat, i: nat, lossy: bool, to: string)
    requires Standing(p) && !InGaps(p, Placeholder(i))
    requires k <= i < k + |Hits(p)| ==> to == Hits(p)[i - k]
    ensures Replace(Mixed(p, k, i, lossy), Placeholder(i), to) == Mixed(p, k, i + 1, lossy)
    decreases p
  {
    hide Replace, Placeholder, Piece, IsRef, Lacks, Occurs, OccursAt;
    PlaceholderHead(i);
    match p
    case Last(g) =>
      NoneAnywhere(g, Placeholder(i));
      SkipGap(g, "", Placeholder(i), to);
      ReplaceEmpty(Placeholder(i), to);
      assert g + "" == g;
    case More(g, h, rest) =>
      var y := Mixed(rest, k + 1, i, lossy);
      assert i > k ==> i - k < |Hits(p)| ==> Hits(p)[i - k] == Hits(rest)[i - k - 1];
      ReplaceMixed(rest, k + 1, i, lossy, to);
      NotTag(rest, k + 1, i, lossy);
      RefSealed(h);
      forall c | 0 <= c < |g| ensures !OccursAt(Placeholder(i), g + (Piece(h, k, i, lossy) + y), c) {
        GapBeforePiece(g, h, k, i, lossy, y, c);
      }
      SkipGap(g, Piece(h, k, i, lossy) + y, Placeholder(i), to);
      ReplacePiece(h, k, i, lossy, y, to);
      Assoc(g, Piece(h, k, i, lossy), y);
      Assoc(g, Piece(h, k, i + 1, lossy), Mixed(rest, k + 1, i + 1, lossy));
  }

  lemma NoneAnywhere(g: string, a: string)
    requires !Occurs(a, g)
    ensures forall k :: 0 <= k < |g| ==> !OccursAt(a, g + "", k)
  {
    assert g + "" == g;
  }

  lemma {:induction false} RestoreMixed(p: Parts, i: nat, lossy: bool)
    requires Standing(p) && i <= |Hits(p)| && GapsSpellNone(p, |Hits(p)|)
    ensures Unshielded(Mixed(p, 0, i, lossy), Hits(p), i) == Mixed(p, 0, |Hits(p)|, lossy)
    decreases |Hits(p)| - i
  {
    hide Standing, InGaps, Mixed, Replace, Placeholder, Unshielded;
    if i < |Hits(p)| {
      ReplaceMixed(p, 0, i, lossy, Hits(p)[i]);
      PlaceholderHead(i);
      UnshieldStep(Mixed(p, 0, i, lossy), Hits(p), i);
      RestoreMixed(p, i + 1, lossy);
    } else {
      UnshieldEnd(Mixed(p, 0, i, lossy), Hits(p));
    }
  }

  lemma UnshieldEnd(text: string, saved: seq<string>)
    ensures Unshielded(text, saved, |saved|) == text
  {
  }

  // The hits that are put back; if `lossy`, those with a number that is not safe are lost.
  function Survivors(p: Parts, k: nat, lossy: bool): Parts {
    match p
    case Last(g) => p
    case More(g, h, rest) =>
      More(g, if lossy && Eaten(k) then [NUL] + BROKEN + [NUL] else h, Survivors(rest, k + 1, lossy))
  }

  lemma {:induction false} AllRestored(p: Parts, k: nat, i: nat, lossy: bool)
    requires k + |Hits(p)| <= i
    ensures Mixed(p, k, i, lossy) == Whole(Survivors(p, k, lossy))
    decreases p
  {
    if p.More? { AllRestored(p.rest, k + 1, i, lossy); }
  }

  // Replacing the placeholders one number after the other is one simultaneous substitution,
  // if no gap spells one of them.
  lemma Restore(p: Parts, lossy: bool)
    requires Standing(p) && GapsSpellNone(p, |Hits(p)|)
    ensures Unshielded(Mixed(p, 0, 0, lossy), Hits(p), 0) == Whole(Survivors(p, 0, lossy))
  {
    hide Standing, GapsSpellNone, Mixed, Unshielded;
    RestoreMixed(p, 0, lossy);
    AllRestored(p, 0, |Hits(p)|, lossy);
  }

  /* ---- shielding and restoring ---- */

  lemma {:induction false} NothingLost(p: Parts, k: nat)
    ensures Survivors(p, k, false) == p && Mixed(p, k, 0, false) == Shielded(p, k)
    decreases p
  {
    hide Placeholder;
    if p.More? { NothingLost(p.rest, k + 1); }
  }

  // What a restored text is like: it spells none of the placeholders.
  lemma RestoredIsSpelledOut(p: Parts, s: string)
    requires Standing(p)
    ensures SpellsNone(Unshielded(s, Hits(p), 0), |Hits(p)|)
  {
    hide Standing, Unshielded, Sealed;
    StandingSealed(p);
    assert SpellsNone(s, 0);
    RestoredSpellsNone(s, Hits(p), 0);
  }

  lemma SpellingIsInGaps(p: Parts, n: nat)
    requires Standing(p)
    ensures SpellsNone(Whole(p), n) <==> GapsSpellNone(p, n)
  {
    hide Standing, Occurs, Placeholder, Whole;
    StandingSealed(p);
    forall i: nat | i < n ensures Occurs(Placeholder(i), Whole(p)) <==> InGaps(p, Placeholder(i)) {
      if Occurs(Placeholder(i), Whole(p)) { OnlyInGaps(p, i); }
      if InGaps(p, Placeholder(i)) { GapsAreInside(p, Placeholder(i)); }
    }
  }

  lemma StandingCut(text: string)
    ensures Standing(Scanned(BusinessRef, text))
  {
    hide Standing, Split;
    RefsStanding(EDGE, text);
  }

  // Shielding and restoring is the identity on exactly the texts that spell none of the
  // placeholders their references get.
  lemma ShieldRoundTripIff(text: string)
    ensures var q := Scanned(BusinessRef, text);
      Unshielded(Shielded(q, 0), Hits(q), 0) == text <==> !Spells(text)
  {
    hide Scanned, Standing, Unshielded, Shielded, SpellsNone, GapsSpellNone, Mixed, Survivors;
    var q := Scanned(BusinessRef, text);
    WholeCut(text);
    StandingCut(text);
    NothingLost(q, 0);
    RestoredIsSpelledOut(q, Shielded(q, 0));
    SpellingIsInGaps(q, |Hits(q)|);
    if !Spells(text) { Restore(q, false); }
  }

  /* ---- a text that spells a placeholder ---- */

  const SAMPLE := "ref 123"

  lemma SampleLink()
    ensures Matches(LINKS, CtxOf('f'), " 123", 1)
  {
    hide Matches;
    var x, t := CtxOf('f'), " 123";
    LeafMatches(One(RefSep), x, t, 1);
    LeafMatches(LINK, x, t, 1);
    LeafMatches(Again(LINKS), After(x, t, 1), t[1..], 0);
    RepeatMatches(LINKS, x, t, 1, 1);
  }

  lemma SampleDigits(x: Ctx)
    ensures Matches(AtLeast(Digit, 3), x, "123", 3)
  {
    ClassRun(AtLeast(Digit, 3), x, "123", 3);
  }

  lemma SampleKeyword()
    ensures Matches(Keyword(), EDGE, SAMPLE, 3)
  {
    hide Matches, AnyWord;
    KeywordsAreWords();
    assert KEYWORDS[5] == "ref" && SAMPLE[..3] == "ref" && SameWord("ref", "ref");
    AnyWordMatch(KEYWORDS, EDGE, SAMPLE, 3);
  }

  lemma SampleTail()
    ensures Matches(Cat(WordEdge, Cat(LINKS, AtLeast(Digit, 3))), CtxOf('f'), " 123", 4)
  {
    hide Matches, LINKS, AtLeast;
    var x, t := CtxOf('f'), " 123";
    var r := Cat(LINKS, AtLeast(Digit, 3));
    assert t[1..] == "123" && t[0..] == t;
    SampleLink();
    SampleDigits(After(x, t, 1));
    CatMatches(r, x, t, 1, 4);
    LeafMatches(WordEdge, x, t, 0);
    CatMatches(Cat(WordEdge, r), x, t, 0, 4);
  }

  lemma SampleIsRef()
    ensures IsRef(EDGE, SAMPLE, 7)
  {
    hide Matches, Keyword, LINKS, AtLeast;
    assert SAMPLE[3..] == " 123" && After(EDGE, SAMPLE, 3) == CtxOf('f');
    SampleKeyword();
    SampleTail();
    CatMatches(Ref(), EDGE, SAMPLE, 3, 7);
    Guarded(BusinessRef, EDGE, SAMPLE, 7);
  }

  lemma NoRefInPlaceholder(i: nat, n: nat)
    ensures !MatchAt(Rx(BusinessRef), EDGE, Placeholder(0), i, n)
  {
    hide Matches, Rx, IsRef, RefParts;
    var s := Placeholder(0);
    assert s == [NUL] + "REF0" + [NUL] && forall j :: 0 <= j < |s| ==> (IsDigit(s[j]) ==> j == 4);
    if i <= |s| {
      var t := s[i..];
      assert forall j :: 0 <= j < |t| ==> t[j] == s[i + j];
      if IsRef(After(EDGE, s, i), t, n) {
        var k, m := RefFacts(After(EDGE, s, i), t, n);
        TwoDigits(t, n, k, m);
      }
      RefIsMatch(After(EDGE, s, i), t, n);
    }
  }

  lemma TwoDigits(s: string, n: nat, k: nat, m: nat)
    requires RefParts(s, n, k, m)
    ensures m + 3 <= n <= |s| && IsDigit(s[m]) && IsDigit(s[m + 1])
  {
  }

  lemma RefIsMatch(x: Ctx, s: string, n: nat)
    ensures IsRef(x, s, n) <==> Matches(Rx(BusinessRef), x, s, n)
  {
  }

  // A text that spells a placeholder of its own: it is filled in with the reference, too.
  lemma NulBreaksRoundTrip()
    ensures var text := Placeholder(0) + SAMPLE;
      var q := Scanned(BusinessRef, text);
      Unshielded(Shielded(q, 0), Hits(q), 0) == SAMPLE + SAMPLE != text
  {
    hide Rx, Split, MatchAt, IsRef, Replace;
    NonEmpty(BusinessRef);
    var a := Placeholder(0);
    assert a == [NUL] + "REF0" + [NUL];
    forall i: nat, n: nat ensures !MatchAt(Rx(BusinessRef), EDGE, a, i, n) { NoRefInPlaceholder(i, n); }
    SplitClean(Rx(BusinessRef), EDGE, a);
    SampleIsRef();
    assert After(EDGE, a, |a|) == EDGE && SAMPLE + "" == SAMPLE;
    SplitAtRef(EDGE, a, SAMPLE, "");
    EmptyRefs(CtxOf('3'));
    var q := Scanned(BusinessRef, a + SAMPLE);
    assert q == More(a + "", SAMPLE, Last(""));
    assert Shielded(q, 0) == a + (a + "");
    assert Hits(q) == [SAMPLE];
    ReplaceHere(a, a + "", SAMPLE);
    ReplaceHere(a, "", SAMPLE);
    ReplaceEmpty(a, SAMPLE);
    UnshieldStep(Shielded(q, 0), Hits(q), 0);
  }

  lemma EmptyRefs(x: Ctx)
    ensures Refs(x, "") == Last("")
  {
    hide Rx;
    NonEmpty(BusinessRef);
    FirstPositive(Rx(BusinessRef), x, "");
  }
}
