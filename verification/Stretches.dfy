// The scans, the redactor and the detector told in characters: by the stretches of a text
// that are personal data, without the patterns and their matcher.

module Stretches {
  import opened Regex
  import opened Scan
  import opened Patterns
  import opened PatternFacts
  import opened Pii
  import opened Survival
  import opened Detector
  import opened RefScan
  import opened Priority
  import opened Restoring
  import opened Bound
  import opened Agreement
  import opened Idempotence
  import opened Shapes

  // Of several stretches at the same place the longest e-mail address is taken, and the
  // shortest card number; of the other kinds there is only one.
  ghost predicate Preferred(p: Pattern, s: string, i: nat, n: nat) {
    forall m: nat :: Stands(p, s, i, m) ==>
      match p
      case Email => m <= n
      case Card => n <= m
      case _ => m == n
  }

  ghost predicate NoneStands(p: Pattern, s: string, i: nat, j: nat) {
    forall k: nat, n: nat :: i <= k < j ==> !Stands(p, s, k, n)
  }

  // `q` cuts `s` up from `off` on: from left to right, at every stretch that does not start
  // in an earlier one.
  ghost predicate CutsAt(p: Pattern, s: string, q: Parts, off: nat)
    decreases q
  {
    match q
    case Last(g) => off <= |s| && g == s[off..] && NoneStands(p, s, off, |s| + 1)
    case More(g, h, rest) =>
      var k := off + |g|;
      && h != "" && k + |h| <= |s| && g == s[off..k] && h == s[k..k + |h|]
      && NoneStands(p, s, off, k) && Stands(p, s, k, |h|) && Preferred(p, s, k, |h|)
      && CutsAt(p, s, rest, k + |h|)
  }

  lemma MatchIsStretch(p: Pattern, s: string, off: nat, i: nat, n: nat)
    requires off <= |s|
    ensures MatchAt(Rx(p), After(EDGE, s, off), s[off..], i, n) <==> Stands(p, s, off + i, n)
  {
    hide Matches, Rx, Stands;
    StandsIff(p, s, off + i, n);
    if i <= |s| - off {
      assert s[off..][i..] == s[off + i..];
      assert After(After(EDGE, s, off), s[off..], i) == After(EDGE, s, off + i);
    } else {
      NotBeyondEnd(p, s, off + i, n);
    }
  }

  lemma NotBeyondEnd(p: Pattern, s: string, i: nat, n: nat)
    requires i > |s|
    ensures !Stands(p, s, i, n)
  {
  }

  // The match that the scan takes is the preferred stretch.
  lemma FirstPreferred(p: Pattern, s: string, i: nat)
    requires i <= |s| && First(Rx(p), After(EDGE, s, i), s[i..]).Some?
    ensures Preferred(p, s, i, First(Rx(p), After(EDGE, s, i), s[i..]).value)
  {
    hide Matches, Rx, Stands, First;
    var x, t := After(EDGE, s, i), s[i..];
    var n := First(Rx(p), x, t).value;
    FirstMatches(Rx(p), x, t);
    forall m: nat | Stands(p, s, i, m)
      ensures match p case Email => m <= n case Card => n <= m case _ => m == n
    {
      StandsIff(p, s, i, m);
      match p
      case Email => EmailTakesLongest(x, t, m);
      case Card => CardTakesShortest(x, t, m);
      case BusinessRef => OneReference(x, t, m, n);
      case _ => EndIsUnique(p, x, t, m, n);
    }
  }

  lemma OneReference(x: Ctx, s: string, m: nat, n: nat)
    requires Matches(Rx(BusinessRef), x, s, m) && Matches(Rx(BusinessRef), x, s, n) && (x.digit ==> x.word)
    ensures m == n
  {
    RefUnique(x, s, m, n);
  }

  function ScanFrom(p: Pattern, s: string, off: nat): Parts
    requires off <= |s|
  {
    NonEmpty(p);
    Split(Rx(p), After(EDGE, s, off), s[off..])
  }

  lemma GapIsBare(p: Pattern, s: string, off: nat)
    requires off <= |s|
    ensures var q := ScanFrom(p, s, off);
      && off + |q.gap| <= |s| && q.gap == s[off..off + |q.gap|]
      && NoneStands(p, s, off, off + |q.gap|)
      && (q.Last? ==> off + |q.gap| == |s| && NoneStands(p, s, |s|, |s| + 1))
  {
    hide Matches, Rx, Split, Stands, MatchAt, FirstAt;
    NonEmpty(p);
    var r, x, t := Rx(p), After(EDGE, s, off), s[off..];
    var q := Split(r, x, t);
    SplitStep(r, x, t);
    forall k: nat, n: nat | off <= k < off + |q.gap| + if q.Last? then 1 else 0
      ensures !Stands(p, s, k, n)
    {
      FirstAtMatches(r, x, t, k - off);
      MatchIsStretch(p, s, off, k - off, n);
    }
  }

  lemma HitIsPreferred(p: Pattern, s: string, off: nat)
    requires off <= |s| && ScanFrom(p, s, off).More?
    ensures var q := ScanFrom(p, s, off);
      var k := off + |q.gap|;
      && q.hit != "" && k + |q.hit| <= |s| && q.hit == s[k..k + |q.hit|]
      && Stands(p, s, k, |q.hit|) && Preferred(p, s, k, |q.hit|)
      && q.rest == ScanFrom(p, s, k + |q.hit|)
  {
    hide Matches, Rx, Split, Stands, MatchAt, First, Preferred;
    NonEmpty(p);
    var r, x, t := Rx(p), After(EDGE, s, off), s[off..];
    var q := Split(r, x, t);
    SplitStep(r, x, t);
    var k := off + |q.gap|;
    FirstAtMatches(r, x, t, |q.gap|);
    MatchIsStretch(p, s, off, |q.gap|, |q.hit|);
    SameFirst(s, off, |q.gap|);
    FirstPreferred(p, s, k);
    AfterHit(s, off, |q.gap|, |q.hit|);
  }

  lemma {:induction false} ScanCuts(p: Pattern, s: string, off: nat)
    requires off <= |s|
    ensures CutsAt(p, s, ScanFrom(p, s, off), off)
    decreases |s| - off
  {
    hide ScanFrom, Stands, Preferred;
    GapIsBare(p, s, off);
    var q := ScanFrom(p, s, off);
    if q.More? {
      HitIsPreferred(p, s, off);
      ScanCuts(p, s, off + |q.gap| + |q.hit|);
    }
  }

  lemma SameFirst(s: string, off: nat, i: nat)
    requires off + i <= |s|
    ensures s[off..][i..] == s[off + i..] && After(After(EDGE, s, off), s[off..], i) == After(EDGE, s, off + i)
  {
  }

  lemma AfterHit(s: string, off: nat, g: nat, n: nat)
    requires n > 0 && off + g + n <= |s|
    ensures s[off..][g + n..] == s[off + g + n..] && s[off..][..g] == s[off..off + g]
    ensures s[off..][g..g + n] == s[off + g..off + g + n]
    ensures CtxOf(s[off..][g..g + n][n - 1]) == After(EDGE, s, off + g + n)
  {
  }

  lemma {:induction false} CutIsUnique(p: Pattern, s: string, q: Parts, q': Parts, off: nat)
    requires CutsAt(p, s, q, off) && CutsAt(p, s, q', off)
    ensures q == q'
    decreases q
  {
    hide Stands;
    if q.More? && q'.More? {
      var k, k' := off + |q.gap|, off + |q'.gap|;
      assert k == k';
      assert |q.hit| == |q'.hit|;
      CutIsUnique(p, s, q.rest, q'.rest, k + |q.hit|);
    }
  }

  // The scan of a text is the only way to cut it up like that.
  lemma ScanInCharacters(p: Pattern, s: string, q: Parts)
    ensures q == Scanned(p, s) <==> CutsAt(p, s, q, 0)
  {
    hide Split, Rx, CutsAt;
    ScanCuts(p, s, 0);
    assert s[0..] == s;
    if CutsAt(p, s, q, 0) { CutIsUnique(p, s, q, Scanned(p, s), 0); }
  }

  /* ---- the redactor and the detector ---- */

  // Nothing that any pass is after stands in the text.
  ghost predicate Bare(s: string) {
    forall p, i: nat, n: nat :: p in PASSES ==> !Stands(p, s, i, n)
  }

  ghost predicate AllBare(q: Parts) { Bare(q.gap) && (q.More? ==> AllBare(q.rest)) }

  lemma CleanIsBare(s: string)
    ensures AllClean(PASSES, s) <==> Bare(s)
  {
    hide Matches, Rx, MatchAt, Stands;
    forall p, i: nat, n: nat ensures MatchAt(Rx(p), EDGE, s, i, n) <==> Stands(p, s, i, n) { StandsIff(p, s, i, n); }
    if AllClean(PASSES, s) {
      forall p, i: nat, n: nat | p in PASSES ensures !Stands(p, s, i, n) {
        var c :| 0 <= c < |PASSES| && PASSES[c] == p;
        assert PassClean(PASSES[c], s);
      }
    }
    if Bare(s) {
      forall c | 0 <= c < |PASSES| ensures PassClean(PASSES[c], s) {
        assert PASSES[c] in PASSES;
      }
    }
  }

  lemma {:induction false} GapsCleanIsBare(q: Parts)
    ensures GapsClean(PASSES, q) <==> AllBare(q)
    decreases q
  {
    hide AllClean, Bare;
    CleanIsBare(q.gap);
    if q.More? { GapsCleanIsBare(q.rest); }
  }

  // A text is its own redaction exactly if its references are within the bound, it spells no
  // placeholder, and nothing stands in any segment between its references.
  lemma FixedIffBare(text: string)
    ensures Redact(text) == text <==>
      FewRefs(text) && !Spells(text) && AllBare(Scanned(BusinessRef, text))
  {
    hide Redact, Scanned, GapsClean, AllBare, Spells;
    FixedIffClean(text);
    GapsCleanIsBare(Scanned(BusinessRef, text));
  }

  // The detector finds nothing exactly if nothing stands there.
  lemma NothingFoundIffBare(text: string, counts: map<Pattern, nat>)
    requires Tally(counts, PASSES, Shielded(Scanned(BusinessRef, text), 0))
    ensures counts == map[] <==> FewRefs(text) && AllBare(Scanned(BusinessRef, text))
  {
    hide Scanned, GapsClean, AllBare, Tally, Shielded;
    NothingFoundIff(text, counts);
    GapsCleanIsBare(Scanned(BusinessRef, text));
  }

  // No stretch of personal data survives in any segment of a redacted text, exactly if the
  // text is not glued.
  lemma NoneSurvivesIff(text: string)
    requires Redactable(text)
    ensures AllBare(Scanned(BusinessRef, Redact(text))) <==> !TextGlued(text)
  {
    hide Redact, Scanned, GapsClean, AllBare, TextGlued, Redactable;
    RedactedCleanIff(text);
    GapsCleanIsBare(Scanned(BusinessRef, Redact(text)));
  }

  // What the detector reports is how often the shielded text can be cut at such stretches.
  lemma CountsAreStretches(counts: map<Pattern, nat>, shielded: string, p: Pattern, q: Parts)
    requires Tally(counts, PASSES, shielded) && p in PASSES && CutsAt(p, shielded, q, 0)
    ensures if Hits(q) == [] then p !in counts else p in counts && counts[p] == |Hits(q)|
  {
    hide Scanned, CutsAt;
    ScanInCharacters(p, shielded, q);
  }

  // What it means to be glued: a gap opens with a telephone number that starts with a
  // parenthesis.
  lemma OpensPhoneIff(g: string)
    ensures Stability.OpensPhone(g) <==> g != "" && g[0] == '(' && exists n: nat :: Stands(Phone, g, 0, n)
  {
    hide Matches, Rx, Stands, ParenPhone, PHONE;
    forall n: nat
      ensures n <= |g| && ParenPhone(g, n) && !DigitNext(g[n..]) <==>
        g != "" && g[0] == '(' && Stands(Phone, g, 0, n)
    {
      StandsIff(Phone, g, 0, n);
      assert g[0..] == g;
      if n <= |g| { Guarded(Phone, EDGE, g, n); }
      PhoneBody();
      if n <= |g| && ParenPhone(g, n) {
        ParenPhoneMatches(EDGE, g, n);
        ParenFirst(g, n);
      }
      if n <= |g| && Matches(PHONE, EDGE, g, n) { PhoneShape(EDGE, g, n); }
      WithinStands(Phone, g, 0, n);
    }
  }

  lemma PhoneBody()
    ensures Body(Phone) == PHONE
  {
  }

  lemma ParenFirst(g: string, n: nat)
    requires ParenPhone(g, n)
    ensures g != "" && g[0] == '('
  {
  }

  lemma WithinStands(p: Pattern, s: string, i: nat, n: nat)
    ensures Stands(p, s, i, n) ==> i + n <= |s|
  {
  }
}
