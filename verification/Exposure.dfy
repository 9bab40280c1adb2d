// A telephone number in parentheses that has lost the digit before it is found by
// every later redaction: neither the address pass nor the reference scan hides it.

module Exposure {
  import opened Text
  import opened Regex
  import opened RegexFacts
  import opened Scan
  import opened Patterns
  import opened PatternFacts
  import opened Detector
  import opened Stability

  // At position `i` a telephone number with a parenthesised area code is found.
  ghost predicate ExposedAt(x: Ctx, s: string, i: nat, n: nat) {
    i < |s| && s[i] == '(' && MatchAt(Rx(Phone), x, s, i, n)
  }

  ghost predicate Exposed(s: string) { exists i: nat, n: nat :: ExposedAt(EDGE, s, i, n) }

  ghost predicate GapExposed(q: Parts) {
    Exposed(q.gap) || (q.More? && GapExposed(q.rest))
  }

  lemma ExposedNotClean(s: string)
    requires Exposed(s)
    ensures !PassClean(Phone, s)
  {
    hide Matches, MatchAt;
    var i: nat, n: nat :| ExposedAt(EDGE, s, i, n);
    assert MatchAt(Rx(Phone), EDGE, s, i, n);
  }

  lemma {:induction q} GapExposedNotClean(q: Parts)
    requires GapExposed(q)
    ensures !GapsClean([Phone], q)
  {
    hide Exposed, PassClean;
    assert [Phone][0] == Phone;
    if Exposed(q.gap) { ExposedNotClean(q.gap); }
  }

  lemma OpensPhoneExposed(g: string)
    requires OpensPhone(g)
    ensures Exposed(g)
  {
    hide Matches, Rx, Body;
    var n: nat :| ParenPhone(g, n) && !DigitNext(g[n..]);
    assert g[0..] == g;
    BodyOfPhone(g, n);
    Guarded(Phone, EDGE, g, n);
    assert ExposedAt(EDGE, g, 0, n);
  }

  lemma BodyOfPhone(g: string, n: nat)
    requires ParenPhone(g, n)
    ensures Matches(Body(Phone), EDGE, g, n)
  {
    ParenPhoneMatches(EDGE, g, n);
  }

  lemma {:induction q} GluedExposed(q: Parts)
    requires Glued(q)
    ensures GapExposed(q)
  {
    hide Exposed, OpensPhone;
    if OpensPhone(q.rest.gap) { OpensPhoneExposed(q.rest.gap); }
  }

  /* ---- masks and other barriers keep it exposed ---- */

  lemma ExposedLeft(a: string, b: char, c: string)
    requires Stops(b) && Exposed(a)
    ensures Exposed(a + [b] + c)
  {
    hide Matches, Rx;
    var i: nat, n: nat :| ExposedAt(EDGE, a, i, n);
    WithinLength(Rx(Phone), After(EDGE, a, i), a[i..], n);
    SamePrefix(Rx(Phone), After(EDGE, a, i), a[i..], [b] + c, n);
    assert (a + [b] + c)[i..] == a[i..] + ([b] + c);
    assert ExposedAt(EDGE, a + [b] + c, i, n);
  }

  lemma ExposedRight(a: string, b: char, c: string)
    requires Stops(b) && Exposed(c)
    ensures Exposed(a + [b] + c)
  {
    hide Matches, Rx;
    var i: nat, n: nat :| ExposedAt(EDGE, c, i, n);
    var s, k := a + [b] + c, |a| + 1;
    assert s[k..] == c && CtxOf(s[k - 1]) == EDGE;
    ShiftMatch(Rx(Phone), EDGE, s, k, i, n);
    assert ExposedAt(EDGE, s, k + i, n);
  }

  lemma {:induction false} GapExposedMasked(q: Parts)
    requires GapExposed(q)
    ensures Exposed(Masked(q))
    decreases q
  {
    hide Exposed;
    if q.More? {
      var y := Masked(q.rest);
      MaskParts(q.gap, y);
      if Exposed(q.gap) {
        ExposedLeft(q.gap, '[', MASK_WORD + [']'] + y);
      } else {
        GapExposedMasked(q.rest);
        ExposedRight(MASK_WORD, ']', y);
        ExposedRight(q.gap, '[', MASK_WORD + [']'] + y);
      }
    }
  }

  /* ---- no address and no reference starts inside such a number ---- */

  lemma PhoneChars(s: string, n: nat, j: nat)
    requires ParenPhone(s, n) && j < n
    ensures n <= |s| && InMatch(Phone, s[j]) && !IsLetter(s[j])
  {
    hide Matches, Consumes;
    ParenPhoneMatches(EDGE, s, n);
    MatchAlphabet(PHONE, EDGE, s, n, j);
    PhoneProfile(s[j]);
  }

  // Where a new number can start inside the telephone number: behind a bracket or a
  // separator; and then it goes on with digits, at most three before anything else.
  lemma NoAddressInside(s: string, n: nat, j: nat, m: nat)
    requires ParenPhone(s, n) && 0 < j < n
    ensures !Matches(Rx(Ip), CtxOf(s[j - 1]), s[j..], m)
  {
    hide Matches, Rx, Body;
    var t := s[j..];
    if Matches(Rx(Ip), CtxOf(s[j - 1]), t, m) {
      Guarded(Ip, CtxOf(s[j - 1]), t, m);
      TwoOctets(CtxOf(s[j - 1]), t, m, s, j);
      NoOctetsInside(s, n, j);
    }
  }

  // Two numbers of at most three digits, each followed by a dot.
  ghost predicate OctetsAt(s: string, j: nat, a: nat, b: nat) {
    && 1 <= a <= 3 && 1 <= b <= 3 && j + a + b + 2 <= |s|
    && Digits(s, j, j + a) && s[j + a] == '.' && Digits(s, j + a + 1, j + a + 1 + b) && s[j + a + 1 + b] == '.'
  }

  lemma TwoOctets(x: Ctx, t: string, m: nat, s: string, j: nat)
    requires Matches(Body(Ip), x, t, m) && j <= |s| && t == s[j..]
    requires x.word != WordNext(t)
    ensures !x.word && exists a: nat, b: nat :: OctetsAt(s, j, a, b)
  {
    hide Matches;
    var a, b := IpShape(x, t, m);
    assert forall k :: 0 <= k < |t| ==> t[k] == s[j + k];
    assert forall k :: j <= k < |s| ==> s[k] == t[k - j];
    assert OctetsAt(s, j, a, b);
  }

  lemma NoOctetsInside(s: string, n: nat, j: nat)
    requires ParenPhone(s, n) && 0 < j < n
    ensures !(IsWord(s[j - 1])) ==> forall a: nat, b: nat :: !OctetsAt(s, j, a, b)
  {
    var p: nat, q: nat :| LocalPart(s[5..], n - 5, p, q);
    assert LocalPart(s[5..], n - 5, p, q);
    assert Digits(s[5..], p, p + 3);
    DigitsFrom(s, 5, p, p + 3);
    DigitsFrom(s, 5, p + 3 + q, n - 5);
    assert Digits(s, 5 + p, 8 + p) && Digits(s, 8 + p + q, 12 + p + q);
    SeparatorsFrom(s, n, p, q);
    assert IsDigit(s[j]) && !IsWord(s[j - 1]) ==> j == 1 || j == 5 + p || j == 8 + p + q;
    forall a: nat, b: nat | !IsWord(s[j - 1])
      ensures !OctetsAt(s, j, a, b)
    {
      NotThree(s, j, a, b);
    }
  }

  lemma DigitsFrom(s: string, d: nat, i: nat, j: nat)
    requires d <= |s| && Digits(s[d..], i, j)
    ensures Digits(s, d + i, d + j)
  {
    assert forall k :: d + i <= k < d + j ==> s[k] == s[d..][k - d];
  }

  lemma SeparatorsFrom(s: string, n: nat, p: nat, q: nat)
    requires 5 <= n <= |s| && LocalPart(s[5..], n - 5, p, q)
    ensures n == 12 + p + q
    ensures p == 1 ==> Has(PhoneSep, s[5])
    ensures q == 1 ==> Has(PhoneSep, s[8 + p])
  {
  }

  // Three digits and no dot, three digits and a dot and four digits, or four digits.
  lemma NotThree(s: string, j: nat, a: nat, b: nat)
    requires j + 4 <= |s| && (IsDigit(s[j]) ==> Digits(s, j, j + 3))
    requires IsDigit(s[j]) ==> s[j + 3] != '.' || (j + 8 <= |s| && Digits(s, j + 4, j + 8))
    ensures !OctetsAt(s, j, a, b)
  {
  }

  lemma NothingInside(q: Pattern, s: string, n: nat, j: nat, m: nat)
    requires q in {Ip, BusinessRef} && ParenPhone(s, n) && 0 < j < n
    ensures !Matches(Rx(q), CtxOf(s[j - 1]), s[j..], m)
  {
    hide Matches, Rx, Body, ParenPhone;
    PhoneChars(s, n, j);
    if q == Ip {
      NoAddressInside(s, n, j, m);
    } else {
      Guarded(q, CtxOf(s[j - 1]), s[j..], m);
      if Matches(Body(q), CtxOf(s[j - 1]), s[j..], m) { BodyEnds(q, CtxOf(s[j - 1]), s[j..], m); }
    }
  }

  /* ---- so it ends up, whole, in a gap ---- */

  lemma ShapeOfExposed(x: Ctx, s: string, i: nat, n: nat)
    requires ExposedAt(x, s, i, n)
    ensures ParenPhone(s[i..], n) && 0 < n && i + n <= |s| && !After(x, s, i).digit && !DigitNext(s[i + n..])
    ensures Matches(Body(Phone), After(x, s, i), s[i..], n)
  {
    hide Matches, Rx, ParenPhone;
    var t := s[i..];
    Guarded(Phone, After(x, s, i), t, n);
    PhoneShape(After(x, s, i), t, n);
    assert t[n..] == s[i + n..];
  }

  // A prefix of the text that holds all of it holds it exposed.
  lemma ExposedPrefix(x: Ctx, s: string, i: nat, n: nat, k: nat)
    requires ExposedAt(x, s, i, n) && i + n <= k <= |s|
    ensures Exposed(s[..k])
  {
    hide Matches, Rx, Body, ParenPhone;
    ShapeOfExposed(x, s, i, n);
    var g := s[..k];
    BlindPhone(After(x, s, i), After(EDGE, g, i), s[i..], g[i..], n);
    assert !DigitNext(g[i..][n..]) by {
      if i + n < k { assert g[i..][n..][0] == s[i + n..][0]; }
    }
    assert !After(EDGE, g, i).digit;
    Guarded(Phone, After(EDGE, g, i), g[i..], n);
    assert ExposedAt(EDGE, g, i, n);
  }

  lemma BlindPhone(x: Ctx, y: Ctx, s: string, t: string, n: nat)
    requires Matches(Body(Phone), x, s, n) && n <= |s| && n <= |t| && s[..n] == t[..n]
    ensures Matches(Body(Phone), y, t, n)
  {
    hide Matches;
    PhoneProfile('0');
    BlindMatch(PHONE, x, y, s, t, n);
  }

  lemma {:induction false} ExposedInGap(q: Pattern, x: Ctx, s: string, i: nat, n: nat)
    requires q in {Ip, BusinessRef} && ExposedAt(x, s, i, n)
    ensures MinLen(Rx(q)) > 0 && GapExposed(Split(Rx(q), x, s))
    decreases |s|
  {
    hide Matches, Rx, Split, FirstAt, MatchAt, Exposed, ParenPhone, ExposedAt;
    NonEmpty(q);
    SplitStep(Rx(q), x, s);
    var p := Split(Rx(q), x, s);
    ShapeOfExposed(x, s, i, n);
    if i < |p.gap| || p.Last? {
      if p.More? {
        FirstAtMatches(Rx(q), x, s, |p.gap|);
        if |p.gap| < i + n { HitOutside(q, x, s, i, n, |p.gap|, |p.hit|); }
      }
      ExposedPrefix(x, s, i, n, |p.gap|);
    } else {
      FirstAtMatches(Rx(q), x, s, |p.gap|);
      var k := |p.gap| + |p.hit|;
      HitBefore(q, x, s, i, n, |p.gap|, |p.hit|);
      assert s[k - 1] == p.hit[|p.hit| - 1];
      ExposedTail(x, s, i, n, k);
      ExposedInGap(q, CtxOf(s[k - 1]), s[k..], i - k, n);
    }
  }

  lemma ExposedTail(x: Ctx, s: string, i: nat, n: nat, k: nat)
    requires ExposedAt(x, s, i, n) && 0 < k <= i
    ensures ExposedAt(CtxOf(s[k - 1]), s[k..], i - k, n)
  {
    hide Matches, Rx;
    ShiftMatch(Rx(Phone), x, s, k, i - k, n);
  }

  // A hit that begins behind the start of the number begins behind its end.
  lemma HitOutside(q: Pattern, x: Ctx, s: string, i: nat, n: nat, g: nat, h: nat)
    requires q in {Ip, BusinessRef} && i + n <= |s| && ParenPhone(s[i..], n)
    requires i < g && MatchAt(Rx(q), x, s, g, h)
    ensures i + n <= g
  {
    hide Matches, Rx, ParenPhone;
    if g < i + n {
      assert s[i..][g - i..] == s[g..] && s[i..][g - i - 1] == s[g - 1];
      NothingInside(q, s[i..], n, g - i, h);
    }
  }

  // A hit that begins before the number ends before it.
  lemma HitBefore(q: Pattern, x: Ctx, s: string, i: nat, n: nat, g: nat, h: nat)
    requires q in {Ip, BusinessRef} && ExposedAt(x, s, i, n)
    requires g <= i && MatchAt(Rx(q), x, s, g, h)
    ensures g + h <= i
  {
    hide Matches, Rx, Consumes;
    if i < g + h {
      WithinLength(Rx(q), After(x, s, g), s[g..], h);
      MatchAlphabet(Rx(q), After(x, s, g), s[g..], h, i - g);
      RxAlphabet(q, '(');
    }
  }
}
