// The six patterns of the PII module and what a match of each looks like.

module Patterns {
  import opened Wrappers
  import opened Text
  import opened Regex
  import opened RegexFacts

  datatype Pattern = Email | Ssn | Card | Phone | Ip | BusinessRef

  function Between(cls: CharClass, lo: nat, hi: nat): Regex { Repeat(One(cls), lo, Some(hi), true) }

  function AtLeast(cls: CharClass, lo: nat): Regex { Repeat(One(cls), lo, None, true) }

  function Opt(r: Regex): Regex { Repeat(r, 0, Some(1), true) }

  // A literal, letter case ignored.
  function Word(w: string): Regex
    requires w != []
  {
    if |w| == 1 then One(NoCase(w[0])) else Cat(One(NoCase(w[0])), Word(w[1..]))
  }

  predicate LowerWord(w: string) { w != [] && forall k :: 0 <= k < |w| ==> IsLower(w[k]) }

  predicate Words(ws: seq<string>) { ws != [] && forall i :: 0 <= i < |ws| ==> LowerWord(ws[i]) }

  // One of several literals, tried in this order.
  function AnyWord(ws: seq<string>): Regex
    requires Words(ws)
  {
    if |ws| == 1 then Word(ws[0]) else Either(Word(ws[0]), AnyWord(ws[1..]))
  }

  const EMAIL := Cat(AtLeast(EmailLocal, 1), Cat(One(Lit('@')), Cat(AtLeast(EmailDomain, 1),
                 Cat(One(Lit('.')), AtLeast(Letter, 2)))))

  const SSN := Cat(Between(Digit, 3, 3), Cat(One(Lit('-')), Cat(Between(Digit, 2, 2),
               Cat(One(Lit('-')), Between(Digit, 4, 4)))))

  const CARD_DIGIT := Cat(One(Digit), Repeat(One(CardSep), 0, None, false))

  const CARD := Repeat(CARD_DIGIT, 13, Some(16), true)

  const COUNTRY := Opt(Cat(Opt(One(Lit('+'))), Cat(Between(Digit, 1, 2), Opt(One(PhoneSep)))))

  const AREA := Either(Cat(One(Lit('(')), Cat(Between(Digit, 3, 3), One(Lit(')')))), Between(Digit, 3, 3))

  const LOCAL := Cat(Opt(One(PhoneSep)), Cat(Between(Digit, 3, 3), Cat(Opt(One(PhoneSep)), Between(Digit, 4, 4))))

  const PHONE := Cat(COUNTRY, Cat(AREA, LOCAL))

  const OCTET_DOT := Cat(Between(Digit, 1, 3), One(Lit('.')))

  const IP := Cat(Repeat(OCTET_DOT, 3, Some(3), true), Between(Digit, 1, 3))

  const KEYWORDS := ["order", "invoice", "tracking"] + ["ticket", "reference", "ref", "awb"]

  const LINK := Either(One(RefSep), Either(Word("id"), Either(Cat(Word("no"), Opt(One(Lit('.')))), Word("number"))))

  const LINKS := Repeat(LINK, 0, Some(20), true)

  lemma KeywordsAreWords()
    ensures Words(KEYWORDS)
  {
    assert LowerWord("order") && LowerWord("invoice") && LowerWord("tracking") && LowerWord("ticket");
    assert LowerWord("reference") && LowerWord("ref") && LowerWord("awb");
    hide LowerWord;
  }

  function Keyword(): Regex { KeywordsAreWords(); AnyWord(KEYWORDS) }

  function Ref(): Regex { Cat(Keyword(), Cat(WordEdge, Cat(LINKS, AtLeast(Digit, 3)))) }

  function Body(p: Pattern): Regex {
    match p
    case Email => EMAIL
    case Ssn => SSN
    case Card => CARD
    case Phone => PHONE
    case Ip => IP
    case BusinessRef => Ref()
  }

  function Rx(p: Pattern): Regex {
    match p
    case Email => EMAIL
    case Phone => Cat(NotAfterDigit, Cat(PHONE, NotBeforeDigit))
    case _ => Cat(WordEdge, Cat(Body(p), WordEdge))
  }

  // Characters that stop every pattern: the two brackets of the mask and NUL.
  predicate Stops(c: char) { c == '[' || c == ']' || c == '\0' }

  /* ---- literals ---- */

  predicate SameWord(w: string, s: string) {
    |w| == |s| && forall k :: 0 <= k < |w| ==> SameLetter(w[k], s[k])
  }

  lemma {:induction false} WordMatch(w: string, x: Ctx, s: string, n: nat)
    requires w != []
    ensures Matches(Word(w), x, s, n) <==> n == |w| <= |s| && SameWord(w, s[..n])
  {
    hide Matches;
    if Matches(Word(w), x, s, n) { WithinLength(Word(w), x, s, n); }
    if |w| == 1 && n <= |s| {
      LeafMatches(Word(w), x, s, n);
    } else if |w| > 1 && s != [] {
      if 1 <= n <= |s| { WordMatch(w[1..], CtxOf(s[0]), s[1..], n - 1); }
      if |w| <= |s| { SameWordStep(w, s); }
      LeafMatches(One(NoCase(w[0])), x, s, 1);
      if Matches(Word(w), x, s, n) {
        var m := Parse(Word(w), x, s, n);
        LeafMatches(One(NoCase(w[0])), x, s, m);
      } else if n == |w| <= |s| && SameWord(w, s[..n]) {
        CatMatches(Word(w), x, s, 1, n);
      }
    } else if |w| > 1 && Matches(Word(w), x, s, n) {
      var m := Parse(Word(w), x, s, n);
      var _ := Parse(One(NoCase(w[0])), x, s, m);
    }
  }

  lemma SameWordStep(w: string, s: string)
    requires 1 < |w| <= |s|
    ensures SameWord(w, s[..|w|]) <==> SameLetter(w[0], s[0]) && SameWord(w[1..], s[1..][..|w| - 1])
  {
    hide SameLetter;
    assert forall k :: 0 < k < |w| ==> s[..|w|][k] == s[1..][..|w| - 1][k - 1] && w[k] == w[1..][k - 1];
    assert forall k :: 0 <= k < |w| - 1 ==> s[..|w|][k + 1] == s[1..][..|w| - 1][k] && w[k + 1] == w[1..][k];
  }

  lemma {:induction false} AnyWordMatch(ws: seq<string>, x: Ctx, s: string, n: nat)
    requires Words(ws)
    ensures Matches(AnyWord(ws), x, s, n) <==>
      exists i :: 0 <= i < |ws| && n == |ws[i]| <= |s| && SameWord(ws[i], s[..n])
  {
    hide Matches;
    WordMatch(ws[0], x, s, n);
    if |ws| > 1 {
      AnyWordMatch(ws[1..], x, s, n);
      if n <= |s| { LeafMatches(AnyWord(ws), x, s, n); }
      if Matches(AnyWord(ws), x, s, n) { WithinLength(AnyWord(ws), x, s, n); }
      assert forall i :: 0 <= i < |ws| - 1 ==> ws[i + 1] == ws[1..][i];
      assert forall i :: 0 < i < |ws| ==> ws[i] == ws[1..][i - 1];
    }
  }

  lemma {:induction false} WordLetters(w: string, c: char)
    requires LowerWord(w)
    ensures MinLen(Word(w)) == |w| && Blind(Word(w))
    ensures Consumes(Word(w), c) ==> IsLetter(c)
  {
    assert Consumes(One(NoCase(w[0])), c) == SameLetter(w[0], c);
    if |w| > 1 {
      WordLetters(w[1..], c);
      assert Consumes(Word(w), c) == (Consumes(One(NoCase(w[0])), c) || Consumes(Word(w[1..]), c));
    }
  }

  lemma {:induction false} AnyWordLetters(ws: seq<string>, c: char)
    requires Words(ws)
    ensures MinLen(AnyWord(ws)) > 0 && Blind(AnyWord(ws))
    ensures Consumes(AnyWord(ws), c) ==> IsLetter(c)
  {
    WordLetters(ws[0], c);
    if |ws| > 1 { AnyWordLetters(ws[1..], c); }
  }
}
