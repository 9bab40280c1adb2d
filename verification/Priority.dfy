// Which of several possible matches the matcher takes: for four patterns there is never
// more than one at a position, so the order of trying does not matter.

module Priority {
  import opened Wrappers
  import opened Text
  import opened Regex
  import opened RegexFacts
  import opened Scan
  import opened Patterns
  import opened PatternFacts

  function CountIn(s: string, cls: CharClass): nat {
    if s == [] then 0 else (if Has(cls, s[0]) then 1 else 0) + CountIn(s[1..], cls)
  }

  lemma {:induction false} CountAdd(a: string, b: string, cls: CharClass)
    ensures CountIn(a + b, cls) == CountIn(a, cls) + CountIn(b, cls)
    decreases |a|
  {
    hide Has;
    if a == [] {
      assert a + b == b;
    } else {
      assert (a + b)[1..] == a[1..] + b;
      CountAdd(a[1..], b, cls);
    }
  }

  lemma {:induction false} CountAll(s: string, cls: CharClass, yes: bool)
    requires forall k :: 0 <= k < |s| ==> Has(cls, s[k]) == yes
    ensures CountIn(s, cls) == if yes then |s| else 0
    decreases |s|
  {
    hide Has;
    if s != [] { CountAll(s[1..], cls, yes); }
  }

  lemma CountCut(s: string, m: nat, n: nat, cls: CharClass)
    requires m <= n <= |s|
    ensures CountIn(s[..n], cls) == CountIn(s[..m], cls) + CountIn(s[m..][..n - m], cls)
  {
    hide CountIn;
    assert s[..n] == s[..m] + s[m..][..n - m];
    CountAdd(s[..m], s[m..][..n - m], cls);
  }

  predicate CountBetween(s: string, n: nat, cls: CharClass, lo: nat, hi: nat) {
    n <= |s| && lo <= CountIn(s[..n], cls) <= hi
  }

  // A match of `r` at the front of `s` has between `lo` and `hi` characters of the class.
  ghost predicate Counts(r: Regex, cls: CharClass, lo: nat, hi: nat) {
    forall x, s, n: nat :: Matches(r, x, s, n) ==> CountBetween(s, n, cls, lo, hi)
  }

  lemma CountsOne(c: CharClass, cls: CharClass, yes: bool)
    requires forall ch :: Has(c, ch) ==> Has(cls, ch) == yes
    ensures Counts(One(c), cls, if yes then 1 else 0, if yes then 1 else 0)
  {
    hide Has;
    forall x, s, n: nat | Matches(One(c), x, s, n)
      ensures CountBetween(s, n, cls, if yes then 1 else 0, if yes then 1 else 0)
    {
      LeafMatches(One(c), x, s, 1);
      WithinLength(One(c), x, s, n);
      var _ := Parse(One(c), x, s, n);
      CountAll(s[..n], cls, yes);
    }
  }

  lemma CountsRun(c: CharClass, lo: nat, hi: nat, cls: CharClass, yes: bool)
    requires forall ch :: Has(c, ch) ==> Has(cls, ch) == yes
    ensures Counts(Repeat(One(c), lo, Some(hi), true), cls, if yes then lo else 0, if yes then hi else 0)
  {
    hide Has, CountIn, Matches;
    var r := Repeat(One(c), lo, Some(hi), true);
    forall x, s, n: nat | Matches(r, x, s, n)
      ensures CountBetween(s, n, cls, if yes then lo else 0, if yes then hi else 0)
    {
      WithinLength(r, x, s, n);
      ClassRun(r, x, s, n);
      CountAll(s[..n], cls, yes);
    }
  }

  lemma CountsCat(a: Regex, b: Regex, cls: CharClass, la: nat, ha: nat, lb: nat, hb: nat)
    requires Counts(a, cls, la, ha) && Counts(b, cls, lb, hb)
    ensures Counts(Cat(a, b), cls, la + lb, ha + hb)
  {
    hide CountIn, Matches;
    forall x, s, n: nat | Matches(Cat(a, b), x, s, n)
      ensures CountBetween(s, n, cls, la + lb, ha + hb)
    {
      var m := Parse(Cat(a, b), x, s, n);
      CountCut(s, m, n, cls);
    }
  }

  lemma CountsEither(a: Regex, b: Regex, cls: CharClass, lo: nat, hi: nat)
    requires Counts(a, cls, lo, hi) && Counts(b, cls, lo, hi)
    ensures Counts(Either(a, b), cls, lo, hi)
  {
    hide CountIn, Matches;
    forall x, s, n: nat | Matches(Either(a, b), x, s, n)
      ensures CountBetween(s, n, cls, lo, hi)
    {
      var _ := Parse(Either(a, b), x, s, n);
    }
  }

  lemma CountsOpt(r: Regex, cls: CharClass, lo: nat, hi: nat)
    requires Counts(r, cls, lo, hi)
    ensures Counts(Opt(r), cls, 0, hi)
  {
    hide Matches;
    forall x, s, n: nat | Matches(Opt(r), x, s, n)
      ensures CountBetween(s, n, cls, 0, hi)
    {
      WithinLength(Opt(r), x, s, n);
      OptMatch(r, x, s, n);
    }
  }

  // Exactly `k` rounds.
  lemma {:induction false} CountsTimes(r: Regex, k: nat, cls: CharClass, c: nat)
    requires Counts(r, cls, c, c)
    ensures Counts(Repeat(r, k, Some(k), true), cls, k * c, k * c)
  {
    hide Matches;
    var q := Repeat(r, k, Some(k), true);
    if k > 0 {
      CountsTimes(r, k - 1, cls, c);
      assert Again(q) == Repeat(r, k - 1, Some(k - 1), true);
      assert k * c == c + (k - 1) * c;
    }
    forall x, s, n: nat | Matches(q, x, s, n)
      ensures CountBetween(s, n, cls, k * c, k * c)
    {
      var m := Parse(q, x, s, n);
      if k > 0 { CountCut(s, m, n, cls); }
    }
  }

  /* ---- telephone numbers ---- */

  // A telephone number has ten to twelve digits.
  lemma PhoneDigits()
    ensures Counts(PHONE, Digit, 10, 12)
  {
    hide Counts;
    CountsOne(Lit('+'), Digit, false);
    CountsOne(Lit('('), Digit, false);
    CountsOne(Lit(')'), Digit, false);
    CountsRun(PhoneSep, 0, 1, Digit, false);
    CountsRun(Digit, 1, 2, Digit, true);
    CountsRun(Digit, 3, 3, Digit, true);
    CountsRun(Digit, 4, 4, Digit, true);
    var n := COUNTRY.body;
    CountsOpt(One(Lit('+')), Digit, 0, 0);
    CountsCat(n.second.first, n.second.second, Digit, 1, 2, 0, 0);
    CountsCat(n.first, n.second, Digit, 0, 0, 1, 2);
    CountsOpt(n, Digit, 1, 2);
    var a := AREA.left;
    CountsCat(a.second.first, a.second.second, Digit, 3, 3, 0, 0);
    CountsCat(a.first, a.second, Digit, 0, 0, 3, 3);
    CountsEither(a, AREA.right, Digit, 3, 3);
    var l := LOCAL.second;
    CountsCat(l.second.first, l.second.second, Digit, 0, 0, 4, 4);
    CountsCat(l.first, l.second, Digit, 3, 3, 4, 4);
    CountsCat(LOCAL.first, l, Digit, 0, 0, 7, 7);
    CountsCat(AREA, LOCAL, Digit, 3, 3, 7, 7);
    CountsCat(COUNTRY, PHONE.second, Digit, 0, 2, 10, 10);
  }

  lemma PhoneCount(x: Ctx, s: string, n: nat)
    requires Matches(Body(Phone), x, s, n)
    ensures CountBetween(s, n, Digit, 10, 12)
  {
    hide Matches, CountBetween;
    PhoneDigits();
  }

  lemma {:induction false} CountMost(t: string, n: nat)
    requires n <= |t|
    ensures CountIn(t[..n], Digit) <= n
    ensures CountIn(t[..n], Digit) == n ==> forall k :: 0 <= k < n ==> IsDigit(t[k])
  {
    if n > 0 {
      CountMost(t, n - 1);
      CountCut(t, n - 1, n, Digit);
      assert t[n - 1..][..1] == [t[n - 1]];
      assert [t[n - 1]][1..] == [];
    }
  }

  lemma PhoneNotLonger(x: Ctx, s: string, n: nat, m: nat)
    requires Matches(PHONE, x, s, n) && Matches(PHONE, x, s, m) && n <= |s| && !DigitNext(s[n..])
    ensures m <= n
  {
    hide Matches, CountIn, ParenPhone;
    PhoneDigits();
    PhoneShape(x, s, n);
    PhoneShape(x, s, m);
    if n < m {
      assert s[n..][0] == s[n];
      assert n < m - 4;
      CountCut(s, n, m - 4, Digit);
      CountCut(s, m - 4, m, Digit);
      CountAll(s[m - 4..][..4], Digit, true);
    }
  }

  /* ---- addresses ---- */

  lemma IpDots()
    ensures Counts(IP, Lit('.'), 3, 3)
  {
    hide Counts;
    CountsRun(Digit, 1, 3, Lit('.'), false);
    CountsOne(Lit('.'), Lit('.'), true);
    CountsCat(OCTET_DOT.first, OCTET_DOT.second, Lit('.'), 0, 0, 1, 1);
    CountsTimes(OCTET_DOT, 3, Lit('.'), 1);
    CountsCat(IP.first, IP.second, Lit('.'), 3, 3, 0, 0);
  }

  lemma IpNotLonger(x: Ctx, s: string, n: nat, m: nat)
    requires Matches(IP, x, s, n) && Matches(IP, x, s, m) && n <= |s| && After(x, s, n).word != WordNext(s[n..])
    ensures m <= n
  {
    hide Matches, CountIn, Consumes;
    IpDots();
    IpEnds(x, s, n);
    IpEnds(x, s, m);
    if n < m {
      assert s[n..][0] == s[n];
      MatchAlphabet(IP, x, s, m, n);
      IpProfile(s[n]);
      CountCut(s, n, n + 1, Lit('.'));
      CountAll(s[n..][..1], Lit('.'), true);
      CountCut(s, n + 1, m, Lit('.'));
    }
  }

  // At most one length matches at a position.
  lemma EndIsUnique(p: Pattern, x: Ctx, s: string, n: nat, m: nat)
    requires p in {Ssn, Phone, Ip} && Matches(Rx(p), x, s, n) && Matches(Rx(p), x, s, m)
    ensures n == m
  {
    hide Matches, Rx;
    Guarded(p, x, s, n);
    Guarded(p, x, s, m);
    match p
    case Ssn => SsnShape(x, s, n); SsnShape(x, s, m);
    case Phone => PhoneNotLonger(x, s, n, m); PhoneNotLonger(x, s, m, n);
    case Ip => IpNotLonger(x, s, n, m); IpNotLonger(x, s, m, n);
  }

  /* ---- card numbers: the lazy separators make the match stop early ---- */

  const SEPS := Repeat(One(CardSep), 0, None, false)

  // A word boundary behind the first `e` characters.
  predicate Boundary(s: string, e: nat) {
    0 < e <= |s| && IsWord(s[e - 1]) != WordNext(s[e..])
  }

  // The first length in the list that ends at a word boundary.
  function FirstBoundary(ns: seq<nat>, s: string): Option<nat> {
    if ns == [] then None else if Boundary(s, ns[0]) then Some(ns[0]) else FirstBoundary(ns[1..], s)
  }

  // The first length that ends at a word boundary is the shortest one that does.
  ghost predicate ShortestFirst(ns: seq<nat>, s: string) {
    forall m :: m in ns && Boundary(s, m) ==>
      FirstBoundary(ns, s).Some? && FirstBoundary(ns, s).value <= m
  }

  lemma {:induction false} FirstBoundaryAdd(a: seq<nat>, b: seq<nat>, s: string)
    ensures FirstBoundary(a + b, s) == if FirstBoundary(a, s).Some? then FirstBoundary(a, s) else FirstBoundary(b, s)
    ensures FirstBoundary(a, s).Some? ==> FirstBoundary(a, s).value in a
    decreases |a|
  {
    hide Boundary;
    if a == [] {
      assert a + b == b;
    } else {
      assert (a + b)[1..] == a[1..] + b;
      FirstBoundaryAdd(a[1..], b, s);
    }
  }

  // Separators are tried from none upwards.
  lemma {:induction false} SepEnds(x: Ctx, s: string)
    ensures var ns := Ends(SEPS, x, s);
      && ns != [] && ns[0] == 0
      && (forall i :: 0 <= i < |ns| - 1 ==> ns[i] < |s| && s[ns[i]] in " -")
    decreases |s|
  {
    if s != [] && s[0] in " -" {
      SepEnds(CtxOf(s[0]), s[1..]);
      assert Ends(SEPS.body, x, s) == [1];
      var ms := Ends(SEPS, CtxOf(s[0]), s[1..]);
      assert Iterate([1], SEPS, x, s) == Plus(1, ms) by { assert [1][1..] == []; }
      assert Ends(SEPS, x, s) == [0] + Plus(1, ms);
      var ns := [0] + Plus(1, ms);
      forall i | 0 <= i < |ns| - 1
        ensures ns[i] < |s| && s[ns[i]] in " -"
      {
        if i > 0 { assert ns[i] == 1 + ms[i - 1] && s[ns[i]] == s[1..][ms[i - 1]]; }
      }
    } else {
      assert Ends(SEPS.body, x, s) == [];
      assert Ends(SEPS, x, s) == [0];
    }
  }

  lemma DigitEnds(x: Ctx, s: string)
    ensures var ns := Ends(CARD_DIGIT, x, s);
      && (ns == [] <==> !DigitNext(s))
      && (ns != [] ==> ns[0] == 1)
      && (forall i :: 0 <= i < |ns| - 1 ==> ns[i] < |s| && s[ns[i]] in " -")
  {
    if DigitNext(s) {
      SepEnds(CtxOf(s[0]), s[1..]);
      var ms := Ends(SEPS, CtxOf(s[0]), s[1..]);
      assert Ends(CARD_DIGIT.first, x, s) == [1];
      assert Chain([1], SEPS, x, s) == Plus(1, ms) by { assert [1][1..] == []; }
      var ns := Plus(1, ms);
      assert Ends(CARD_DIGIT, x, s) == ns;
      forall i | 0 <= i < |ns| - 1
        ensures ns[i] < |s| && s[ns[i]] in " -"
      {
        assert s[ns[i]] == s[1..][ms[i]];
      }
    } else {
      assert Ends(CARD_DIGIT.first, x, s) == [];
    }
  }

  // A round of digits; `r` is what the card pattern still asks for.
  predicate Rounds(r: Regex) { r.Repeat? && r.body == CARD_DIGIT && r.greedy }

  lemma NoDigitNoRound(r: Regex, x: Ctx, s: string)
    requires Rounds(r) && !DigitNext(s)
    ensures Ends(r, x, s) == if r.lo == 0 then [0] else []
  {
    DigitEnds(x, s);
    hide CARD_DIGIT;
    assert Ends(r.body, x, s) == [];
  }

  // Only the last of the lengths lets the repetition go on.
  lemma {:induction false} OnlyLast(ns: seq<nat>, r: Regex, x: Ctx, s: string)
    requires ns != [] && Within(ns, |s|) && forall i :: 0 <= i < |ns| ==> ns[i] > 0
    requires forall i :: 0 <= i < |ns| - 1 ==> Ends(r, After(x, s, ns[i]), s[ns[i]..]) == []
    ensures var k := ns[|ns| - 1]; Iterate(ns, r, x, s) == Plus(k, Ends(r, After(x, s, k), s[k..]))
  {
    hide Ends;
    if |ns| > 1 { OnlyLast(ns[1..], r, x, s); }
  }

  lemma {:induction false} PlusBoundary(k: nat, ns: seq<nat>, s: string)
    requires 0 < k <= |s| && (0 in ns ==> !Boundary(s, k))
    ensures FirstBoundary(Plus(k, ns), s) ==
      match FirstBoundary(ns, s[k..]) case None => None case Some(e) => Some(k + e)
    ensures forall e: nat :: e in ns ==> (Boundary(s, k + e) <==> Boundary(s[k..], e))
  {
    forall e: nat | e in ns
      ensures Boundary(s, k + e) <==> Boundary(s[k..], e)
    {
      ShiftBoundary(k, e, s);
    }
    hide Boundary;
    if ns != [] {
      PlusBoundary(k, ns[1..], s);
      assert Plus(k, ns)[1..] == Plus(k, ns[1..]);
    }
  }

  lemma ShiftBoundary(k: nat, e: nat, s: string)
    requires 0 < k <= |s| && (e == 0 ==> !Boundary(s, k))
    ensures Boundary(s, k + e) <==> Boundary(s[k..], e)
  {
    if k + e <= |s| { assert s[k..][e..] == s[k + e..]; }
  }

  lemma ZerosOnly(k: nat, ns: seq<nat>, s: string)
    requires Boundary(s, k) && forall i :: 0 <= i < |ns| ==> ns[i] == 0
    ensures ShortestFirst(Plus(k, ns), s)
  {
    hide Boundary;
    var ms := Plus(k, ns);
    if ms != [] { assert ms[0] == k; }
  }

  lemma PlusShortest(k: nat, ns: seq<nat>, s: string)
    requires 0 < k <= |s| && ShortestFirst(ns, s[k..])
    requires 0 in ns && Boundary(s, k) ==> forall i :: 0 <= i < |ns| ==> ns[i] == 0
    ensures ShortestFirst(Plus(k, ns), s)
  {
    hide Boundary, FirstBoundary;
    if 0 in ns && Boundary(s, k) {
      ZerosOnly(k, ns, s);
    } else {
      PlusBoundary(k, ns, s);
      forall m | m in Plus(k, ns) && Boundary(s, m)
        ensures FirstBoundary(Plus(k, ns), s).Some? && FirstBoundary(Plus(k, ns), s).value <= m
      {
        PlusMember(k, ns, m);
        assert Boundary(s[k..], m - k);
      }
    }
  }

  lemma ZeroLast(ns: seq<nat>, s: string)
    requires ShortestFirst(ns, s)
    ensures ShortestFirst(ns + [0], s)
  {
    FirstBoundaryAdd(ns, [0], s);
    assert !Boundary(s, 0);
    hide Boundary, FirstBoundary;
  }

  lemma {:induction false} RoundsShortest(r: Regex, x: Ctx, s: string)
    requires Rounds(r)
    ensures ShortestFirst(Ends(r, x, s), s)
    decreases |s|, 1
  {
    hide ShortestFirst, CARD_DIGIT, Iterate;
    var more := if r.hi == Some(0) then [] else Iterate(Ends(r.body, x, s), Again(r), x, s);
    EmptyShortest(s);
    if r.hi != Some(0) { MoreShortest(Again(r), x, s); }
    ZeroLast(more, s);
    assert Ends(r, x, s) == more + (if r.lo == 0 then [0] else []);
    assert more + [] == more;
  }

  lemma {:induction false} MoreShortest(again: Regex, x: Ctx, s: string)
    requires Rounds(again)
    ensures ShortestFirst(Iterate(Ends(CARD_DIGIT, x, s), again, x, s), s)
    decreases |s|, 0
  {
    hide Ends, ShortestFirst, CARD_DIGIT, Boundary;
    var ns := Ends(CARD_DIGIT, x, s);
    DigitEnds(x, s);
    PositiveRounds(x, s);
    if ns == [] {
      EmptyShortest(s);
    } else if again.lo == 0 && |ns| > 1 {
      NoDigitNoRound(again, After(x, s, 1), s[1..]);
      assert Plus(1, [0]) == [1];
      assert Boundary(s, 1) by { StopBeforeSep(s); }
      OneShortest(Iterate(ns, again, x, s), s);
    } else {
      var k := ns[|ns| - 1];
      forall i | 0 <= i < |ns| - 1
        ensures Ends(again, After(x, s, ns[i]), s[ns[i]..]) == []
      {
        NoDigitNoRound(again, After(x, s, ns[i]), s[ns[i]..]);
      }
      OnlyLast(ns, again, x, s);
      RoundsShortest(again, After(x, s, k), s[k..]);
      StopsInside(again, After(x, s, k), s, k);
      PlusShortest(k, Ends(again, After(x, s, k), s[k..]), s);
    }
  }

  lemma StopBeforeSep(s: string)
    requires |s| > 1 && IsDigit(s[0]) && s[1] in " -"
    ensures Boundary(s, 1)
  {
  }

  // Where the repetition may stop at a word boundary, it cannot go on either.
  lemma StopsInside(again: Regex, y: Ctx, s: string, k: nat)
    requires Rounds(again) && 0 < k <= |s| && DigitNext(s) && (again.lo == 0 ==> k == 1)
    ensures var sub := Ends(again, y, s[k..]);
      0 in sub && Boundary(s, k) ==> forall i :: 0 <= i < |sub| ==> sub[i] == 0
  {
    EndsAreMatches(again, y, s[k..], 0);
    RepeatMeaning(again, y, s[k..], 0);
    if again.lo == 0 && Boundary(s, k) { NoDigitNoRound(again, y, s[k..]); }
  }

  lemma EmptyShortest(s: string)
    ensures ShortestFirst([], s)
  {
  }

  lemma PositiveRounds(x: Ctx, s: string)
    ensures forall i :: 0 <= i < |Ends(CARD_DIGIT, x, s)| ==> Ends(CARD_DIGIT, x, s)[i] > 0
  {
    forall i | 0 <= i < |Ends(CARD_DIGIT, x, s)|
      ensures Ends(CARD_DIGIT, x, s)[i] > 0
    {
      EndsAreMatches(CARD_DIGIT, x, s, Ends(CARD_DIGIT, x, s)[i]);
      MatchLength(CARD_DIGIT, x, s, Ends(CARD_DIGIT, x, s)[i]);
    }
  }

  lemma OneShortest(ns: seq<nat>, s: string)
    requires ns != [] && ns[0] == 1 && Boundary(s, 1)
    ensures ShortestFirst(ns, s)
  {
  }

  // The lengths after which the trailing \b holds, in their order.
  lemma {:induction false} ChainBoundary(ns: seq<nat>, x: Ctx, s: string)
    requires Within(ns, |s|) && forall i :: 0 <= i < |ns| ==> ns[i] > 0
    ensures var ms := Chain(ns, WordEdge, x, s);
      if ms == [] then FirstBoundary(ns, s).None? else FirstBoundary(ns, s) == Some(ms[0])
  {
    if ns != [] {
      ChainBoundary(ns[1..], x, s);
      var here := Ends(WordEdge, After(x, s, ns[0]), s[ns[0]..]);
      assert here == if Boundary(s, ns[0]) then [0] else [];
      assert Plus(ns[0], here) == if Boundary(s, ns[0]) then [ns[0]] else [];
    }
  }

  lemma GuardedEnds(b: Regex, x: Ctx, s: string)
    ensures Ends(Cat(WordEdge, Cat(b, WordEdge)), x, s) ==
      if x.word != WordNext(s) then Chain(Ends(b, x, s), WordEdge, x, s) else []
  {
    hide Ends, Chain;
    var r := Cat(b, WordEdge);
    CatEnds(b, WordEdge, x, s);
    CatEnds(WordEdge, r, x, s);
    EdgeEnds(x, s);
    if x.word != WordNext(s) { FrontChain(r, x, s); } else { NoChain(r, x, s); }
  }

  lemma EdgeEnds(x: Ctx, s: string)
    ensures Ends(WordEdge, x, s) == if x.word != WordNext(s) then [0] else []
  {
  }

  lemma NoChain(r: Regex, x: Ctx, s: string)
    ensures Chain([], r, x, s) == []
  {
  }

  lemma FrontChain(r: Regex, x: Ctx, s: string)
    ensures Chain([0], r, x, s) == Ends(r, x, s)
  {
    hide Ends;
    assert s[0..] == s && [0][1..] == [];
    assert Plus(0, Ends(r, x, s)) == Ends(r, x, s);
  }

  lemma CardFirst(x: Ctx, s: string)
    ensures First(Rx(Card), x, s).Some? ==> FirstBoundary(Ends(CARD, x, s), s) == First(Rx(Card), x, s)
  {
    hide Ends, CARD;
    var ns := Ends(CARD, x, s);
    forall i | 0 <= i < |ns| ensures ns[i] > 0 {
      EndsAreMatches(CARD, x, s, ns[i]);
      CardShape(x, s, ns[i]);
    }
    ChainBoundary(ns, x, s);
    GuardedEnds(CARD, x, s);
    assert Rx(Card) == Cat(WordEdge, Cat(CARD, WordEdge));
  }

  lemma CardIsRounds()
    ensures Rounds(CARD)
  {
  }

  // Of all card matches at a position the shortest is taken: the separators are lazy,
  // so the match stops at the first word boundary from the thirteenth digit on.
  lemma CardTakesShortest(x: Ctx, s: string, m: nat)
    requires First(Rx(Card), x, s).Some? && Matches(Rx(Card), x, s, m)
    ensures First(Rx(Card), x, s).value <= m
  {
    hide Matches, CARD, First, Ends, Rx;
    CardFirst(x, s);
    assert Rounds(CARD) by { CardIsRounds(); }
    RoundsShortest(CARD, x, s);
    Guarded(Card, x, s, m);
    EndsAreMatches(CARD, x, s, m);
    CardShape(x, s, m);
  }

  /* ---- e-mail addresses: the longest match is taken ---- */

  // Where the preferred way through a sequence of two patterns comes from.
  lemma {:induction false} ChainHead(ns: seq<nat>, b: Regex, x: Ctx, s: string) returns (i: nat)
    requires Within(ns, |s|) && Chain(ns, b, x, s) != []
    ensures i < |ns|
    ensures var es := Ends(b, After(x, s, ns[i]), s[ns[i]..]); es != [] && Chain(ns, b, x, s)[0] == ns[i] + es[0]
    ensures forall j :: 0 <= j < i ==> Ends(b, After(x, s, ns[j]), s[ns[j]..]) == []
  {
    hide Ends;
    if Ends(b, After(x, s, ns[0]), s[ns[0]..]) != [] {
      i := 0;
    } else {
      var k := ChainHead(ns[1..], b, x, s);
      i := k + 1;
      assert forall j :: 0 < j < i ==> ns[j] == ns[1..][j - 1];
    }
  }

  predicate Descending(ns: seq<nat>) { forall i, j :: 0 <= i < j < |ns| ==> ns[i] > ns[j] }

  // A greedy run is tried from the longest downwards.
  lemma {:induction false} RunDescending(c: CharClass, lo: nat, x: Ctx, s: string)
    ensures Descending(Ends(AtLeast(c, lo), x, s))
    decreases |s|
  {
    hide Has;
    var r := AtLeast(c, lo);
    if s != [] && Has(c, s[0]) {
      RunDescending(c, Less(lo), CtxOf(s[0]), s[1..]);
      var ms := Ends(Again(r), CtxOf(s[0]), s[1..]);
      assert Ends(r.body, x, s) == [1];
      assert Iterate([1], Again(r), x, s) == Plus(1, ms) by { assert [1][1..] == []; }
      assert Ends(r, x, s) == Plus(1, ms) + (if lo == 0 then [0] else []);
    } else {
      assert Ends(r.body, x, s) == [];
    }
  }

  const TLD := AtLeast(Letter, 2)

  const DOT_TLD := Cat(One(Lit('.')), TLD)

  const DOMAIN := Cat(AtLeast(EmailDomain, 1), DOT_TLD)

  lemma CatEnds(a: Regex, b: Regex, x: Ctx, s: string)
    ensures Ends(Cat(a, b), x, s) == Chain(Ends(a, x, s), b, x, s)
  {
  }

  lemma AfterOne(c: CharClass, r: Regex, x: Ctx, s: string)
    ensures Ends(Cat(One(c), r), x, s) ==
      if s != [] && Has(c, s[0]) then Plus(1, Ends(r, CtxOf(s[0]), s[1..])) else []
  {
    CatEnds(One(c), r, x, s);
    if s != [] && Has(c, s[0]) {
      assert Ends(One(c), x, s) == [1];
      OneChain(r, x, s);
    }
  }

  lemma OneChain(r: Regex, x: Ctx, s: string)
    requires s != []
    ensures Chain([1], r, x, s) == Plus(1, Ends(r, CtxOf(s[0]), s[1..]))
  {
    hide Ends;
    assert [1][1..] == [];
    assert Plus(1, Ends(r, CtxOf(s[0]), s[1..])) + [] == Plus(1, Ends(r, CtxOf(s[0]), s[1..]));
  }

  // The preferred end of a dot and a top-level domain is the longest; all of it behind
  // the dot is letters.
  lemma DotTldLongest(r: Regex, x: Ctx, s: string, m: nat)
    requires r == DOT_TLD && Matches(r, x, s, m)
    ensures var ns := Ends(r, x, s); ns != [] && m <= ns[0]
    ensures 0 < m <= |s| && s[0] == '.' && forall k :: 0 < k < m ==> IsLetter(s[k])
  {
    hide Ends, Matches;
    var tld := r.second;
    EndsAreMatches(r, x, s, m);
    WithinLength(r, x, s, m);
    var k := Parse(r, x, s, m);
    var _ := Parse(r.first, x, s, k);
    RunDescending(Letter, 2, CtxOf(s[0]), s[1..]);
    ClassRun(tld, CtxOf(s[0]), s[1..], m - 1);
    assert forall i :: 0 < i < m ==> s[i] == s[1..][i - 1];
    AfterOne(Lit('.'), tld, x, s);
    var ms := Ends(tld, CtxOf(s[0]), s[1..]);
    PlusMember(1, ms, m);
    var j :| 0 <= j < |ms| && ms[j] == m - 1;
  }

  lemma DomainLongest(a: Regex, b: Regex, x: Ctx, s: string, m: nat)
    requires a == AtLeast(EmailDomain, 1) && b == DOT_TLD && Matches(Cat(a, b), x, s, m)
    ensures var ns := Ends(Cat(a, b), x, s); ns != [] && m <= ns[0]
  {
    hide Matches, Ends, Chain, DOT_TLD;
    EndsAreMatches(Cat(a, b), x, s, m);
    CatEnds(a, b, x, s);
    var ns := Ends(a, x, s);
    RunDescending(EmailDomain, 1, x, s);
    var i := ChainHead(ns, b, x, s);
    var k := ns[i];
    var es := Ends(b, After(x, s, k), s[k..]);
    EndsAreMatches(b, After(x, s, k), s[k..], es[0]);
    DotTldLongest(b, After(x, s, k), s[k..], es[0]);
    var d := Parse(Cat(a, b), x, s, m);
    EndsAreMatches(a, x, s, d);
    var j :| 0 <= j < |ns| && ns[j] == d;
    EndsAreMatches(b, After(x, s, d), s[d..], m - d);
    DotTldLongest(b, After(x, s, d), s[d..], m - d);
    assert i <= j && d <= k;
    if d < k { assert s[d..][k - d] == s[k] && s[k..][0] == s[k]; }
  }

  lemma AddressLongest(a: Regex, b: Regex, d: Regex, x: Ctx, s: string, m: nat)
    requires a == AtLeast(EmailLocal, 1) && b == Cat(One(Lit('@')), d) && d == DOMAIN
    requires Matches(Cat(a, b), x, s, m)
    ensures var ns := Ends(Cat(a, b), x, s); ns != [] && m <= ns[0]
  {
    hide Matches, Ends, Chain, DOMAIN;
    EndsAreMatches(Cat(a, b), x, s, m);
    CatEnds(a, b, x, s);
    var ns := Ends(a, x, s);
    var i := ChainHead(ns, b, x, s);
    var k := ns[i];
    EndsAreMatches(a, x, s, k);
    ClassRun(a, x, s, k);
    AfterOne(Lit('@'), d, After(x, s, k), s[k..]);
    assert s[k] == '@';
    var l := Parse(Cat(a, b), x, s, m);
    ClassRun(a, x, s, l);
    var o := Parse(b, After(x, s, l), s[l..], m - l);
    var _ := Parse(b.first, After(x, s, l), s[l..], o);
    assert s[l] == '@';
    assert k == l;
    DomainIs(d);
    DomainLongest(d.first, d.second, CtxOf(s[l..][0]), s[l..][1..], m - l - 1);
  }

  lemma DomainIs(d: Regex)
    requires d == DOMAIN
    ensures d.Cat? && d.first == AtLeast(EmailDomain, 1) && d.second == DOT_TLD
  {
  }

  lemma EmailIs() returns (a: Regex, b: Regex, d: Regex)
    ensures a == AtLeast(EmailLocal, 1) && b == Cat(One(Lit('@')), d) && d == DOMAIN && Rx(Email) == Cat(a, b)
  {
    a, b, d := EMAIL.first, EMAIL.second, DOMAIN;
  }

  // Of all e-mail matches at a position the longest is taken.
  lemma EmailTakesLongest(x: Ctx, s: string, m: nat)
    requires Matches(Rx(Email), x, s, m)
    ensures First(Rx(Email), x, s).Some? && m <= First(Rx(Email), x, s).value
  {
    hide Matches, Ends, Rx, DOMAIN;
    var a, b, d := EmailIs();
    AddressLongest(a, b, d, x, s, m);
  }
}
