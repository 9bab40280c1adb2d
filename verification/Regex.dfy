// A small regular-expression engine with the behaviour of a backtracking
// matcher: greedy and lazy repetition, ordered alternation, word boundaries and
// digit look-arounds.  Texts are ASCII, so \d, \w and \s are the ASCII classes.

module Wrappers {
  datatype Option<+T> = None | Some(value: T)
}

module Text {
  predicate IsDigit(c: char) { '0' <= c <= '9' }

  predicate IsLower(c: char) { 'a' <= c <= 'z' }

  predicate IsLetter(c: char) { IsLower(c) || 'A' <= c <= 'Z' }

  predicate IsWord(c: char) { IsDigit(c) || IsLetter(c) || c == '_' }

  // \s over ASCII: tab to carriage return, the four separators 28 to 31, space.
  predicate IsSpace(c: char) { '\t' <= c <= '\r' || 28 <= c as int <= 32 }

  predicate Ascii(s: string) { forall k :: 0 <= k < |s| ==> s[k] as int < 128 }

  predicate Lacks(s: string, c: char) { forall k :: 0 <= k < |s| ==> s[k] != c }

  // Whether two letters are equal up to ASCII case; `low` is lower case.
  predicate SameLetter(low: char, c: char) {
    c == low || (IsLower(low) && 'A' <= c <= 'Z' && c as int + 32 == low as int)
  }

  // Decimal notation, as str() writes a non-negative integer.
  function Decimal(n: nat): (s: string)
    ensures |s| > 0 && forall k :: 0 <= k < |s| ==> IsDigit(s[k])
  {
    var d := [(n % 10 + 48) as char];
    if n < 10 then d else Decimal(n / 10) + d
  }

  // The number that digits stand for.
  function ValueOf(s: string): int {
    if s == "" then 0 else 10 * ValueOf(s[..|s| - 1]) + (s[|s| - 1] as int - 48)
  }

  lemma {:induction false} DecimalRule(n: nat)
    ensures ValueOf(Decimal(n)) == n && (n > 0 ==> Decimal(n)[0] != '0') && (n == 0 ==> Decimal(n) == "0")
  {
    var s := Decimal(n);
    if n >= 10 {
      DecimalRule(n / 10);
      assert s[..|s| - 1] == Decimal(n / 10) && s[0] == Decimal(n / 10)[0];
    } else {
      assert s[..0] == "";
    }
  }

  // Distinct numbers are written differently.
  lemma {:induction false} DecimalInjective(m: nat, n: nat)
    requires Decimal(m) == Decimal(n)
    ensures m == n
  {
    var s, t := Decimal(m), Decimal(n);
    assert s[|s| - 1] == (m % 10 + 48) as char && t[|t| - 1] == (n % 10 + 48) as char;
    if m >= 10 && n >= 10 {
      assert s[..|s| - 1] == Decimal(m / 10) && t[..|t| - 1] == Decimal(n / 10);
      DecimalInjective(m / 10, n / 10);
    }
  }

  function Pow10(d: nat): (p: nat)
    ensures p > 0
  {
    if d == 0 then 1 else 10 * Pow10(d - 1)
  }

  lemma {:induction false} DecimalLength(n: nat, d: nat)
    requires d > 0 && n < Pow10(d)
    ensures |Decimal(n)| <= d
  {
    if n >= 10 {
      assert d > 1;
      DecimalLength(n / 10, d - 1);
    }
  }
}

module Regex {
  import opened Wrappers
  import opened Text

  datatype CharClass =
    | Digit | Letter | EmailLocal | EmailDomain | CardSep | PhoneSep | RefSep
    | Lit(ch: char)
    | NoCase(low: char)

  predicate Has(cls: CharClass, c: char) {
    match cls
    case Digit => IsDigit(c)
    case Letter => IsLetter(c)
    case EmailLocal => IsWord(c) || c in ".%+-"
    case EmailDomain => IsLetter(c) || IsDigit(c) || c in ".-"
    case CardSep => c in " -"
    case PhoneSep => IsSpace(c) || c in ".-"
    case RefSep => IsSpace(c) || c in ":#"
    case Lit(ch) => c == ch
    case NoCase(low) => SameLetter(low, c)
  }

  datatype Regex =
    | One(cls: CharClass)
    | Cat(first: Regex, second: Regex)
    | Either(left: Regex, right: Regex)
    | Repeat(body: Regex, lo: nat, hi: Option<nat>, greedy: bool)
    | WordEdge         // \b
    | NotAfterDigit    // (?<!\d)
    | NotBeforeDigit   // (?!\d)

  // All that a look-behind of one character can see of the text to the left.
  datatype Ctx = Ctx(word: bool, digit: bool)

  const EDGE := Ctx(false, false)

  function CtxOf(c: char): Ctx { Ctx(IsWord(c), IsDigit(c)) }

  // The context n characters further on.
  function After(x: Ctx, s: string, n: nat): Ctx
    requires n <= |s|
  {
    if n == 0 then x else CtxOf(s[n - 1])
  }

  predicate WordNext(s: string) { s != [] && IsWord(s[0]) }

  predicate DigitNext(s: string) { s != [] && IsDigit(s[0]) }

  function Less(k: nat): nat { if k == 0 then 0 else k - 1 }

  // What is left of a repetition after one round of it.
  function Again(r: Regex): Regex
    requires r.Repeat?
  {
    Repeat(r.body, Less(r.lo), if r.hi.Some? then Some(Less(r.hi.value)) else None, r.greedy)
  }

  predicate Within(ns: seq<nat>, k: nat) { forall i :: 0 <= i < |ns| ==> ns[i] <= k }

  /* ---- the backtracking matcher ---- */

  // The lengths of the matches of `r` at the front of `s`, in the order in which
  // a backtracking matcher tries them; `x` is what stands to the left of `s`.
  function Ends(r: Regex, x: Ctx, s: string): (ns: seq<nat>)
    ensures Within(ns, |s|)
    decreases 2 * |s| + 1, r, 0
  {
    match r
    case One(cls) => if s != [] && Has(cls, s[0]) then [1] else []
    case Cat(a, b) => Chain(Ends(a, x, s), b, x, s)
    case Either(a, b) => Ends(a, x, s) + Ends(b, x, s)
    case Repeat(b, lo, hi, greedy) =>
      var more := if hi == Some(0) then [] else
        Iterate(Ends(b, x, s), Again(r), x, s);
      var stop := if lo == 0 then [0] else [];
      if greedy then more + stop else stop + more
    case WordEdge => if x.word != WordNext(s) then [0] else []
    case NotAfterDigit => if x.digit then [] else [0]
    case NotBeforeDigit => if DigitNext(s) then [] else [0]
  }

  function Plus(k: nat, ns: seq<nat>): (ms: seq<nat>)
    ensures |ms| == |ns| && forall i :: 0 <= i < |ns| ==> ms[i] == k + ns[i]
  {
    seq(|ns|, i requires 0 <= i < |ns| => k + ns[i])
  }

  // Go on with `b` after each of the lengths `ns`, keeping their order.
  function Chain(ns: seq<nat>, b: Regex, x: Ctx, s: string): (ms: seq<nat>)
    requires Within(ns, |s|)
    ensures Within(ms, |s|)
    decreases 2 * |s| + 1, b, 1 + |ns|
  {
    if ns == [] then [] else
      Plus(ns[0], Ends(b, After(x, s, ns[0]), s[ns[0]..])) + Chain(ns[1..], b, x, s)
  }

  // Go on with the rest of a repetition after each of the lengths `ns`; a round
  // that takes no character is dropped.
  function Iterate(ns: seq<nat>, again: Regex, x: Ctx, s: string): (ms: seq<nat>)
    requires Within(ns, |s|)
    ensures Within(ms, |s|)
    decreases 2 * |s|, |ns|
  {
    if ns == [] then [] else
      var here := if ns[0] == 0 then [] else
        Plus(ns[0], Ends(again, After(x, s, ns[0]), s[ns[0]..]));
      here + Iterate(ns[1..], again, x, s)
  }

  /* ---- the reference meaning, without order ---- */

  ghost predicate Matches(r: Regex, x: Ctx, s: string, n: nat)
    decreases |s|, r
  {
    n <= |s| &&
    match r
    case One(cls) => n == 1 && Has(cls, s[0])
    case Cat(a, b) =>
      exists m: nat :: m <= n && Matches(a, x, s, m) && Matches(b, After(x, s, m), s[m..], n - m)
    case Either(a, b) => Matches(a, x, s, n) || Matches(b, x, s, n)
    case Repeat(b, lo, hi, greedy) =>
      || (lo == 0 && n == 0)
      || (hi != Some(0) && exists m: nat ::
            0 < m <= n && Matches(b, x, s, m) && Matches(Again(r), After(x, s, m), s[m..], n - m))
    case WordEdge => n == 0 && x.word != WordNext(s)
    case NotAfterDigit => n == 0 && !x.digit
    case NotBeforeDigit => n == 0 && !DigitNext(s)
  }

  lemma CatMeaning(r: Regex, x: Ctx, s: string, n: nat)
    requires r.Cat?
    ensures Matches(r, x, s, n) <==> n <= |s| && exists m: nat ::
      m <= n && Matches(r.first, x, s, m) && Matches(r.second, After(x, s, m), s[m..], n - m)
  {
  }

  lemma RepeatMeaning(r: Regex, x: Ctx, s: string, n: nat)
    requires r.Repeat?
    ensures Matches(r, x, s, n) <==> n <= |s| && ((r.lo == 0 && n == 0) || (r.hi != Some(0) && exists m: nat ::
      0 < m <= n && Matches(r.body, x, s, m) && Matches(Again(r), After(x, s, m), s[m..], n - m)))
  {
  }

  lemma WithinLength(r: Regex, x: Ctx, s: string, n: nat)
    requires Matches(r, x, s, n)
    ensures n <= |s|
  {
  }

  // The cases without a first part.
  lemma LeafMatches(r: Regex, x: Ctx, s: string, n: nat)
    requires n <= |s|
    ensures r.One? ==> (Matches(r, x, s, n) <==> n == 1 && Has(r.cls, s[0]))
    ensures r.Either? ==> (Matches(r, x, s, n) <==> Matches(r.left, x, s, n) || Matches(r.right, x, s, n))
    ensures r.Repeat? && r.lo == 0 && n == 0 ==> Matches(r, x, s, n)
    ensures r.WordEdge? ==> (Matches(r, x, s, n) <==> n == 0 && x.word != WordNext(s))
    ensures r.NotAfterDigit? ==> (Matches(r, x, s, n) <==> n == 0 && !x.digit)
    ensures r.NotBeforeDigit? ==> (Matches(r, x, s, n) <==> n == 0 && !DigitNext(s))
  {
  }

  lemma CatMatches(r: Regex, x: Ctx, s: string, m: nat, n: nat)
    requires r.Cat? && m <= n <= |s|
    requires Matches(r.first, x, s, m) && Matches(r.second, After(x, s, m), s[m..], n - m)
    ensures Matches(r, x, s, n)
  {
  }

  lemma RepeatMatches(r: Regex, x: Ctx, s: string, m: nat, n: nat)
    requires r.Repeat? && r.hi != Some(0) && 0 < m <= n <= |s|
    requires Matches(r.body, x, s, m) && Matches(Again(r), After(x, s, m), s[m..], n - m)
    ensures Matches(r, x, s, n)
  {
  }

  // How a match of a composite pattern comes about; `m` is where the first part ends.
  lemma Parse(r: Regex, x: Ctx, s: string, n: nat) returns (m: nat)
    requires Matches(r, x, s, n)
    ensures m <= n <= |s|
    ensures r.One? ==> n == 1 && Has(r.cls, s[0])
    ensures r.Cat? ==> Matches(r.first, x, s, m) && Matches(r.second, After(x, s, m), s[m..], n - m)
    ensures r.Either? ==> Matches(r.left, x, s, n) || Matches(r.right, x, s, n)
    ensures r.Repeat? && !(r.lo == 0 && n == 0) ==>
      r.hi != Some(0) && 0 < m && Matches(r.body, x, s, m) && Matches(Again(r), After(x, s, m), s[m..], n - m)
    ensures r.WordEdge? ==> n == 0 && x.word != WordNext(s)
    ensures r.NotAfterDigit? ==> n == 0 && !x.digit
    ensures r.NotBeforeDigit? ==> n == 0 && !DigitNext(s)
  {
    hide Matches;
    WithinLength(r, x, s, n);
    LeafMatches(r, x, s, n);
    m := 0;
    if r.Cat? {
      CatMeaning(r, x, s, n);
      m :| m <= n && Matches(r.first, x, s, m) && Matches(r.second, After(x, s, m), s[m..], n - m);
    } else if r.Repeat? && !(r.lo == 0 && n == 0) {
      RepeatMeaning(r, x, s, n);
      m :| 0 < m <= n && Matches(r.body, x, s, m) && Matches(Again(r), After(x, s, m), s[m..], n - m);
    }
  }

  // The matcher finds every match of the reference meaning, and nothing else.
  lemma {:induction false} EndsAreMatches(r: Regex, x: Ctx, s: string, n: nat)
    ensures n in Ends(r, x, s) <==> Matches(r, x, s, n)
    decreases 2 * |s| + 1, r, 0
  {
    hide Matches;
    if Matches(r, x, s, n) { WithinLength(r, x, s, n); }
    match r
    case Cat(a, b) =>
      forall m: nat { EndsAreMatches(a, x, s, m); }
      ChainMember(Ends(a, x, s), b, x, s, n);
      CatMeaning(r, x, s, n);
    case Either(a, b) =>
      EndsAreMatches(a, x, s, n);
      EndsAreMatches(b, x, s, n);
      if n <= |s| { LeafMatches(r, x, s, n); }
    case Repeat(b, lo, hi, greedy) =>
      forall m: nat { EndsAreMatches(b, x, s, m); }
      IterateMember(Ends(b, x, s), Again(r), x, s, n);
      RepeatMeaning(r, x, s, n);
    case _ =>
      if n <= |s| { LeafMatches(r, x, s, n); }
  }

  lemma PlusMember(k: nat, ns: seq<nat>, n: nat)
    ensures n in Plus(k, ns) <==> n >= k && n - k in ns
  {
    if n >= k && n - k in ns {
      var i :| 0 <= i < |ns| && ns[i] == n - k;
      assert Plus(k, ns)[i] == n;
    }
  }

  lemma {:induction false} ChainMember(ns: seq<nat>, b: Regex, x: Ctx, s: string, n: nat)
    requires Within(ns, |s|)
    ensures n in Chain(ns, b, x, s) <==>
      exists m: nat :: m <= n && m in ns && Matches(b, After(x, s, m), s[m..], n - m)
    decreases 2 * |s| + 1, b, 1 + |ns|
  {
    hide Matches, Ends;
    if ns != [] {
      var k := ns[0];
      var es := Ends(b, After(x, s, k), s[k..]);
      PlusMember(k, es, n);
      if k <= n { EndsAreMatches(b, After(x, s, k), s[k..], n - k); }
      ChainMember(ns[1..], b, x, s, n);
      assert Chain(ns, b, x, s) == Plus(k, es) + Chain(ns[1..], b, x, s);
      assert forall m :: m in ns <==> m == k || m in ns[1..];
    }
  }

  lemma {:induction false} IterateMember(ns: seq<nat>, again: Regex, x: Ctx, s: string, n: nat)
    requires Within(ns, |s|)
    ensures n in Iterate(ns, again, x, s) <==>
      exists m: nat :: 0 < m <= n && m in ns && Matches(again, After(x, s, m), s[m..], n - m)
    decreases 2 * |s|, |ns|
  {
    hide Matches, Ends;
    if ns != [] {
      var k := ns[0];
      var es := Ends(again, After(x, s, k), s[k..]);
      PlusMember(k, es, n);
      if 0 < k <= n { EndsAreMatches(again, After(x, s, k), s[k..], n - k); }
      IterateMember(ns[1..], again, x, s, n);
      assert Iterate(ns, again, x, s) == (if k == 0 then [] else Plus(k, es)) + Iterate(ns[1..], again, x, s);
      assert forall m :: m in ns <==> m == k || m in ns[1..];
    }
  }
}
