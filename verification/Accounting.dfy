// apps/api/src/observability/usage.py and costing.py: token totals and their price, in
// exact arithmetic.

module Accounting {
  import opened Wrappers

  /* ---- token usage ---- */

  // A reported count: absent or null, a number, or something int() does not accept.
  datatype Tokens = Absent | Count(n: nat) | Malformed

  datatype Usage = Usage(prompt: Tokens, completion: Tokens)

  // A model response: for every generation its usage, if its message has any, and the
  // usage of the older `llm_output` form.
  datatype Response = Response(generations: seq<seq<Option<Usage>>>, legacy: Option<Usage>)

  // Counted tokens, unless counting raises.
  datatype Extract = Counted(prompt: nat, completion: nat) | Raises

  function Value(t: Tokens): nat { if t.Count? then t.n else 0 }

  predicate Sound(u: Usage) { u.prompt != Malformed && u.completion != Malformed }

  function Flatten(generations: seq<seq<Option<Usage>>>): seq<Option<Usage>> {
    if generations == [] then [] else generations[0] + Flatten(generations[1..])
  }

  function SumPrompt(us: seq<Option<Usage>>): nat {
    if us == [] then 0 else (if us[0].Some? then Value(us[0].value.prompt) else 0) + SumPrompt(us[1..])
  }

  function SumCompletion(us: seq<Option<Usage>>): nat {
    if us == [] then 0 else (if us[0].Some? then Value(us[0].value.completion) else 0) + SumCompletion(us[1..])
  }

  predicate AllSound(us: seq<Option<Usage>>) { forall i :: 0 <= i < |us| && us[i].Some? ==> Sound(us[i].value) }

  // The sum over all generations; the older form only where that sum is zero; and
  // nothing at all where a count that is looked at is malformed.
  function Extracted(r: Response): Extract {
    var us := Flatten(r.generations);
    var p, c := SumPrompt(us), SumCompletion(us);
    if !AllSound(us) then Raises
    else if p > 0 || c > 0 || r.legacy.None? then Counted(p, c)
    else if !Sound(r.legacy.value) then Raises
    else Counted(Value(r.legacy.value.prompt), Value(r.legacy.value.completion))
  }

  lemma {:induction false} SumsAdd(a: seq<Option<Usage>>, b: seq<Option<Usage>>)
    ensures SumPrompt(a + b) == SumPrompt(a) + SumPrompt(b)
    ensures SumCompletion(a + b) == SumCompletion(a) + SumCompletion(b)
    decreases |a|
  {
    if a == [] {
      assert a + b == b;
    } else {
      assert (a + b)[1..] == a[1..] + b;
      SumsAdd(a[1..], b);
    }
  }

  lemma {:induction false} FlattenSnoc(gs: seq<seq<Option<Usage>>>, g: seq<Option<Usage>>)
    ensures Flatten(gs + [g]) == Flatten(gs) + g
  {
    if gs == [] {
      assert [g][1..] == [];
    } else {
      assert (gs + [g])[1..] == gs[1..] + [g];
      FlattenSnoc(gs[1..], g);
    }
  }

  lemma {:induction false} FlattenPrefix(gs: seq<seq<Option<Usage>>>, i: nat, j: nat)
    requires i < |gs| && j < |gs[i]|
    ensures exists k :: 0 <= k < |Flatten(gs)| && Flatten(gs)[k] == gs[i][j]
  {
    if i == 0 {
      assert Flatten(gs)[j] == gs[0][j];
    } else {
      FlattenPrefix(gs[1..], i - 1, j);
      var k :| 0 <= k < |Flatten(gs[1..])| && Flatten(gs[1..])[k] == gs[i][j];
      assert Flatten(gs)[|gs[0]| + k] == gs[i][j];
    }
  }

  // One generation: its counts are added, or it raises.
  method AddGenerations(gs: seq<Option<Usage>>) returns (r: Extract)
    ensures r == if AllSound(gs) then Counted(SumPrompt(gs), SumCompletion(gs)) else Raises
  {
    var prompt, completion: nat := 0, 0;
    for i := 0 to |gs|
      invariant AllSound(gs[..i])
      invariant prompt == SumPrompt(gs[..i]) && completion == SumCompletion(gs[..i])
    {
      assert gs[..i + 1] == gs[..i] + [gs[i]];
      SumsAdd(gs[..i], [gs[i]]);
      if gs[i].Some? {
        var u := gs[i].value;
        if u.prompt == Malformed || u.completion == Malformed { return Raises; }
        prompt := prompt + Value(u.prompt);
        completion := completion + Value(u.completion);
      }
    }
    assert gs[..|gs|] == gs;
    return Counted(prompt, completion);
  }

  method ExtractUsage(r: Response) returns (e: Extract)
    ensures e == Extracted(r)
  {
    var prompt, completion: nat := 0, 0;
    var gs := r.generations;
    for i := 0 to |gs|
      invariant AllSound(Flatten(gs[..i]))
      invariant prompt == SumPrompt(Flatten(gs[..i])) && completion == SumCompletion(Flatten(gs[..i]))
    {
      var one := AddGenerations(gs[i]);
      if one.Raises? {
        var j :| 0 <= j < |gs[i]| && gs[i][j].Some? && !Sound(gs[i][j].value);
        FlattenPrefix(gs, i, j);
        return Raises;
      }
      assert gs[..i + 1] == gs[..i] + [gs[i]];
      FlattenSnoc(gs[..i], gs[i]);
      SumsAdd(Flatten(gs[..i]), gs[i]);
      prompt, completion := prompt + one.prompt, completion + one.completion;
    }
    assert gs[..|gs|] == gs;
    if prompt > 0 || completion > 0 { return Counted(prompt, completion); }
    if r.legacy.Some? {
      var u := r.legacy.value;
      if u.prompt == Malformed || u.completion == Malformed { return Raises; }
      prompt, completion := prompt + Value(u.prompt), completion + Value(u.completion);
    }
    return Counted(prompt, completion);
  }

  function PromptOf(r: Response): nat { var e := Extracted(r); if e.Counted? then e.prompt else 0 }

  function CompletionOf(r: Response): nat { var e := Extracted(r); if e.Counted? then e.completion else 0 }

  function TotalPrompt(rs: seq<Response>): nat {
    if rs == [] then 0 else TotalPrompt(rs[..|rs| - 1]) + PromptOf(rs[|rs| - 1])
  }

  function TotalCompletion(rs: seq<Response>): nat {
    if rs == [] then 0 else TotalCompletion(rs[..|rs| - 1]) + CompletionOf(rs[|rs| - 1])
  }

  /* ---- counts, told by what was reported ---- */

  function Tokens0(t: Tokens): nat { match t case Count(n) => n case _ => 0 }

  // What the generations report, summed up; `f` picks one of the two counts.
  function Total(us: seq<Option<Usage>>, f: Usage -> Tokens): nat {
    if us == [] then 0 else
      var last := us[|us| - 1];
      Total(us[..|us| - 1], f) + if last.Some? then Tokens0(f(last.value)) else 0
  }

  function TotalOf(gs: seq<seq<Option<Usage>>>, f: Usage -> Tokens): nat {
    if gs == [] then 0 else TotalOf(gs[..|gs| - 1], f) + Total(gs[|gs| - 1], f)
  }

  function Prompts(): Usage -> Tokens { (u: Usage) => u.prompt }

  function Completions(): Usage -> Tokens { (u: Usage) => u.completion }

  ghost predicate MalformedAt(r: Response, i: nat, j: nat) {
    && i < |r.generations| && j < |r.generations[i]| && r.generations[i][j].Some?
    && Malformed in {r.generations[i][j].value.prompt, r.generations[i][j].value.completion}
  }

  lemma {:induction false} SumsAreTotals(us: seq<Option<Usage>>)
    ensures SumPrompt(us) == Total(us, Prompts()) && SumCompletion(us) == Total(us, Completions())
  {
    if us != [] {
      var n := |us| - 1;
      SumsAreTotals(us[..n]);
      SumsAdd(us[..n], [us[n]]);
      assert us == us[..n] + [us[n]] && [us[n]][1..] == [];
    }
  }

  lemma {:induction false} FlatTotals(gs: seq<seq<Option<Usage>>>)
    ensures SumPrompt(Flatten(gs)) == TotalOf(gs, Prompts()) && SumCompletion(Flatten(gs)) == TotalOf(gs, Completions())
  {
    if gs != [] {
      var n := |gs| - 1;
      FlatTotals(gs[..n]);
      assert gs == gs[..n] + [gs[n]];
      FlattenSnoc(gs[..n], gs[n]);
      SumsAdd(Flatten(gs[..n]), gs[n]);
      SumsAreTotals(gs[n]);
    }
  }

  lemma {:induction false} FlattenFrom(gs: seq<seq<Option<Usage>>>, k: nat) returns (i: nat, j: nat)
    requires k < |Flatten(gs)|
    ensures i < |gs| && j < |gs[i]| && gs[i][j] == Flatten(gs)[k]
  {
    if k < |gs[0]| {
      i, j := 0, k;
    } else {
      i, j := FlattenFrom(gs[1..], k - |gs[0]|);
      i := i + 1;
    }
  }

  lemma SoundIff(r: Response)
    ensures AllSound(Flatten(r.generations)) <==> forall i: nat, j: nat :: !MalformedAt(r, i, j)
  {
    var us := Flatten(r.generations);
    if AllSound(us) {
      forall i: nat, j: nat ensures !MalformedAt(r, i, j) {
        if MalformedAt(r, i, j) {
          FlattenPrefix(r.generations, i, j);
        }
      }
    }
    if forall i: nat, j: nat :: !MalformedAt(r, i, j) {
      forall k | 0 <= k < |us| && us[k].Some? ensures Sound(us[k].value) {
        var i, j := FlattenFrom(r.generations, k);
        assert !MalformedAt(r, i, j);
      }
    }
  }

  // What a response counts: the sums of what its generations report; what the older form
  // reports if both are zero; nothing where a count that is looked at is malformed.
  lemma ExtractRule(r: Response)
    ensures var p, c := TotalOf(r.generations, Prompts()), TotalOf(r.generations, Completions());
      Extracted(r) ==
        if exists i: nat, j: nat :: MalformedAt(r, i, j) then Raises
        else if p != 0 || c != 0 then Counted(p, c)
        else match r.legacy
          case None => Counted(0, 0)
          case Some(u) =>
            if u.prompt == Malformed || u.completion == Malformed then Raises
            else Counted(Tokens0(u.prompt), Tokens0(u.completion))
    ensures match Extracted(r)
      case Counted(p, c) => PromptOf(r) == p && CompletionOf(r) == c
      case Raises => PromptOf(r) == 0 && CompletionOf(r) == 0
  {
    FlatTotals(r.generations);
    SoundIff(r);
    hide Flatten, SumPrompt, SumCompletion, AllSound, TotalOf, MalformedAt;
  }

  // One collector per case; `seen` is the list of the responses it was told of.
  class UsageCollector {
    var promptTokens: nat
    var completionTokens: nat
    var llmCalls: nat
    ghost var seen: seq<Response>

    // Totals are the sums over the responses, each with its own fallback; a malformed
    // response is a call without tokens.
    ghost predicate Valid()
      reads this
    {
      promptTokens == TotalPrompt(seen) && completionTokens == TotalCompletion(seen) && llmCalls == |seen|
    }

    constructor ()
      ensures Valid() && seen == []
    {
      promptTokens, completionTokens, llmCalls, seen := 0, 0, 0, [];
    }

    method OnLlmEnd(r: Response)
      requires Valid()
      modifies this
      ensures Valid() && seen == old(seen) + [r]
    {
      seen := seen + [r];
      llmCalls := llmCalls + 1;
      var e := ExtractUsage(r);
      if e.Raises? { return; }
      promptTokens := promptTokens + e.prompt;
      completionTokens := completionTokens + e.completion;
    }

    predicate HasUsage()
      reads this
    {
      promptTokens > 0 || completionTokens > 0
    }
  }

  /* ---- prices ---- */

  // USD per thousand tokens, for prompt and completion.
  datatype Rate = Rate(prompt: real, completion: real)

  const DEFAULT_RATE := Rate(0.00015, 0.00060)

  datatype Price = Price(provider: string, model: string, rate: Rate)

  const PRICES := [
    Price("openai", "gpt-4o-mini", DEFAULT_RATE), Price("openai", "gpt-4o", Rate(0.0025, 0.0100)),
    Price("openai", "gpt-4-turbo", Rate(0.0100, 0.0300)), Price("openai", "gpt-3.5-turbo", Rate(0.0005, 0.0015)),
    Price("openai", "*", Rate(0.00015, 0.00060))] + [
    Price("groq", "llama-3.3-70b-versatile", Rate(0.00059, 0.00079)),
    Price("groq", "llama-3.1-8b-instant", Rate(0.00005, 0.00008)), Price("groq", "*", Rate(0.00059, 0.00079))] + [
    Price("gemini", "gemini-2.0-flash", Rate(0.00010, 0.00040)),
    Price("gemini", "gemini-1.5-pro", Rate(0.00125, 0.00500)), Price("gemini", "*", Rate(0.00010, 0.00040))] + [
    Price("anthropic", "claude-sonnet-4-6", Rate(0.00300, 0.01500)),
    Price("anthropic", "claude-haiku-4-5-20251001", Rate(0.00080, 0.00400)),
    Price("anthropic", "*", Rate(0.00300, 0.01500))] + [
    Price("nvidia", "*", Rate(0.0, 0.0)), Price("ollama", "*", Rate(0.0, 0.0))]

  // The entry for a provider and a model; the keys of the table are all different.
  function Find(prices: seq<Price>, provider: string, model: string): Option<Rate> {
    if prices == [] then None
    else if prices[0].provider == provider && prices[0].model == model then Some(prices[0].rate)
    else Find(prices[1..], provider, model)
  }

  function Listed(provider: string, model: string): Option<Rate> { Find(PRICES, provider, model) }

  function LowerChar(c: char): char { if 'A' <= c <= 'Z' then (c as int + 32) as char else c }

  function Lower(s: string): string { seq(|s|, i requires 0 <= i < |s| => LowerChar(s[i])) }

  // The rate of the model, or of its provider, or the default.
  function RateFor(model: string, provider: string): Rate {
    var p := Lower(if provider == "" then "openai" else provider);
    match Listed(p, model)
    case Some(r) => r
    case None => match Listed(p, "*") case Some(r) => r case None => DEFAULT_RATE
  }

  // The nearest whole number; halfway cases go to the even neighbour.
  function RoundHalfEven(x: real): int {
    var f := x.Floor;
    var d := x - f as real;
    if d < 0.5 then f else if d > 0.5 then f + 1 else if f % 2 == 0 then f else f + 1
  }

  const UNITS: real := 100000000.0

  // round(x, 8).
  function Round8(x: real): real { RoundHalfEven(x * UNITS) as real / UNITS }

  function EstimateCost(prompt: nat, completion: nat, model: string, provider: string): real {
    var r := RateFor(model, provider);
    Round8(prompt as real / 1000.0 * r.prompt + completion as real / 1000.0 * r.completion)
  }

  // A rate of so many hundred-thousandths of a dollar per thousand tokens.
  predicate Grained(x: real, k: nat) { x == k as real / 100000.0 }

  lemma {:induction false} FoundIsListed(prices: seq<Price>, provider: string, model: string)
    ensures var r := Find(prices, provider, model);
      r.Some? ==> exists i :: 0 <= i < |prices| && prices[i] == Price(provider, model, r.value)
  {
    if prices != [] {
      FoundIsListed(prices[1..], provider, model);
      var r := Find(prices[1..], provider, model);
      if r.Some? {
        var i :| 0 <= i < |prices[1..]| && prices[1..][i] == Price(provider, model, r.value);
        assert prices[i + 1] == prices[1..][i];
      }
    }
  }

  // All rates of the table are whole numbers of hundred-thousandths.
  lemma PricesGrained(i: nat) returns (a: nat, b: nat)
    requires i < |PRICES|
    ensures Grained(PRICES[i].rate.prompt, a) && Grained(PRICES[i].rate.completion, b)
  {
    a, b := (PRICES[i].rate.prompt * 100000.0).Floor, (PRICES[i].rate.completion * 100000.0).Floor;
  }

  lemma ListedGrained(provider: string, model: string) returns (a: nat, b: nat)
    requires Listed(provider, model).Some?
    ensures Grained(Listed(provider, model).value.prompt, a) && Grained(Listed(provider, model).value.completion, b)
  {
    hide PRICES, Grained;
    FoundIsListed(PRICES, provider, model);
    var r := Listed(provider, model).value;
    var i :| 0 <= i < |PRICES| && PRICES[i] == Price(provider, model, r);
    a, b := PricesGrained(i);
  }

  lemma RateGrained(model: string, provider: string) returns (a: nat, b: nat)
    ensures Grained(RateFor(model, provider).prompt, a) && Grained(RateFor(model, provider).completion, b)
  {
    var p := Lower(if provider == "" then "openai" else provider);
    if Listed(p, model).Some? {
      a, b := ListedGrained(p, model);
    } else if Listed(p, "*").Some? {
      a, b := ListedGrained(p, "*");
    } else {
      a, b := 15, 60;
    }
  }

  lemma WholeUnits(u: int)
    ensures Round8(u as real / UNITS) == u as real / UNITS
  {
    assert u as real / UNITS * UNITS == u as real;
    assert (u as real).Floor == u;
  }

  // Every cost is a whole number of 1e-8 dollars, so rounding does nothing: the estimate
  // is the exact price.
  lemma CostIsExact(prompt: nat, completion: nat, model: string, provider: string) returns (a: nat, b: nat)
    ensures var r := RateFor(model, provider); Grained(r.prompt, a) && Grained(r.completion, b)
    ensures EstimateCost(prompt, completion, model, provider) == (prompt * a + completion * b) as real / UNITS
    ensures var r := RateFor(model, provider);
      EstimateCost(prompt, completion, model, provider) ==
        prompt as real / 1000.0 * r.prompt + completion as real / 1000.0 * r.completion
  {
    hide RateFor, Round8, Grained;
    a, b := RateGrained(model, provider);
    var r := RateFor(model, provider);
    Unrounded(prompt, completion, r, a, b);
    WholeUnits(prompt * a + completion * b);
  }

  lemma Unrounded(prompt: nat, completion: nat, r: Rate, a: nat, b: nat)
    requires Grained(r.prompt, a) && Grained(r.completion, b)
    ensures prompt as real / 1000.0 * r.prompt + completion as real / 1000.0 * r.completion ==
      (prompt * a + completion * b) as real / UNITS
  {
    OnePart(prompt, a, r.prompt);
    OnePart(completion, b, r.completion);
    hide Grained;
    SumUnits(prompt * a, completion * b);
  }

  lemma SumUnits(u: int, v: int)
    ensures u as real / UNITS + v as real / UNITS == (u + v) as real / UNITS
  {
  }

  lemma OnePart(tokens: nat, k: nat, rate: real)
    requires Grained(rate, k)
    ensures tokens as real / 1000.0 * rate == (tokens * k) as real / UNITS
  {
    assert (tokens * k) as real == tokens as real * k as real;
  }

  /* ---- the price list ---- */

  // The two texts are the same up to the case of letters; `low` is in lower case.
  predicate UpToCase(low: string, t: string) {
    |t| == |low| && forall k :: 0 <= k < |t| ==>
      if 'A' <= t[k] <= 'Z' then low[k] as int == t[k] as int + 32 else low[k] == t[k]
  }

  // Row `i` is for the provider; an absent one counts as "openai".
  predicate RowFor(i: nat, provider: string)
    requires i < |PRICES|
  {
    UpToCase(PRICES[i].provider, if provider == "" then "openai" else provider)
  }

  // No row is for the provider and the model.
  ghost predicate Unlisted(model: string, provider: string) {
    forall i: nat :: i < |PRICES| && PRICES[i].model == model ==> !RowFor(i, provider)
  }

  lemma LowerRule(t: string, low: string)
    ensures UpToCase(low, t) <==> low == Lower(t)
  {
  }

  predicate KeysDiffer(a: Price, b: Price) { a.provider != b.provider || a.model != b.model }

  // Rows of the same provider stand together, and name different models.
  lemma PricesDistinct(i: nat, j: nat)
    requires i < j < |PRICES|
    ensures KeysDiffer(PRICES[i], PRICES[j])
  {
  }

  lemma {:induction false} FindRule(prices: seq<Price>, provider: string, model: string, i: nat)
    requires i < |prices| && prices[i].provider == provider && prices[i].model == model
    requires forall j :: 0 <= j < i ==> KeysDiffer(prices[j], prices[i])
    ensures Find(prices, provider, model) == Some(prices[i].rate)
  {
    if i > 0 {
      assert KeysDiffer(prices[0], prices[i]);
      assert forall j :: 0 <= j < i - 1 ==> prices[1..][j] == prices[j + 1];
      FindRule(prices[1..], provider, model, i - 1);
    }
  }

  lemma ListedRule(provider: string, model: string, i: nat)
    requires i < |PRICES| && PRICES[i].provider == provider && PRICES[i].model == model
    ensures Listed(provider, model) == Some(PRICES[i].rate)
  {
    forall j | 0 <= j < i ensures KeysDiffer(PRICES[j], PRICES[i]) { PricesDistinct(j, i); }
    hide PRICES;
    FindRule(PRICES, provider, model, i);
  }

  lemma UnlistedRule(model: string, provider: string)
    requires Unlisted(model, provider)
    ensures Listed(Lower(if provider == "" then "openai" else provider), model) == None
  {
    hide PRICES, Find;
    var name := if provider == "" then "openai" else provider;
    var p := Lower(name);
    FoundIsListed(PRICES, p, model);
    var r := Listed(p, model);
    if r.Some? {
      var i :| 0 <= i < |PRICES| && PRICES[i] == Price(p, model, r.value);
      LowerRule(name, PRICES[i].provider);
    }
  }

  // So many tokens at a rate.
  function PriceAt(prompt: nat, completion: nat, rate: Rate): real {
    prompt as real / 1000.0 * rate.prompt + completion as real / 1000.0 * rate.completion
  }

  // A cost is the price at the row of the provider and the model; if there is none, at the
  // row of the provider for other models; and else at the default rate.
  lemma PriceRule(prompt: nat, completion: nat, model: string, provider: string)
    ensures forall i: nat :: i < |PRICES| && PRICES[i].model == model && RowFor(i, provider) ==>
      EstimateCost(prompt, completion, model, provider) == PriceAt(prompt, completion, PRICES[i].rate)
    ensures Unlisted(model, provider) ==>
      forall i: nat :: i < |PRICES| && PRICES[i].model == "*" && RowFor(i, provider) ==>
        EstimateCost(prompt, completion, model, provider) == PriceAt(prompt, completion, PRICES[i].rate)
    ensures Unlisted(model, provider) && Unlisted("*", provider) ==>
      EstimateCost(prompt, completion, model, provider) == PriceAt(prompt, completion, Rate(0.00015, 0.00060))
  {
    hide EstimateCost, PRICES, RateFor, PriceAt;
    var _, _ := CostIsExact(prompt, completion, model, provider);
    forall i: nat | i < |PRICES| && RowFor(i, provider)
      ensures PRICES[i].model == model ==> RateFor(model, provider) == PRICES[i].rate
      ensures PRICES[i].model == "*" && Unlisted(model, provider) ==> RateFor(model, provider) == PRICES[i].rate
    {
      RateOfRow(model, provider, i);
    }
    if Unlisted(model, provider) && Unlisted("*", provider) { DefaultRate(model, provider); }
    PriceIs(prompt, completion, RateFor(model, provider));
  }

  lemma PriceIs(prompt: nat, completion: nat, r: Rate)
    ensures PriceAt(prompt, completion, r) ==
      prompt as real / 1000.0 * r.prompt + completion as real / 1000.0 * r.completion
  {
  }

  lemma RateOfRow(model: string, provider: string, i: nat)
    requires i < |PRICES| && RowFor(i, provider)
    ensures PRICES[i].model == model ==> RateFor(model, provider) == PRICES[i].rate
    ensures PRICES[i].model == "*" && Unlisted(model, provider) ==> RateFor(model, provider) == PRICES[i].rate
  {
    hide PRICES, Listed, Unlisted;
    var name := if provider == "" then "openai" else provider;
    LowerRule(name, PRICES[i].provider);
    ListedRule(Lower(name), PRICES[i].model, i);
    if Unlisted(model, provider) { UnlistedRule(model, provider); }
  }

  lemma DefaultRate(model: string, provider: string)
    requires Unlisted(model, provider) && Unlisted("*", provider)
    ensures RateFor(model, provider) == Rate(0.00015, 0.00060)
  {
    hide PRICES, Listed, Unlisted;
    UnlistedRule(model, provider);
    UnlistedRule("*", provider);
    Default();
  }

  lemma Default()
    ensures DEFAULT_RATE == Rate(0.00015, 0.00060)
  {
  }

  /* ---- totals ---- */

  datatype Spend = Spend(prompt: nat, completion: nat, cost: real)

  function AddSpend(a: Spend, b: Spend): Spend {
    Spend(a.prompt + b.prompt, a.completion + b.completion, Round8(a.cost + b.cost))
  }

  function SpendOf(prompt: nat, completion: nat, model: string, provider: string): Spend {
    Spend(prompt, completion, EstimateCost(prompt, completion, model, provider))
  }

  // The price of a sum of tokens is the sum of the prices, and adding records of usage
  // one by one loses nothing.
  lemma CostAdds(p: nat, c: nat, q: nat, d: nat, model: string, provider: string)
    ensures EstimateCost(p + q, c + d, model, provider) ==
      EstimateCost(p, c, model, provider) + EstimateCost(q, d, model, provider)
    ensures AddSpend(SpendOf(p, c, model, provider), SpendOf(q, d, model, provider)) ==
      SpendOf(p + q, c + d, model, provider)
  {
    hide EstimateCost, RateFor, Round8;
    var a, b := CostIsExact(p, c, model, provider);
    var a', b' := CostIsExact(q, d, model, provider);
    var a'', b'' := CostIsExact(p + q, c + d, model, provider);
    assert a == a' == a'' && b == b' == b'';
    hide Grained;
    var u, v := p * a + c * b, q * a + d * b;
    AddTokens(p, q, a, c, d, b);
    SumUnits(u, v);
    WholeUnits(u + v);
  }

  lemma AddTokens(p: nat, q: nat, a: nat, c: nat, d: nat, b: nat)
    ensures (p + q) * a + (c + d) * b == (p * a + c * b) + (q * a + d * b)
  {
  }

  function CostPerCall(rs: seq<Response>, model: string, provider: string): real {
    if rs == [] then 0.0 else
      CostPerCall(rs[..|rs| - 1], model, provider) +
        EstimateCost(PromptOf(rs[|rs| - 1]), CompletionOf(rs[|rs| - 1]), model, provider)
  }

  // The cost of a case, computed from its totals, is the sum of the costs of its calls.
  lemma {:induction false} CostOfTotals(rs: seq<Response>, model: string, provider: string)
    ensures EstimateCost(TotalPrompt(rs), TotalCompletion(rs), model, provider) == CostPerCall(rs, model, provider)
  {
    hide EstimateCost;
    if rs == [] {
      var _, _ := CostIsExact(0, 0, model, provider);
    } else {
      var r := rs[|rs| - 1];
      CostOfTotals(rs[..|rs| - 1], model, provider);
      var p, c := TotalPrompt(rs[..|rs| - 1]), TotalCompletion(rs[..|rs| - 1]);
      CostAdds(p, c, PromptOf(r), CompletionOf(r), model, provider);
    }
  }
}
