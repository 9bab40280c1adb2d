// apps/api/src/guardrails/injection.py: the scored injection scan, the quarantine of
// tool output, and the outbound leak check.

module Json {
  datatype Json =
    | Null
    | Bool(b: bool)
    | Num(x: real)
    | Str(s: string)
    | List(items: seq<Json>)
    | Dict(entries: seq<(string, Json)>)

  // Whether `if value:` holds.
  predicate Truthy(v: Json) {
    match v
    case Null => false
    case Bool(b) => b
    case Num(x) => x != 0.0
    case Str(s) => s != ""
    case List(items) => items != []
    case Dict(entries) => entries != []
  }

  // The values that count as false.
  predicate Falsy(v: Json) {
    v == Null || v == Bool(false) || v == Num(0.0) || v == Str("") || v == List([]) || v == Dict([])
  }

  lemma TruthyRule(v: Json)
    ensures Truthy(v) <==> !Falsy(v)
  {
  }

  // dict.get for a key.
  function Lookup(entries: seq<(string, Json)>, key: string): Json {
    if entries == [] then Null
    else if entries[0].0 == key then entries[0].1
    else Lookup(entries[1..], key)
  }

  // The value of the key, unless the dict lacks it.
  ghost predicate Holds(entries: seq<(string, Json)>, key: string, v: Json) {
    exists i :: 0 <= i < |entries| && entries[i] == (key, v) && forall j :: 0 <= j < i ==> entries[j].0 != key
  }

  lemma {:induction false} LookupRule(entries: seq<(string, Json)>, key: string)
    ensures (forall i :: 0 <= i < |entries| ==> entries[i].0 != key) ==> Lookup(entries, key) == Null
    ensures (exists i :: 0 <= i < |entries| && entries[i].0 == key) ==> Holds(entries, key, Lookup(entries, key))
    decreases |entries|
  {
    if entries != [] {
      LookupRule(entries[1..], key);
      if entries[0].0 == key {
        assert entries[0] == (key, entries[0].1);
      } else if i :| 0 <= i < |entries| && entries[i].0 == key {
        assert entries[1..][i - 1].0 == key;
        var v := Lookup(entries[1..], key);
        var j :| 0 <= j < |entries[1..]| && entries[1..][j] == (key, v) &&
          forall l :: 0 <= l < j ==> entries[1..][l].0 != key;
        assert entries[j + 1] == (key, v);
        assert forall l :: 0 < l < j + 1 ==> entries[l] == entries[1..][l - 1];
      }
    }
  }

  // A dict with an error in it.
  ghost predicate NamesError(v: Json) { v.Dict? && exists e :: Holds(v.entries, "error", e) && !Falsy(e) }

  lemma NamesErrorRule(v: Json)
    ensures NamesError(v) <==> v.Dict? && Truthy(Lookup(v.entries, "error"))
  {
    if v.Dict? {
      LookupRule(v.entries, "error");
      TruthyRule(Lookup(v.entries, "error"));
      forall e | Holds(v.entries, "error", e) ensures e == Lookup(v.entries, "error") {
        OneValue(v.entries, "error", e);
      }
    }
  }

  lemma OneValue(entries: seq<(string, Json)>, key: string, e: Json)
    requires Holds(entries, key, e)
    ensures Lookup(entries, key) == e
  {
    var i :| 0 <= i < |entries| && entries[i] == (key, e) && forall j :: 0 <= j < i ==> entries[j].0 != key;
    LookupRule(entries, key);
    var v := Lookup(entries, key);
    assert Holds(entries, key, v);
    var k :| 0 <= k < |entries| && entries[k] == (key, v) && forall j :: 0 <= j < k ==> entries[j].0 != key;
  }
}

module Injection {
  import opened Wrappers
  import opened Text
  import opened Json

  datatype Signal = Signal(name: string, weight: nat)

  const HIGH_SIGNALS := [
    Signal("override_instructions", 3), Signal("forget_instructions", 3), Signal("exfiltrate_prompt", 3),
    Signal("role_tag_smuggling", 3), Signal("special_token_smuggling", 3), Signal("chat_template_smuggling", 3),
    Signal("code_fence_role_smuggling", 3), Signal("jailbreak_persona", 3), Signal("privilege_escalation", 3),
    Signal("tool_coercion", 3), Signal("encoded_payload", 3), Signal("execute_coercion", 3),
    Signal("echo_coercion", 3), Signal("translate_coercion", 3), Signal("persistent_reframe", 3)]

  const MEDIUM_SIGNALS := [
    Signal("persona_hijack", 2), Signal("roleplay_coercion", 2), Signal("new_rules", 2),
    Signal("safety_override", 2), Signal("identity_suppression", 2)]

  const LOW_SIGNALS := [Signal("prompt_probing", 1), Signal("hypothetical_framing", 1)]

  const ALL_SIGNALS := HIGH_SIGNALS + MEDIUM_SIGNALS + LOW_SIGNALS

  const REFUSE_THRESHOLD: nat := 3

  const MARKER := "[QUARANTINED: injection signal in external data]"

  // What is left open of the scanner: how a text is folded, which signal or leak
  // pattern matches which folded text, and the leak patterns themselves.
  datatype Guard = Guard(
    fold: string -> string,
    matches: (string, string) -> bool,
    leakPatterns: seq<string>,
    leaks: (string, string) -> bool)

  function Normalize(g: Guard, text: string): string { if text == "" then "" else g.fold(text) }

  /* ---- scoring ---- */

  // The labels of the signals that match, in the order of the list.
  function Matched(g: Guard, signals: seq<Signal>, text: string): (labels: seq<string>)
    ensures |labels| <= |signals|
  {
    if signals == [] then [] else
      (if g.matches(signals[0].name, text) then [signals[0].name] else []) + Matched(g, signals[1..], text)
  }

  lemma {:induction false} MatchedAdd(g: Guard, a: seq<Signal>, b: seq<Signal>, text: string)
    ensures Matched(g, a + b, text) == Matched(g, a, text) + Matched(g, b, text)
    decreases |a|
  {
    if a == [] {
      assert a + b == b;
    } else {
      assert (a + b)[1..] == a[1..] + b;
      MatchedAdd(g, a[1..], b, text);
    }
  }

  // What the tiers weigh, by counting.
  function TierScore(g: Guard, text: string): nat {
    3 * |Matched(g, HIGH_SIGNALS, text)| + 2 * |Matched(g, MEDIUM_SIGNALS, text)| + |Matched(g, LOW_SIGNALS, text)|
  }

  function Labels(g: Guard, text: string): seq<string> {
    Matched(g, HIGH_SIGNALS, text) + Matched(g, MEDIUM_SIGNALS, text) + Matched(g, LOW_SIGNALS, text)
  }

  // The weights added up signal by signal, as the loop does.
  function WeightSum(g: Guard, signals: seq<Signal>, text: string): nat {
    if signals == [] then 0 else
      (if g.matches(signals[0].name, text) then signals[0].weight else 0) + WeightSum(g, signals[1..], text)
  }

  lemma {:induction false} WeightSumAdd(g: Guard, a: seq<Signal>, b: seq<Signal>, text: string)
    ensures WeightSum(g, a + b, text) == WeightSum(g, a, text) + WeightSum(g, b, text)
    decreases |a|
  {
    if a == [] {
      assert a + b == b;
    } else {
      assert (a + b)[1..] == a[1..] + b;
      WeightSumAdd(g, a[1..], b, text);
    }
  }

  lemma {:induction false} TierWeight(g: Guard, signals: seq<Signal>, w: nat, text: string)
    requires forall i :: 0 <= i < |signals| ==> signals[i].weight == w
    ensures WeightSum(g, signals, text) == w * |Matched(g, signals, text)|
    decreases |signals|
  {
    if signals != [] {
      TierWeight(g, signals[1..], w, text);
      if g.matches(signals[0].name, text) {
        assert w * (1 + |Matched(g, signals[1..], text)|) == w + w * |Matched(g, signals[1..], text)|;
      }
    }
  }

  lemma ScoreIsTierScore(g: Guard, text: string)
    ensures WeightSum(g, ALL_SIGNALS, text) == TierScore(g, text)
    ensures Matched(g, ALL_SIGNALS, text) == Labels(g, text)
  {
    WeightSumAdd(g, HIGH_SIGNALS + MEDIUM_SIGNALS, LOW_SIGNALS, text);
    WeightSumAdd(g, HIGH_SIGNALS, MEDIUM_SIGNALS, text);
    MatchedAdd(g, HIGH_SIGNALS + MEDIUM_SIGNALS, LOW_SIGNALS, text);
    MatchedAdd(g, HIGH_SIGNALS, MEDIUM_SIGNALS, text);
    TierWeight(g, HIGH_SIGNALS, 3, text);
    TierWeight(g, MEDIUM_SIGNALS, 2, text);
    TierWeight(g, LOW_SIGNALS, 1, text);
  }

  method RiskScore(g: Guard, text: string) returns (score: nat, matched: seq<string>)
    ensures score == TierScore(g, text) && matched == Labels(g, text)
  {
    score, matched := 0, [];
    for i := 0 to |ALL_SIGNALS|
      invariant score == WeightSum(g, ALL_SIGNALS[..i], text)
      invariant matched == Matched(g, ALL_SIGNALS[..i], text)
    {
      var signal := ALL_SIGNALS[i];
      assert ALL_SIGNALS[..i + 1] == ALL_SIGNALS[..i] + [signal];
      WeightSumAdd(g, ALL_SIGNALS[..i], [signal], text);
      MatchedAdd(g, ALL_SIGNALS[..i], [signal], text);
      if g.matches(signal.name, text) {
        score := score + signal.weight;
        matched := matched + [signal.name];
      }
    }
    assert ALL_SIGNALS[..|ALL_SIGNALS|] == ALL_SIGNALS;
    ScoreIsTierScore(g, text);
  }

  function Join(sep: string, parts: seq<string>): string {
    if parts == [] then "" else if |parts| == 1 then parts[0] else parts[0] + sep + Join(sep, parts[1..])
  }

  function Reason(score: nat, labels: seq<string>): string {
    "risk_score=" + Decimal(score) + " signals=" + Join(",", labels)
  }

  // The reason for refusing a text, if it is refused.
  function Refusal(g: Guard, text: string): Option<string> {
    var t := Normalize(g, text);
    if text == "" || TierScore(g, t) < REFUSE_THRESHOLD then None else Some(Reason(TierScore(g, t), Labels(g, t)))
  }

  method DetectInjection(g: Guard, text: string) returns (refuse: bool, reason: Option<string>)
    ensures reason == Refusal(g, text) && refuse == reason.Some?
  {
    if text == "" { return false, None; }
    var score, matched := RiskScore(g, Normalize(g, text));
    if score >= REFUSE_THRESHOLD { return true, Some(Reason(score, matched)); }
    return false, None;
  }

  predicate IsInjection(g: Guard, text: string) { Refusal(g, text).Some? }

  // A text is refused for one strong signal, for two of medium strength, or for a medium
  // and a weak one; weak ones alone never refuse.
  lemma TierRule(g: Guard, text: string)
    ensures IsInjection(g, text) <==>
      var t := Normalize(g, text);
      var h, m, l := |Matched(g, HIGH_SIGNALS, t)|, |Matched(g, MEDIUM_SIGNALS, t)|, |Matched(g, LOW_SIGNALS, t)|;
      text != "" && (h >= 1 || m >= 2 || (m >= 1 && l >= 1))
  {
    hide Matched;
    var t := Normalize(g, text);
    assert |Matched(g, LOW_SIGNALS, t)| <= |LOW_SIGNALS| == 2;
  }

  /* ---- the verdict on the folded text ---- */

  // The places in a list of signals that match.
  ghost function Firing(g: Guard, signals: seq<Signal>, folded: string): set<int> {
    set i | 0 <= i < |signals| && g.matches(signals[i].name, folded)
  }

  lemma FiringSnoc(g: Guard, init: seq<Signal>, last: Signal, folded: string)
    ensures |Firing(g, init + [last], folded)| ==
      |Firing(g, init, folded)| + if g.matches(last.name, folded) then 1 else 0
  {
    var n := |init|;
    assert n !in Firing(g, init, folded);
    if g.matches(last.name, folded) {
      assert Firing(g, init + [last], folded) == Firing(g, init, folded) + {n};
    } else {
      assert Firing(g, init + [last], folded) == Firing(g, init, folded);
    }
  }

  lemma {:induction false} MatchedAreFiring(g: Guard, signals: seq<Signal>, folded: string)
    ensures |Matched(g, signals, folded)| == |Firing(g, signals, folded)|
    decreases |signals|
  {
    if signals == [] {
      assert Firing(g, signals, folded) == {};
    } else {
      hide Firing;
      var n := |signals| - 1;
      var init, last := signals[..n], signals[n];
      assert signals == init + [last];
      MatchedAreFiring(g, init, folded);
      FiringSnoc(g, init, last, folded);
      MatchedAdd(g, init, [last], folded);
      assert [last][1..] == [];
    }
  }

  // The labels are the names of the signals at increasing places, all those that match.
  ghost predicate Lists(g: Guard, signals: seq<Signal>, folded: string, at: seq<int>, labels: seq<string>) {
    && |at| == |labels|
    && (forall k :: 0 <= k < |at| ==> at[k] in Firing(g, signals, folded) && labels[k] == signals[at[k]].name)
    && (forall j, k :: 0 <= j < k < |at| ==> at[j] < at[k])
    && (forall i :: i in Firing(g, signals, folded) ==> i in at)
  }

  lemma ListsSnoc(g: Guard, init: seq<Signal>, last: Signal, folded: string, at: seq<int>, labels: seq<string>)
    requires Lists(g, init, folded, at, labels)
    ensures var signals := init + [last];
      if g.matches(last.name, folded) then Lists(g, signals, folded, at + [|init|], labels + [last.name])
      else Lists(g, signals, folded, at, labels)
  {
    var signals := init + [last];
    forall i ensures i in Firing(g, signals, folded) <==>
      i in Firing(g, init, folded) || (i == |init| && g.matches(last.name, folded))
    {
    }
    if g.matches(last.name, folded) {
      var at' := at + [|init|];
      forall i | i in Firing(g, signals, folded) ensures i in at' {
        if i == |init| { assert at'[|at|] == i; } else { assert i in at; }
      }
    }
  }

  lemma {:induction false} MatchedLists(g: Guard, signals: seq<Signal>, folded: string) returns (at: seq<int>)
    ensures Lists(g, signals, folded, at, Matched(g, signals, folded))
    decreases |signals|
  {
    if signals == [] {
      at := [];
    } else {
      hide Lists, Firing;
      var n := |signals| - 1;
      var init, last := signals[..n], signals[n];
      assert signals == init + [last];
      var front := MatchedLists(g, init, folded);
      ListsSnoc(g, init, last, folded, front, Matched(g, init, folded));
      MatchedAdd(g, init, [last], folded);
      assert [last][1..] == [];
      at := if g.matches(last.name, folded) then front + [n] else front;
    }
  }

  // A longer list is joined by one more separator.
  lemma {:induction false} JoinSnoc(sep: string, parts: seq<string>, last: string)
    requires parts != []
    ensures Join(sep, [last]) == last && Join(sep, parts + [last]) == Join(sep, parts) + sep + last
  {
    if |parts| > 1 {
      assert (parts + [last])[1..] == parts[1..] + [last];
      JoinSnoc(sep, parts[1..], last);
    } else {
      assert (parts + [last])[1..] == [last];
    }
  }

  // What a text that is not empty is refused for: the signals that match its folded form,
  // by the tier rule, with the score and all their labels as the reason.
  lemma RefusalRule(g: Guard, text: string) returns (at: seq<int>, labels: seq<string>)
    requires text != ""
    ensures Lists(g, ALL_SIGNALS, g.fold(text), at, labels)
    ensures var h, m := |Firing(g, HIGH_SIGNALS, g.fold(text))|, |Firing(g, MEDIUM_SIGNALS, g.fold(text))|;
      var l := |Firing(g, LOW_SIGNALS, g.fold(text))|;
      Refusal(g, text) ==
        if h >= 1 || m >= 2 || (m >= 1 && l >= 1)
        then Some("risk_score=" + Decimal(3 * h + 2 * m + l) + " signals=" + Join(",", labels)) else None
  {
    hide Matched, Lists, Firing, ALL_SIGNALS, HIGH_SIGNALS, MEDIUM_SIGNALS;
    var t := g.fold(text);
    at := MatchedLists(g, ALL_SIGNALS, t);
    labels := Matched(g, ALL_SIGNALS, t);
    ScoreIsTierScore(g, t);
    MatchedAreFiring(g, HIGH_SIGNALS, t);
    MatchedAreFiring(g, MEDIUM_SIGNALS, t);
    MatchedAreFiring(g, LOW_SIGNALS, t);
    assert |LOW_SIGNALS| == 2;
    assert Matched(g, ALL_SIGNALS, t) == Labels(g, t);
  }

  // Texts that fold to the same are judged alike: disguise changes nothing.
  lemma SameFoldSameVerdict(g: Guard, a: string, b: string)
    requires a != "" && b != "" && g.fold(a) == g.fold(b)
    ensures Refusal(g, a) == Refusal(g, b) && Leak(g, Some(a)) == Leak(g, Some(b))
  {
  }

  lemma EmptyPasses(g: Guard)
    ensures Refusal(g, "") == None && Leak(g, None) == None && Leak(g, Some("")) == None
  {
  }

  // The leak of a reply is the first pattern of the whole list that matches its folded form.
  lemma LeakRule(g: Guard, text: string)
    requires text != ""
    ensures Leak(g, Some(text)).None? <==>
      forall i :: 0 <= i < |g.leakPatterns| ==> !g.leaks(g.leakPatterns[i], g.fold(text))
    ensures Leak(g, Some(text)).Some? ==>
      exists i :: 0 <= i < |g.leakPatterns| && FirstLeakAt(g, g.fold(text), i) &&
        Leak(g, Some(text)).value == g.leakPatterns[i]
  {
    var p := FirstLeak(g, g.leakPatterns, g.fold(text));
    if p.Some? {
      var i :| 0 <= i < |g.leakPatterns| && p.value == g.leakPatterns[i] &&
        LeaksFirst(g, g.leakPatterns, g.fold(text), i);
      assert FirstLeakAt(g, g.fold(text), i);
    }
  }

  ghost predicate FirstLeakAt(g: Guard, folded: string, i: nat)
    requires i < |g.leakPatterns|
  {
    g.leaks(g.leakPatterns[i], folded) && forall j :: 0 <= j < i ==> !g.leaks(g.leakPatterns[j], folded)
  }

  /* ---- quarantine ---- */

  // The assumption about the concrete patterns: the marker is silent.
  ghost predicate MarkerSilent(g: Guard) {
    forall i :: 0 <= i < |ALL_SIGNALS| ==> !g.matches(ALL_SIGNALS[i].name, g.fold(MARKER))
  }

  lemma {:induction false} SilentNothing(g: Guard, signals: seq<Signal>, text: string)
    requires forall i :: 0 <= i < |signals| ==> !g.matches(signals[i].name, text)
    ensures WeightSum(g, signals, text) == 0
  {
    if signals != [] {
      assert !g.matches(signals[0].name, text);
      SilentNothing(g, signals[1..], text);
    }
  }

  lemma MarkerPasses(g: Guard)
    requires MarkerSilent(g)
    ensures !IsInjection(g, MARKER)
  {
    hide Matched, ALL_SIGNALS;
    SilentNothing(g, ALL_SIGNALS, Normalize(g, MARKER));
    ScoreIsTierScore(g, Normalize(g, MARKER));
  }

  // Some string value in the tree is an injection; keys are not looked at.
  ghost predicate Injected(g: Guard, v: Json) {
    match v
    case Str(s) => IsInjection(g, s)
    case List(items) => exists i :: 0 <= i < |items| && Injected(g, items[i])
    case Dict(entries) => exists i :: 0 <= i < |entries| && Injected(g, entries[i].1)
    case _ => false
  }

  function Cleaned(g: Guard, v: Json): Json {
    match v
    case Str(s) => if IsInjection(g, s) then Str(MARKER) else v
    case List(items) => List(seq(|items|, i requires 0 <= i < |items| => Cleaned(g, items[i])))
    case Dict(entries) =>
      Dict(seq(|entries|, i requires 0 <= i < |entries| => (entries[i].0, Cleaned(g, entries[i].1))))
    case _ => v
  }

  // The cleaner with its flag, which the recursive calls share.
  class Cleaner {
    const g: Guard
    var flagged: bool

    constructor (g: Guard)
      ensures this.g == g && !flagged
    {
      this.g := g;
      flagged := false;
    }

    method Clean(v: Json) returns (out: Json)
      modifies this
      ensures out == Cleaned(g, v)
      ensures flagged <==> old(flagged) || Injected(g, v)
      decreases v
    {
      match v
      case Str(s) =>
        if IsInjection(g, s) {
          flagged := true;
          return Str(MARKER);
        }
        return v;
      case Dict(entries) =>
        var es: seq<(string, Json)> := [];
        for i := 0 to |entries|
          invariant |es| == i && forall k :: 0 <= k < i ==> es[k] == (entries[k].0, Cleaned(g, entries[k].1))
          invariant flagged <==> old(flagged) || exists k :: 0 <= k < i && Injected(g, entries[k].1)
        {
          var c := Clean(entries[i].1);
          es := es + [(entries[i].0, c)];
        }
        out := Dict(es);
      case List(items) =>
        var cs: seq<Json> := [];
        for i := 0 to |items|
          invariant |cs| == i && forall k :: 0 <= k < i ==> cs[k] == Cleaned(g, items[k])
          invariant flagged <==> old(flagged) || exists k :: 0 <= k < i && Injected(g, items[k])
        {
          var c := Clean(items[i]);
          cs := cs + [c];
        }
        out := List(cs);
      case _ =>
        return v;
    }
  }

  method ScanToolResult(g: Guard, result: Json) returns (flagged: bool, sanitized: Json)
    ensures flagged <==> Injected(g, result)
    ensures sanitized == Cleaned(g, result)
  {
    var cleaner := new Cleaner(g);
    sanitized := cleaner.Clean(result);
    flagged := cleaner.flagged;
  }

  // What is not flagged is not changed.
  lemma {:induction false} UnflaggedUnchanged(g: Guard, v: Json)
    requires !Injected(g, v)
    ensures Cleaned(g, v) == v
  {
    match v
    case List(items) =>
      forall i | 0 <= i < |items| ensures Cleaned(g, items[i]) == items[i] { UnflaggedUnchanged(g, items[i]); }
    case Dict(entries) =>
      forall i | 0 <= i < |entries| ensures Cleaned(g, entries[i].1) == entries[i].1 {
        UnflaggedUnchanged(g, entries[i].1);
      }
    case _ =>
  }

  // Nothing that would be flagged is left.
  lemma {:induction false} CleanedIsClean(g: Guard, v: Json)
    requires MarkerSilent(g)
    ensures !Injected(g, Cleaned(g, v))
  {
    match v
    case Str(_) => MarkerPasses(g);
    case List(items) =>
      forall i | 0 <= i < |items| ensures !Injected(g, Cleaned(g, items[i])) { CleanedIsClean(g, items[i]); }
    case Dict(entries) =>
      forall i | 0 <= i < |entries| ensures !Injected(g, Cleaned(g, entries[i].1)) { CleanedIsClean(g, entries[i].1); }
    case _ =>
  }

  // Cleaning again finds nothing and changes nothing.
  lemma CleanTwice(g: Guard, v: Json)
    requires MarkerSilent(g)
    ensures Cleaned(g, Cleaned(g, v)) == Cleaned(g, v) && !Injected(g, Cleaned(g, v))
  {
    CleanedIsClean(g, v);
    UnflaggedUnchanged(g, Cleaned(g, v));
  }

  // `w` is `v` with some injecting strings, and all of them, replaced by the marker: same
  // nesting, same lengths, same keys, same other leaves.
  ghost predicate QuarantinedFrom(g: Guard, v: Json, w: Json) {
    match v
    case Str(s) => w == Str(if IsInjection(g, s) then "[QUARANTINED: injection signal in external data]" else s)
    case List(items) =>
      w.List? && |w.items| == |items| && forall i :: 0 <= i < |items| ==> QuarantinedFrom(g, items[i], w.items[i])
    case Dict(entries) =>
      w.Dict? && |w.entries| == |entries| &&
      forall i :: 0 <= i < |entries| ==>
        w.entries[i].0 == entries[i].0 && QuarantinedFrom(g, entries[i].1, w.entries[i].1)
    case _ => w == v
  }

  // Quarantine changes injecting leaves and nothing else.
  lemma {:induction false} OnlyLeavesChange(g: Guard, v: Json, w: Json)
    ensures QuarantinedFrom(g, v, w) <==> w == Cleaned(g, v)
  {
    match v
    case List(items) =>
      if w.List? && |w.items| == |items| {
        forall i | 0 <= i < |items|
          ensures QuarantinedFrom(g, items[i], w.items[i]) <==> w.items[i] == Cleaned(g, items[i])
        {
          OnlyLeavesChange(g, items[i], w.items[i]);
        }
        assert Cleaned(g, v).items == seq(|items|, i requires 0 <= i < |items| => Cleaned(g, items[i]));
      }
    case Dict(entries) =>
      if w.Dict? && |w.entries| == |entries| {
        forall i | 0 <= i < |entries|
          ensures QuarantinedFrom(g, entries[i].1, w.entries[i].1) <==> w.entries[i].1 == Cleaned(g, entries[i].1)
        {
          OnlyLeavesChange(g, entries[i].1, w.entries[i].1);
        }
        assert Cleaned(g, v).entries ==
          seq(|entries|, i requires 0 <= i < |entries| => (entries[i].0, Cleaned(g, entries[i].1)));
      }
    case _ =>
  }

  /* ---- outbound leaks ---- */

  // The first leak pattern that matches a reply.
  function Leak(g: Guard, text: Option<string>): Option<string> {
    if text == None || text.value == "" then None else FirstLeak(g, g.leakPatterns, Normalize(g, text.value))
  }

  ghost predicate LeaksFirst(g: Guard, patterns: seq<string>, text: string, i: nat)
    requires i < |patterns|
  {
    g.leaks(patterns[i], text) && forall j :: 0 <= j < i ==> !g.leaks(patterns[j], text)
  }

  function FirstLeak(g: Guard, patterns: seq<string>, text: string): (p: Option<string>)
    ensures p.None? <==> forall i :: 0 <= i < |patterns| ==> !g.leaks(patterns[i], text)
    ensures p.Some? ==> exists i :: 0 <= i < |patterns| && p.value == patterns[i] && LeaksFirst(g, patterns, text, i)
  {
    if patterns == [] then None
    else if g.leaks(patterns[0], text) then assert LeaksFirst(g, patterns, text, 0); Some(patterns[0])
    else
      var p := FirstLeak(g, patterns[1..], text);
      assert forall i :: 0 <= i < |patterns| - 1 && LeaksFirst(g, patterns[1..], text, i) ==>
        LeaksFirst(g, patterns, text, i + 1);
      p
  }

  method DetectPromptLeak(g: Guard, text: Option<string>) returns (leaking: bool, pattern: Option<string>)
    ensures pattern == Leak(g, text) && leaking == pattern.Some?
  {
    if text == None || text.value == "" { return false, None; }
    var cleaned := Normalize(g, text.value);
    for i := 0 to |g.leakPatterns|
      invariant FirstLeak(g, g.leakPatterns, cleaned) == FirstLeak(g, g.leakPatterns[i..], cleaned)
    {
      if g.leaks(g.leakPatterns[i], cleaned) { return true, Some(g.leakPatterns[i]); }
    }
    return false, None;
  }
}
