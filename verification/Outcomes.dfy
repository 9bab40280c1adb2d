// What a caller of the service may rely on: when a case is refused, resolved or
// escalated, what the reply is then, and what is stored of it.

module Outcomes {
  import opened Wrappers
  import opened Text
  import opened Injection
  import opened Research
  import opened Graph
  import opened Runs
  import opened Service
  import opened Patterns
  import Accounting
  import Pii
  import opened Survival
  import Agreement
  import opened Restoring
  import opened Bound
  import opened Idempotence
  import opened Examples

  ghost function RunOf(u: Setup, k: Case): Run { RunFrom(WorldOf(u, k), Begin(k.id, Inbound(u, k), k.orderId)) }

  predicate Refuses(u: Setup, k: Case) { IsInjection(u.guard, Inbound(u, k)) }

  // The graph ended, after a last review.
  predicate Finishes(run: Run) {
    run.Going? && run.config.state.iterations >= 1 && HasVerdict(run.config.calls, run.config.state.iterations - 1)
  }

  // The last review approved.
  predicate Approved(run: Run) {
    Finishes(run) && VerdictOf(run.config.calls, run.config.state.iterations - 1).approved
  }

  // The draft that the last review saw.
  function LastReviewed(run: Run): string
    requires Finishes(run)
  {
    ReviewCall(run.config.calls, run.config.state.iterations - 1).draft
  }

  ghost predicate Approves(u: Setup, k: Case) { Approved(RunOf(u, k)) }

  ghost function LastDraft(u: Setup, k: Case): string
    requires Finishes(RunOf(u, k))
  {
    LastReviewed(RunOf(u, k))
  }

  // An empty draft is no reply; any other is redacted once more.
  function Reply(u: Setup, draft: string): Option<string> { if draft == "" then None else Some(u.redact(draft)) }

  // What the graph leaves of a case: resolved if it approved, escalated for a reason if not.
  lemma GraphOutcome(u: Setup, k: Case)
    ensures var s := Finished(u, k);
      && (if Approves(u, k) then s.decision == Some(RESOLVED) && s.reason == None
          else s.decision == Some(ESCALATE) && s.reason.Some?)
      && s.draft == if Finishes(RunOf(u, k)) then Some(LastDraft(u, k)) else None
    ensures Finished(u, k).ticket == Inbound(u, k)
  {
    hide RunFrom, PassesOk, NoneApproved, Rounds, Slice, AllAnswered, TrueCalls, FailsByCall;
    var w, ticket := WorldOf(u, k), Inbound(u, k);
    RunEndsIff(w, k.id, ticket, k.orderId);
    RunDecides(w, k.id, ticket, k.orderId);
    RunEndsWithReviewedDraft(w, k.id, ticket, k.orderId);
    RunKeepsInv(w, Initial(k.id, ticket, k.orderId), Begin(k.id, ticket, k.orderId));
  }

  lemma {:induction false} CallsGrow(w: World, c: Config)
    ensures match RunFrom(w, c)
      case Failed(_, calls, _) => c.calls <= calls
      case Going(d) => c.calls <= d.calls
    decreases Rank(w, c)
  {
    if c.node != End && Step(w, c).Going? {
      hide Rounds, Slice;
      RankDecreases(w, c);
      CallsGrow(w, Step(w, c).config);
    }
  }

  lemma FirstStep(w: World, c: Config)
    requires c.node == Start
    ensures Step(w, c) == Going(c.(node := Classifier))
  {
    assert PIPELINE[Start] == Classifier;
  }

  lemma ClassifierAsked(u: Setup, k: Case)
    ensures var run := RunOf(u, k); (if run.Going? then run.config.calls else run.calls) != []
  {
    hide Rounds, Slice;
    var w := WorldOf(u, k);
    var b := Begin(k.id, Inbound(u, k), k.orderId);
    FirstStep(w, b);
    var c := b.(node := Classifier);
    assert RunFrom(w, b) == RunOn(w, b) == RunFrom(w, c) == RunOn(w, c);
    if Step(w, c).Going? { CallsGrow(w, Step(w, c).config); }
  }

  // A case is refused exactly if its redacted ticket scores as an injection, and exactly
  // then the model is asked nothing. Nor does any tool run, and nothing is billed.
  lemma RefusedIffInjection(u: Setup, k: Case)
    ensures ResponseFor(u, k).decision == REFUSE <==> Refuses(u, k)
    ensures Asked(u, k).0 == [] <==> Refuses(u, k)
    ensures Refuses(u, k) ==>
      var r := ResponseFor(u, k);
      && Asked(u, k).1 == [] && r.toolCalls == [] && r.iterations == 0 && r.cost == 0.0
      && r.reply == None && r.category == None && r.reason.Some?
  {
    hide Refusal, Leak, RunFrom, Finished, SpendFor;
    GraphOutcome(u, k);
    ClassifierAsked(u, k);
  }

  // A case is resolved exactly if it is not refused, the last review approved, and the
  // reply leaks nothing. The reply is then the redaction of the very draft that was approved.
  lemma ResolvedIff(u: Setup, k: Case)
    ensures var r := ResponseFor(u, k);
      r.decision == RESOLVED <==>
        !Refuses(u, k) && Approves(u, k) && Leak(u.guard, Reply(u, LastDraft(u, k))).None?
    ensures var r := ResponseFor(u, k);
      r.decision == RESOLVED ==> r.reason == None && Approves(u, k) && r.reply == Reply(u, LastDraft(u, k))
  {
    hide Refusal, Leak, RunFrom, Finished, SpendFor, Finishes, LastDraft;
    GraphOutcome(u, k);
  }

  // Every other case is escalated, and has a reason.
  lemma EscalatedOtherwise(u: Setup, k: Case)
    ensures var r := ResponseFor(u, k);
      r.decision == ESCALATE <==>
        !Refuses(u, k) && (Approves(u, k) ==> Leak(u.guard, Reply(u, LastDraft(u, k))).Some?)
    ensures ResponseFor(u, k).decision != RESOLVED ==> ResponseFor(u, k).reason.Some?
    ensures ResponseFor(u, k).decision == ESCALATE && Approves(u, k) ==> ResponseFor(u, k).reply == None
  {
    hide Refusal, Leak, RunFrom, Finished, SpendFor, Finishes, LastDraft;
    GraphOutcome(u, k);
  }

  // What the gate lets through: a reply leaks exactly if the draft leaks and the last
  // review, without approving it, was the last that the cap allows.
  lemma LeakSentIff(u: Setup, k: Case)
    ensures Leak(u.guard, ResponseFor(u, k).reply).Some? <==>
      && !Refuses(u, k) && Finishes(RunOf(u, k)) && !Approves(u, k)
      && Leak(u.guard, Reply(u, LastDraft(u, k))).Some?
  {
    hide Refusal, RunFrom, Finished, SpendFor, LastDraft, Approved, Finishes, FirstLeak;
    GraphOutcome(u, k);
  }

  // The reason of a case says that its reply was withheld.
  predicate SaysWithheld(reason: Option<string>) { reason.Some? && LEAK_REASON <= reason.value }

  // The graph gives other reasons.
  lemma GraphReason(u: Setup, k: Case)
    ensures var s := Finished(u, k); s.reason.Some? ==> s.reason.value != "" && s.reason.value[0] in "GN"
  {
    hide RunFrom, PassesOk, NoneApproved, AllAnswered, TrueCalls, FailsByCall;
    RunEndsIff(WorldOf(u, k), k.id, Inbound(u, k), k.orderId);
    RunDecides(WorldOf(u, k), k.id, Inbound(u, k), k.orderId);
  }

  // It says so exactly if the gate withheld the reply.
  lemma WithheldIff(u: Setup, k: Case)
    ensures SaysWithheld(ResponseFor(u, k).reason) <==> !Refuses(u, k) && Withheld(u, Finished(u, k))
  {
    hide Refusal, Leak, RunFrom, Finished, SpendFor, Withheld;
    GraphReason(u, k);
    assert LEAK_REASON[0] == 'O';
    if Refuses(u, k) { RefusalSays(Refusal(u.guard, Inbound(u, k)).value); }
  }

  lemma RefusalSays(why: string)
    ensures RefusalReason(why) != "" && RefusalReason(why)[0] == 'R'
  {
    assert RefusalReason(why)[0] == "Refused"[0];
  }

  // The graph raised: nothing of the run is kept.
  lemma FailureLeavesNothing(u: Setup, k: Case)
    requires !Refuses(u, k) && RunOf(u, k).Failed?
    ensures var r := ResponseFor(u, k);
      && r.decision == ESCALATE && r.reply == None && r.toolCalls == [] && r.iterations == 0 && r.category == None
      && r.reason == Some("Graph execution error: " + RunOf(u, k).message)
  {
    hide Refusal, RunFrom, SpendFor;
  }

  /* ---- in what words ---- */

  // The reason of a case that is not resolved, word for word.
  lemma ReasonRule(u: Setup, k: Case)
    ensures var r, run := ResponseFor(u, k), RunOf(u, k);
      && (Refuses(u, k) ==>
            r.reason ==
              Some("Refused: prompt-injection signal detected (" + Refusal(u.guard, Inbound(u, k)).value + ")"))
      && (!Refuses(u, k) && run.Failed? ==> r.reason == Some("Graph execution error: " + run.message))
      && (!Refuses(u, k) && Approves(u, k) && r.decision == ESCALATE ==>
            && Leak(u.guard, Reply(u, LastDraft(u, k))).Some?
            && r.reason == Some("Outbound guardrail matched a leak signal: " +
                 Leak(u.guard, Reply(u, LastDraft(u, k))).value))
  {
    hide Refusal, Leak, RunFrom, SpendFor, Finishes, LastDraft;
    GraphOutcome(u, k);
    var why := Refusal(u.guard, Inbound(u, k));
    if Refuses(u, k) {
      assert "Refused: prompt-injection signal detected (" + why.value + ")" == RefusalReason(why.value);
    }
  }

  // An unapproved case is escalated in the words of the last review, with the number of
  // passes.
  lemma UnapprovedReason(u: Setup, k: Case)
    requires !Refuses(u, k) && RunOf(u, k).Going? && !Approves(u, k)
    ensures Finishes(RunOf(u, k))
    ensures var r, c := ResponseFor(u, k), RunOf(u, k).config;
      && r.iterations == c.state.iterations
      && exists t :: WordsOf(VerdictOf(c.calls, r.iterations - 1), t) &&
           r.reason == Some("Not approved after " + Decimal(r.iterations) + " review pass(es): " + t)
  {
    hide Refusal, Leak, RunFrom, SpendFor, LastDraft, AllAnswered, TrueCalls, FailsByCall, WordsPassedOn, WordsOf;
    var w := WorldOf(u, k);
    GraphOutcome(u, k);
    RunEndsIff(w, k.id, Inbound(u, k), k.orderId);
    RunPassesWordsOn(w, k.id, Inbound(u, k), k.orderId);
  }

  // The category of a response is the model's answer to the classification of the redacted
  // ticket, and its plan was asked for with that and the order id of the request.
  lemma CategoryRule(u: Setup, k: Case)
    requires !Refuses(u, k)
    ensures Opens(u.redact(k.ticket), k.orderId, Asked(u, k).0)
    ensures RunOf(u, k).Going? ==>
      && |Asked(u, k).0| > 1
      && ResponseFor(u, k).category == Some(CategoryFor(Asked(u, k).0[0].category.value))
  {
    hide Refusal, Leak, RunFrom, SpendFor, DraftsFit;
    RunAsksAboutTicket(WorldOf(u, k), k.id, Inbound(u, k), k.orderId);
  }

  /* ---- what a case costs ---- */

  // A case whose graph ends makes two calls and then two for every pass of the response,
  // and it passes no more often than the cap allows, but at least once.
  lemma CallsOfCase(u: Setup, k: Case)
    requires !Refuses(u, k) && RunOf(u, k).Going?
    ensures var n := ResponseFor(u, k).iterations;
      && |Asked(u, k).0| == 2 + 2 * n && 1 <= n <= (if u.maxReviews > 1 then u.maxReviews else 1)
      && (n < u.maxReviews ==> Approves(u, k))
  {
    hide Refusal, RunFrom, SpendFor, PassesOk, NoneApproved, Leak, AllAnswered, TrueCalls, FailsByCall;
    RunEndsIff(WorldOf(u, k), k.id, Inbound(u, k), k.orderId);
    RunPasses(WorldOf(u, k), k.id, Inbound(u, k), k.orderId);
  }

  // Tools off the allowlist do not run, and no injection in a fact reaches the model, in
  // any case, whether its graph ends or raises.
  lemma GuardedCase(u: Setup, k: Case)
    ensures OnAllowlist(Asked(u, k).1)
    ensures MarkerSilent(u.guard) ==> CallsClean(u.guard, Asked(u, k).0)
  {
    hide Refusal, RunFrom, CallsClean, MarkerSilent;
    RunKeepsAllowlist(WorldOf(u, k), Begin(k.id, Inbound(u, k), k.orderId));
    NoCallsClean(u.guard);
    if MarkerSilent(u.guard) { NoInjectionReachesModel(WorldOf(u, k), k.id, Inbound(u, k), k.orderId); }
  }

  lemma NoCallsClean(g: Guard)
    ensures CallsClean(g, [])
  {
  }

  // With provider counts the bill is, to the last hundred-millionth of a dollar, the sum
  // of the prices of the single calls.
  lemma BilledPerCall(u: Setup, k: Case)
    requires !Refuses(u, k) && HasUsage(k)
    ensures ResponseFor(u, k).cost == Accounting.CostPerCall(k.reports, u.model, u.provider)
  {
    hide Refusal, Finished, Accounting.EstimateCost, HasUsage;
    Accounting.CostOfTotals(k.reports, u.model, u.provider);
  }

  predicate ReportsTokens(r: Accounting.Response) { Accounting.PromptOf(r) > 0 || Accounting.CompletionOf(r) > 0 }

  // A response that the callback saw reports tokens.
  predicate Reported(k: Case) { exists i :: 0 <= i < |k.reports| && ReportsTokens(k.reports[i]) }

  lemma {:induction false} UsageIff(rs: seq<Accounting.Response>)
    ensures Accounting.TotalPrompt(rs) > 0 || Accounting.TotalCompletion(rs) > 0 <==>
      exists i :: 0 <= i < |rs| && ReportsTokens(rs[i])
  {
    hide Accounting.PromptOf, Accounting.CompletionOf;
    if rs != [] {
      var n := |rs| - 1;
      UsageIff(rs[..n]);
      assert ReportsTokens(rs[n]) ==> exists i :: 0 <= i < |rs| && ReportsTokens(rs[i]);
      assert forall i :: 0 <= i < n ==> rs[..n][i] == rs[i];
    }
  }

  function TokensIn(u: Setup, text: Option<string>): nat {
    match text case None => 0 case Some(t) => if t == "" then 0 else u.tokenizer(t)
  }

  // A case is billed by what was reported, call by call; and if nothing was, by an estimate
  // from the redacted ticket and the reply that is sent.
  lemma BillRule(u: Setup, k: Case)
    requires !Refuses(u, k)
    ensures Reported(k) ==> ResponseFor(u, k).cost == Accounting.CostPerCall(k.reports, u.model, u.provider)
    ensures !Reported(k) ==>
      var p, c := TokensIn(u, Some(Inbound(u, k))), TokensIn(u, ResponseFor(u, k).reply);
      ResponseFor(u, k).cost == Accounting.EstimateCost(p, c, u.model, u.provider)
  {
    hide Refusal, Finished, Accounting.EstimateCost, Accounting.PromptOf, Accounting.CompletionOf,
      Accounting.TotalPrompt, Accounting.TotalCompletion;
    UsageIff(k.reports);
    if HasUsage(k) { BilledPerCall(u, k); }
  }

  /* ---- what the tool log leaves out ---- */

  // What the model's plan, if it has answered with one, makes run.
  ghost function PlannedRuns(u: Setup, k: Case): seq<Request> { Planned(u.maxToolRounds, Asked(u, k).0) }

  // In every case, also one whose graph raises, the tools that run are the allowlisted
  // requests of the plan below the cap.
  lemma RanAsPlanned(u: Setup, k: Case)
    ensures Asked(u, k).1 == PlannedRuns(u, k)
  {
    hide Refusal, RunFrom, Allowed, Slice;
    RunRanAsPlanned(WorldOf(u, k), k.id, Inbound(u, k), k.orderId);
  }

  // The log of a case names exactly the tools that ran, unless the graph raised after the
  // model had planned a call to an allowlisted tool: the tool calls of such a run are
  // dropped with the rest of its state.
  lemma TrailCompleteIff(u: Setup, k: Case)
    ensures RanIn(ResponseFor(u, k).toolCalls) == Asked(u, k).1 <==>
      Refuses(u, k) || RunOf(u, k).Going? || PlannedRuns(u, k) == []
  {
    hide Refusal, RunFrom, SpendFor, Allowed, FactsOf, Slice, Leak, Planned;
    RunResearch(WorldOf(u, k), k.id, Inbound(u, k), k.orderId);
    RanAsPlanned(u, k);
    assert RanIn([]) == [];
  }

  // A model that plans `requests` and then raises instead of drafting.
  ghost predicate RaisesOnDraft(llm: Llm, requests: seq<Request>) {
    && (forall n, t :: llm.classify(n, t).Answer?)
    && (forall n, t, kind, order :: llm.plan(n, t, kind, order) == Answer(requests))
    && (forall n, t, kind, facts, feedback :: llm.draft(n, t, kind, facts, feedback).Raise?)
  }

  lemma FailsOnDraft(w: World, id: string, ticket: string, orderId: Option<string>, requests: seq<Request>)
    requires RaisesOnDraft(w.llm, requests)
    ensures var run := RunFrom(w, Begin(id, ticket, orderId));
      run.Failed? && run.executed == Allowed(Slice(requests, w.maxToolRounds))
  {
    hide Slice, Rounds, Allowed;
    var c0 := Begin(id, ticket, orderId);
    var c1 := Step(w, c0).config;
    var c2 := Step(w, c1).config;
    var c3 := Step(w, c2).config;
    assert c3.node == Responder && Step(w, c3).Failed?;
    OnlyAllowedRun(w.guard, w.answers, [], Slice(requests, w.maxToolRounds));
    assert RunFrom(w, c3) == RunOn(w, c3);
    assert RunFrom(w, c2) == RunOn(w, c2) == RunFrom(w, c3);
    assert RunFrom(w, c0) == RunOn(w, c0) == RunFrom(w, c1) == RunOn(w, c1) == RunFrom(w, c2);
  }

  // With such a model and an allowlisted request below the cap tools run, and the log is
  // empty.
  lemma TrailIsLost(u: Setup, k: Case, requests: seq<Request>, i: nat)
    requires !Refuses(u, k) && RaisesOnDraft(k.llm, requests)
    requires i < |Slice(requests, u.maxToolRounds)| && requests[i].name in ALLOWLIST
    ensures ResponseFor(u, k).toolCalls == []
    ensures Asked(u, k).1 == Allowed(Slice(requests, u.maxToolRounds)) != []
  {
    hide Refusal, RunFrom, SpendFor, Allowed, RaisesOnDraft;
    FailsOnDraft(WorldOf(u, k), k.id, Inbound(u, k), k.orderId, requests);
    SliceLength(requests, u.maxToolRounds);
    SomeAllowed(Slice(requests, u.maxToolRounds), i);
  }

  /* ---- the stored ticket ---- */

  ghost predicate Stores(u: Setup, k: Case, l: Ledger) {
    var r := ResponseFor(u, k);
    LedgerAfter(u, k, l).tickets ==
      l.tickets[k.id := TicketRow(Inbound(u, k), r.category, r.decision, r.reply, r.reason, r.iterations, r.cost)]
  }

  // The stored ticket and the response tell the same story; of the request only its
  // redaction is stored.
  lemma StoredAsAnswered(u: Setup, k: Case, l: Ledger)
    ensures var r := ResponseFor(u, k);
      LedgerAfter(u, k, l).tickets ==
        l.tickets[k.id := TicketRow(Inbound(u, k), r.category, r.decision, r.reply, r.reason, r.iterations, r.cost)]
  {
    hide LedgerAfter, ResponseFor, Refuses;
    if Refuses(u, k) { StoredAsRefused(u, k, l); } else { StoredAsDelivered(u, k, l); }
  }

  lemma StoredAsRefused(u: Setup, k: Case, l: Ledger)
    requires Refuses(u, k)
    ensures Stores(u, k, l)
  {
    hide Refusal, RunFrom, Persisted, Finished, SpendFor;
    PersistedTicket(l, k.id, Refused(u, k, Refusal(u.guard, Inbound(u, k)).value), 0.0);
  }

  lemma StoredAsDelivered(u: Setup, k: Case, l: Ledger)
    requires !Refuses(u, k)
    ensures Stores(u, k, l)
  {
    hide Refusal, RunFrom, Finished, SpendFor, Outbound, Persisted, Withheld;
    GraphOutcome(u, k);
    var s := Gated(u, Finished(u, k));
    var m := GateLog(u, k.id, Finished(u, k), l);
    PersistedTicket(m.(tokenSources := Inc(m.tokenSources, Source(k), 1)), k.id, s, SpendFor(u, k, s.draft).cost);
  }

  lemma PersistedTicket(l: Ledger, id: string, s: CaseState, cost: real)
    requires s.decision.Some?
    ensures Persisted(l, id, s, cost).tickets == l.tickets[id := RowFrom(s, cost)]
  {
    hide LogTools;
    ToolsKeepTickets(l.(tickets := l.tickets[id := RowFrom(s, cost)]), id, s.toolCalls);
  }

  lemma {:induction false} ToolsKeepTickets(l: Ledger, id: string, calls: seq<CallRecord>)
    ensures LogTools(l, id, calls).tickets == l.tickets
  {
    if calls != [] { ToolsKeepTickets(l, id, calls[..|calls| - 1]); }
  }

  // The last text of the model, before any redaction.
  ghost function Written(u: Setup, k: Case): string
    requires Approves(u, k)
  {
    LastWritten(WorldOf(u, k), k.id, Inbound(u, k), k.orderId)
  }

  ghost function LastWritten(w: World, id: string, ticket: string, orderId: Option<string>): string
    requires Approved(RunFrom(w, Begin(id, ticket, orderId)))
  {
    RunEndsWithReviewedDraft(w, id, ticket, orderId);
    var c := RunFrom(w, Begin(id, ticket, orderId)).config;
    DraftCall(c.calls, c.state.iterations - 1).text.value
  }

  lemma ApprovedIsRedacted(u: Setup, k: Case)
    requires Approves(u, k)
    ensures LastDraft(u, k) == u.redact(Written(u, k))
  {
    hide RunFrom;
    RunEndsWithReviewedDraft(WorldOf(u, k), k.id, Inbound(u, k), k.orderId);
  }

  // The customer gets the approved draft word for word exactly if redacting the draft
  // again changes nothing: the model wrote no telephone numbers so close together that it
  // does, and no placeholders.
  lemma ReplyIsApprovedIff(u: Setup, k: Case)
    requires u.redact == Redactor() && ResponseFor(u, k).decision == RESOLVED && Approves(u, k)
    requires Redactable(Written(u, k))
    ensures var text := Written(u, k);
      if text == "" then ResponseFor(u, k).reply == None
      else
        ResponseFor(u, k).reply == Some(LastDraft(u, k)) <==>
          RefsLeft(text) <= Pii.MAX_REFS && SpellsNone(text, RefsLeft(text)) && !TextGlued(text)
  {
    hide Pii.Redact, ResponseFor, Approves, LastDraft, Written, TextGlued, Redactable, RefsLeft, SpellsNone;
    var text := Written(u, k);
    ResolvedIff(u, k);
    ApprovedIsRedacted(u, k);
    IdempotentIff(text);
    if text == "" { Pii.RedactEmpty(text); } else { RedactNonEmpty(text); }
  }

  // The stored body of a ticket holds nothing the detector would report exactly if the
  // ticket has no telephone numbers that close together.
  lemma StoredBodyCleanIff(u: Setup, k: Case, l: Ledger, counts: map<Pattern, nat>)
    requires u.redact == Redactor() && Ascii(k.ticket) && |k.ticket| <= TICKET_LIMIT && !Spells(k.ticket)
    requires k.id in LedgerAfter(u, k, l).tickets
    requires var body := LedgerAfter(u, k, l).tickets[k.id].body;
      Pii.Tally(counts, Pii.PASSES, Pii.Shielded(Pii.Scanned(BusinessRef, body), 0))
    ensures counts == map[] <==> !TextGlued(k.ticket)
  {
    hide Pii.Redact, LedgerAfter, ResponseFor, TextGlued, Ascii, Spells, Pii.Tally, Pii.Scanned,
      Pii.Shielded, RefsLeft;
    StoredAsAnswered(u, k, l);
    TicketFewRefs(k.ticket);
    RefsLeftAre(k.ticket);
    RedactedCleanIff(k.ticket);
    Agreement.NothingFoundIff(Pii.Redact(k.ticket), counts);
  }

  /* ---- a leaking reply that is sent ---- */

  // A model that always drafts `text`, for reviewers who never approve.
  ghost predicate Insists(llm: Llm, text: string) {
    && Answers(llm)
    && (forall n, t, kind, facts, feedback :: llm.draft(n, t, kind, facts, feedback) == Answer(text))
    && (forall n, t, draft, facts :: !llm.review(n, t, draft, facts).value.approved)
  }

  lemma RejectedToTheEnd(w: World, id: string, ticket: string, orderId: Option<string>, text: string)
    requires Insists(w.llm, text)
    ensures var run := RunFrom(w, Begin(id, ticket, orderId));
      Finishes(run) && !Approved(run) && LastReviewed(run) == w.redact(text)
  {
    hide RunFrom, PassesOk, NoneApproved, AllAnswered, FailsByCall;
    AnsweringModelEnds(w, id, ticket, orderId);
    RunEndsIff(w, id, ticket, orderId);
    RunDecides(w, id, ticket, orderId);
    RunEndsWithReviewedDraft(w, id, ticket, orderId);
    var c := RunFrom(w, Begin(id, ticket, orderId)).config;
    var k := c.state.iterations;
    assert TrueCall(w.llm, 2 * k, c.calls[2 * k]);
    assert TrueCall(w.llm, 1 + 2 * k, c.calls[1 + 2 * k]);
  }

  // The documentation says that a leaking reply is never sent. For every guard and every
  // draft that leaks after redaction, it is sent if the reviews turn it down to the end.
  lemma LeakIsSent(u: Setup, k: Case, text: string)
    requires !Refuses(u, k) && Insists(k.llm, text) && u.redact(text) != ""
    requires Leak(u.guard, Some(u.redact(u.redact(text)))).Some?
    ensures ResponseFor(u, k).decision == ESCALATE
    ensures ResponseFor(u, k).reply == Some(u.redact(u.redact(text))) && Leak(u.guard, ResponseFor(u, k).reply).Some?
  {
    hide RunFrom, Refusal, SpendFor, FirstLeak, Insists, Approved, Finishes;
    RejectedToTheEnd(WorldOf(u, k), k.id, Inbound(u, k), k.orderId, text);
    GraphOutcome(u, k);
  }
}
