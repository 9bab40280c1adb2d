// apps/api/src/service.py with storage/repo.py and observability/metrics.py: one case
// from the raw ticket to the response, the rows it writes and the counters it bumps.

module Service {
  import opened Wrappers
  import opened Injection
  import opened Research
  import opened Graph
  import Accounting
  import Pii

  datatype EventKind = InjectionRefused | ToolBlocked | ToolOutputSanitized | OutboundLeakBlocked

  datatype TicketRow = TicketRow(
    body: string, category: Option<string>, decision: Decision, reply: Option<string>,
    reason: Option<string>, iterations: nat, cost: real)

  datatype ToolRow = ToolRow(ticketId: string, call: CallRecord)

  datatype EventRow = EventRow(ticketId: string, kind: EventKind, detail: Option<string>)

  datatype CaseResponse = CaseResponse(
    ticketId: string, decision: Decision, reply: Option<string>, category: Option<string>,
    reason: Option<string>, iterations: nat, toolCalls: seq<CallRecord>, cost: real)

  // The three tables and the counters.
  datatype Ledger = Ledger(
    tickets: map<string, TicketRow>,
    toolCalls: seq<ToolRow>,
    events: seq<EventRow>,
    cases: map<Decision, nat>,
    eventCounts: map<EventKind, nat>,
    toolCounts: map<(string, Status), nat>,
    tokenSources: map<string, nat>,
    tokens: map<string, nat>,
    cost: real,
    llmCalls: nat)

  const EMPTY := Ledger(map[], [], [], map[], map[], map[], map[], map[], 0.0, 0)

  // What stays the same from case to case. The redactor is part of it, so that what is
  // proved about cases holds for any; the service itself always uses `redact_pii`.
  datatype Setup = Setup(
    guard: Guard, redact: string -> string, tokenizer: string -> nat, provider: string, model: string,
    maxToolRounds: int, maxReviews: int)

  // A case and how its surroundings will behave: the fresh id, the request, the model, the
  // tools, and the responses the usage callback will see.
  datatype Case = Case(
    id: string, ticket: string, orderId: Option<string>,
    llm: Llm, answers: ToolAnswers, reports: seq<Accounting.Response>)

  function Redactor(): string -> string { (text: string) => Pii.Redact(text) }

  function WorldOf(u: Setup, k: Case): World {
    World(k.llm, u.guard, u.redact, k.answers, u.maxToolRounds, u.maxReviews)
  }

  function Inbound(u: Setup, k: Case): string { u.redact(k.ticket) }

  /* ---- counters and rows ---- */

  function At<K>(m: map<K, nat>, k: K): nat { if k in m then m[k] else 0 }

  function Inc<K>(m: map<K, nat>, k: K, amount: nat): map<K, nat> { m[k := At(m, k) + amount] }

  // A counter child is made only for a non-zero amount.
  function IncBy<K>(m: map<K, nat>, k: K, amount: nat): map<K, nat> { if amount == 0 then m else Inc(m, k, amount) }

  function LogEvent(l: Ledger, row: EventRow): Ledger {
    l.(events := l.events + [row], eventCounts := Inc(l.eventCounts, row.kind, 1))
  }

  // A tool call gets its row and its counter; a blocked or sanitized one an event besides.
  function LogTool(l: Ledger, id: string, call: CallRecord): Ledger {
    var l' := l.(toolCalls := l.toolCalls + [ToolRow(id, call)],
                 toolCounts := Inc(l.toolCounts, (call.tool, call.status), 1));
    match call.status
    case Blocked => LogEvent(l', EventRow(id, ToolBlocked, Some("tool=" + call.tool)))
    case Sanitized => LogEvent(l', EventRow(id, ToolOutputSanitized, Some("tool=" + call.tool)))
    case _ => l'
  }

  function LogTools(l: Ledger, id: string, calls: seq<CallRecord>): Ledger {
    if calls == [] then l else LogTool(LogTools(l, id, calls[..|calls| - 1]), id, calls[|calls| - 1])
  }

  // The row made of a decided state.
  function RowFrom(s: CaseState, cost: real): TicketRow
    requires s.decision.Some?
  {
    TicketRow(s.ticket, s.category, s.decision.value, s.draft, s.reason, s.iterations, cost)
  }

  // A decided state on the books: its ticket, inserted or replaced, and its tool calls.
  function Persisted(l: Ledger, id: string, s: CaseState, cost: real): Ledger
    requires s.decision.Some?
  {
    LogTools(l.(tickets := l.tickets[id := RowFrom(s, cost)]), id, s.toolCalls)
  }

  /* ---- the decision ---- */

  // The state after the graph, or after its failure: then nothing of the run is kept.
  ghost function Finished(u: Setup, k: Case): CaseState {
    match RunFrom(WorldOf(u, k), Begin(k.id, Inbound(u, k), k.orderId))
    case Going(c) => c.state
    case Failed(m, _, _) =>
      Initial(k.id, Inbound(u, k), k.orderId).(
        decision := Some(ESCALATE), reason := Some("Graph execution error: " + m))
  }

  // The outbound reply before the leak gate.
  function Outbound(u: Setup, s: CaseState): Option<string> {
    if s.draft == None || s.draft.value == "" then None else Some(u.redact(s.draft.value))
  }

  function Decided(s: CaseState): Decision { if s.decision == None then ESCALATE else s.decision.value }

  const LEAK_REASON := "Outbound guardrail matched a leak signal: "

  predicate Withheld(u: Setup, s: CaseState) { Decided(s) == RESOLVED && Leak(u.guard, Outbound(u, s)).Some? }

  // A resolved reply that leaks is withheld and the case escalated.
  function Gated(u: Setup, s: CaseState): (r: CaseState)
    ensures r.decision.Some?
  {
    if Withheld(u, s) then
      s.(draft := None, decision := Some(ESCALATE),
         reason := Some(LEAK_REASON + Leak(u.guard, Outbound(u, s)).value))
    else s.(draft := Outbound(u, s), decision := Some(Decided(s)))
  }

  function CountTokens(u: Setup, text: string): nat { if text == "" then 0 else u.tokenizer(text) }

  predicate HasUsage(k: Case) {
    Accounting.TotalPrompt(k.reports) > 0 || Accounting.TotalCompletion(k.reports) > 0
  }

  // The provider's counts where there are any, else an estimate from the ticket and the
  // reply.
  function SpendFor(u: Setup, k: Case, reply: Option<string>): Accounting.Spend {
    var (p, c) := if HasUsage(k)
      then (Accounting.TotalPrompt(k.reports), Accounting.TotalCompletion(k.reports))
      else (CountTokens(u, Inbound(u, k)), CountTokens(u, if reply == None then "" else reply.value));
    Accounting.SpendOf(p, c, u.model, u.provider)
  }

  function RefusalReason(why: string): string { "Refused: prompt-injection signal detected (" + why + ")" }

  // What is persisted of a refused case.
  function Refused(u: Setup, k: Case, why: string): CaseState {
    Initial(k.id, Inbound(u, k), k.orderId).(decision := Some(REFUSE), reason := Some(RefusalReason(why)))
  }

  ghost function ResponseFor(u: Setup, k: Case): CaseResponse {
    var refusal := Refusal(u.guard, Inbound(u, k));
    if refusal.Some? then
      CaseResponse(k.id, REFUSE, None, None, Some(RefusalReason(refusal.value)), 0, [], 0.0)
    else
      var s := Gated(u, Finished(u, k));
      CaseResponse(k.id, s.decision.value, s.draft, s.category, s.reason, s.iterations, s.toolCalls,
        SpendFor(u, k, s.draft).cost)
  }

  // What a case that reached the model is booked with.
  function Booked(l: Ledger, k: Case, s: CaseState, spend: Accounting.Spend): Ledger
    requires s.decision.Some?
  {
    var l1 := Persisted(l, k.id, s, spend.cost);
    l1.(cases := Inc(l1.cases, s.decision.value, 1),
        tokens := IncBy(IncBy(l1.tokens, "prompt", spend.prompt), "completion", spend.completion),
        cost := l1.cost + spend.cost,
        llmCalls := l1.llmCalls + |k.reports|)
  }

  function Source(k: Case): string { if HasUsage(k) then "provider" else "estimated" }

  // The event of a withheld reply.
  function GateLog(u: Setup, id: string, s: CaseState, l: Ledger): Ledger {
    if Withheld(u, s) then LogEvent(l, EventRow(id, OutboundLeakBlocked, Leak(u.guard, Outbound(u, s)))) else l
  }

  // Everything a case adds to the books.
  ghost function LedgerAfter(u: Setup, k: Case, l: Ledger): Ledger {
    var refusal := Refusal(u.guard, Inbound(u, k));
    if refusal.Some? then
      var l0 := Persisted(l, k.id, Refused(u, k, refusal.value), 0.0);
      var l1 := LogEvent(l0, EventRow(k.id, InjectionRefused, refusal));
      l1.(cases := Inc(l1.cases, REFUSE, 1))
    else
      var s := Gated(u, Finished(u, k));
      var l0 := GateLog(u, k.id, Finished(u, k), l);
      Booked(l0.(tokenSources := Inc(l0.tokenSources, Source(k), 1)), k, s, SpendFor(u, k, s.draft))
  }

  // What the model and the tools were asked in a case.
  ghost function Asked(u: Setup, k: Case): (seq<LlmCall>, seq<Request>) {
    if Refusal(u.guard, Inbound(u, k)).Some? then ([], []) else
      match RunFrom(WorldOf(u, k), Begin(k.id, Inbound(u, k), k.orderId))
      case Going(c) => (c.calls, c.executed)
      case Failed(_, calls, executed) => (calls, executed)
  }

  /* ---- the service ---- */

  class CaseService {
    const options: Setup
    var tickets: map<string, TicketRow>
    var toolCalls: seq<ToolRow>
    var events: seq<EventRow>
    var cases: map<Decision, nat>
    var eventCounts: map<EventKind, nat>
    var toolCounts: map<(string, Status), nat>
    var tokenSources: map<string, nat>
    var tokens: map<string, nat>
    var cost: real
    var llmCalls: nat

    function View(): Ledger
      reads this
    {
      Ledger(tickets, toolCalls, events, cases, eventCounts, toolCounts, tokenSources, tokens, cost, llmCalls)
    }

    // The options with the redactor that the service uses.
    function Running(): Setup { options.(redact := Redactor()) }

    constructor (options: Setup)
      ensures this.options == options && View() == EMPTY
    {
      this.options := options;
      tickets, toolCalls, events := map[], [], [];
      cases, eventCounts, toolCounts, tokenSources, tokens := map[], map[], map[], map[], map[];
      cost, llmCalls := 0.0, 0;
    }

    method LogSecurityEvent(id: string, kind: EventKind, detail: Option<string>)
      modifies this
      ensures View() == LogEvent(old(View()), EventRow(id, kind, detail))
    {
      events := events + [EventRow(id, kind, detail)];
      eventCounts := Inc(eventCounts, kind, 1);
    }

    method Persist(state: CaseState, id: string, cost: real)
      requires state.decision.Some?
      modifies this
      ensures View() == Persisted(old(View()), id, state, cost)
    {
      tickets := tickets[id := RowFrom(state, cost)];
      var calls := state.toolCalls;
      ghost var start := View();
      for i := 0 to |calls|
        invariant View() == LogTools(start, id, calls[..i])
      {
        var call := calls[i];
        assert calls[..i + 1][..i] == calls[..i];
        toolCalls := toolCalls + [ToolRow(id, call)];
        toolCounts := Inc(toolCounts, (call.tool, call.status), 1);
        if call.status == Blocked {
          LogSecurityEvent(id, ToolBlocked, Some("tool=" + call.tool));
        } else if call.status == Sanitized {
          LogSecurityEvent(id, ToolOutputSanitized, Some("tool=" + call.tool));
        }
      }
      assert calls[..|calls|] == calls;
    }

    // The tokens the provider reported in a case.
    method Collect(reports: seq<Accounting.Response>) returns (prompt: nat, completion: nat)
      ensures prompt == Accounting.TotalPrompt(reports) && completion == Accounting.TotalCompletion(reports)
    {
      var collector := new Accounting.UsageCollector();
      for i := 0 to |reports|
        invariant fresh(collector) && collector.Valid() && collector.seen == reports[..i]
      {
        assert reports[..i + 1] == reports[..i] + [reports[i]];
        collector.OnLlmEnd(reports[i]);
      }
      assert reports[..|reports|] == reports;
      return collector.promptTokens, collector.completionTokens;
    }

    // Counts the tokens of a finished case, and prices them.
    method Account(k: Case, ticket: string, reply: Option<string>) returns (spend: Accounting.Spend)
      requires ticket == Inbound(Running(), k)
      modifies this`tokenSources
      ensures spend == SpendFor(Running(), k, reply)
      ensures View() == old(View()).(tokenSources := Inc(old(tokenSources), Source(k), 1))
    {
      hide Pii.Redact, Accounting.EstimateCost, Accounting.TotalPrompt, Accounting.TotalCompletion, Inc;
      var prompt, completion := Collect(k.reports);
      if prompt > 0 || completion > 0 {
        tokenSources := Inc(tokenSources, "provider", 1);
      } else {
        prompt := CountTokens(options, ticket);
        completion := CountTokens(options, if reply == None then "" else reply.value);
        tokenSources := Inc(tokenSources, "estimated", 1);
      }
      spend := Accounting.SpendOf(prompt, completion, options.model, options.provider);
    }

    method Refuse(k: Case, ticket: string, why: string) returns (response: CaseResponse)
      requires ticket == Inbound(Running(), k) && Refusal(options.guard, ticket) == Some(why)
      modifies this
      ensures response == ResponseFor(Running(), k) && View() == LedgerAfter(Running(), k, old(View()))
    {
      hide Pii.Redact, Refusal;
      var reason := RefusalReason(why);
      var state := Initial(k.id, ticket, k.orderId).(decision := Some(REFUSE), reason := Some(reason));
      Persist(state, k.id, 0.0);
      LogSecurityEvent(k.id, InjectionRefused, Some(why));
      cases := Inc(cases, REFUSE, 1);
      response := CaseResponse(k.id, REFUSE, None, None, Some(reason), 0, [], 0.0);
    }

    // The reply redacted once more, and held back if it leaks.
    method Gate(id: string, state: CaseState) returns (final: CaseState, decision: Decision, reply: Option<string>)
      modifies this`events, this`eventCounts
      ensures final == Gated(Running(), state)
      ensures final.decision == Some(decision) && final.draft == reply
      ensures View() == GateLog(Running(), id, state, old(View()))
    {
      hide Pii.Redact, Leak;
      reply := None;
      if state.draft != None && state.draft.value != "" {
        var text := Pii.RedactPii(state.draft);
        reply := Some(text);
      }
      final := state.(draft := reply);
      decision := if final.decision == None then ESCALATE else final.decision.value;
      var leaking, pattern := DetectPromptLeak(options.guard, reply);
      if leaking && decision == RESOLVED {
        decision := ESCALATE;
        final := final.(reason := Some(LEAK_REASON + pattern.value));
        events := events + [EventRow(id, OutboundLeakBlocked, pattern)];
        eventCounts := Inc(eventCounts, OutboundLeakBlocked, 1);
        reply := None;
        final := final.(draft := None);
      }
      final := final.(decision := Some(decision));
    }

    method Book(k: Case, state: CaseState, spend: Accounting.Spend)
      requires state.decision.Some?
      modifies this
      ensures View() == Booked(old(View()), k, state, spend)
    {
      hide LogTools;
      Persist(state, k.id, spend.cost);
      cases := Inc(cases, state.decision.value, 1);
      tokens := IncBy(IncBy(tokens, "prompt", spend.prompt), "completion", spend.completion);
      cost := cost + spend.cost;
      llmCalls := llmCalls + |k.reports|;
    }

    // The outbound half of a case, from the state the graph left.
    method Deliver(k: Case, ticket: string, state: CaseState) returns (response: CaseResponse)
      requires ticket == Inbound(Running(), k) && Refusal(options.guard, ticket) == None
      requires state == Finished(Running(), k)
      modifies this
      ensures response == ResponseFor(Running(), k) && View() == LedgerAfter(Running(), k, old(View()))
    {
      hide Pii.Redact, Refusal, Finished, SpendFor, Leak, HasUsage, Inbound, Outbound, Booked, GateLog, Source;
      var final, decision, reply := Gate(k.id, state);
      var spend := Account(k, ticket, reply);
      Book(k, final, spend);
      response := CaseResponse(k.id, decision, reply, final.category, final.reason,
        final.iterations, final.toolCalls, spend.cost);
    }

    method ResolveCase(k: Case) returns (response: CaseResponse, asked: seq<LlmCall>, ran: seq<Request>)
      modifies this
      ensures response == ResponseFor(Running(), k)
      ensures View() == LedgerAfter(Running(), k, old(View()))
      ensures (asked, ran) == Asked(Running(), k)
    {
      hide Pii.Redact, Refusal, LedgerAfter, ResponseFor, RunFrom;
      var ticket := Pii.RedactPii(Some(k.ticket));
      var refuse, why := DetectInjection(options.guard, ticket);
      if refuse {
        response := Refuse(k, ticket, why.value);
        return response, [], [];
      }
      var run := Invoke(WorldOf(Running(), k), k.id, ticket, k.orderId);
      var final: CaseState;
      match run {
        case Going(c) =>
          final, asked, ran := c.state, c.calls, c.executed;
        case Failed(m, calls, executed) =>
          final := Initial(k.id, ticket, k.orderId).(
            decision := Some(ESCALATE), reason := Some("Graph execution error: " + m));
          asked, ran := calls, executed;
      }
      response := Deliver(k, ticket, final);
    }
  }
}
