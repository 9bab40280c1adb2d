// apps/api/src/graph: the classifier, researcher, responder and reviewer nodes, the
// router, and the compiled graph as a state machine driven by an arbitrary model.

module Graph {
  import opened Wrappers
  import opened Text
  import opened Injection
  import opened Research

  datatype Decision = RESOLVED | ESCALATE | REFUSE

  const CATEGORIES := {"order", "product", "refund", "other"}

  const OTHER := "other"

  const NO_FEEDBACK := "Reviewer did not approve this draft."

  datatype Verdict = Verdict(approved: bool, feedback: Option<string>)

  // A model call returns something or raises.
  datatype Reply<+T> = Answer(value: T) | Raise(message: string)

  // The four operations of the model. The first argument is the number of calls made
  // before, so that the same question may be answered differently every time.
  datatype Llm = Llm(
    classify: (nat, string) -> Reply<string>,
    plan: (nat, string, string, Option<string>) -> Reply<seq<Request>>,
    draft: (nat, string, string, seq<Fact>, Option<string>) -> Reply<string>,
    review: (nat, string, string, seq<Fact>) -> Reply<Verdict>)

  // What a graph is compiled and run with: the model, the guardrails (the responder's
  // redactor among them), the tools and the two caps.
  datatype World = World(
    llm: Llm, guard: Guard, redact: string -> string, answers: ToolAnswers,
    maxToolRounds: int, maxReviews: int)

  // What the model was asked and what it replied.
  datatype LlmCall =
    | Classify(ticket: string, category: Reply<string>)
    | Plan(ticket: string, kind: string, orderId: Option<string>, requests: Reply<seq<Request>>)
    | Draft(ticket: string, kind: string, facts: seq<Fact>, feedback: Option<string>, text: Reply<string>)
    | Review(ticket: string, draft: string, facts: seq<Fact>, verdict: Reply<Verdict>)

  datatype CaseState = CaseState(
    ticketId: string, ticket: string, orderId: Option<string>, category: Option<string>,
    facts: seq<Fact>, draft: Option<string>, feedback: Option<string>, decision: Option<Decision>,
    reason: Option<string>, iterations: nat, toolCalls: seq<CallRecord>)

  function Initial(ticketId: string, ticket: string, orderId: Option<string>): CaseState {
    CaseState(ticketId, ticket, orderId, None, [], None, None, None, None, 0, [])
  }

  /* ---- topology ---- */

  datatype Node = Start | Classifier | Researcher | Responder | Reviewer | End

  class StateGraph {
    var nodes: set<Node>
    var edges: map<Node, Node>
    var branches: map<Node, set<Node>>

    constructor ()
      ensures nodes == {} && edges == map[] && branches == map[]
    {
      nodes, edges, branches := {}, map[], map[];
    }

    method AddNode(node: Node)
      modifies this
      ensures nodes == old(nodes) + {node} && edges == old(edges) && branches == old(branches)
    {
      nodes := nodes + {node};
    }

    method AddEdge(from: Node, to: Node)
      modifies this
      ensures edges == old(edges)[from := to] && nodes == old(nodes) && branches == old(branches)
    {
      edges := edges[from := to];
    }

    method AddConditionalEdges(from: Node, targets: set<Node>)
      modifies this
      ensures branches == old(branches)[from := targets] && nodes == old(nodes) && edges == old(edges)
    {
      branches := branches[from := targets];
    }
  }

  // Reviewer, unlike the others, is left by the router.
  const PIPELINE := map[
    Start := Classifier, Classifier := Researcher, Researcher := Responder, Responder := Reviewer]

  const EXITS := {Responder, End}

  method CompileGraph() returns (graph: StateGraph)
    ensures fresh(graph) && graph.edges == PIPELINE && graph.branches == map[Reviewer := EXITS]
    ensures graph.nodes + {Start} == graph.edges.Keys + graph.branches.Keys
    ensures forall n :: n in graph.edges ==> graph.edges[n] in graph.nodes
  {
    graph := new StateGraph();
    graph.AddNode(Classifier);
    graph.AddNode(Researcher);
    graph.AddNode(Responder);
    graph.AddNode(Reviewer);
    graph.AddEdge(Start, Classifier);
    graph.AddEdge(Classifier, Researcher);
    graph.AddEdge(Researcher, Responder);
    graph.AddEdge(Responder, Reviewer);
    graph.AddConditionalEdges(Reviewer, {Responder, End});
  }

  function RouteAfterReview(state: CaseState, maxReviews: int): (node: Node)
    ensures node in EXITS
  {
    if state.decision == Some(RESOLVED) then End
    else if state.iterations >= maxReviews then End
    else Responder
  }

  /* ---- nodes ---- */

  function OrOther(category: Option<string>): string {
    if category == None || category.value == "" then OTHER else category.value
  }

  function Classified(state: CaseState, category: string): CaseState {
    state.(category := Some(if category in CATEGORIES then category else OTHER))
  }

  function FeedbackText(v: Verdict): string {
    if v.feedback == None || v.feedback.value == "" then NO_FEEDBACK else v.feedback.value
  }

  function CapReason(passes: nat, feedback: string): string {
    "Not approved after " + Decimal(passes) + " review pass(es): " + feedback
  }

  // The reviewer's partial update, merged into the state.
  function Reviewed(state: CaseState, v: Verdict, maxReviews: int): CaseState {
    var iterations := state.iterations + 1;
    if v.approved then
      state.(iterations := iterations, decision := Some(RESOLVED), feedback := None)
    else
      var text := FeedbackText(v);
      var update := state.(iterations := iterations, feedback := Some(text));
      if iterations >= maxReviews
      then update.(decision := Some(ESCALATE), reason := Some(CapReason(iterations, text)))
      else update
  }

  // Reviewer and router test the cap in two places, and agree: a case that was open before
  // the review goes to the end exactly if the review has decided it.
  lemma RouterAgrees(state: CaseState, v: Verdict, maxReviews: int)
    requires state.decision == None
    ensures var s := Reviewed(state, v, maxReviews);
      && (RouteAfterReview(s, maxReviews) == End <==> s.decision != None)
      && (RouteAfterReview(s, maxReviews) == Responder <==> !v.approved && state.iterations + 1 < maxReviews)
  {
    hide CapReason, FeedbackText;
  }

  method ReviewerUpdate(state: CaseState, v: Verdict, maxReviews: int) returns (out: CaseState)
    ensures out == Reviewed(state, v, maxReviews)
  {
    var iterations := state.iterations + 1;
    if v.approved {
      return state.(iterations := iterations, decision := Some(RESOLVED), feedback := None);
    }
    var feedback := NO_FEEDBACK;
    if v.feedback != None && v.feedback.value != "" { feedback := v.feedback.value; }
    out := state.(iterations := iterations, feedback := Some(feedback));
    if iterations >= maxReviews {
      out := out.(decision := Some(ESCALATE));
      out := out.(reason := Some(CapReason(iterations, feedback)));
    }
  }

  /* ---- the run ---- */

  // A graph between two nodes: where it goes next, its state, and what it has asked of
  // the model and of the tools.
  datatype Config = Config(node: Node, state: CaseState, calls: seq<LlmCall>, executed: seq<Request>)

  datatype Run = Going(config: Config) | Failed(message: string, calls: seq<LlmCall>, executed: seq<Request>)

  ghost function Step(w: World, c: Config): Run
    requires c.node != End
  {
    var s, n := c.state, |c.calls|;
    match c.node
    case Start => Going(c.(node := PIPELINE[Start]))
    case Classifier =>
      var reply := w.llm.classify(n, s.ticket);
      var calls := c.calls + [Classify(s.ticket, reply)];
      (match reply
       case Raise(m) => Failed(m, calls, c.executed)
       case Answer(category) => Going(Config(PIPELINE[Classifier], Classified(s, category), calls, c.executed)))
    case Researcher =>
      var reply := w.llm.plan(n, s.ticket, OrOther(s.category), s.orderId);
      var calls := c.calls + [Plan(s.ticket, OrOther(s.category), s.orderId, reply)];
      (match reply
       case Raise(m) => Failed(m, calls, c.executed)
       case Answer(requests) =>
         var f := Rounds(w.guard, w.answers, Findings([], [], c.executed), Slice(requests, w.maxToolRounds));
         var s' := s.(facts := s.facts + f.facts, toolCalls := s.toolCalls + f.calls);
         Going(Config(PIPELINE[Researcher], s', calls, f.executed)))
    case Responder =>
      var reply := w.llm.draft(n, s.ticket, OrOther(s.category), s.facts, s.feedback);
      var calls := c.calls + [Draft(s.ticket, OrOther(s.category), s.facts, s.feedback, reply)];
      (match reply
       case Raise(m) => Failed(m, calls, c.executed)
       case Answer(text) => Going(Config(PIPELINE[Responder], s.(draft := Some(w.redact(text))), calls, c.executed)))
    case Reviewer =>
      var draft := if s.draft == None then "" else s.draft.value;
      var reply := w.llm.review(n, s.ticket, draft, s.facts);
      var calls := c.calls + [Review(s.ticket, draft, s.facts, reply)];
      (match reply
       case Raise(m) => Failed(m, calls, c.executed)
       case Answer(v) =>
         var s' := Reviewed(s, v, w.maxReviews);
         Going(Config(RouteAfterReview(s', w.maxReviews), s', calls, c.executed)))
  }

  // How many review passes the cap still allows.
  function Remaining(w: World, s: CaseState): nat {
    if w.maxReviews > s.iterations then w.maxReviews - s.iterations else 0
  }

  function Rank(w: World, c: Config): nat {
    2 * Remaining(w, c.state) + match c.node
      case Start => 6 case Classifier => 5 case Researcher => 4 case Responder => 3 case Reviewer => 2 case End => 0
  }

  // Every step uses up rank, whatever the model says: the review loop cannot spin.
  lemma RankDecreases(w: World, c: Config)
    requires c.node != End && Step(w, c).Going?
    ensures Rank(w, Step(w, c).config) < Rank(w, c)
  {
    hide Rounds, Slice;
  }

  // The run to its end.
  ghost function RunFrom(w: World, c: Config): Run
    decreases Rank(w, c), 1
  {
    if c.node == End then Going(c) else RunOn(w, c)
  }

  ghost function RunOn(w: World, c: Config): Run
    requires c.node != End
    decreases Rank(w, c), 0
  {
    match Step(w, c)
    case Failed(m, calls, x) => Failed(m, calls, x)
    case Going(c') => RankDecreases(w, c); RunFrom(w, c')
  }

  function Begin(ticketId: string, ticket: string, orderId: Option<string>): Config {
    Config(Start, Initial(ticketId, ticket, orderId), [], [])
  }

  /* ---- the engine ---- */

  // What a node leaves, moved along an edge to `next`.
  function Onward(run: Run, next: Node): Run {
    match run case Going(c) => Going(c.(node := next)) case Failed(_, _, _) => run
  }

  method ClassifierNode(w: World, c: Config) returns (run: Run)
    requires c.node == Classifier
    ensures Onward(run, PIPELINE[Classifier]) == Step(w, c)
    ensures run.Going? ==> run.config.executed == c.executed
  {
    var reply := w.llm.classify(|c.calls|, c.state.ticket);
    var calls := c.calls + [Classify(c.state.ticket, reply)];
    match reply
    case Raise(m) => return Failed(m, calls, c.executed);
    case Answer(category) =>
      var kind := category;
      if kind !in CATEGORIES { kind := OTHER; }
      return Going(c.(state := c.state.(category := Some(kind)), calls := calls));
  }

  method ResearcherNode(w: World, tools: ToolBox, c: Config) returns (run: Run)
    requires c.node == Researcher && tools.answers == w.answers && tools.executed == c.executed
    modifies tools
    ensures Onward(run, PIPELINE[Researcher]) == Step(w, c)
    ensures run.Going? ==> tools.executed == run.config.executed
  {
    var s, kind := c.state, OrOther(c.state.category);
    var reply := w.llm.plan(|c.calls|, s.ticket, kind, s.orderId);
    var calls := c.calls + [Plan(s.ticket, kind, s.orderId, reply)];
    match reply
    case Raise(m) => return Failed(m, calls, c.executed);
    case Answer(requests) =>
      hide Rounds, Slice;
      var log, facts := Research.Researcher(w.guard, tools, requests, w.maxToolRounds);
      var records := seq(|log|, i requires 0 <= i < |log| reads log => log[i].View());
      assert records == Views(log);
      s := s.(facts := s.facts + facts, toolCalls := s.toolCalls + records);
      return Going(Config(c.node, s, calls, tools.executed));
  }

  method ResponderNode(w: World, c: Config) returns (run: Run)
    requires c.node == Responder
    ensures Onward(run, PIPELINE[Responder]) == Step(w, c)
    ensures run.Going? ==> run.config.executed == c.executed
  {
    var s, kind := c.state, OrOther(c.state.category);
    var reply := w.llm.draft(|c.calls|, s.ticket, kind, s.facts, s.feedback);
    var calls := c.calls + [Draft(s.ticket, kind, s.facts, s.feedback, reply)];
    match reply
    case Raise(m) => return Failed(m, calls, c.executed);
    case Answer(text) =>
      return Going(c.(state := s.(draft := Some(w.redact(text))), calls := calls));
  }

  method ReviewerNode(w: World, c: Config) returns (run: Run)
    requires c.node == Reviewer
    ensures run.Failed? ==> run == Step(w, c)
    ensures run.Going? ==> Onward(run, RouteAfterReview(run.config.state, w.maxReviews)) == Step(w, c)
    ensures run.Going? ==> run.config.executed == c.executed
  {
    var s := c.state;
    var draft := if s.draft == None then "" else s.draft.value;
    var reply := w.llm.review(|c.calls|, s.ticket, draft, s.facts);
    var calls := c.calls + [Review(s.ticket, draft, s.facts, reply)];
    match reply
    case Raise(m) => return Failed(m, calls, c.executed);
    case Answer(v) =>
      s := ReviewerUpdate(s, v, w.maxReviews);
      return Going(c.(state := s, calls := calls));
  }

  // One node, and then along an edge of the compiled graph: the only one, or the one the
  // router takes.
  method Advance(w: World, graph: StateGraph, tools: ToolBox, c: Config) returns (run: Run)
    requires c.node != End && graph.edges == PIPELINE && graph.branches == map[Reviewer := EXITS]
    requires tools.answers == w.answers && tools.executed == c.executed
    modifies tools
    ensures run == Step(w, c)
    ensures run.Going? ==> tools.executed == run.config.executed
  {
    hide Step, EXITS;
    match c.node {
      case Start => StartStep(w, c); run := Going(c);
      case Classifier => run := ClassifierNode(w, c);
      case Researcher => run := ResearcherNode(w, tools, c);
      case Responder => run := ResponderNode(w, c);
      case Reviewer => run := ReviewerNode(w, c);
    }
    if run.Failed? { return; }
    var next: Node;
    if c.node in graph.edges {
      next := graph.edges[c.node];
    } else {
      next := RouteAfterReview(run.config.state, w.maxReviews);
      assert next in graph.branches[c.node];
    }
    run := Onward(run, next);
  }

  lemma StartStep(w: World, c: Config)
    requires c.node == Start
    ensures Step(w, c) == Going(c.(node := PIPELINE[Start]))
  {
  }

  method Invoke(w: World, ticketId: string, ticket: string, orderId: Option<string>) returns (run: Run)
    ensures run == RunFrom(w, Begin(ticketId, ticket, orderId))
  {
    hide Step;
    var tools := new ToolBox(w.answers);
    var graph := CompileGraph();
    var c := Begin(ticketId, ticket, orderId);
    while c.node != End
      invariant fresh(tools) && tools.answers == w.answers && tools.executed == c.executed
      invariant fresh(graph) && graph.edges == PIPELINE && graph.branches == map[Reviewer := EXITS]
      invariant RunFrom(w, Begin(ticketId, ticket, orderId)) == RunFrom(w, c)
      decreases Rank(w, c)
    {
      run := Advance(w, graph, tools, c);
      if run.Failed? { return; }
      RankDecreases(w, c);
      c := run.config;
    }
    run := Going(c);
  }
}
