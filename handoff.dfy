/**
 * The multi-agent handoff example: a shared state record is passed from a
 * research agent to an analysis agent to a writing agent.  Each agent appends
 * one message to the state and names the agent that should run next; a router
 * reads that name and an edge table decides which node runs next.
 */
module Handoff {
  import opened Wrappers
  import opened Text

  // ---------------------------------------------------------------------------
  // Messages and the shared state
  // ---------------------------------------------------------------------------

  /** A message dictionary; `agent` is absent on the user's message. */
  datatype Message = Message(role: string, content: string, agent: Option<string>)

  const ResearchAgentName: string := "Research Agent"
  const AnalysisAgentName: string := "Analysis Agent"
  const WritingAgentName: string := "Writing Agent"

  /** The state dictionary the agents update in place. */
  class HandoffState {
    var messages: seq<Message>
    var currentAgent: Option<string>  // None when the "current_agent" key is missing
    var taskType: string
    var handoffReason: string
    var finalResult: string

    constructor (messages: seq<Message>, currentAgent: Option<string>, taskType: string,
                 handoffReason: string, finalResult: string)
      ensures this.messages == messages && this.currentAgent == currentAgent
      ensures this.taskType == taskType && this.handoffReason == handoffReason
      ensures this.finalResult == finalResult
    {
      this.messages := messages;
      this.currentAgent := currentAgent;
      this.taskType := taskType;
      this.handoffReason := handoffReason;
      this.finalResult := finalResult;
    }
  }

  // ---------------------------------------------------------------------------
  // The mock tools
  // ---------------------------------------------------------------------------

  /** The research tool's lookup table, keyed by lower-case topic. */
  const ResearchTable: map<string, string> := map[
    "quantum computing" := "Quantum computing uses quantum mechanical phenomena like superposition and entanglement to process information.",
    "machine learning" := "Machine learning is a subset of AI that enables computers to learn without being explicitly programmed.",
    "blockchain" := "Blockchain is a distributed ledger technology that maintains a secure and decentralized record of transactions."
  ]

  const NotFoundPrefix: string := "No specific research data found for "

  /** `research_tool`: the entry for the lower-cased query, else a not-found sentence quoting the query as given. */
  function ResearchTool(query: string): string {
    var key := Lower(query);
    if key in ResearchTable then ResearchTable[key] else NotFoundPrefix + query
  }

  /** The research tool is case-insensitive on known topics and quotes unknown queries verbatim. */
  lemma ResearchToolCases(query: string)
    ensures Lower(query) in ResearchTable ==> ResearchTool(query) == ResearchTable[Lower(query)]
    ensures Lower(query) !in ResearchTable ==> ResearchTool(query) == NotFoundPrefix + query
    ensures ResearchTool(Lower(query)) == ResearchTool(query) || Lower(query) !in ResearchTable
  {
    LowerIdempotent(query);
  }

  /** The tool's answer is longer than 50 exactly for a known topic or an unknown query longer than 14. */
  lemma ResearchResultLongIff(query: string)
    ensures |ResearchTool(query)| > 50 <==> Lower(query) in ResearchTable || |query| > 14
  {
    assert |NotFoundPrefix| == 36;
    assert forall k :: k in ResearchTable ==> |ResearchTable[k]| > 50;
  }

  const QuantumAnalysis: string := "Analysis: Quantum computing shows promise for cryptography, optimization, and simulation problems."
  const MachineLearningAnalysis: string := "Analysis: ML applications span across healthcare, finance, autonomous vehicles, and recommendation systems."
  const BlockchainAnalysis: string := "Analysis: Blockchain technology can improve transparency, security, and decentralization in various industries."
  const GenericAnalysis: string := "Analysis: The provided data requires further investigation to draw meaningful insights."

  /** `analysis_tool`: the first keyword found, case-insensitively, picks the canned analysis. */
  function AnalysisTool(data: string): string {
    if Contains(Lower(data), "quantum") then QuantumAnalysis
    else if Contains(Lower(data), "machine learning") then MachineLearningAnalysis
    else if Contains(Lower(data), "blockchain") then BlockchainAnalysis
    else GenericAnalysis
  }

  /** The keywords are tried in the fixed order quantum, machine learning, blockchain. */
  lemma AnalysisToolPriority(data: string)
    ensures AnalysisTool(data) == QuantumAnalysis <==> Contains(Lower(data), "quantum")
    ensures AnalysisTool(data) == MachineLearningAnalysis <==>
              !Contains(Lower(data), "quantum") && Contains(Lower(data), "machine learning")
    ensures AnalysisTool(data) == BlockchainAnalysis <==>
              !Contains(Lower(data), "quantum") && !Contains(Lower(data), "machine learning")
              && Contains(Lower(data), "blockchain")
    ensures AnalysisTool(data) == GenericAnalysis <==>
              !Contains(Lower(data), "quantum") && !Contains(Lower(data), "machine learning")
              && !Contains(Lower(data), "blockchain")
  {
    assert |QuantumAnalysis| == 98 && |MachineLearningAnalysis| == 107;
    assert |BlockchainAnalysis| == 111 && |GenericAnalysis| == 87;
  }

  /** The analysis does not depend on letter case. */
  lemma AnalysisToolIgnoresCase(data: string)
    ensures AnalysisTool(Lower(data)) == AnalysisTool(data)
  {
    LowerIdempotent(data);
  }

  const ReportHeader: string := "\n# Research Report\n\n## Executive Summary\n"
  const ReportFooter: string := "\n\n## Key Findings\n- Technology shows significant potential\n- Multiple industry applications identified\n- Further research recommended\n\n## Conclusion\nThe analysis indicates promising opportunities for implementation and development.\n"

  /** `writing_tool`: the content placed in the report template. */
  function WritingTool(content: string): (report: string)
    ensures |report| == |ReportHeader| + |content| + |ReportFooter|
  {
    ReportHeader + content + ReportFooter
  }

  /** Reads the executive summary back out of a report in the template's shape. */
  function ExecutiveSummary(report: string): Option<string> {
    if |ReportHeader| + |ReportFooter| <= |report|
       && report[..|ReportHeader|] == ReportHeader
       && report[|report| - |ReportFooter|..] == ReportFooter
    then Some(report[|ReportHeader|..|report| - |ReportFooter|])
    else None
  }

  /** The report keeps its content intact: it can be read back out. */
  lemma WritingToolRoundTrip(content: string)
    ensures ExecutiveSummary(WritingTool(content)) == Some(content)
  {
    var report := WritingTool(content);
    assert report[..|ReportHeader|] == ReportHeader;
    assert report[|report| - |ReportFooter|..] == ReportFooter;
    assert report[|ReportHeader|..|report| - |ReportFooter|] == content;
  }

  // ---------------------------------------------------------------------------
  // What each agent reads and writes
  // ---------------------------------------------------------------------------

  /** The content of the last message, or "" when there are none. */
  function UserQuery(ms: seq<Message>): string {
    if |ms| > 0 then ms[|ms| - 1].content else ""
  }

  /** The research agent hands off when its tool returned more than 50 characters. */
  predicate ResearchHandsOff(ms: seq<Message>) {
    |ResearchTool(UserQuery(ms))| > 50
  }

  /** The message the research agent appends. */
  function ResearchReply(ms: seq<Message>): (m: Message)
    ensures m.agent == Some(ResearchAgentName)
  {
    var result := ResearchTool(UserQuery(ms));
    if |result| > 50 then Message("assistant", "Research completed: " + result, Some(ResearchAgentName))
    else Message("assistant", "Insufficient research data: " + result, Some(ResearchAgentName))
  }

  predicate IsResearchMessage(m: Message) {
    m.agent == Some(ResearchAgentName)
  }

  /** The position of the first research message, or -1 if there is none. */
  function FirstResearchIndex(ms: seq<Message>): (i: int)
    ensures -1 <= i < |ms|
    ensures i == -1 <==> forall j :: 0 <= j < |ms| ==> !IsResearchMessage(ms[j])
    ensures 0 <= i ==> IsResearchMessage(ms[i]) && forall j :: 0 <= j < i ==> !IsResearchMessage(ms[j])
  {
    if ms == [] then -1
    else if IsResearchMessage(ms[0]) then 0
    else
      var i := FirstResearchIndex(ms[1..]);
      if i == -1 then -1 else i + 1
  }

  /** The content the analysis agent analyses: the first research message's, or "". */
  function ResearchData(ms: seq<Message>): string {
    var i := FirstResearchIndex(ms);
    if i == -1 then "" else ms[i].content
  }

  /** The message the analysis agent appends. */
  function AnalysisReply(ms: seq<Message>): Message {
    Message("assistant", AnalysisTool(ResearchData(ms)), Some(AnalysisAgentName))
  }

  /** Messages whose content the writing agent compiles. */
  predicate IsPriorWork(m: Message) {
    m.agent == Some(ResearchAgentName) || m.agent == Some(AnalysisAgentName)
  }

  /** The research and analysis contents, each followed by a newline, in message order. */
  function PriorWork(ms: seq<Message>): string {
    if ms == [] then ""
    else
      var last := ms[|ms| - 1];
      PriorWork(ms[..|ms| - 1]) + (if IsPriorWork(last) then last.content + "\n" else "")
  }

  /** Compiling a concatenation is concatenating the compilations. */
  lemma {:induction false} PriorWorkAppend(a: seq<Message>, b: seq<Message>)
    ensures PriorWork(a + b) == PriorWork(a) + PriorWork(b)
    decreases |b|
  {
    if b == [] {
      assert a + b == a;
    } else {
      var b' := b[..|b| - 1];
      assert (a + b)[..|a + b| - 1] == a + b';
      PriorWorkAppend(a, b');
    }
  }

  /** Messages of other agents, and the user's, contribute nothing. */
  lemma PriorWorkSkips(ms: seq<Message>, m: Message)
    requires !IsPriorWork(m)
    ensures PriorWork(ms + [m]) == PriorWork(ms)
    ensures PriorWork([m] + ms) == PriorWork(ms)
  {
    assert (ms + [m])[..|ms|] == ms;
    PriorWorkAppend([m], ms);
    assert [m][..0] == [];
  }

  /** The message the writing agent appends: the report over all prior work. */
  function WritingReply(ms: seq<Message>): Message {
    Message("assistant", WritingTool(PriorWork(ms)), Some(WritingAgentName))
  }

  // ---------------------------------------------------------------------------
  // The agents
  // ---------------------------------------------------------------------------

  class ResearchAgent {
    const name: string := ResearchAgentName

    constructor () {}

    /** Looks the last message up with the research tool and hands off to analysis or ends. */
    method Process(state: HandoffState)
      modifies state
      ensures state.messages == old(state.messages) + [ResearchReply(old(state.messages))]
      ensures ResearchHandsOff(old(state.messages)) ==>
                && state.currentAgent == Some("analysis")
                && state.handoffReason == "Research completed, needs analysis"
                && state.finalResult == old(state.finalResult)
      ensures !ResearchHandsOff(old(state.messages)) ==>
                && state.currentAgent == Some("end")
                && state.finalResult == "Research incomplete"
                && state.handoffReason == old(state.handoffReason)
      ensures state.taskType == old(state.taskType)
    {
      var userQuery := if |state.messages| > 0 then state.messages[|state.messages| - 1].content else "";
      var researchResult := ResearchTool(userQuery);
      if |researchResult| > 50 {
        state.messages := state.messages + [Message("assistant", "Research completed: " + researchResult, Some(name))];
        state.currentAgent := Some("analysis");
        state.handoffReason := "Research completed, needs analysis";
      } else {
        state.messages := state.messages + [Message("assistant", "Insufficient research data: " + researchResult, Some(name))];
        state.currentAgent := Some("end");
        state.finalResult := "Research incomplete";
      }
    }
  }

  class AnalysisAgent {
    const name: string := AnalysisAgentName

    constructor () {}

    /** Analyses the first research message and always hands off to writing. */
    method Process(state: HandoffState)
      modifies state
      ensures state.messages == old(state.messages) + [AnalysisReply(old(state.messages))]
      ensures state.currentAgent == Some("writing")
      ensures state.handoffReason == "Analysis completed, needs formatting"
      ensures state.finalResult == old(state.finalResult) && state.taskType == old(state.taskType)
    {
      var researchData := "";
      var i := 0;
      while i < |state.messages|
        invariant 0 <= i <= |state.messages|
        invariant forall j :: 0 <= j < i ==> !IsResearchMessage(state.messages[j])
        invariant researchData == ""
      {
        if state.messages[i].agent == Some(ResearchAgentName) {
          researchData := state.messages[i].content;
          break;
        }
        i := i + 1;
      }
      assert researchData == ResearchData(state.messages);
      var analysisResult := AnalysisTool(researchData);
      state.messages := state.messages + [Message("assistant", analysisResult, Some(name))];
      state.currentAgent := Some("writing");
      state.handoffReason := "Analysis completed, needs formatting";
    }
  }

  class WritingAgent {
    const name: string := WritingAgentName

    constructor () {}

    /** Compiles the research and analysis contents into the report and ends the run. */
    method Process(state: HandoffState)
      modifies state
      ensures state.messages == old(state.messages) + [WritingReply(old(state.messages))]
      ensures state.currentAgent == Some("end")
      ensures state.finalResult == WritingReply(old(state.messages)).content
      ensures state.handoffReason == old(state.handoffReason) && state.taskType == old(state.taskType)
    {
      var allContent := "";
      for i := 0 to |state.messages|
        invariant allContent == PriorWork(state.messages[..i])
      {
        var msg := state.messages[i];
        assert state.messages[..i + 1][..i] == state.messages[..i];
        if msg.agent == Some(ResearchAgentName) || msg.agent == Some(AnalysisAgentName) {
          allContent := allContent + msg.content + "\n";
        }
      }
      assert state.messages[..|state.messages|] == state.messages;
      var finalReport := WritingTool(allContent);
      state.messages := state.messages + [Message("assistant", finalReport, Some(name))];
      state.currentAgent := Some("end");
      state.finalResult := finalReport;
    }
  }

  // ---------------------------------------------------------------------------
  // Routing and the edge table
  // ---------------------------------------------------------------------------

  /** `route_to_agent`: the state's current agent, "research" when the key is missing. */
  function RouteToAgent(state: HandoffState): string
    reads state
  {
    state.currentAgent.GetOr("research")
  }

  /** The router follows the state's current agent and starts at research when none is recorded. */
  lemma RouteFollowsCurrentAgent(state: HandoffState)
    ensures state.currentAgent == None ==> RouteToAgent(state) == "research"
    ensures state.currentAgent.Some? ==> RouteToAgent(state) == state.currentAgent.value
  {
  }

  datatype Node = Research | Analysis | Writing

  /** Where a conditional edge leads: another node, or the end of the graph. */
  datatype Target = Goto(node: Node) | End

  const EntryPoint: Node := Research

  /** The path maps given to `add_conditional_edges`, one per node. */
  function PathMap(n: Node): map<string, Target> {
    match n
    case Research => map["analysis" := Goto(Analysis), "end" := End]
    case Analysis => map["writing" := Goto(Writing), "end" := End]
    case Writing => map["end" := End]
  }

  /** The transitions the graph allows. */
  predicate Allowed(from: Node, to: Target) {
    || (from == Research && (to == Goto(Analysis) || to == End))
    || (from == Analysis && (to == Goto(Writing) || to == End))
    || (from == Writing && to == End)
  }

  /** Distance to the end of the graph. */
  function Rank(t: Target): nat {
    match t
    case End => 0
    case Goto(Writing) => 1
    case Goto(Analysis) => 2
    case Goto(Research) => 3
  }

  /** Every edge of the table is an allowed transition, and every edge moves closer to the end. */
  lemma PathMapOnlyAllowed(n: Node, route: string)
    requires route in PathMap(n)
    ensures Allowed(n, PathMap(n)[route])
    ensures Rank(PathMap(n)[route]) < Rank(Goto(n))
  {
  }

  /** Every allowed transition is in the table, under the name of its target. */
  lemma AllowedInPathMap(n: Node, t: Target)
    requires Allowed(n, t)
    ensures TargetName(t) in PathMap(n) && PathMap(n)[TargetName(t)] == t
  {
  }

  /** The key each target is registered under. */
  function TargetName(t: Target): string {
    match t
    case End => "end"
    case Goto(Research) => "research"
    case Goto(Analysis) => "analysis"
    case Goto(Writing) => "writing"
  }

  /** `b` can run right after `a`. */
  predicate Step(a: Node, b: Node) {
    Goto(b) in PathMap(a).Values
  }

  /** A sequence of nodes the graph can run, starting at the entry point. */
  predicate IsRun(p: seq<Node>) {
    |p| > 0 && p[0] == EntryPoint && forall i :: 0 <= i < |p| - 1 ==> Step(p[i], p[i + 1])
  }

  lemma StepDecreasesRank(a: Node, b: Node)
    requires Step(a, b)
    ensures Rank(Goto(b)) < Rank(Goto(a))
  {
    var route :| route in PathMap(a) && PathMap(a)[route] == Goto(b);
    PathMapOnlyAllowed(a, route);
  }

  /** Every run visits at most three nodes. */
  lemma RunsVisitAtMostThreeNodes(p: seq<Node>)
    requires IsRun(p)
    ensures |p| <= 3
  {
    var i := 0;
    while i < |p| - 1
      invariant 0 <= i <= |p| - 1
      invariant Rank(Goto(p[i])) + i <= 3
    {
      StepDecreasesRank(p[i], p[i + 1]);
      i := i + 1;
    }
  }

  // ---------------------------------------------------------------------------
  // Running the graph
  // ---------------------------------------------------------------------------

  /** The messages after each phase of a run. */
  function AfterResearch(ms: seq<Message>): seq<Message> {
    ms + [ResearchReply(ms)]
  }

  function AfterAnalysis(ms: seq<Message>): seq<Message> {
    AfterResearch(ms) + [AnalysisReply(AfterResearch(ms))]
  }

  function AfterWriting(ms: seq<Message>): seq<Message> {
    AfterAnalysis(ms) + [WritingReply(AfterAnalysis(ms))]
  }

  /**
   * One node of the compiled graph: the node function runs a fresh agent on the
   * state, then the node's conditional edge routes on the state through its path map.
   */
  method RunNode(node: Node, state: HandoffState) returns (next: Target)
    modifies state
    ensures Allowed(node, next)
    ensures state.taskType == old(state.taskType)
    ensures state.currentAgent == Some(TargetName(next))
    ensures node == Research ==>
              && state.messages == AfterResearch(old(state.messages))
              && (ResearchHandsOff(old(state.messages)) ==>
                    && next == Goto(Analysis)
                    && state.handoffReason == "Research completed, needs analysis"
                    && state.finalResult == old(state.finalResult))
              && (!ResearchHandsOff(old(state.messages)) ==>
                    && next == End
                    && state.finalResult == "Research incomplete"
                    && state.handoffReason == old(state.handoffReason))
    ensures node == Analysis ==>
              && state.messages == old(state.messages) + [AnalysisReply(old(state.messages))]
              && next == Goto(Writing)
              && state.handoffReason == "Analysis completed, needs formatting"
              && state.finalResult == old(state.finalResult)
    ensures node == Writing ==>
              && state.messages == old(state.messages) + [WritingReply(old(state.messages))]
              && next == End
              && state.finalResult == WritingReply(old(state.messages)).content
              && state.handoffReason == old(state.handoffReason)
  {
    match node {
      case Research =>
        var agent := new ResearchAgent();
        agent.Process(state);
      case Analysis =>
        var agent := new AnalysisAgent();
        agent.Process(state);
      case Writing =>
        var agent := new WritingAgent();
        agent.Process(state);
    }
    var route := RouteToAgent(state);
    var edges := PathMap(node);
    assert route in edges;
    PathMapOnlyAllowed(node, route);
    next := edges[route];
  }

  /**
   * The compiled graph's `invoke`: starts at the entry point and runs nodes,
   * following the conditional edges, until an edge leads to the end.
   */
  method Invoke(state: HandoffState) returns (steps: nat)
    modifies state
    ensures 1 <= steps <= 3
    ensures |state.messages| == |old(state.messages)| + steps
    ensures state.currentAgent == Some("end")
    ensures state.taskType == old(state.taskType)
    ensures ResearchHandsOff(old(state.messages)) ==>
              && steps == 3
              && state.messages == AfterWriting(old(state.messages))
              && state.finalResult == WritingReply(AfterAnalysis(old(state.messages))).content
              && state.handoffReason == "Analysis completed, needs formatting"
    ensures !ResearchHandsOff(old(state.messages)) ==>
              && steps == 1
              && state.messages == AfterResearch(old(state.messages))
              && state.finalResult == "Research incomplete"
              && state.handoffReason == old(state.handoffReason)
  {
    ghost var ms := state.messages;
    var node := EntryPoint;
    var running := true;
    steps := 0;
    while running
      invariant state.taskType == old(state.taskType)
      invariant running && node == Research ==>
                  steps == 0 && state.messages == ms
                  && state.handoffReason == old(state.handoffReason) && state.finalResult == old(state.finalResult)
      invariant running && node == Analysis ==>
                  steps == 1 && ResearchHandsOff(ms) && state.messages == AfterResearch(ms)
      invariant running && node == Writing ==>
                  steps == 2 && ResearchHandsOff(ms) && state.messages == AfterAnalysis(ms)
                  && state.handoffReason == "Analysis completed, needs formatting"
      invariant !running ==> state.currentAgent == Some("end")
      invariant !running && ResearchHandsOff(ms) ==>
                  steps == 3 && state.messages == AfterWriting(ms)
                  && state.finalResult == WritingReply(AfterAnalysis(ms)).content
                  && state.handoffReason == "Analysis completed, needs formatting"
      invariant !running && !ResearchHandsOff(ms) ==>
                  steps == 1 && state.messages == AfterResearch(ms)
                  && state.finalResult == "Research incomplete"
                  && state.handoffReason == old(state.handoffReason)
      decreases if running then Rank(Goto(node)) else 0
    {
      var next := RunNode(node, state);
      steps := steps + 1;
      match next {
        case End => running := false;
        case Goto(n) => node := n;
      }
    }
  }

  // ---------------------------------------------------------------------------
  // The demonstration queries
  // ---------------------------------------------------------------------------

  /** The state a run starts from: the user's query and an initial handoff reason. */
  method InitialState(query: string) returns (state: HandoffState)
    ensures fresh(state)
    ensures state.messages == [Message("user", query, None)]
    ensures state.currentAgent == Some("research")
    ensures state.taskType == "research_analysis_report"
    ensures state.handoffReason == "Initial request" && state.finalResult == ""
  {
    state := new HandoffState([Message("user", query, None)], Some("research"),
                              "research_analysis_report", "Initial request", "");
  }

  /** After research on a single query, the analysis agent reads the research message. */
  lemma QueryResearchData(query: string)
    ensures ResearchData(AfterResearch([Message("user", query, None)]))
            == ResearchReply([Message("user", query, None)]).content
  {
    var ms := [Message("user", query, None)];
    assert FirstResearchIndex(AfterResearch(ms)) == 1;
  }

  /** A user message followed by two prior-work messages compiles to their two contents. */
  lemma PriorWorkOfThree(m0: Message, m1: Message, m2: Message)
    requires !IsPriorWork(m0) && IsPriorWork(m1) && IsPriorWork(m2)
    ensures PriorWork([m0, m1, m2]) == m1.content + "\n" + m2.content + "\n"
  {
    assert [m0][..0] == [];
    assert PriorWork([m0]) == "";
    assert [m0, m1][..1] == [m0];
    assert PriorWork([m0, m1]) == m1.content + "\n";
    assert [m0, m1, m2][..2] == [m0, m1];
    assert PriorWork([m0, m1, m2]) == (m1.content + "\n") + (m2.content + "\n");
  }

  /** After analysis on a single query, the writing agent compiles the research and analysis contents. */
  lemma QueryPriorWork(query: string)
    ensures var ms := [Message("user", query, None)];
            PriorWork(AfterAnalysis(ms))
            == ResearchReply(ms).content + "\n" + AnalysisReply(AfterResearch(ms)).content + "\n"
  {
    var ms := [Message("user", query, None)];
    var m1 := ResearchReply(ms);
    var m2 := AnalysisReply(AfterResearch(ms));
    assert AfterAnalysis(ms) == [Message("user", query, None), m1, m2];
    PriorWorkOfThree(Message("user", query, None), m1, m2);
  }

  /** The report a handed-off query ends with: its research and analysis, formatted. */
  function Report(query: string): string {
    var c1 := "Research completed: " + ResearchTool(query);
    WritingTool(c1 + "\n" + AnalysisTool(c1) + "\n")
  }

  /** One query through the graph: four messages and a report, or two messages when research is short. */
  method RunQuery(query: string) returns (messageCount: nat, finalResult: string)
    ensures |ResearchTool(query)| > 50 ==> messageCount == 4 && finalResult == Report(query)
    ensures |ResearchTool(query)| <= 50 ==> messageCount == 2 && finalResult == "Research incomplete"
  {
    var state := InitialState(query);
    QueryResearchData(query);
    QueryPriorWork(query);
    assert UserQuery(state.messages) == query;
    var steps := Invoke(state);
    messageCount := |state.messages|;
    finalResult := state.finalResult;
  }

  const DemoQueries: seq<string> := ["quantum computing", "machine learning", "blockchain"]

  /** Each demonstration query is its own lower-case form. */
  lemma DemoQueryIsLowerCase(i: nat)
    requires i < |DemoQueries|
    ensures Lower(DemoQueries[i]) == DemoQueries[i]
  {
    if i == 0 {
      LowerOfLowercase("quantum computing");
    } else if i == 1 {
      LowerOfLowercase("machine learning");
    } else {
      LowerOfLowercase("blockchain");
    }
  }

  /** Every demonstration query is a known topic, so its research result is long enough to hand off. */
  lemma DemoQueriesAreKnown(i: nat)
    requires i < |DemoQueries|
    ensures Lower(DemoQueries[i]) in ResearchTable
    ensures |ResearchTool(DemoQueries[i])| > 50
  {
    DemoQueryIsLowerCase(i);
    ResearchResultLongIff(DemoQueries[i]);
  }

  /**
   * `main`'s loop over the demonstration queries: every query goes through all
   * three agents, ending with four messages and a non-empty report rather than "Research incomplete".
   */
  method RunDemoQueries() returns (counts: seq<nat>, reports: seq<string>)
    ensures counts == [4, 4, 4]
    ensures |reports| == 3 && forall i :: 0 <= i < 3 ==> |reports[i]| > 0 && reports[i] != "Research incomplete"
  {
    counts, reports := [], [];
    for i := 0 to |DemoQueries|
      invariant |counts| == |reports| == i
      invariant forall j :: 0 <= j < i ==> counts[j] == 4 && |reports[j]| > 0 && reports[j] != "Research incomplete"
    {
      DemoQueriesAreKnown(i);
      var messageCount, finalResult := RunQuery(DemoQueries[i]);
      counts := counts + [messageCount];
      reports := reports + [finalResult];
    }
  }
}
