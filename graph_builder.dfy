/** The workflow graph: its declaration as built, the typed tables the
    stepper uses, and the stepper itself. */
module GraphBuilder {
  import opened Wrappers
  import opened SdlcState
  import opened Generation
  import SdlcNode
  import DesignDocNode

  // ---------------------------------------------------------------------
  // The declaration, as the builder records it

  datatype Endpoint = StartPoint | Named(name: string) | EndPoint

  /** A conditional edge: the node it leaves and its label-to-node table. */
  datatype Branch = Branch(source: string, table: map<string, string>)

  datatype Declaration = Declaration(nodes: seq<string>, edges: seq<(Endpoint, Endpoint)>, branches: seq<Branch>)

  /** `build_graph`: the five nodes, the static edges and the one conditional edge. */
  function BuildGraph(): (r: Declaration)
    ensures forall n :: n in r.nodes ==> HasExit(r, n)
    ensures forall i, j :: 0 <= i < j < |r.edges| ==> r.edges[i].0 != r.edges[j].0
    ensures forall i, b :: 0 <= i < |r.edges| && 0 <= b < |r.branches| ==>
              r.edges[i].0 != Named(r.branches[b].source)
  {
    var d := Declaration(
      ["project_initilization", "get_requirements", "auto_generate_user_stories",
       "product_owner_review_decision", "create_design_document"],
      [(StartPoint, Named("project_initilization")),
       (Named("project_initilization"), Named("get_requirements")),
       (Named("get_requirements"), Named("auto_generate_user_stories")),
       (Named("auto_generate_user_stories"), Named("product_owner_review_decision")),
       (Named("create_design_document"), EndPoint)],
      [Branch("product_owner_review_decision",
              map["approved" := "create_design_document", "feedback" := "auto_generate_user_stories"])]);
    assert d.edges[1].0 == Named(d.nodes[0]) && d.edges[2].0 == Named(d.nodes[1]);
    assert d.edges[3].0 == Named(d.nodes[2]) && d.edges[4].0 == Named(d.nodes[4]);
    assert d.branches[0].source == d.nodes[3];
    d
  }

  /** Node `n` leaves by a static edge or by a conditional edge. */
  predicate HasExit(d: Declaration, n: string) {
    || (exists i :: 0 <= i < |d.edges| && d.edges[i].0 == Named(n))
    || (exists b :: 0 <= b < |d.branches| && d.branches[b].source == n)
  }

  /** The `interrupt_before` list given to `compile` by `setup_graph`. */
  const InterruptBefore: seq<string> := ["get_requirements", "product_owner_review_decision"]

  predicate EndpointDeclared(d: Declaration, p: Endpoint) {
    p.Named? ==> p.name in d.nodes
  }

  /** Node names are distinct, and every name used by an edge, a branch or
      the interrupt list is one of the added nodes. */
  predicate WellFormed(d: Declaration, interrupts: seq<string>) {
    && (forall i, j :: 0 <= i < j < |d.nodes| ==> d.nodes[i] != d.nodes[j])
    && (forall e :: e in d.edges ==> EndpointDeclared(d, e.0) && EndpointDeclared(d, e.1))
    && (forall b :: b in d.branches ==> b.source in d.nodes)
    && (forall b, l :: b in d.branches && l in b.table ==> b.table[l] in d.nodes)
    && (forall x :: x in interrupts ==> x in d.nodes)
  }

  lemma SetupGraphWellFormed()
    ensures WellFormed(BuildGraph(), InterruptBefore)
  {
  }

  // ---------------------------------------------------------------------
  // The typed graph

  datatype Node =
    | ProjectInitilization
    | GetRequirements
    | AutoGenerateUserStories
    | ProductOwnerReviewDecision
    | CreateDesignDocument

  /** Where control goes next: a node, or the end of the graph. */
  datatype Target = Goto(node: Node) | End

  function NodeName(n: Node): string {
    match n
    case ProjectInitilization => "project_initilization"
    case GetRequirements => "get_requirements"
    case AutoGenerateUserStories => "auto_generate_user_stories"
    case ProductOwnerReviewDecision => "product_owner_review_decision"
    case CreateDesignDocument => "create_design_document"
  }

  function NodeNamed(name: string): Option<Node> {
    if name == "project_initilization" then Some(ProjectInitilization)
    else if name == "get_requirements" then Some(GetRequirements)
    else if name == "auto_generate_user_stories" then Some(AutoGenerateUserStories)
    else if name == "product_owner_review_decision" then Some(ProductOwnerReviewDecision)
    else if name == "create_design_document" then Some(CreateDesignDocument)
    else None
  }

  /** Names and nodes correspond one to one. */
  lemma NodeNameRoundTrip(n: Node, name: string)
    ensures NodeNamed(NodeName(n)) == Some(n)
    ensures NodeNamed(name) == Some(n) ==> NodeName(n) == name
  {
  }

  function EndpointOf(t: Target): Endpoint {
    match t
    case Goto(n) => Named(NodeName(n))
    case End => EndPoint
  }

  /** The node the `START` edge enters. */
  const Entry: Node := ProjectInitilization

  predicate IsInterrupt(n: Node) {
    n == GetRequirements || n == ProductOwnerReviewDecision
  }

  /** The static successor of a node; `None` for the node that branches. */
  function StaticEdge(n: Node): Option<Target> {
    match n
    case ProjectInitilization => Some(Goto(GetRequirements))
    case GetRequirements => Some(Goto(AutoGenerateUserStories))
    case AutoGenerateUserStories => Some(Goto(ProductOwnerReviewDecision))
    case ProductOwnerReviewDecision => None
    case CreateDesignDocument => Some(End)
  }

  /** The label table of the conditional edge leaving `product_owner_review_decision`. */
  const RoutingTable: map<string, Node> :=
    map["approved" := CreateDesignDocument, "feedback" := AutoGenerateUserStories]

  /** Resolving a router label; a label outside the table is an error. */
  function Route(returned: string): (r: Result<Target, Error>)
    ensures r.Ok? <==> returned == "approved" || returned == "feedback"
    ensures returned == "approved" ==> r == Ok(Goto(CreateDesignDocument))
    ensures returned == "feedback" ==> r == Ok(Goto(AutoGenerateUserStories))
    ensures r.Err? ==> r.error == UnknownLabel(returned)
  {
    if returned in RoutingTable then Ok(Goto(RoutingTable[returned])) else Err(UnknownLabel(returned))
  }

  /** `product_decision_router`: the `product_decision` key, read as it is. */
  function ProductDecisionRouter(s: SDLCState): (r: Result<string, Error>)
    ensures r.Ok? <==> s.productDecision.Some?
    ensures r.Ok? ==> r.value == s.productDecision.value
    ensures r.Err? ==> r.error == MissingKey("product_decision")
  {
    if s.productDecision.Some? then Ok(s.productDecision.value) else Err(MissingKey("product_decision"))
  }

  /** The successor of `n` once its output is in `s`. */
  function Next(n: Node, s: SDLCState): Result<Target, Error> {
    if StaticEdge(n).Some? then Ok(StaticEdge(n).value)
    else match ProductDecisionRouter(s)
      case Err(e) => Err(e)
      case Ok(returned) => Route(returned)
  }

  /** A declared edge, read in the typed graph. */
  predicate TypedEdge(e: (Endpoint, Endpoint)) {
    match e.0
    case StartPoint => e.1 == Named(NodeName(Entry))
    case Named(a) =>
      NodeNamed(a).Some? && StaticEdge(NodeNamed(a).value).Some?
      && EndpointOf(StaticEdge(NodeNamed(a).value).value) == e.1
    case EndPoint => false
  }

  /** Every typed node is one of the added nodes, and a name denotes a typed
      node exactly when it was added. */
  lemma NodesMatchDeclaration(n: Node, name: string)
    ensures NodeName(n) in BuildGraph().nodes
    ensures name in BuildGraph().nodes <==> NodeNamed(name).Some?
  {
  }

  /** Every declared edge is an edge of the typed graph. */
  lemma DeclaredEdgesAreTyped()
    ensures forall e :: e in BuildGraph().edges ==> TypedEdge(e)
  {
    var edges := BuildGraph().edges;
    forall k | 0 <= k < |edges| ensures TypedEdge(edges[k]) {
      if k == 0 {
        assert TypedEdge(edges[0]);
      } else if k == 1 {
        assert TypedEdge(edges[1]);
      } else if k == 2 {
        assert TypedEdge(edges[2]);
      } else if k == 3 {
        assert TypedEdge(edges[3]);
      } else {
        assert TypedEdge(edges[4]);
      }
    }
  }

  /** `START` enters the entry node, and every static successor of the typed
      graph is a declared edge. */
  lemma TypedEdgesAreDeclared(n: Node)
    ensures (StartPoint, Named(NodeName(Entry))) in BuildGraph().edges
    ensures StaticEdge(n).Some? ==> (Named(NodeName(n)), EndpointOf(StaticEdge(n).value)) in BuildGraph().edges
  {
    var edges := BuildGraph().edges;
    assert edges[0] == (StartPoint, Named(NodeName(Entry)));
    match n
    case ProjectInitilization => assert edges[1] == (Named(NodeName(n)), EndpointOf(StaticEdge(n).value));
    case GetRequirements => assert edges[2] == (Named(NodeName(n)), EndpointOf(StaticEdge(n).value));
    case AutoGenerateUserStories => assert edges[3] == (Named(NodeName(n)), EndpointOf(StaticEdge(n).value));
    case ProductOwnerReviewDecision =>
    case CreateDesignDocument => assert edges[4] == (Named(NodeName(n)), EndpointOf(StaticEdge(n).value));
  }

  /** The one conditional edge leaves the one node without a static edge, and its
      label table is `RoutingTable` written with node names. */
  lemma BranchMatchesDeclaration()
    ensures StaticEdge(ProductOwnerReviewDecision).None?
    ensures forall n :: StaticEdge(n).None? ==> n == ProductOwnerReviewDecision
    ensures BuildGraph().branches ==
            [Branch(NodeName(ProductOwnerReviewDecision),
                    map l | l in RoutingTable :: NodeName(RoutingTable[l]))]
  {
    assert (map l | l in RoutingTable :: NodeName(RoutingTable[l])) == BuildGraph().branches[0].table;
  }

  /** The interrupt set of the typed graph is the `interrupt_before` list. */
  lemma InterruptsMatchDeclaration(n: Node)
    ensures IsInterrupt(n) <==> NodeName(n) in InterruptBefore
  {
  }

  // ---------------------------------------------------------------------
  // Reachability

  /** The targets an edge or a table entry leads to from `n`. */
  function Successors(n: Node): set<Target> {
    if StaticEdge(n).Some? then {StaticEdge(n).value}
    else set l | l in RoutingTable :: Goto(RoutingTable[l])
  }

  predicate IsPath(p: seq<Node>) {
    && |p| > 0
    && p[0] == Entry
    && forall i :: 0 <= i < |p| - 1 ==> Goto(p[i + 1]) in Successors(p[i])
  }

  /** Every node, and the end, can be reached from the entry node. */
  lemma EveryNodeReachable(n: Node)
    ensures exists p :: IsPath(p) && p[|p| - 1] == n
    ensures exists p :: IsPath(p) && End in Successors(p[|p| - 1])
  {
    assert "approved" in RoutingTable;
    var full := [ProjectInitilization, GetRequirements, AutoGenerateUserStories,
                 ProductOwnerReviewDecision, CreateDesignDocument];
    assert IsPath(full);
    var k := match n
      case ProjectInitilization => 0
      case GetRequirements => 1
      case AutoGenerateUserStories => 2
      case ProductOwnerReviewDecision => 3
      case CreateDesignDocument => 4;
    assert IsPath(full[..k + 1]);
    assert full[..k + 1][k] == n;
  }

  // ---------------------------------------------------------------------
  // The stepper

  /** How a run stops: before an interrupt node, at the end, or on an error. */
  datatype Outcome =
    | Suspended(pending: Node, state: SDLCState)
    | Completed(state: SDLCState)
    | Failed(error: Error, state: SDLCState)

  /** The partial update a non-interrupt node's body returns. */
  function Step(llm: Llm, n: Node, s: SDLCState): Result<SDLCState, Error>
    requires !IsInterrupt(n)
  {
    if n == ProjectInitilization then Ok(SdlcNode.Initialized(s))
    else if n == AutoGenerateUserStories then SdlcNode.AutoGenerateUserStories(llm, s)
    else Ok(DesignDocNode.CreateDesignDocument(llm, s))
  }

  function Rank(t: Target): nat {
    match t
    case End => 0
    case Goto(n) =>
      match n
      case ProjectInitilization => 4
      case GetRequirements => 3
      case AutoGenerateUserStories => 2
      case ProductOwnerReviewDecision => 1
      case CreateDesignDocument => 1
  }

  /** What a run from `t` on state `s` does: stop before an interrupt node
      without running it, stop at the end, or run the node, merge its
      update and continue with its successor. */
  function Run(llm: Llm, t: Target, s: SDLCState): (r: Outcome)
    ensures Covers(r.state, s)
    decreases Rank(t)
  {
    if t.End? then Completed(s)
    else if IsInterrupt(t.node) then Suspended(t.node, s)
    else match Step(llm, t.node, s)
      case Err(e) => Failed(e, s)
      case Ok(u) =>
        var s' := Merge(s, u);
        match Next(t.node, s')
        case Err(e) => Failed(e, s')
        case Ok(t') => Run(llm, t', s')
  }

  /** A fresh run: from `START`. */
  function StartRun(llm: Llm, input: SDLCState): (r: Outcome)
    ensures Covers(r.state, input)
    ensures r.state.projectName == input.projectName
  {
    Run(llm, Goto(Entry), input)
  }

  /** Resuming: `update` is applied as the output of `asNode`, then the run
      continues with that node's successor. */
  function ResumeRun(llm: Llm, s: SDLCState, asNode: Node, update: SDLCState): (r: Outcome)
    ensures Covers(r.state, s) && Covers(r.state, update)
    ensures r.Suspended? ==> IsInterrupt(r.pending)
  {
    var s' := Merge(s, update);
    match Next(asNode, s')
    case Err(e) => Failed(e, s')
    case Ok(t) => SuspendsOnlyAtInterrupts(llm, t, s'); Run(llm, t, s')
  }

  /** Runs one node's body, each as the source writes it. */
  method ExecuteNode(llm: Llm, n: Node, s: SDLCState) returns (r: Result<SDLCState, Error>)
    requires !IsInterrupt(n)
    ensures r == Step(llm, n, s)
  {
    if n == ProjectInitilization {
      var state := new SdlcNode.StateDict(s);
      var returned := SdlcNode.ProjectInitilization(state);
      r := Ok(returned.values);
    } else if n == AutoGenerateUserStories {
      r := SdlcNode.AutoGenerateUserStories(llm, s);
    } else {
      r := Ok(DesignDocNode.CreateDesignDocument(llm, s));
    }
  }

  /** The stepper loop: executes nodes and merges their updates until it is
      about to enter an interrupt node, reaches the end, or fails. */
  method Stream(llm: Llm, from: Target, input: SDLCState) returns (o: Outcome)
    ensures o == Run(llm, from, input)
  {
    var t, s := from, input;
    while t.Goto? && !IsInterrupt(t.node)
      invariant Run(llm, t, s) == Run(llm, from, input)
      decreases Rank(t)
    {
      var r := ExecuteNode(llm, t.node, s);
      if r.Err? {
        return Failed(r.error, s);
      }
      var s' := Merge(s, r.value);
      var next := Next(t.node, s');
      if next.Err? {
        return Failed(next.error, s');
      }
      t, s := next.value, s';
    }
    if t.End? {
      o := Completed(s);
    } else {
      o := Suspended(t.node, s);
    }
  }

  /** `graph.stream(input)` on a new thread. */
  method Invoke(llm: Llm, input: SDLCState) returns (o: Outcome)
    ensures o == StartRun(llm, input)
  {
    o := Stream(llm, Goto(Entry), input);
  }

  /** `graph.update_state(thread, update, as_node)` followed by
      `graph.astream(None, thread)`, on a thread whose values are `s`. */
  method ResumeAs(llm: Llm, s: SDLCState, asNode: Node, update: SDLCState) returns (o: Outcome)
    ensures o == ResumeRun(llm, s, asNode, update)
  {
    var s' := Merge(s, update);
    var next := Next(asNode, s');
    if next.Err? {
      return Failed(next.error, s');
    }
    o := Stream(llm, next.value, s');
  }

  // ---------------------------------------------------------------------
  // Properties of runs

  /** Before an interrupt node the run stops with that node pending and its
      body not run. */
  lemma InterruptSuspends(llm: Llm, n: Node, s: SDLCState)
    requires IsInterrupt(n)
    ensures Run(llm, Goto(n), s) == Suspended(n, s)
  {
  }

  /** A run suspends only before an interrupt node. */
  lemma {:induction false} SuspendsOnlyAtInterrupts(llm: Llm, t: Target, s: SDLCState)
    ensures Run(llm, t, s).Suspended? ==> IsInterrupt(Run(llm, t, s).pending)
    decreases Rank(t)
  {
    if t.Goto? && !IsInterrupt(t.node) {
      var r := Step(llm, t.node, s);
      if r.Ok? {
        var s' := Merge(s, r.value);
        var next := Next(t.node, s');
        if next.Ok? {
          SuspendsOnlyAtInterrupts(llm, next.value, s');
        }
      }
    }
  }

  /** A run that starts at a node and completes has passed through the
      design step: its final state holds a design document. */
  lemma {:induction false} CompletionHasDesign(llm: Llm, t: Target, s: SDLCState)
    requires t.Goto?
    ensures Run(llm, t, s).Completed? ==> Run(llm, t, s).state.designDocuments.Some?
    decreases Rank(t)
  {
    if !IsInterrupt(t.node) {
      var r := Step(llm, t.node, s);
      if r.Ok? {
        var s' := Merge(s, r.value);
        var next := Next(t.node, s');
        if next.Ok? {
          if next.value.Goto? {
            CompletionHasDesign(llm, next.value, s');
          } else {
            assert t.node == CreateDesignDocument;
          }
        }
      }
    }
  }

  /** A fresh run executes only `project_initilization` and suspends with
      `get_requirements` pending. */
  lemma FreshRunSuspendsAtRequirements(llm: Llm, input: SDLCState)
    ensures StartRun(llm, input) == Suspended(GetRequirements, SdlcNode.Initialized(input))
  {
    SdlcNode.InitializedAsUpdate(input);
  }

  /** Continuing after an update applied as `get_requirements` or after a
      `feedback` decision: the stories are regenerated, and the run suspends
      with `product_owner_review_decision` pending. */
  function Regenerated(llm: Llm, s: SDLCState): Outcome {
    match SdlcNode.AutoGenerateUserStories(llm, s)
    case Err(e) => Failed(e, s)
    case Ok(u) => Suspended(ProductOwnerReviewDecision, Merge(s, u))
  }

  lemma ResumeAfterRequirements(llm: Llm, s: SDLCState, update: SDLCState)
    ensures ResumeRun(llm, s, GetRequirements, update) == Regenerated(llm, Merge(s, update))
  {
  }

  /** After an update as `product_owner_review_decision` whose decision is
      `approved`, the design document is created and the run completes. */
  lemma ApprovedCompletes(llm: Llm, s: SDLCState, update: SDLCState)
    requires Merge(s, update).productDecision == Some("approved")
    ensures ResumeRun(llm, s, ProductOwnerReviewDecision, update) ==
            Completed(DesignDocNode.CreateDesignDocument(llm, Merge(s, update)))
  {
    var s' := Merge(s, update);
    MergeCovering(s', DesignDocNode.CreateDesignDocument(llm, s'));
  }

  /** A `feedback` decision reruns story generation and suspends again
      before the review. */
  lemma FeedbackRegenerates(llm: Llm, s: SDLCState, update: SDLCState)
    requires Merge(s, update).productDecision == Some("feedback")
    ensures ResumeRun(llm, s, ProductOwnerReviewDecision, update) == Regenerated(llm, Merge(s, update))
  {
  }

  /** Any other decision, or none, fails the run without executing a node. */
  lemma UnroutableDecisionFails(llm: Llm, s: SDLCState, update: SDLCState)
    requires Merge(s, update).productDecision != Some("approved")
    requires Merge(s, update).productDecision != Some("feedback")
    ensures var s' := Merge(s, update);
            ResumeRun(llm, s, ProductOwnerReviewDecision, update) ==
            Failed(if s'.productDecision.None? then MissingKey("product_decision")
                   else UnknownLabel(s'.productDecision.value), s')
  {
  }

  /** Later nodes never rewrite `current_node` or `next_required_input`: the
      values `project_initilization` wrote stay in the state after the
      stories are generated, although the run is then suspended elsewhere. */
  lemma PositionKeysNotUpdated(llm: Llm, s: SDLCState)
    requires Regenerated(llm, s).Suspended?
    ensures Regenerated(llm, s).state.currentNode == s.currentNode
    ensures Regenerated(llm, s).state.nextRequiredInput == s.nextRequiredInput
  {
  }
}
