/** The canonical form of a draft (src/flow/canonical.rs): every list sorted, and the lists that stand
    for sets without repetitions. */
module FlowCanonical {
  import opened Base
  import opened Ordering
  import opened FlowData

  function SortUniqueStrings(values: seq<string>): seq<string> {
    SortDedup(CompareStrings, values)
  }

  function CanonicalAction(action: NodeAction): NodeAction {
    action.(resourceRefs := SortUniqueStrings(action.resourceRefs),
            readKeys := SortUniqueStrings(action.readKeys),
            writeKeys := SortUniqueStrings(action.writeKeys))
  }

  function CanonicalNode(node: FlowNode): FlowNode {
    node.(writeScopes := SortDedup(CompareScopes, node.writeScopes),
          extensions := SortUniqueStrings(node.extensions),
          action := if node.action.None? then None else Some(CanonicalAction(node.action.value)))
  }

  function CanonicalContract(contract: FlowContract): FlowContract {
    contract.(artifacts := SortDedup(CompareArtifacts, contract.artifacts))
  }

  function Each<T, U>(f: T -> U, s: seq<T>): seq<U> {
    seq(|s|, i requires 0 <= i < |s| => f(s[i]))
  }

  function Canonicalize(draft: FlowDraft): FlowDraft {
    FlowDraft(
      SortBy(CompareNodes, Each(CanonicalNode, draft.nodes)),
      SortBy(CompareContracts, Each(CanonicalContract, draft.contracts)),
      SortBy(CompareRoutes, draft.routes),
      SortBy(CompareResources, draft.resources),
      SortDedup(CompareImports, draft.imports),
      SortDedup(CompareScopes, draft.writeScopes),
      SortUniqueStrings(draft.extensions))
  }

  /** canonicalize_draft. */
  method CanonicalizeDraft(draft: FlowDraft) returns (canonical: FlowDraft)
    ensures canonical == Canonicalize(draft)
  {
    var nodes := SortNodeLists(draft.nodes);
    var contracts := draft.contracts;
    for i := 0 to |contracts|
      invariant |contracts| == |draft.contracts|
      invariant forall j :: 0 <= j < |contracts| ==>
                  contracts[j] == if j < i then CanonicalContract(draft.contracts[j]) else draft.contracts[j]
    {
      var artifacts := Dedup(SortBy(CompareArtifacts, contracts[i].artifacts));
      contracts := contracts[i := contracts[i].(artifacts := artifacts)];
    }
    assert contracts == Each(CanonicalContract, draft.contracts);

    canonical := FlowDraft(
      SortBy(CompareNodes, nodes),
      SortBy(CompareContracts, contracts),
      SortBy(CompareRoutes, draft.routes),
      SortBy(CompareResources, draft.resources),
      Dedup(SortBy(CompareImports, draft.imports)),
      Dedup(SortBy(CompareScopes, draft.writeScopes)),
      Dedup(SortBy(CompareStrings, draft.extensions)));
  }

  method SortNodeLists(nodes: seq<FlowNode>) returns (sorted: seq<FlowNode>)
    ensures sorted == Each(CanonicalNode, nodes)
  {
    sorted := nodes;
    for i := 0 to |nodes|
      invariant |sorted| == |nodes|
      invariant forall j :: 0 <= j < |nodes| ==> sorted[j] == if j < i then CanonicalNode(nodes[j]) else nodes[j]
    {
      var node := sorted[i];
      node := node.(writeScopes := Dedup(SortBy(CompareScopes, node.writeScopes)));
      node := node.(extensions := Dedup(SortBy(CompareStrings, node.extensions)));
      if node.action.Some? {
        var action := node.action.value;
        action := action.(resourceRefs := SortUniqueStrings(action.resourceRefs));
        action := action.(readKeys := SortUniqueStrings(action.readKeys));
        action := action.(writeKeys := SortUniqueStrings(action.writeKeys));
        node := node.(action := Some(action));
      }
      sorted := sorted[i := node];
    }
  }

  lemma CanonicalNodeFixed(node: FlowNode)
    ensures CanonicalNode(CanonicalNode(node)) == CanonicalNode(node)
  {
    hide SortDedup;
    StringsLawful();
    ScopesLawful();
    SortDedupKeeps(CompareScopes, node.writeScopes);
    SortDedupKeeps(CompareStrings, node.extensions);
    if node.action.Some? {
      SortDedupKeeps(CompareStrings, node.action.value.resourceRefs);
      SortDedupKeeps(CompareStrings, node.action.value.readKeys);
      SortDedupKeeps(CompareStrings, node.action.value.writeKeys);
    }
  }

  /** Canonical drafts are their own canonical form. */
  lemma CanonicalizeIsIdempotent(draft: FlowDraft)
    ensures Canonicalize(Canonicalize(draft)) == Canonicalize(draft)
  {
    hide SortDedup, SortBy;
    NodesFixed(draft.nodes);
    ContractsFixed(draft.contracts);
    RoutesLawful();
    ResourcesLawful();
    ImportsLawful();
    ScopesLawful();
    StringsLawful();
    SortTwice(CompareRoutes, draft.routes);
    SortTwice(CompareResources, draft.resources);
    SortDedupKeeps(CompareImports, draft.imports);
    SortDedupKeeps(CompareScopes, draft.writeScopes);
    SortDedupKeeps(CompareStrings, draft.extensions);
  }

  lemma SortTwice<T(!new)>(cmp: Comparison<T>, s: seq<T>)
    requires Lawful(cmp)
    ensures SortBy(cmp, SortBy(cmp, s)) == SortBy(cmp, s)
  {
    SortKeeps(cmp, s);
    SortOfSorted(cmp, SortBy(cmp, s));
  }

  lemma NodesFixed(nodes: seq<FlowNode>)
    ensures var sorted := SortBy(CompareNodes, Each(CanonicalNode, nodes));
            SortBy(CompareNodes, Each(CanonicalNode, sorted)) == sorted
  {
    hide SortBy, CanonicalNode;
    NodesLawful();
    var sorted := SortBy(CompareNodes, Each(CanonicalNode, nodes));
    SortHolds(CompareNodes, Each(CanonicalNode, nodes));
    forall i | 0 <= i < |sorted| ensures CanonicalNode(sorted[i]) == sorted[i] {
      assert sorted[i] in Each(CanonicalNode, nodes);
      var j :| 0 <= j < |nodes| && sorted[i] == CanonicalNode(nodes[j]);
      CanonicalNodeFixed(nodes[j]);
    }
    assert Each(CanonicalNode, sorted) == sorted;
    SortTwice(CompareNodes, Each(CanonicalNode, nodes));
  }

  lemma CanonicalContractIs(contract: FlowContract)
    ensures CanonicalContract(contract)
         == FlowContract(contract.id, contract.completion, SortDedup(CompareArtifacts, contract.artifacts))
  {
  }

  lemma ContractsFixed(contracts: seq<FlowContract>)
    ensures var sorted := SortBy(CompareContracts, Each(CanonicalContract, contracts));
            SortBy(CompareContracts, Each(CanonicalContract, sorted)) == sorted
  {
    hide SortBy, SortDedup, CanonicalContract;
    ContractsLawful();
    ArtifactsLawful();
    var sorted := SortBy(CompareContracts, Each(CanonicalContract, contracts));
    SortHolds(CompareContracts, Each(CanonicalContract, contracts));
    forall i | 0 <= i < |sorted| ensures CanonicalContract(sorted[i]) == sorted[i] {
      assert sorted[i] in Each(CanonicalContract, contracts);
      var j :| 0 <= j < |contracts| && sorted[i] == CanonicalContract(contracts[j]);
      SortDedupKeeps(CompareArtifacts, contracts[j].artifacts);
      CanonicalContractIs(contracts[j]);
      CanonicalContractIs(sorted[i]);
    }
    assert Each(CanonicalContract, sorted) == sorted;
    SortTwice(CompareContracts, Each(CanonicalContract, contracts));
  }

  /** What a draft says apart from order and repetition. */
  datatype ActionContent = ActionContent(
    driver: NodeDriver,
    promptRef: Option<string>,
    resourceRefs: set<string>,
    readKeys: set<string>,
    writeKeys: set<string>,
    verdictArtifact: Option<string>)

  datatype NodeContent = NodeContent(
    id: string,
    contractId: Option<string>,
    action: Option<ActionContent>,
    writeScopes: set<WriteScope>,
    extensions: set<string>)

  datatype ContractContent = ContractContent(
    id: string,
    completion: Option<Completion>,
    artifacts: set<ContractArtifact>)

  datatype DraftContent = DraftContent(
    nodes: set<NodeContent>,
    contracts: set<ContractContent>,
    routes: multiset<FlowRoute>,
    resources: multiset<FlowResource>,
    imports: set<FlowImport>,
    writeScopes: set<WriteScope>,
    extensions: set<string>)

  function ContentOfNode(node: FlowNode): NodeContent {
    NodeContent(
      node.id,
      node.contractId,
      if node.action.None? then None
      else
        var action := node.action.value;
        Some(ActionContent(action.driver, action.promptRef, ElementsOf(action.resourceRefs),
                           ElementsOf(action.readKeys), ElementsOf(action.writeKeys), action.verdictArtifact)),
      ElementsOf(node.writeScopes),
      ElementsOf(node.extensions))
  }

  function ContentOfContract(contract: FlowContract): ContractContent {
    ContractContent(contract.id, contract.completion, ElementsOf(contract.artifacts))
  }

  function ContentOf(draft: FlowDraft): DraftContent {
    DraftContent(
      ElementsOf(Each(ContentOfNode, draft.nodes)),
      ElementsOf(Each(ContentOfContract, draft.contracts)),
      multiset(draft.routes),
      multiset(draft.resources),
      ElementsOf(draft.imports),
      ElementsOf(draft.writeScopes),
      ElementsOf(draft.extensions))
  }

  ghost predicate DistinctIds(draft: FlowDraft) {
    Distinct(CompareNodes, draft.nodes) && Distinct(CompareContracts, draft.contracts)
  }

  lemma NodeContentDecides(a: FlowNode, b: FlowNode)
    ensures CanonicalNode(a) == CanonicalNode(b) <==> ContentOfNode(a) == ContentOfNode(b)
  {
    hide SortDedup, ElementsOf;
    StringsLawful();
    ScopesLawful();
    SortDedupUnique(CompareScopes, a.writeScopes, b.writeScopes);
    SortDedupUnique(CompareStrings, a.extensions, b.extensions);
    if a.action.Some? && b.action.Some? {
      SortDedupUnique(CompareStrings, a.action.value.resourceRefs, b.action.value.resourceRefs);
      SortDedupUnique(CompareStrings, a.action.value.readKeys, b.action.value.readKeys);
      SortDedupUnique(CompareStrings, a.action.value.writeKeys, b.action.value.writeKeys);
    }
  }

  lemma ContractContentDecides(a: FlowContract, b: FlowContract)
    ensures CanonicalContract(a) == CanonicalContract(b) <==> ContentOfContract(a) == ContentOfContract(b)
  {
    ArtifactsLawful();
    SortDedupUnique(CompareArtifacts, a.artifacts, b.artifacts);
  }

  /** Two views that tell the same elements apart cover each other alike. */
  lemma EachCovers<T(!new), U, V>(f: T -> U, g: T -> V, a: seq<T>, b: seq<T>)
    requires forall x, y :: f(x) == f(y) ==> g(x) == g(y)
    requires ElementsOf(Each(f, a)) <= ElementsOf(Each(f, b))
    ensures ElementsOf(Each(g, a)) <= ElementsOf(Each(g, b))
  {
    forall i | 0 <= i < |a| ensures Each(g, a)[i] in ElementsOf(Each(g, b)) {
      assert Each(f, a)[i] in ElementsOf(Each(f, b));
      var j :| 0 <= j < |b| && Each(f, b)[j] == Each(f, a)[i];
      assert f(b[j]) == f(a[i]);
      assert Each(g, b)[j] == Each(g, a)[i];
    }
  }

  lemma EachDecides<T(!new), U, V>(f: T -> U, g: T -> V, a: seq<T>, b: seq<T>)
    requires forall x, y :: f(x) == f(y) <==> g(x) == g(y)
    ensures ElementsOf(Each(f, a)) == ElementsOf(Each(f, b)) <==> ElementsOf(Each(g, a)) == ElementsOf(Each(g, b))
  {
    if ElementsOf(Each(f, a)) == ElementsOf(Each(f, b)) {
      EachCovers(f, g, a, b);
      EachCovers(f, g, b, a);
    }
    if ElementsOf(Each(g, a)) == ElementsOf(Each(g, b)) {
      EachCovers(g, f, a, b);
      EachCovers(g, f, b, a);
    }
  }

  lemma NodesDecided(a: seq<FlowNode>, b: seq<FlowNode>)
    requires Distinct(CompareNodes, a) && Distinct(CompareNodes, b)
    ensures SortBy(CompareNodes, Each(CanonicalNode, a)) == SortBy(CompareNodes, Each(CanonicalNode, b))
       <==> ElementsOf(Each(ContentOfNode, a)) == ElementsOf(Each(ContentOfNode, b))
  {
    hide SortBy, ElementsOf;
    NodesLawful();
    SortDistinctUnique(CompareNodes, Each(CanonicalNode, a), Each(CanonicalNode, b));
    forall x, y ensures CanonicalNode(x) == CanonicalNode(y) <==> ContentOfNode(x) == ContentOfNode(y) {
      NodeContentDecides(x, y);
    }
    EachDecides(CanonicalNode, ContentOfNode, a, b);
  }

  lemma ContractsDecided(a: seq<FlowContract>, b: seq<FlowContract>)
    requires Distinct(CompareContracts, a) && Distinct(CompareContracts, b)
    ensures SortBy(CompareContracts, Each(CanonicalContract, a)) == SortBy(CompareContracts, Each(CanonicalContract, b))
       <==> ElementsOf(Each(ContentOfContract, a)) == ElementsOf(Each(ContentOfContract, b))
  {
    hide SortBy, ElementsOf;
    ContractsLawful();
    SortDistinctUnique(CompareContracts, Each(CanonicalContract, a), Each(CanonicalContract, b));
    forall x, y ensures CanonicalContract(x) == CanonicalContract(y) <==> ContentOfContract(x) == ContentOfContract(y) {
      ContractContentDecides(x, y);
    }
    EachDecides(CanonicalContract, ContentOfContract, a, b);
  }

  /** The canonical form is a normal form: drafts whose nodes and contracts have distinct ids have the
      same one exactly when they say the same apart from order and repetition. */
  lemma CanonicalFormDecidesContent(a: FlowDraft, b: FlowDraft)
    requires DistinctIds(a) && DistinctIds(b)
    ensures Canonicalize(a) == Canonicalize(b) <==> ContentOf(a) == ContentOf(b)
  {
    hide SortBy, SortDedup, ElementsOf;
    NodesDecided(a.nodes, b.nodes);
    ContractsDecided(a.contracts, b.contracts);
    RoutesLawful();
    ResourcesLawful();
    ImportsLawful();
    ScopesLawful();
    StringsLawful();
    SortUnique(CompareRoutes, a.routes, b.routes);
    SortUnique(CompareResources, a.resources, b.resources);
    SortDedupUnique(CompareImports, a.imports, b.imports);
    SortDedupUnique(CompareScopes, a.writeScopes, b.writeScopes);
    SortDedupUnique(CompareStrings, a.extensions, b.extensions);
  }
}
