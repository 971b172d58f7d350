/** The data of an authored flow and the orders its parts are sorted in (src/flow/mod.rs,
    src/flow/predicate.rs, src/flow/canonical.rs). */
module FlowData {
  import opened Base
  import opened Ordering

  datatype WriteScope = ArtifactScope(artifact: string) | ResourceScope(resource: string) | Workspace | System {
    predicate IsBroad() {
      Workspace? || System?
    }
  }

  datatype NodeDriver = Agent | Script | Review | Human

  datatype NodeAction = NodeAction(
    driver: NodeDriver,
    promptRef: Option<string>,
    resourceRefs: seq<string>,
    readKeys: seq<string>,
    writeKeys: seq<string>,
    verdictArtifact: Option<string>)

  datatype FlowNode = FlowNode(
    id: string,
    contractId: Option<string>,
    action: Option<NodeAction>,
    writeScopes: seq<WriteScope>,
    extensions: seq<string>)

  datatype Completion = Manual | AllArtifacts

  datatype ContractArtifact = ContractArtifact(id: string, schemaResourceId: Option<string>)

  datatype FlowContract = FlowContract(id: string, completion: Option<Completion>, artifacts: seq<ContractArtifact>)

  datatype FactRef = ArtifactFact(key: string) | BoardFact(key: string)

  datatype FlowPredicate = Exists(fact: FactRef) | Truthy(fact: FactRef)

  datatype FlowRoute = FlowRoute(condition: FlowPredicate, forEach: Option<string>, activate: string)

  datatype ResourceKind = Schema | Rule | Profile | View | Prompt | ScriptFile | Flow | Readme | Skill

  datatype FlowResource = FlowResource(id: string, kind: ResourceKind, source: string)

  datatype FlowImport = FlowImport(resourceId: string, alias: Option<string>)

  datatype FlowDraft = FlowDraft(
    nodes: seq<FlowNode>,
    contracts: seq<FlowContract>,
    routes: seq<FlowRoute>,
    resources: seq<FlowResource>,
    imports: seq<FlowImport>,
    writeScopes: seq<WriteScope>,
    extensions: seq<string>)

  function KindName(kind: ResourceKind): string {
    match kind
    case Schema => "schema"
    case Rule => "rule"
    case Profile => "profile"
    case View => "view"
    case Prompt => "prompt"
    case ScriptFile => "script"
    case Flow => "flow"
    case Readme => "readme"
    case Skill => "skill"
  }

  function CompareOptions(x: Option<string>, y: Option<string>): Order {
    match (x, y)
    case (None, None) => Equal
    case (None, Some(_)) => Less
    case (Some(_), None) => Greater
    case (Some(a), Some(b)) => CompareStrings(a, b)
  }

  /** The derived order of an enumeration: the variant, then what it holds. */
  function CompareScopes(x: WriteScope, y: WriteScope): Order {
    CompareNat(ScopeRank(x), ScopeRank(y)).Then(CompareStrings(ScopeText(x), ScopeText(y)))
  }

  function ScopeRank(scope: WriteScope): nat {
    match scope
    case ArtifactScope(_) => 0
    case ResourceScope(_) => 1
    case Workspace => 2
    case System => 3
  }

  function ScopeText(scope: WriteScope): string {
    match scope
    case ArtifactScope(artifact) => artifact
    case ResourceScope(resource) => resource
    case _ => ""
  }

  function CompareFacts(x: FactRef, y: FactRef): Order {
    CompareNat(if x.ArtifactFact? then 0 else 1, if y.ArtifactFact? then 0 else 1).Then(CompareStrings(x.key, y.key))
  }

  function ComparePredicates(x: FlowPredicate, y: FlowPredicate): Order {
    CompareNat(if x.Exists? then 0 else 1, if y.Exists? then 0 else 1).Then(CompareFacts(x.fact, y.fact))
  }

  function CompareNodes(x: FlowNode, y: FlowNode): Order {
    CompareStrings(x.id, y.id)
  }

  function CompareContracts(x: FlowContract, y: FlowContract): Order {
    CompareStrings(x.id, y.id)
  }

  function CompareArtifacts(x: ContractArtifact, y: ContractArtifact): Order {
    CompareStrings(x.id, y.id).Then(CompareOptions(x.schemaResourceId, y.schemaResourceId))
  }

  function CompareRoutes(x: FlowRoute, y: FlowRoute): Order {
    CompareStrings(x.activate, y.activate)
      .Then(ComparePredicates(x.condition, y.condition))
      .Then(CompareOptions(x.forEach, y.forEach))
  }

  function CompareResources(x: FlowResource, y: FlowResource): Order {
    CompareStrings(x.id, y.id)
      .Then(CompareStrings(KindName(x.kind), KindName(y.kind)))
      .Then(CompareStrings(x.source, y.source))
  }

  function CompareImports(x: FlowImport, y: FlowImport): Order {
    CompareStrings(x.resourceId, y.resourceId).Then(CompareOptions(x.alias, y.alias))
  }

  lemma ScopesLawful()
    ensures Lawful(CompareScopes) && Exact(CompareScopes)
  {
    hide CompareStrings;
    StringsLawful();
  }

  lemma NodesLawful()
    ensures Lawful(CompareNodes)
  {
    hide CompareStrings;
    StringsLawful();
  }

  lemma ContractsLawful()
    ensures Lawful(CompareContracts)
  {
    hide CompareStrings;
    StringsLawful();
  }

  lemma OptionsLawful()
    ensures Lawful(CompareOptions) && Exact(CompareOptions)
  {
    hide CompareStrings;
    StringsLawful();
  }

  lemma ArtifactsLawful()
    ensures Lawful(CompareArtifacts) && Exact(CompareArtifacts)
  {
    hide CompareStrings, CompareOptions;
    StringsLawful();
    OptionsLawful();
  }

  lemma ImportsLawful()
    ensures Lawful(CompareImports) && Exact(CompareImports)
  {
    hide CompareStrings, CompareOptions;
    StringsLawful();
    OptionsLawful();
  }

  lemma FactsLawful()
    ensures Lawful(CompareFacts) && Exact(CompareFacts)
  {
    hide CompareStrings;
    StringsLawful();
  }

  lemma PredicatesLawful()
    ensures Lawful(ComparePredicates) && Exact(ComparePredicates)
  {
    hide CompareFacts;
    FactsLawful();
  }

  lemma RoutesLawful()
    ensures Lawful(CompareRoutes) && Exact(CompareRoutes)
  {
    hide CompareStrings, CompareOptions, ComparePredicates;
    StringsLawful();
    OptionsLawful();
    PredicatesLawful();
  }

  lemma {:induction false} ResourcesLawful()
    ensures Lawful(CompareResources) && Exact(CompareResources)
  {
    hide CompareStrings;
    StringsLawful();
    assert forall k, l :: KindName(k) == KindName(l) ==> k == l;
  }
}
