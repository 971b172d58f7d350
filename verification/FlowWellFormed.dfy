/** What a draft without errors is, said without the checker, and that the checker finds exactly that. */
module FlowWellFormed {
  import opened Base
  import opened Paths
  import opened FlowData
  import opened FlowCheck

  ghost predicate UniqueNodes(nodes: seq<FlowNode>) {
    forall i, j :: 0 <= i < j < |nodes| ==> nodes[i].id != nodes[j].id
  }

  ghost predicate UniqueContracts(contracts: seq<FlowContract>) {
    forall i, j :: 0 <= i < j < |contracts| ==> contracts[i].id != contracts[j].id
  }

  ghost predicate UniqueArtifacts(artifacts: seq<ContractArtifact>) {
    forall i, j :: 0 <= i < j < |artifacts| ==> artifacts[i].id != artifacts[j].id
  }

  ghost predicate UniqueResources(resources: seq<FlowResource>) {
    forall i, j :: 0 <= i < j < |resources| ==> resources[i].id != resources[j].id
  }

  ghost predicate UniqueRoutes(routes: seq<FlowRoute>) {
    forall i, j :: 0 <= i < j < |routes| ==> routes[i] != routes[j]
  }

  /** Its path is that of a file inside the package, the root README is one and the only one, and a skill is
      `skills/<name>/SKILL.md`. */
  ghost predicate ResourceFits(resource: FlowResource) {
    && resource.id != "flow.json" && StaysInside(resource.id)
    && (resource.kind == Readme <==> resource.id == "README.md")
    && (resource.kind == Skill ==> IsThreeDeep(resource.id, "skills", "SKILL.md"))
  }

  predicate HasSchema(resources: seq<FlowResource>, id: string) {
    exists resource <- resources :: resource.kind == Schema && resource.id == id
  }

  /** The extensions that a flow may carry. */
  predicate MayExtend(extension: string) {
    || (exists prefix <- ["humanize.flow_qos:", "humanize.work_profile:", "humanize.contract_effects:"] ::
          prefix <= extension)
    || extension in ["Node", "Contract", "Artifact", "Board", "Route", "Event", "Resource", "Import", "Policy"]
  }

  /** The first QoS extension with a payload sets a completion target of white space. */
  predicate TargetIsBlank(parse: QosParser, extensions: seq<string>) {
    exists i :: 0 <= i < |extensions| && SetsBlankTarget(parse, extensions[i])
                && forall j :: 0 <= j < i ==> PayloadOf(parse, extensions[j]).None?
  }

  function PayloadOf(parse: QosParser, extension: string): Option<Qos> {
    var prefix := "humanize.flow_qos:";
    if prefix <= extension then parse(extension[|prefix|..]) else None
  }

  predicate SetsBlankTarget(parse: QosParser, extension: string) {
    match PayloadOf(parse, extension)
    case Some(Qos(_, Some(target))) => forall c <- target :: IsWhiteSpace(c)
    case _ => false
  }

  lemma {:induction false} TargetIs(parse: QosParser, extensions: seq<string>)
    ensures EmptyTarget(parse, extensions) <==> TargetIsBlank(parse, extensions)
  {
    hide IsWhiteSpace;
    if extensions != [] {
      var rest := extensions[1..];
      TargetIs(parse, rest);
      assert forall j :: 0 <= j < |rest| ==> rest[j] == extensions[j + 1];
      if PayloadOf(parse, extensions[0]).None? {
        if i :| 0 <= i < |rest| && SetsBlankTarget(parse, rest[i])
                && forall j :: 0 <= j < i ==> PayloadOf(parse, rest[j]).None? {
          assert SetsBlankTarget(parse, extensions[i + 1]);
        }
        if i :| 0 <= i < |extensions| && SetsBlankTarget(parse, extensions[i])
                && forall j :: 0 <= j < i ==> PayloadOf(parse, extensions[j]).None? {
          forall j | 0 <= j < i - 1 ensures PayloadOf(parse, rest[j]).None? {
            assert rest[j] == extensions[j + 1];
          }
          assert i > 0 ==> SetsBlankTarget(parse, rest[i - 1]);
        }
      }
    }
  }

  lemma MayExtendIs(extension: string)
    ensures IsAuthoringExtension(extension) <==> MayExtend(extension)
  {
    var prefixes := ["humanize.flow_qos:", "humanize.work_profile:", "humanize.contract_effects:"];
    assert prefixes[0] in prefixes && prefixes[1] in prefixes && prefixes[2] in prefixes;
  }

  predicate Embeds(resources: seq<FlowResource>, id: string) {
    exists resource <- resources :: resource.id == id
  }

  predicate ContractFits(resources: seq<FlowResource>, contract: FlowContract) {
    && contract.completion.Some?
    && (forall artifact <- contract.artifacts ::
          artifact.schemaResourceId.Some? && HasSchema(resources, artifact.schemaResourceId.value))
  }

  predicate ActionFits(resources: seq<FlowResource>, action: NodeAction) {
    && action.driver != Script
    && (action.promptRef.Some? ==>
          exists resource <- resources :: resource.kind == Prompt && resource.id == action.promptRef.value)
    && (forall reference <- action.resourceRefs :: Embeds(resources, reference))
    && (action.verdictArtifact.Some? ==> !IsBlank(action.verdictArtifact.value))
  }

  predicate NodeFits(draft: FlowDraft, node: FlowNode) {
    && (node.contractId.Some? ==> exists contract <- draft.contracts :: contract.id == node.contractId.value)
    && (node.action.Some? ==> ActionFits(draft.resources, node.action.value))
    && (forall extension <- node.extensions :: MayExtend(extension))
  }

  predicate HasTarget(nodes: seq<FlowNode>, route: FlowRoute) {
    exists node <- nodes :: node.id == route.activate
  }

  predicate Narrow(scopes: seq<WriteScope>) {
    forall scope <- scopes :: scope.ArtifactScope? || scope.ResourceScope?
  }

  /** An empty draft, or one with a README that says something. */
  predicate Described(draft: FlowDraft) {
    || (draft.nodes == [] && draft.contracts == [] && draft.routes == [] && draft.resources == []
        && draft.imports == [] && draft.writeScopes == [] && draft.extensions == [])
    || exists resource <- draft.resources ::
         resource.kind == Readme && resource.id == "README.md" && !IsBlank(resource.source)
  }

  /** Everything but the QoS target. */
  ghost predicate Sound(draft: FlowDraft, mode: Mode) {
    && UniqueNodes(draft.nodes)
    && UniqueContracts(draft.contracts) && (forall contract <- draft.contracts :: UniqueArtifacts(contract.artifacts))
    && UniqueResources(draft.resources) && (forall resource <- draft.resources :: ResourceFits(resource))
    && (forall entry <- draft.imports :: Embeds(draft.resources, entry.resourceId))
    && Described(draft)
    && UniqueRoutes(draft.routes)
    && (forall route <- draft.routes :: HasTarget(draft.nodes, route))
    && (forall contract <- draft.contracts :: ContractFits(draft.resources, contract))
    && (forall extension <- draft.extensions :: MayExtend(extension))
    && (forall node <- draft.nodes :: NodeFits(draft, node))
    && (mode == Strict ==> Narrow(draft.writeScopes) && forall node <- draft.nodes :: Narrow(node.writeScopes))
  }

  ghost predicate WellFormed(parse: QosParser, draft: FlowDraft, mode: Mode) {
    Sound(draft, mode) && !TargetIsBlank(parse, draft.extensions)
  }

  lemma {:induction false} KindOfExact(resources: seq<FlowResource>, id: string)
    ensures KindOf(resources, id).Some? <==> Embeds(resources, id)
    ensures KindOf(resources, id).Some? ==>
              exists resource <- resources :: resource.id == id && resource.kind == KindOf(resources, id).value
  {
    if resources != [] {
      var before, last := resources[..|resources| - 1], resources[|resources| - 1];
      KindOfExact(before, id);
      assert last in resources;
      assert forall resource :: resource in resources <==> resource in before || resource == last;
    }
  }

  /** With unique ids the last resource of an id is the only one. */
  lemma KindOfUnique(resources: seq<FlowResource>, id: string, kind: ResourceKind)
    requires UniqueResources(resources)
    ensures KindOf(resources, id) == Some(kind)
       <==> exists resource <- resources :: resource.kind == kind && resource.id == id
  {
    KindOfExact(resources, id);
    if exists resource <- resources :: resource.kind == kind && resource.id == id {
      var resource :| resource in resources && resource.kind == kind && resource.id == id;
      var other :| other in resources && other.id == id && other.kind == KindOf(resources, id).value;
      var i, j :| 0 <= i < |resources| && 0 <= j < |resources| && resources[i] == resource && resources[j] == other;
      assert i == j;
    }
  }

  lemma HasTargetIs(nodes: seq<FlowNode>, route: FlowRoute)
    ensures HasTarget(nodes, route) <==> exists node <- nodes :: node.id == route.activate
  {
  }

  lemma SchemaIs(resources: seq<FlowResource>, id: string)
    ensures IsSchema(resources, id) <==> HasSchema(resources, id)
  {
  }

  lemma NarrowIs(scopes: seq<WriteScope>)
    ensures Narrow(scopes) <==> forall i :: 0 <= i < |scopes| ==> !scopes[i].IsBroad()
  {
    assert forall scope: WriteScope :: scope.IsBroad() <==> !scope.ArtifactScope? && !scope.ResourceScope?;
    if !Narrow(scopes) {
      var scope :| scope in scopes && !scope.ArtifactScope? && !scope.ResourceScope?;
      var i :| 0 <= i < |scopes| && scopes[i] == scope;
      assert scopes[i].IsBroad();
    }
  }
}
