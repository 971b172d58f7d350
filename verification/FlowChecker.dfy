/** flow_check as it runs: one pass over each list, with the ids seen so far. */
module FlowChecker {
  import opened Base
  import opened FlowData
  import opened FlowCheck

  function Lookup(kinds: map<string, ResourceKind>, id: string): Option<ResourceKind> {
    if id in kinds then Some(kinds[id]) else None
  }

  method ResourceKinds(resources: seq<FlowResource>) returns (kinds: map<string, ResourceKind>)
    ensures forall id :: KindOf(resources, id) == Lookup(kinds, id)
  {
    kinds := map[];
    for i := 0 to |resources|
      invariant forall id :: KindOf(resources[..i], id) == Lookup(kinds, id)
    {
      assert resources[..i + 1][..i] == resources[..i];
      kinds := kinds[resources[i].id := resources[i].kind];
    }
    assert resources[..|resources|] == resources;
  }

  lemma CollectNone(check: nat --> seq<Diagnostic>)
    ensures Collect(0, check) == []
  {
  }

  lemma CollectOneMore(n: nat, check: nat --> seq<Diagnostic>)
    requires forall i: nat | i <= n :: check.requires(i)
    ensures Collect(n + 1, check) == Collect(n, check) + check(n)
  {
  }

  method CheckNodeIds(nodes: seq<FlowNode>) returns (report: seq<Diagnostic>)
    ensures report == Collect(|nodes|, NodeIds(nodes))
  {
    hide Entry, Collect;
    report := [];
    var seen := {};
    CollectNone(NodeIds(nodes));
    for i := 0 to |nodes|
      invariant report == Collect(i, NodeIds(nodes))
      invariant seen == set j | 0 <= j < i :: nodes[j].id
    {
      CollectOneMore(i, NodeIds(nodes));
      if nodes[i].id in seen {
        report := report + [Diagnostic(DuplicateNodeId, Error, Entry("nodes", i) + ".id")];
      }
      seen := seen + {nodes[i].id};
    }
  }

  method CheckArtifactIds(artifacts: seq<ContractArtifact>, owner: string) returns (report: seq<Diagnostic>)
    ensures report == Collect(|artifacts|, ArtifactIds(artifacts, owner))
  {
    hide Entry, Collect;
    report := [];
    var seen := {};
    CollectNone(ArtifactIds(artifacts, owner));
    for i := 0 to |artifacts|
      invariant report == Collect(i, ArtifactIds(artifacts, owner))
      invariant seen == set j | 0 <= j < i :: artifacts[j].id
    {
      CollectOneMore(i, ArtifactIds(artifacts, owner));
      if artifacts[i].id in seen {
        report := report + [Diagnostic(DuplicateContractArtifact, Error, Entry(owner + ".artifacts", i) + ".id")];
      }
      seen := seen + {artifacts[i].id};
    }
  }

  method CheckContractIds(contracts: seq<FlowContract>) returns (report: seq<Diagnostic>)
    ensures report == Collect(|contracts|, ContractIds(contracts))
  {
    hide ArtifactIds, Entry, Collect;
    report := [];
    var seen := {};
    CollectNone(ContractIds(contracts));
    for i := 0 to |contracts|
      invariant report == Collect(i, ContractIds(contracts))
      invariant seen == set j | 0 <= j < i :: contracts[j].id
    {
      CollectOneMore(i, ContractIds(contracts));
      var location := Entry("contracts", i);
      var own := if contracts[i].id in seen then [Diagnostic(DuplicateContractId, Error, location + ".id")] else [];
      var artifacts := CheckArtifactIds(contracts[i].artifacts, location);
      report := report + (own + artifacts);
      seen := seen + {contracts[i].id};
    }
  }

  method CheckResources(resources: seq<FlowResource>) returns (report: seq<Diagnostic>)
    ensures report == Collect(|resources|, ResourceRules(resources))
  {
    hide PackagePathIsValid, SkillPathIsValid, Collect;
    report := [];
    var seen := {};
    CollectNone(ResourceRules(resources));
    for i := 0 to |resources|
      invariant report == Collect(i, ResourceRules(resources))
      invariant seen == set j | 0 <= j < i :: resources[j].id
    {
      CollectOneMore(i, ResourceRules(resources));
      var found := CheckResource(resources, i, resources[i].id in seen);
      seen := seen + {resources[i].id};
      report := report + found;
    }
  }

  method CheckResource(resources: seq<FlowResource>, i: nat, duplicate: bool) returns (found: seq<Diagnostic>)
    requires i < |resources| && (duplicate <==> exists j :: 0 <= j < i && resources[j].id == resources[i].id)
    ensures found == ResourceRules(resources)(i)
  {
    hide PackagePathIsValid, SkillPathIsValid, Entry;
    var resource, location := resources[i], Entry("resources", i);
    found := [];
    if !PackagePathIsValid(resource.id) {
      found := found + [Diagnostic(InvalidResourcePath, Error, location + ".path")];
    }
    if duplicate {
      found := found + [Diagnostic(DuplicateResourcePath, Error, location + ".path")];
    }
    if resource.kind == Readme && resource.id != "README.md" {
      found := found + [Diagnostic(InvalidReadmePath, Error, location + ".path")];
    }
    if resource.id == "README.md" && resource.kind != Readme {
      found := found + [Diagnostic(InvalidReadmePath, Error, location + ".kind")];
    }
    if resource.kind == Skill && !SkillPathIsValid(resource.id) {
      found := found + [Diagnostic(InvalidSkillPath, Error, location + ".path")];
    }
  }

  method CheckImports(draft: FlowDraft, kinds: map<string, ResourceKind>) returns (report: seq<Diagnostic>)
    requires forall id :: KindOf(draft.resources, id) == Lookup(kinds, id)
    ensures report == Collect(|draft.imports|, ImportRules(draft))
  {
    hide Entry, Collect;
    report := [];
    CollectNone(ImportRules(draft));
    for i := 0 to |draft.imports|
      invariant report == Collect(i, ImportRules(draft))
    {
      CollectOneMore(i, ImportRules(draft));
      assert KindOf(draft.resources, draft.imports[i].resourceId) == Lookup(kinds, draft.imports[i].resourceId);
      if draft.imports[i].resourceId !in kinds {
        report := report + [Diagnostic(UnresolvedImport, Error, Entry("imports", i) + ".resource_id")];
      }
    }
  }

  method CheckRoutes(draft: FlowDraft) returns (report: seq<Diagnostic>)
    ensures report == Collect(|draft.routes|, RouteRules(draft))
  {
    hide RouteIdentity, Entry, Collect;
    report := [];
    var nodeIds := set node <- draft.nodes :: node.id;
    var first: map<(string, string, string), nat> := map[];
    CollectNone(RouteRules(draft));
    for i := 0 to |draft.routes|
      invariant report == Collect(i, RouteRules(draft))
      invariant first.Keys == set j | 0 <= j < i :: RouteIdentity(draft.routes[j])
    {
      CollectOneMore(i, RouteRules(draft));
      var route := draft.routes[i];
      var found := [];
      if RouteIdentity(route) in first {
        found := found + [Diagnostic(DuplicateRoute, Error, Entry("routes", i))];
      }
      first := first[RouteIdentity(route) := i];
      if route.activate !in nodeIds {
        found := found + [Diagnostic(UnknownRouteTarget, Error, Entry("routes", i) + ".activate")];
      }
      report := report + found;
    }
  }

  method CheckSchemas(resources: seq<FlowResource>, contract: FlowContract, schemaIds: set<string>)
    returns (report: seq<Diagnostic>)
    requires forall id :: id in schemaIds <==> IsSchema(resources, id)
    ensures report == Collect(|contract.artifacts|, SchemaRules(resources, contract))
  {
    hide Named, IsSchema, Entry, Collect;
    report := [];
    CollectNone(SchemaRules(resources, contract));
    for i := 0 to |contract.artifacts|
      invariant report == Collect(i, SchemaRules(resources, contract))
    {
      CollectOneMore(i, SchemaRules(resources, contract));
      var artifact := contract.artifacts[i];
      var location := Named(Named("contracts", contract.id) + ".artifacts", artifact.id);
      match artifact.schemaResourceId {
        case Some(schema) =>
          if schema !in schemaIds {
            report := report + [Diagnostic(MissingArtifactSchema, Error, location + ".schema_resource_id")];
          }
        case None => report := report + [Diagnostic(MissingArtifactSchema, Error, location)];
      }
    }
  }

  method CheckContracts(draft: FlowDraft) returns (report: seq<Diagnostic>)
    ensures report == Collect(|draft.contracts|, ContractRules(draft))
  {
    hide Named, SchemaRules, Entry, Collect;
    report := [];
    var schemaIds := set resource <- draft.resources | resource.kind == Schema :: resource.id;
    CollectNone(ContractRules(draft));
    for i := 0 to |draft.contracts|
      invariant report == Collect(i, ContractRules(draft))
    {
      CollectOneMore(i, ContractRules(draft));
      var contract := draft.contracts[i];
      var own := [];
      if contract.completion.None? {
        own := [Diagnostic(MissingContractCompletion, Error, Named("contracts", contract.id) + ".completion")];
      }
      var artifacts := CheckSchemas(draft.resources, contract, schemaIds);
      report := report + (own + artifacts);
    }
  }

  method CheckExtensions(extensions: seq<string>, list: string) returns (report: seq<Diagnostic>)
    ensures report == Collect(|extensions|, ExtensionRules(extensions, list))
  {
    hide Entry, Collect;
    report := [];
    CollectNone(ExtensionRules(extensions, list));
    for i := 0 to |extensions|
      invariant report == Collect(i, ExtensionRules(extensions, list))
    {
      CollectOneMore(i, ExtensionRules(extensions, list));
      if !IsAuthoringExtension(extensions[i]) {
        report := report + [Diagnostic(AuthoringPrimitiveMisuse, Fatal, Entry(list, i))];
      }
    }
  }

  method CheckAction(resources: seq<FlowResource>, kinds: map<string, ResourceKind>, action: NodeAction,
                     location: string)
    returns (report: seq<Diagnostic>)
    requires forall id :: KindOf(resources, id) == Lookup(kinds, id)
    ensures report == ActionRules(resources, action, location)
  {
    report := [];
    if action.driver == Script {
      report := [Diagnostic(UnsupportedScriptActionDriver, Error, location + ".driver")];
    }
    if action.promptRef.Some? {
      var prompt := action.promptRef.value;
      assert KindOf(resources, prompt) == Lookup(kinds, prompt);
      if prompt !in kinds {
        report := report + [Diagnostic(UnknownActionPrompt, Error, location + ".prompt_ref")];
      } else if kinds[prompt] != Prompt {
        report := report + [Diagnostic(InvalidActionPrompt, Error, location + ".prompt_ref")];
      }
    }
    var references := CheckReferences(resources, kinds, action.resourceRefs, location + ".resource_refs");
    report := report + references;
    if action.verdictArtifact.Some? && IsBlank(action.verdictArtifact.value) {
      report := report + [Diagnostic(EmptyActionVerdictArtifact, Error, location + ".verdict_artifact")];
    }
  }

  method CheckReferences(resources: seq<FlowResource>, kinds: map<string, ResourceKind>, references: seq<string>,
                         list: string)
    returns (report: seq<Diagnostic>)
    requires forall id :: KindOf(resources, id) == Lookup(kinds, id)
    ensures report == Collect(|references|, ReferenceRules(resources, references, list))
  {
    hide Entry, Collect;
    report := [];
    CollectNone(ReferenceRules(resources, references, list));
    for i := 0 to |references|
      invariant report == Collect(i, ReferenceRules(resources, references, list))
    {
      CollectOneMore(i, ReferenceRules(resources, references, list));
      assert KindOf(resources, references[i]) == Lookup(kinds, references[i]);
      if references[i] !in kinds {
        report := report + [Diagnostic(UnknownActionResource, Error, Entry(list, i))];
      }
    }
  }

  method CheckNodes(draft: FlowDraft, kinds: map<string, ResourceKind>) returns (report: seq<Diagnostic>)
    requires forall id :: KindOf(draft.resources, id) == Lookup(kinds, id)
    ensures report == Collect(|draft.nodes|, NodeRules(draft))
  {
    hide ActionRules, Named, KindOf, IsAuthoringExtension, Entry, Collect;
    report := [];
    var contractIds := set contract <- draft.contracts :: contract.id;
    CollectNone(NodeRules(draft));
    for i := 0 to |draft.nodes|
      invariant report == Collect(i, NodeRules(draft))
    {
      CollectOneMore(i, NodeRules(draft));
      var node := draft.nodes[i];
      var location := Named("nodes", node.id);
      var own := [];
      if node.contractId.Some? && node.contractId.value !in contractIds {
        own := [Diagnostic(UnknownNodeContract, Error, location + ".contract_id")];
      }
      var action := [];
      if node.action.Some? {
        action := CheckAction(draft.resources, kinds, node.action.value, location + ".action");
      }
      var extensions := CheckExtensions(node.extensions, location + ".extensions");
      report := report + (own + action + extensions);
    }
  }

  method CheckScopes(scopes: seq<WriteScope>, mode: Mode, list: string) returns (report: seq<Diagnostic>)
    ensures report == Collect(|scopes|, ScopeRules(scopes, mode, list))
  {
    hide Entry, Collect;
    report := [];
    var severity := if mode == Core then Warning else Error;
    CollectNone(ScopeRules(scopes, mode, list));
    for i := 0 to |scopes|
      invariant report == Collect(i, ScopeRules(scopes, mode, list))
    {
      CollectOneMore(i, ScopeRules(scopes, mode, list));
      if scopes[i].IsBroad() {
        report := report + [Diagnostic(BroadWriteScope, severity, Entry(list, i))];
      }
    }
  }

  method CheckNodeScopes(nodes: seq<FlowNode>, mode: Mode) returns (report: seq<Diagnostic>)
    ensures report == Collect(|nodes|, NodeScopeRules(nodes, mode))
  {
    hide ScopeRules, Named, Entry, Collect;
    report := [];
    CollectNone(NodeScopeRules(nodes, mode));
    for i := 0 to |nodes|
      invariant report == Collect(i, NodeScopeRules(nodes, mode))
    {
      CollectOneMore(i, NodeScopeRules(nodes, mode));
      var scopes := CheckScopes(nodes[i].writeScopes, mode, Named("nodes", nodes[i].id) + ".write_scopes");
      report := report + scopes;
    }
  }

  /** flow_check. */
  method FlowCheckReport(parse: QosParser, draft: FlowDraft, mode: Mode) returns (report: seq<Diagnostic>)
    ensures report == Check(parse, draft, mode)
  {
    hide Collect, PackageRules, QosRules;
    var kinds := ResourceKinds(draft.resources);
    var nodeIds := CheckNodeIds(draft.nodes);
    var contractIds := CheckContractIds(draft.contracts);
    var resources := CheckResources(draft.resources);
    var imports := CheckImports(draft, kinds);
    var routes := CheckRoutes(draft);
    var contracts := CheckContracts(draft);
    var extensions := CheckExtensions(draft.extensions, "extensions");
    var nodes := CheckNodes(draft, kinds);
    var scopes := CheckScopes(draft.writeScopes, mode, "policies.write_scopes");
    var nodeScopes := CheckNodeScopes(draft.nodes, mode);
    report := nodeIds + contractIds + resources + imports + PackageRules(parse, draft) + QosRules(parse, draft)
              + routes + contracts + extensions + nodes + scopes + nodeScopes;
  }
}
