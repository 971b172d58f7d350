/** Which codes the checker reports: each one exactly when its own rule is broken, with its own severity. */
module FlowReports {
  import opened Base
  import opened Paths
  import opened FlowData
  import opened FlowCheck
  import opened FlowWellFormed

  ghost predicate Has(report: seq<Diagnostic>, code: Code) {
    exists diagnostic <- report :: diagnostic.code == code
  }

  lemma HasAppend(a: seq<Diagnostic>, b: seq<Diagnostic>, code: Code)
    ensures Has(a + b, code) <==> Has(a, code) || Has(b, code)
  {
    if Has(a, code) {
      var diagnostic :| diagnostic in a && diagnostic.code == code;
      assert diagnostic in a + b;
    }
    if Has(b, code) {
      var diagnostic :| diagnostic in b && diagnostic.code == code;
      assert diagnostic in a + b;
    }
  }

  lemma WhenHas(wrong: bool, reported: Code, severity: Severity, location: string, code: Code)
    ensures Has(When(wrong, reported, severity, location), code) <==> wrong && code == reported
  {
    assert wrong ==> Diagnostic(reported, severity, location) in When(wrong, reported, severity, location);
  }

  lemma {:induction false} CollectHas(n: nat, check: nat --> seq<Diagnostic>, code: Code)
    requires forall i: nat | i < n :: check.requires(i)
    ensures Has(Collect(n, check), code) <==> exists i: nat | i < n :: Has(check(i), code)
  {
    if n > 0 {
      CollectHas(n - 1, check, code);
      HasAppend(Collect(n - 1, check), check(n - 1), code);
    }
  }

  lemma NodeRulesDefined(draft: FlowDraft)
    ensures forall i: nat | i < |draft.nodes| :: NodeRules(draft).requires(i)
  {
  }

  function CollectArtifactIds(artifacts: seq<ContractArtifact>, i: nat): seq<Diagnostic> {
    Collect(|artifacts|, ArtifactIds(artifacts, Entry("contracts", i)))
  }

  lemma NodeIdsExact(nodes: seq<FlowNode>, code: Code)
    ensures Has(Collect(|nodes|, NodeIds(nodes)), code) <==> code == DuplicateNodeId && !UniqueNodes(nodes)
  {
    hide Has, When, Entry, Collect;
    CollectHas(|nodes|, NodeIds(nodes), code);
    forall i: nat | i < |nodes|
      ensures Has(NodeIds(nodes)(i), code)
         <==> code == DuplicateNodeId && exists j :: 0 <= j < i && nodes[j].id == nodes[i].id
    {
      WhenHas(exists j :: 0 <= j < i && nodes[j].id == nodes[i].id, DuplicateNodeId, Error,
              Entry("nodes", i) + ".id", code);
    }
  }

  lemma ArtifactIdsExact(artifacts: seq<ContractArtifact>, owner: string, code: Code)
    ensures Has(Collect(|artifacts|, ArtifactIds(artifacts, owner)), code)
       <==> code == DuplicateContractArtifact && !UniqueArtifacts(artifacts)
  {
    hide Has, When, Entry, Collect;
    CollectHas(|artifacts|, ArtifactIds(artifacts, owner), code);
    forall i: nat | i < |artifacts|
      ensures Has(ArtifactIds(artifacts, owner)(i), code)
         <==> code == DuplicateContractArtifact && exists j :: 0 <= j < i && artifacts[j].id == artifacts[i].id
    {
      WhenHas(exists j :: 0 <= j < i && artifacts[j].id == artifacts[i].id, DuplicateContractArtifact, Error,
              Entry(owner + ".artifacts", i) + ".id", code);
    }
  }

  lemma ContractIdsExact(contracts: seq<FlowContract>, code: Code)
    ensures Has(Collect(|contracts|, ContractIds(contracts)), code)
       <==> || (code == DuplicateContractId && !UniqueContracts(contracts))
            || (code == DuplicateContractArtifact
                && exists contract <- contracts :: !UniqueArtifacts(contract.artifacts))
  {
    hide Has, When, Entry, Collect, ArtifactIds, UniqueArtifacts;
    CollectHas(|contracts|, ContractIds(contracts), code);
    forall i: nat | i < |contracts|
      ensures Has(ContractIds(contracts)(i), code)
         <==> || (code == DuplicateContractId && exists j :: 0 <= j < i && contracts[j].id == contracts[i].id)
              || (code == DuplicateContractArtifact && !UniqueArtifacts(contracts[i].artifacts))
    {
      var duplicate := exists j :: 0 <= j < i && contracts[j].id == contracts[i].id;
      var artifacts := contracts[i].artifacts;
      WhenHas(duplicate, DuplicateContractId, Error, Entry("contracts", i) + ".id", code);
      ArtifactIdsExact(artifacts, Entry("contracts", i), code);
      HasAppend(ErrorIf(duplicate, DuplicateContractId, Entry("contracts", i) + ".id"),
                CollectArtifactIds(artifacts, i), code);
    }
  }

  ghost predicate ResourceBreaks(resources: seq<FlowResource>, i: nat, code: Code)
    requires i < |resources|
  {
    var r := resources[i];
    match code
    case InvalidResourcePath => r.id == "flow.json" || !StaysInside(r.id)
    case DuplicateResourcePath => exists j :: 0 <= j < i && resources[j].id == r.id
    case InvalidReadmePath => (r.kind == Readme) != (r.id == "README.md")
    case InvalidSkillPath => r.kind == Skill && !IsThreeDeep(r.id, "skills", "SKILL.md")
    case _ => false
  }

  lemma ResourceBreaksIs(resources: seq<FlowResource>, i: nat, code: Code)
    requires i < |resources|
    ensures var r := resources[i];
            var duplicate := exists j :: 0 <= j < i && resources[j].id == r.id;
            var broken := || (!PackagePathIsValid(r.id) && code == InvalidResourcePath)
                          || (duplicate && code == DuplicateResourcePath)
                          || (r.kind == Readme && r.id != "README.md" && code == InvalidReadmePath)
                          || (r.id == "README.md" && r.kind != Readme && code == InvalidReadmePath)
                          || (r.kind == Skill && !SkillPathIsValid(r.id) && code == InvalidSkillPath);
            ResourceBreaks(resources, i, code) <==> broken
  {
    hide PackagePathIsValid, SkillPathIsValid, StaysInside, IsThreeDeep;
    PackagePathIsExact(resources[i].id);
    SkillPathIsExact(resources[i].id);
  }

  lemma ResourceRuleExact(resources: seq<FlowResource>, i: nat, code: Code)
    requires i < |resources|
    ensures Has(ResourceRules(resources)(i), code) <==> ResourceBreaks(resources, i, code)
  {
    hide Has, When, Entry, PackagePathIsValid, SkillPathIsValid, ResourceBreaks;
    var r, path, kind := resources[i], Entry("resources", i) + ".path", Entry("resources", i) + ".kind";
    var duplicate := exists j :: 0 <= j < i && resources[j].id == resources[i].id;
    var a := ErrorIf(!PackagePathIsValid(r.id), InvalidResourcePath, path);
    var b := ErrorIf(duplicate, DuplicateResourcePath, path);
    var c := ErrorIf(r.kind == Readme && r.id != "README.md", InvalidReadmePath, path);
    var d := ErrorIf(r.id == "README.md" && r.kind != Readme, InvalidReadmePath, kind);
    var e := ErrorIf(r.kind == Skill && !SkillPathIsValid(r.id), InvalidSkillPath, path);
    assert ResourceRules(resources)(i) == a + b + c + d + e;
    hide ResourceRules;
    WhenHas(!PackagePathIsValid(r.id), InvalidResourcePath, Error, path, code);
    WhenHas(duplicate, DuplicateResourcePath, Error, path, code);
    WhenHas(r.kind == Readme && r.id != "README.md", InvalidReadmePath, Error, path, code);
    WhenHas(r.id == "README.md" && r.kind != Readme, InvalidReadmePath, Error, kind, code);
    WhenHas(r.kind == Skill && !SkillPathIsValid(r.id), InvalidSkillPath, Error, path, code);
    FiveHave(a, b, c, d, e, code);
    ResourceBreaksIs(resources, i, code);
  }

  lemma FiveHave(a: seq<Diagnostic>, b: seq<Diagnostic>, c: seq<Diagnostic>, d: seq<Diagnostic>, e: seq<Diagnostic>,
                 code: Code)
    ensures Has(a + b + c + d + e, code)
       <==> Has(a, code) || Has(b, code) || Has(c, code) || Has(d, code) || Has(e, code)
  {
    hide Has;
    HasAppend(a, b, code);
    HasAppend(a + b, c, code);
    HasAppend(a + b + c, d, code);
    HasAppend(a + b + c + d, e, code);
  }

  lemma ResourceRulesExact(resources: seq<FlowResource>, code: Code)
    ensures Has(Collect(|resources|, ResourceRules(resources)), code)
       <==> || (code == InvalidResourcePath && exists r <- resources :: r.id == "flow.json" || !StaysInside(r.id))
            || (code == DuplicateResourcePath && !UniqueResources(resources))
            || (code == InvalidReadmePath && exists r <- resources :: (r.kind == Readme) != (r.id == "README.md"))
            || (code == InvalidSkillPath
                && exists r <- resources :: r.kind == Skill && !IsThreeDeep(r.id, "skills", "SKILL.md"))
  {
    hide Has, Collect, ResourceRules, StaysInside, IsThreeDeep;
    ResourceRulesDefined(resources);
    CollectHas(|resources|, ResourceRules(resources), code);
    forall i: nat | i < |resources|
      ensures Has(ResourceRules(resources)(i), code) <==> ResourceBreaks(resources, i, code)
    {
      ResourceRuleExact(resources, i, code);
    }
    SomeResourceBreaks(resources, code);
  }

  lemma SomeResourceBreaks(resources: seq<FlowResource>, code: Code)
    ensures (exists i: nat | i < |resources| :: ResourceBreaks(resources, i, code))
       <==> || (code == InvalidResourcePath && exists r <- resources :: r.id == "flow.json" || !StaysInside(r.id))
            || (code == DuplicateResourcePath && !UniqueResources(resources))
            || (code == InvalidReadmePath && exists r <- resources :: (r.kind == Readme) != (r.id == "README.md"))
            || (code == InvalidSkillPath
                && exists r <- resources :: r.kind == Skill && !IsThreeDeep(r.id, "skills", "SKILL.md"))
  {
    hide StaysInside, IsThreeDeep;
    match code {
      case InvalidResourcePath =>
        if r :| r in resources && (r.id == "flow.json" || !StaysInside(r.id)) {
          var i := PositionOf(resources, r);
          assert ResourceBreaks(resources, i, code);
        }
      case DuplicateResourcePath =>
        if !UniqueResources(resources) {
          var i, j :| 0 <= i < j < |resources| && resources[i].id == resources[j].id;
          assert ResourceBreaks(resources, j, code);
        }
      case InvalidReadmePath =>
        if r :| r in resources && (r.kind == Readme) != (r.id == "README.md") {
          var i := PositionOf(resources, r);
          assert ResourceBreaks(resources, i, code);
        }
      case InvalidSkillPath =>
        if r :| r in resources && r.kind == Skill && !IsThreeDeep(r.id, "skills", "SKILL.md") {
          var i := PositionOf(resources, r);
          assert ResourceBreaks(resources, i, code);
        }
      case _ =>
    }
  }

  lemma PositionOf<T>(s: seq<T>, x: T) returns (i: nat)
    requires x in s
    ensures i < |s| && s[i] == x
  {
    i :| 0 <= i < |s| && s[i] == x;
  }

  lemma ResourceRulesDefined(resources: seq<FlowResource>)
    ensures forall i: nat | i < |resources| :: ResourceRules(resources).requires(i)
  {
  }

  lemma ImportRulesExact(draft: FlowDraft, code: Code)
    ensures Has(Collect(|draft.imports|, ImportRules(draft)), code)
       <==> code == UnresolvedImport && exists entry <- draft.imports :: !Embeds(draft.resources, entry.resourceId)
  {
    hide Has, When, Entry, Collect, Embeds, KindOf;
    CollectHas(|draft.imports|, ImportRules(draft), code);
    forall i: nat | i < |draft.imports|
      ensures Has(ImportRules(draft)(i), code)
         <==> code == UnresolvedImport && !Embeds(draft.resources, draft.imports[i].resourceId)
    {
      KindOfExact(draft.resources, draft.imports[i].resourceId);
      WhenHas(KindOf(draft.resources, draft.imports[i].resourceId).None?, UnresolvedImport, Error,
              Entry("imports", i) + ".resource_id", code);
    }
  }

  predicate IsReadme(resource: FlowResource) {
    resource.kind == Readme && resource.id == "README.md"
  }

  predicate IsEmptyDraft(draft: FlowDraft) {
    && draft.nodes == [] && draft.contracts == [] && draft.routes == [] && draft.resources == []
    && draft.imports == [] && draft.writeScopes == [] && draft.extensions == []
  }

  lemma PackageRulesExact(parse: QosParser, draft: FlowDraft, code: Code)
    ensures Has(PackageRules(parse, draft), code)
       <==> || (code == MissingReadme && !IsEmptyDraft(draft) && !exists r <- draft.resources :: IsReadme(r))
            || (code == EmptyReadme && (exists r <- draft.resources :: IsReadme(r))
                && forall r <- draft.resources :: IsReadme(r) ==> IsBlank(r.source))
  {
    hide Has, When, IsBlank;
    var described := exists resource <- draft.resources :: IsRootReadme(resource) && !IsBlank(resource.source);
    WhenHas(true, MissingReadme, Error, "resources", code);
    WhenHas(!described, EmptyReadme, Error, "resources", code);
    WhenHas(false, EmptyReadme, Error, "resources", code);
    NothingHas(code);
    EmptyIsDefault(parse, draft);
    assert forall r: FlowResource :: IsRootReadme(r) <==> IsReadme(r);
  }

  lemma NothingHas(code: Code)
    ensures !Has([], code)
  {
  }

  lemma EmptyIsDefault(parse: QosParser, draft: FlowDraft)
    ensures IsNonEmptyPackage(parse, draft) <==> !IsEmptyDraft(draft)
  {
  }

  lemma QosRulesExact(parse: QosParser, draft: FlowDraft, code: Code)
    ensures Has(QosRules(parse, draft), code)
       <==> code == EmptyQosCompletionTarget && TargetIsBlank(parse, draft.extensions)
  {
    hide Has, When, EmptyTarget, TargetIsBlank;
    TargetIs(parse, draft.extensions);
    WhenHas(EmptyTarget(parse, draft.extensions), EmptyQosCompletionTarget, Error, "qos.completion_target", code);
  }

  lemma RouteRulesExact(draft: FlowDraft, code: Code)
    ensures Has(Collect(|draft.routes|, RouteRules(draft)), code)
       <==> || (code == DuplicateRoute && !UniqueRoutes(draft.routes))
            || (code == UnknownRouteTarget && exists route <- draft.routes :: !HasTarget(draft.nodes, route))
  {
    hide Has, When, Entry, Collect, RouteIdentity, HasTarget;
    CollectHas(|draft.routes|, RouteRules(draft), code);
    forall i: nat | i < |draft.routes|
      ensures Has(RouteRules(draft)(i), code)
         <==> || (code == DuplicateRoute && exists j :: 0 <= j < i && draft.routes[j] == draft.routes[i])
              || (code == UnknownRouteTarget && !HasTarget(draft.nodes, draft.routes[i]))
    {
      var duplicate := exists j :: 0 <= j < i && RouteIdentity(draft.routes[j]) == RouteIdentity(draft.routes[i]);
      var unknown := !exists node <- draft.nodes :: node.id == draft.routes[i].activate;
      HasTargetIs(draft.nodes, draft.routes[i]);
      forall j | 0 <= j < i && RouteIdentity(draft.routes[j]) == RouteIdentity(draft.routes[i])
        ensures draft.routes[j] == draft.routes[i]
      {
        RouteIdentityInjective(draft.routes[j], draft.routes[i]);
      }
      WhenHas(duplicate, DuplicateRoute, Error, Entry("routes", i), code);
      WhenHas(unknown, UnknownRouteTarget, Error, Entry("routes", i) + ".activate", code);
      HasAppend(ErrorIf(duplicate, DuplicateRoute, Entry("routes", i)),
                ErrorIf(unknown, UnknownRouteTarget, Entry("routes", i) + ".activate"), code);
    }
  }

  predicate LacksSchema(resources: seq<FlowResource>, artifact: ContractArtifact) {
    artifact.schemaResourceId.None? || !HasSchema(resources, artifact.schemaResourceId.value)
  }

  lemma SchemaRulesExact(resources: seq<FlowResource>, contract: FlowContract, code: Code)
    ensures Has(Collect(|contract.artifacts|, SchemaRules(resources, contract)), code)
       <==> code == MissingArtifactSchema && exists artifact <- contract.artifacts :: LacksSchema(resources, artifact)
  {
    hide Has, When, Named, Collect, IsSchema, HasSchema;
    CollectHas(|contract.artifacts|, SchemaRules(resources, contract), code);
    forall i: nat | i < |contract.artifacts|
      ensures Has(SchemaRules(resources, contract)(i), code)
         <==> code == MissingArtifactSchema && LacksSchema(resources, contract.artifacts[i])
    {
      var artifact := contract.artifacts[i];
      var location := Named(Named("contracts", contract.id) + ".artifacts", artifact.id);
      var schema := artifact.schemaResourceId;
      if schema.Some? {
        SchemaIs(resources, schema.value);
        WhenHas(!IsSchema(resources, schema.value), MissingArtifactSchema, Error, location + ".schema_resource_id",
                code);
      } else {
        WhenHas(true, MissingArtifactSchema, Error, location, code);
      }
    }
  }

  lemma ContractRulesExact(draft: FlowDraft, code: Code)
    ensures Has(Collect(|draft.contracts|, ContractRules(draft)), code)
       <==> || (code == MissingContractCompletion && exists contract <- draft.contracts :: contract.completion.None?)
            || (code == MissingArtifactSchema
                && exists contract <- draft.contracts ::
                     exists artifact <- contract.artifacts :: LacksSchema(draft.resources, artifact))
  {
    hide Has, When, Named, Collect, LacksSchema;
    CollectHas(|draft.contracts|, ContractRules(draft), code);
    forall i: nat | i < |draft.contracts|
      ensures Has(ContractRules(draft)(i), code)
         <==> || (code == MissingContractCompletion && draft.contracts[i].completion.None?)
              || (code == MissingArtifactSchema
                  && exists artifact <- draft.contracts[i].artifacts :: LacksSchema(draft.resources, artifact))
    {
      var contract := draft.contracts[i];
      var location := Named("contracts", contract.id) + ".completion";
      WhenHas(contract.completion.None?, MissingContractCompletion, Error, location, code);
      SchemaRulesExact(draft.resources, contract, code);
      HasAppend(ErrorIf(contract.completion.None?, MissingContractCompletion, location),
                Collect(|contract.artifacts|, SchemaRules(draft.resources, contract)), code);
    }
  }

  lemma ExtensionRulesExact(extensions: seq<string>, list: string, code: Code)
    ensures Has(Collect(|extensions|, ExtensionRules(extensions, list)), code)
       <==> code == AuthoringPrimitiveMisuse && exists extension <- extensions :: !MayExtend(extension)
  {
    hide Has, When, Entry, Collect, IsAuthoringExtension, MayExtend;
    CollectHas(|extensions|, ExtensionRules(extensions, list), code);
    forall i: nat | i < |extensions|
      ensures Has(ExtensionRules(extensions, list)(i), code)
         <==> code == AuthoringPrimitiveMisuse && !MayExtend(extensions[i])
    {
      MayExtendIs(extensions[i]);
      WhenHas(!IsAuthoringExtension(extensions[i]), AuthoringPrimitiveMisuse, Fatal, Entry(list, i), code);
    }
  }

  lemma ReferenceRulesExact(resources: seq<FlowResource>, references: seq<string>, list: string, code: Code)
    ensures Has(Collect(|references|, ReferenceRules(resources, references, list)), code)
       <==> code == UnknownActionResource && exists reference <- references :: !Embeds(resources, reference)
  {
    hide Has, When, Entry, Collect, Embeds, KindOf;
    CollectHas(|references|, ReferenceRules(resources, references, list), code);
    forall i: nat | i < |references|
      ensures Has(ReferenceRules(resources, references, list)(i), code)
         <==> code == UnknownActionResource && !Embeds(resources, references[i])
    {
      KindOfExact(resources, references[i]);
      WhenHas(KindOf(resources, references[i]).None?, UnknownActionResource, Error, Entry(list, i), code);
    }
  }

  /** The last resource with this id is of this kind. */
  predicate LastIs(resources: seq<FlowResource>, id: string, kind: ResourceKind) {
    exists i :: 0 <= i < |resources| && resources[i].id == id && resources[i].kind == kind
                && forall j :: i < j < |resources| ==> resources[j].id != id
  }

  lemma {:induction false} KindOfLast(resources: seq<FlowResource>, id: string, kind: ResourceKind)
    ensures KindOf(resources, id) == Some(kind) <==> LastIs(resources, id, kind)
  {
    if resources != [] {
      var front, last := resources[..|resources| - 1], resources[|resources| - 1];
      KindOfLast(front, id, kind);
      if last.id != id {
        if i :| 0 <= i < |front| && front[i].id == id && front[i].kind == kind
                && forall j :: i < j < |front| ==> front[j].id != id {
          assert resources[i].id == id;
        }
        if i :| 0 <= i < |resources| && resources[i].id == id && resources[i].kind == kind
                && forall j :: i < j < |resources| ==> resources[j].id != id {
          assert front[i].id == id;
        }
      } else {
        assert resources[|resources| - 1].id == id;
      }
    }
  }

  /** The code of a broken rule for one action. */
  predicate ActionBreaks(resources: seq<FlowResource>, action: NodeAction, code: Code) {
    match code
    case UnsupportedScriptActionDriver => action.driver == Script
    case InvalidActionPrompt =>
      action.promptRef.Some? && Embeds(resources, action.promptRef.value)
      && !LastIs(resources, action.promptRef.value, Prompt)
    case UnknownActionPrompt => action.promptRef.Some? && !Embeds(resources, action.promptRef.value)
    case UnknownActionResource => exists reference <- action.resourceRefs :: !Embeds(resources, reference)
    case EmptyActionVerdictArtifact =>
      action.verdictArtifact.Some? && forall c <- action.verdictArtifact.value :: IsWhiteSpace(c)
    case _ => false
  }

  lemma ActionRulesExact(resources: seq<FlowResource>, action: NodeAction, location: string, code: Code)
    ensures Has(ActionRules(resources, action, location), code) <==> ActionBreaks(resources, action, code)
  {
    hide Has, When, Collect, KindOf, Embeds, IsWhiteSpace, LastIs;
    var script, empty := action.driver == Script, action.verdictArtifact.Some? && IsBlank(action.verdictArtifact.value);
    var a := ErrorIf(script, UnsupportedScriptActionDriver, location + ".driver");
    var b := PromptRules(resources, action.promptRef, location + ".prompt_ref");
    var c := Collect(|action.resourceRefs|,
                     ReferenceRules(resources, action.resourceRefs, location + ".resource_refs"));
    var d := ErrorIf(empty, EmptyActionVerdictArtifact, location + ".verdict_artifact");
    WhenHas(script, UnsupportedScriptActionDriver, Error, location + ".driver", code);
    PromptRulesExact(resources, action.promptRef, location + ".prompt_ref", code);
    ReferenceRulesExact(resources, action.resourceRefs, location + ".resource_refs", code);
    WhenHas(empty, EmptyActionVerdictArtifact, Error, location + ".verdict_artifact", code);
    HasAppend(a, b, code);
    HasAppend(a + b, c, code);
    HasAppend(a + b + c, d, code);
  }

  lemma PromptRulesExact(resources: seq<FlowResource>, prompt: Option<string>, location: string, code: Code)
    ensures Has(PromptRules(resources, prompt, location), code)
       <==> prompt.Some?
            && if Embeds(resources, prompt.value)
               then code == InvalidActionPrompt && !LastIs(resources, prompt.value, Prompt)
               else code == UnknownActionPrompt
  {
    hide Has, When, KindOf, Embeds, LastIs;
    NothingHas(code);
    if prompt.Some? {
      KindOfExact(resources, prompt.value);
      KindOfLast(resources, prompt.value, Prompt);
      WhenHas(true, UnknownActionPrompt, Error, location, code);
      if KindOf(resources, prompt.value).Some? {
        WhenHas(KindOf(resources, prompt.value).value != Prompt, InvalidActionPrompt, Error, location, code);
      }
    }
  }

  predicate NodeBreaks(draft: FlowDraft, node: FlowNode, code: Code) {
    || (code == UnknownNodeContract && node.contractId.Some?
        && forall contract <- draft.contracts :: contract.id != node.contractId.value)
    || (node.action.Some? && ActionBreaks(draft.resources, node.action.value, code))
    || (code == AuthoringPrimitiveMisuse && exists extension <- node.extensions :: !MayExtend(extension))
  }

  lemma NodeRuleExact(draft: FlowDraft, i: nat, code: Code)
    requires i < |draft.nodes|
    ensures Has(NodeRules(draft)(i), code) <==> NodeBreaks(draft, draft.nodes[i], code)
  {
    hide Has, When, Collect, ActionRules, ActionBreaks, MayExtend;
    var node := draft.nodes[i];
    var location := Named("nodes", node.id);
    var unknown := node.contractId.Some? && !exists contract <- draft.contracts :: contract.id == node.contractId.value;
    var a := ErrorIf(unknown, UnknownNodeContract, location + ".contract_id");
    var b := if node.action.None? then [] else ActionRules(draft.resources, node.action.value, location + ".action");
    var c := Collect(|node.extensions|, ExtensionRules(node.extensions, location + ".extensions"));
    WhenHas(unknown, UnknownNodeContract, Error, location + ".contract_id", code);
    NothingHas(code);
    if node.action.Some? { ActionRulesExact(draft.resources, node.action.value, location + ".action", code); }
    ExtensionRulesExact(node.extensions, location + ".extensions", code);
    HasAppend(a, b, code);
    HasAppend(a + b, c, code);
  }

  lemma NodeRulesExact(draft: FlowDraft, code: Code)
    ensures Has(Collect(|draft.nodes|, NodeRules(draft)), code)
       <==> exists node <- draft.nodes :: NodeBreaks(draft, node, code)
  {
    hide Has, Collect, NodeRules, NodeBreaks;
    assert forall i: nat | i < |draft.nodes| :: NodeRules(draft).requires(i) by { NodeRulesDefined(draft); }
    CollectHas(|draft.nodes|, NodeRules(draft), code);
    forall i: nat | i < |draft.nodes|
      ensures Has(NodeRules(draft)(i), code) <==> NodeBreaks(draft, draft.nodes[i], code)
    {
      NodeRuleExact(draft, i, code);
    }
  }

  lemma ScopeRulesExact(scopes: seq<WriteScope>, mode: Mode, list: string, code: Code)
    ensures Has(Collect(|scopes|, ScopeRules(scopes, mode, list)), code) <==> code == BroadWriteScope && !Narrow(scopes)
  {
    hide Has, When, Entry, Collect;
    NarrowIs(scopes);
    CollectHas(|scopes|, ScopeRules(scopes, mode, list), code);
    forall i: nat | i < |scopes|
      ensures Has(ScopeRules(scopes, mode, list)(i), code) <==> code == BroadWriteScope && scopes[i].IsBroad()
    {
      WhenHas(scopes[i].IsBroad(), BroadWriteScope, if mode == Core then Warning else Error, Entry(list, i), code);
    }
  }

  lemma NodeScopeRulesExact(nodes: seq<FlowNode>, mode: Mode, code: Code)
    ensures Has(Collect(|nodes|, NodeScopeRules(nodes, mode)), code)
       <==> code == BroadWriteScope && exists node <- nodes :: !Narrow(node.writeScopes)
  {
    hide Has, Collect, ScopeRules, Narrow;
    CollectHas(|nodes|, NodeScopeRules(nodes, mode), code);
    forall i: nat | i < |nodes|
      ensures Has(NodeScopeRules(nodes, mode)(i), code) <==> code == BroadWriteScope && !Narrow(nodes[i].writeScopes)
    {
      ScopeRulesExact(nodes[i].writeScopes, mode, Named("nodes", nodes[i].id) + ".write_scopes", code);
    }
  }

  /** The rule that a code stands for is broken somewhere in the draft. */
  ghost predicate Breaks(parse: QosParser, draft: FlowDraft, code: Code) {
    || (code == DuplicateNodeId && !UniqueNodes(draft.nodes))
    || (code == DuplicateContractId && !UniqueContracts(draft.contracts))
    || (code == DuplicateContractArtifact
        && exists contract <- draft.contracts :: !UniqueArtifacts(contract.artifacts))
    || (code == InvalidResourcePath && exists r <- draft.resources :: r.id == "flow.json" || !StaysInside(r.id))
    || (code == DuplicateResourcePath && !UniqueResources(draft.resources))
    || (code == InvalidReadmePath && exists r <- draft.resources :: (r.kind == Readme) != (r.id == "README.md"))
    || (code == InvalidSkillPath
        && exists r <- draft.resources :: r.kind == Skill && !IsThreeDeep(r.id, "skills", "SKILL.md"))
    || (code == UnresolvedImport && exists entry <- draft.imports :: !Embeds(draft.resources, entry.resourceId))
    || (code == MissingReadme && !IsEmptyDraft(draft) && !exists r <- draft.resources :: IsReadme(r))
    || (code == EmptyReadme && (exists r <- draft.resources :: IsReadme(r))
        && forall r <- draft.resources :: IsReadme(r) ==> IsBlank(r.source))
    || (code == EmptyQosCompletionTarget && TargetIsBlank(parse, draft.extensions))
    || (code == DuplicateRoute && !UniqueRoutes(draft.routes))
    || (code == UnknownRouteTarget && exists route <- draft.routes :: !HasTarget(draft.nodes, route))
    || (code == MissingContractCompletion && exists contract <- draft.contracts :: contract.completion.None?)
    || (code == MissingArtifactSchema
        && exists contract <- draft.contracts ::
             exists artifact <- contract.artifacts :: LacksSchema(draft.resources, artifact))
    || (code == AuthoringPrimitiveMisuse && exists extension <- draft.extensions :: !MayExtend(extension))
    || (exists node <- draft.nodes :: NodeBreaks(draft, node, code))
    || (code == BroadWriteScope
        && (!Narrow(draft.writeScopes) || exists node <- draft.nodes :: !Narrow(node.writeScopes)))
  }

  /** No rule of nodes has one of the other codes. */
  lemma NodeCodes(draft: FlowDraft, code: Code)
    requires exists node <- draft.nodes :: NodeBreaks(draft, node, code)
    ensures code in {UnknownNodeContract, UnsupportedScriptActionDriver, InvalidActionPrompt, UnknownActionPrompt,
                     UnknownActionResource, EmptyActionVerdictArtifact, AuthoringPrimitiveMisuse}
  {
  }

  lemma CheckSplits(parse: QosParser, draft: FlowDraft, mode: Mode, code: Code)
    ensures Has(Check(parse, draft, mode), code) <==>
      || Has(Collect(|draft.nodes|, NodeIds(draft.nodes)), code)
      || Has(Collect(|draft.contracts|, ContractIds(draft.contracts)), code)
      || Has(Collect(|draft.resources|, ResourceRules(draft.resources)), code)
      || Has(Collect(|draft.imports|, ImportRules(draft)), code)
      || Has(PackageRules(parse, draft), code)
      || Has(QosRules(parse, draft), code)
      || Has(Collect(|draft.routes|, RouteRules(draft)), code)
      || Has(Collect(|draft.contracts|, ContractRules(draft)), code)
      || Has(Collect(|draft.extensions|, ExtensionRules(draft.extensions, "extensions")), code)
      || Has(Collect(|draft.nodes|, NodeRules(draft)), code)
      || Has(Collect(|draft.writeScopes|, ScopeRules(draft.writeScopes, mode, "policies.write_scopes")), code)
      || Has(Collect(|draft.nodes|, NodeScopeRules(draft.nodes, mode)), code)
  {
    hide Has, Collect, PackageRules, QosRules;
    var a := Collect(|draft.nodes|, NodeIds(draft.nodes));
    var b := Collect(|draft.contracts|, ContractIds(draft.contracts));
    var c := Collect(|draft.resources|, ResourceRules(draft.resources));
    var d := Collect(|draft.imports|, ImportRules(draft));
    var e, f := PackageRules(parse, draft), QosRules(parse, draft);
    var g := Collect(|draft.routes|, RouteRules(draft));
    var h := Collect(|draft.contracts|, ContractRules(draft));
    var i := Collect(|draft.extensions|, ExtensionRules(draft.extensions, "extensions"));
    var j := Collect(|draft.nodes|, NodeRules(draft));
    var k := Collect(|draft.writeScopes|, ScopeRules(draft.writeScopes, mode, "policies.write_scopes"));
    var l := Collect(|draft.nodes|, NodeScopeRules(draft.nodes, mode));
    HasAppend(a, b, code);
    HasAppend(a + b, c, code);
    HasAppend(a + b + c, d, code);
    HasAppend(a + b + c + d, e, code);
    HasAppend(a + b + c + d + e, f, code);
    HasAppend(a + b + c + d + e + f, g, code);
    HasAppend(a + b + c + d + e + f + g, h, code);
    HasAppend(a + b + c + d + e + f + g + h, i, code);
    HasAppend(a + b + c + d + e + f + g + h + i, j, code);
    HasAppend(a + b + c + d + e + f + g + h + i + j, k, code);
    HasAppend(a + b + c + d + e + f + g + h + i + j + k, l, code);
  }

  /** A code is reported if and only if its rule is broken. */
  lemma {:induction false} CodesAreExact(parse: QosParser, draft: FlowDraft, mode: Mode, code: Code)
    ensures Has(Check(parse, draft, mode), code) <==> Breaks(parse, draft, code)
  {
    hide Has, Check, Collect, NodeIds, ContractIds, ResourceRules, ImportRules, PackageRules, QosRules, RouteRules,
         ContractRules, ExtensionRules, NodeRules, ScopeRules, NodeScopeRules, Narrow, TargetIsBlank, StaysInside,
         IsThreeDeep, UniqueNodes, UniqueContracts, UniqueResources, UniqueRoutes, UniqueArtifacts, LacksSchema, Embeds,
         HasTarget, MayExtend, IsBlank, NodeBreaks, IsEmptyDraft, IsReadme;
    NodeIdsExact(draft.nodes, code);
    ContractIdsExact(draft.contracts, code);
    ResourceRulesExact(draft.resources, code);
    ImportRulesExact(draft, code);
    PackageRulesExact(parse, draft, code);
    QosRulesExact(parse, draft, code);
    RouteRulesExact(draft, code);
    ContractRulesExact(draft, code);
    ExtensionRulesExact(draft.extensions, "extensions", code);
    NodeRulesExact(draft, code);
    ScopeRulesExact(draft.writeScopes, mode, "policies.write_scopes", code);
    NodeScopeRulesExact(draft.nodes, mode, code);
    CheckSplits(parse, draft, mode, code);
  }

  /** How severe a diagnostic of a code is. */
  function SeverityOf(code: Code, mode: Mode): Severity {
    match code
    case AuthoringPrimitiveMisuse => Fatal
    case BroadWriteScope => if mode == Core then Warning else Error
    case _ => Error
  }

  predicate Graded(report: seq<Diagnostic>, mode: Mode) {
    forall diagnostic <- report :: diagnostic.severity == SeverityOf(diagnostic.code, mode)
  }

  lemma {:induction false} CollectGraded(n: nat, check: nat --> seq<Diagnostic>, mode: Mode)
    requires forall i: nat | i < n :: check.requires(i) && Graded(check(i), mode)
    ensures Graded(Collect(n, check), mode)
  {
    if n > 0 { CollectGraded(n - 1, check, mode); }
  }

  lemma IdsGraded(draft: FlowDraft, mode: Mode)
    ensures Graded(Collect(|draft.nodes|, NodeIds(draft.nodes)), mode)
    ensures Graded(Collect(|draft.contracts|, ContractIds(draft.contracts)), mode)
  {
    hide Entry, Collect;
    CollectGraded(|draft.nodes|, NodeIds(draft.nodes), mode);
    forall i: nat | i < |draft.contracts| ensures Graded(ContractIds(draft.contracts)(i), mode) {
      var artifacts := draft.contracts[i].artifacts;
      CollectGraded(|artifacts|, ArtifactIds(artifacts, Entry("contracts", i)), mode);
    }
    CollectGraded(|draft.contracts|, ContractIds(draft.contracts), mode);
  }

  lemma ResourcesGraded(draft: FlowDraft, mode: Mode)
    ensures Graded(Collect(|draft.resources|, ResourceRules(draft.resources)), mode)
    ensures Graded(Collect(|draft.imports|, ImportRules(draft)), mode)
  {
    hide Entry, Collect, PackagePathIsValid, SkillPathIsValid, KindOf;
    CollectGraded(|draft.resources|, ResourceRules(draft.resources), mode);
    CollectGraded(|draft.imports|, ImportRules(draft), mode);
  }

  lemma PackageGraded(parse: QosParser, draft: FlowDraft, mode: Mode)
    ensures Graded(PackageRules(parse, draft), mode) && Graded(QosRules(parse, draft), mode)
    ensures Graded(Collect(|draft.routes|, RouteRules(draft)), mode)
  {
    hide Entry, Collect, EmptyTarget, IsNonEmptyPackage, IsBlank, RouteIdentity;
    CollectGraded(|draft.routes|, RouteRules(draft), mode);
  }

  lemma ContractsGraded(draft: FlowDraft, mode: Mode)
    ensures Graded(Collect(|draft.contracts|, ContractRules(draft)), mode)
  {
    hide Entry, Named, Collect, IsSchema;
    forall i: nat | i < |draft.contracts| ensures Graded(ContractRules(draft)(i), mode) {
      var contract := draft.contracts[i];
      CollectGraded(|contract.artifacts|, SchemaRules(draft.resources, contract), mode);
    }
    CollectGraded(|draft.contracts|, ContractRules(draft), mode);
  }

  lemma ExtensionsGraded(extensions: seq<string>, list: string, mode: Mode)
    ensures Graded(Collect(|extensions|, ExtensionRules(extensions, list)), mode)
  {
    hide Entry, Collect, IsAuthoringExtension;
    CollectGraded(|extensions|, ExtensionRules(extensions, list), mode);
  }

  lemma ActionGraded(resources: seq<FlowResource>, action: NodeAction, location: string, mode: Mode)
    ensures Graded(ActionRules(resources, action, location), mode)
  {
    hide Entry, Collect, KindOf, IsBlank;
    CollectGraded(|action.resourceRefs|, ReferenceRules(resources, action.resourceRefs, location + ".resource_refs"),
                  mode);
  }

  lemma NodesGraded(draft: FlowDraft, mode: Mode)
    ensures Graded(Collect(|draft.nodes|, NodeRules(draft)), mode)
  {
    hide Named, Collect, ActionRules, ExtensionRules;
    forall i: nat | i < |draft.nodes| ensures Graded(NodeRules(draft)(i), mode) {
      var node := draft.nodes[i];
      var location := Named("nodes", node.id);
      ExtensionsGraded(node.extensions, location + ".extensions", mode);
      if node.action.Some? { ActionGraded(draft.resources, node.action.value, location + ".action", mode); }
    }
    CollectGraded(|draft.nodes|, NodeRules(draft), mode);
  }

  lemma ScopesGraded(scopes: seq<WriteScope>, list: string, mode: Mode)
    ensures Graded(Collect(|scopes|, ScopeRules(scopes, mode, list)), mode)
  {
    hide Entry, Collect;
    CollectGraded(|scopes|, ScopeRules(scopes, mode, list), mode);
  }

  lemma NodeScopesGraded(nodes: seq<FlowNode>, mode: Mode)
    ensures Graded(Collect(|nodes|, NodeScopeRules(nodes, mode)), mode)
  {
    hide Named, Collect, ScopeRules;
    forall i: nat | i < |nodes| ensures Graded(NodeScopeRules(nodes, mode)(i), mode) {
      ScopesGraded(nodes[i].writeScopes, Named("nodes", nodes[i].id) + ".write_scopes", mode);
    }
    CollectGraded(|nodes|, NodeScopeRules(nodes, mode), mode);
  }

  /** Every diagnostic has the severity of its code; broad write scopes are warnings in the core mode. */
  lemma {:induction false} SeveritiesAreExact(parse: QosParser, draft: FlowDraft, mode: Mode)
    ensures Graded(Check(parse, draft, mode), mode)
  {
    hide SeverityOf, Collect, PackageRules, QosRules;
    IdsGraded(draft, mode);
    ResourcesGraded(draft, mode);
    PackageGraded(parse, draft, mode);
    ContractsGraded(draft, mode);
    ExtensionsGraded(draft.extensions, "extensions", mode);
    NodesGraded(draft, mode);
    ScopesGraded(draft.writeScopes, "policies.write_scopes", mode);
    NodeScopesGraded(draft.nodes, mode);
  }

  /** An action fits when none of its rules is broken; ids are unique by then. */
  lemma ActionFitsIs(resources: seq<FlowResource>, action: NodeAction)
    requires UniqueResources(resources)
    ensures ActionFits(resources, action) <==> forall code :: !ActionBreaks(resources, action, code)
  {
    hide IsWhiteSpace;
    var a, b, c, d, e := UnsupportedScriptActionDriver, InvalidActionPrompt, UnknownActionPrompt, UnknownActionResource,
                         EmptyActionVerdictArtifact;
    assert ActionBreaks(resources, action, a) <==> action.driver == Script;
    assert ActionBreaks(resources, action, d)
      <==> exists reference <- action.resourceRefs :: !Embeds(resources, reference);
    assert ActionBreaks(resources, action, e)
      <==> action.verdictArtifact.Some? && IsBlank(action.verdictArtifact.value);
    if action.promptRef.Some? {
      KindOfUnique(resources, action.promptRef.value, Prompt);
      KindOfLast(resources, action.promptRef.value, Prompt);
      KindOfExact(resources, action.promptRef.value);
      assert ActionBreaks(resources, action, b) || ActionBreaks(resources, action, c)
        <==> !exists resource <- resources :: resource.kind == Prompt && resource.id == action.promptRef.value;
    }
  }

  lemma NodeFitsIs(draft: FlowDraft, node: FlowNode)
    requires UniqueResources(draft.resources)
    ensures NodeFits(draft, node) <==> forall code :: !NodeBreaks(draft, node, code)
  {
    hide ActionFits, ActionBreaks, MayExtend, UniqueResources;
    if node.action.Some? { ActionFitsIs(draft.resources, node.action.value); }
    assert NodeBreaks(draft, node, UnknownNodeContract) || NodeBreaks(draft, node, AuthoringPrimitiveMisuse)
      || forall code :: NodeBreaks(draft, node, code) ==>
           node.action.Some? && ActionBreaks(draft.resources, node.action.value, code);
    if node.action.Some? && !ActionFits(draft.resources, node.action.value) {
      var code :| ActionBreaks(draft.resources, node.action.value, code);
      assert NodeBreaks(draft, node, code);
    }
  }

  /** The checker reports an error exactly for drafts that are not well-formed. */
  lemma {:induction false} CheckIsExact(parse: QosParser, draft: FlowDraft, mode: Mode)
    ensures HasErrors(Check(parse, draft, mode)) <==> !WellFormed(parse, draft, mode)
  {
    hide Check, Breaks, SeverityOf, Has, WellFormed;
    var report := Check(parse, draft, mode);
    SeveritiesAreExact(parse, draft, mode);
    WellFormedIs(parse, draft, mode);
    if HasErrors(report) {
      var diagnostic :| diagnostic in report && IsError(diagnostic);
      HasOne(report, diagnostic);
      CodesAreExact(parse, draft, mode, diagnostic.code);
    }
    if !WellFormed(parse, draft, mode) {
      var code :| Breaks(parse, draft, code) && SeverityOf(code, mode) != Warning;
      CodesAreExact(parse, draft, mode, code);
      var diagnostic := OneOf(report, code);
      assert IsError(diagnostic);
    }
  }

  lemma HasOne(report: seq<Diagnostic>, diagnostic: Diagnostic)
    requires diagnostic in report
    ensures Has(report, diagnostic.code)
  {
  }

  lemma OneOf(report: seq<Diagnostic>, code: Code) returns (diagnostic: Diagnostic)
    requires Has(report, code)
    ensures diagnostic in report && diagnostic.code == code
  {
    diagnostic :| diagnostic in report && diagnostic.code == code;
  }

  lemma ResourcesFitIs(parse: QosParser, draft: FlowDraft)
    ensures (forall resource <- draft.resources :: ResourceFits(resource))
       <==> && !Breaks(parse, draft, InvalidResourcePath) && !Breaks(parse, draft, InvalidReadmePath)
            && !Breaks(parse, draft, InvalidSkillPath)
  {
    hide StaysInside, IsThreeDeep;
  }

  lemma DescribedIs(parse: QosParser, draft: FlowDraft)
    ensures Described(draft) <==> !Breaks(parse, draft, MissingReadme) && !Breaks(parse, draft, EmptyReadme)
  {
    hide IsBlank;
    assert IsEmptyDraft(draft) ==> !exists r <- draft.resources :: IsReadme(r);
  }

  lemma ContractsFitIs(parse: QosParser, draft: FlowDraft)
    ensures (forall contract <- draft.contracts :: ContractFits(draft.resources, contract))
       <==> !Breaks(parse, draft, MissingContractCompletion) && !Breaks(parse, draft, MissingArtifactSchema)
  {
    hide HasSchema;
  }

  lemma NodesFitIs(parse: QosParser, draft: FlowDraft)
    requires UniqueResources(draft.resources)
    ensures (forall node <- draft.nodes :: NodeFits(draft, node))
       <==> forall code, node :: node in draft.nodes ==> !NodeBreaks(draft, node, code)
  {
    hide NodeFits, NodeBreaks, UniqueResources;
    forall node ensures NodeFits(draft, node) <==> forall code :: !NodeBreaks(draft, node, code) {
      NodeFitsIs(draft, node);
    }
  }

  lemma WellFormedBreaksNothing(parse: QosParser, draft: FlowDraft, mode: Mode)
    requires WellFormed(parse, draft, mode)
    ensures forall code :: SeverityOf(code, mode) != Warning ==> !Breaks(parse, draft, code)
  {
    hide Narrow, TargetIsBlank, UniqueNodes, UniqueContracts, UniqueResources, UniqueRoutes, UniqueArtifacts, Embeds,
         HasTarget, MayExtend, NodeBreaks, NodeFits, ResourceFits, ContractFits, Described;
    ResourcesFitIs(parse, draft);
    ContractsFitIs(parse, draft);
    DescribedIs(parse, draft);
    NodesFitIs(parse, draft);
  }

  lemma IdBreaksMean(parse: QosParser, draft: FlowDraft)
    ensures Breaks(parse, draft, DuplicateNodeId) <==> !UniqueNodes(draft.nodes)
    ensures Breaks(parse, draft, DuplicateContractId) <==> !UniqueContracts(draft.contracts)
    ensures Breaks(parse, draft, DuplicateContractArtifact)
       <==> !forall contract <- draft.contracts :: UniqueArtifacts(contract.artifacts)
    ensures Breaks(parse, draft, DuplicateResourcePath) <==> !UniqueResources(draft.resources)
  {
    hide UniqueNodes, UniqueContracts, UniqueResources, UniqueArtifacts;
  }

  lemma RouteBreaksMean(parse: QosParser, draft: FlowDraft)
    ensures Breaks(parse, draft, UnresolvedImport)
       <==> !forall entry <- draft.imports :: Embeds(draft.resources, entry.resourceId)
    ensures Breaks(parse, draft, DuplicateRoute) <==> !UniqueRoutes(draft.routes)
    ensures Breaks(parse, draft, UnknownRouteTarget) <==> !forall route <- draft.routes :: HasTarget(draft.nodes, route)
  {
    hide UniqueRoutes, Embeds, HasTarget;
  }

  lemma OtherBreaksMean(parse: QosParser, draft: FlowDraft)
    ensures Breaks(parse, draft, EmptyQosCompletionTarget) <==> TargetIsBlank(parse, draft.extensions)
    ensures Breaks(parse, draft, BroadWriteScope)
       <==> !(Narrow(draft.writeScopes) && forall node <- draft.nodes :: Narrow(node.writeScopes))
  {
    hide Narrow, TargetIsBlank;
  }

  lemma NodeBreaksBreak(parse: QosParser, draft: FlowDraft, code: Code)
    ensures (exists node <- draft.nodes :: NodeBreaks(draft, node, code)) ==> Breaks(parse, draft, code)
    ensures (exists extension <- draft.extensions :: !MayExtend(extension)) ==>
              Breaks(parse, draft, AuthoringPrimitiveMisuse)
  {
    hide NodeBreaks, MayExtend;
    if exists node <- draft.nodes :: NodeBreaks(draft, node, code) { NodeCodes(draft, code); }
  }

  lemma NothingBrokenIsWellFormed(parse: QosParser, draft: FlowDraft, mode: Mode)
    requires forall code :: SeverityOf(code, mode) != Warning ==> !Breaks(parse, draft, code)
    ensures WellFormed(parse, draft, mode)
  {
    hide Narrow, TargetIsBlank, UniqueNodes, UniqueContracts, UniqueResources, UniqueRoutes, UniqueArtifacts, Embeds,
         HasTarget, MayExtend, NodeBreaks, NodeFits, ResourceFits, ContractFits, Described, Breaks;
    ResourcesFitIs(parse, draft);
    ContractsFitIs(parse, draft);
    DescribedIs(parse, draft);
    IdBreaksMean(parse, draft);
    RouteBreaksMean(parse, draft);
    OtherBreaksMean(parse, draft);
    NodesFitIs(parse, draft);
    NodeBreaksBreak(parse, draft, AuthoringPrimitiveMisuse);
    forall code, node | node in draft.nodes ensures !NodeBreaks(draft, node, code) {
      NodeBreaksBreak(parse, draft, code);
      NodeSeverity(draft, code, mode);
    }
  }

  lemma NodeSeverity(draft: FlowDraft, code: Code, mode: Mode)
    ensures (exists node <- draft.nodes :: NodeBreaks(draft, node, code)) ==> SeverityOf(code, mode) != Warning
  {
    hide NodeBreaks;
    if exists node <- draft.nodes :: NodeBreaks(draft, node, code) { NodeCodes(draft, code); }
  }

  /** A draft is well-formed when no rule is broken whose code is an error. */
  lemma {:induction false} WellFormedIs(parse: QosParser, draft: FlowDraft, mode: Mode)
    ensures WellFormed(parse, draft, mode)
       <==> forall code :: SeverityOf(code, mode) != Warning ==> !Breaks(parse, draft, code)
  {
    hide WellFormed, Breaks;
    if WellFormed(parse, draft, mode) {
      WellFormedBreaksNothing(parse, draft, mode);
    }
    if forall code :: SeverityOf(code, mode) != Warning ==> !Breaks(parse, draft, code) {
      NothingBrokenIsWellFormed(parse, draft, mode);
    }
  }

  /** A draft that is well-formed for strict checking has an empty report in either mode. */
  lemma {:induction false} WellFormedReportsNothing(parse: QosParser, draft: FlowDraft, mode: Mode)
    requires WellFormed(parse, draft, Strict)
    ensures Check(parse, draft, mode) == []
  {
    hide Check, Breaks, Has, WellFormed;
    var report := Check(parse, draft, mode);
    WellFormedIs(parse, draft, Strict);
    if report != [] {
      HasOne(report, report[0]);
      CodesAreExact(parse, draft, mode, report[0].code);
    }
  }
}
