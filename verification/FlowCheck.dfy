/** The checker of authored flows (src/flow/check.rs). */
module FlowCheck {
  import opened Base
  import opened Paths
  import opened FlowData

  datatype Severity = Fatal | Error | Warning

  datatype Mode = Core | Strict

  datatype Code =
    | DuplicateNodeId
    | DuplicateContractId
    | DuplicateContractArtifact
    | InvalidResourcePath
    | DuplicateResourcePath
    | InvalidReadmePath
    | InvalidSkillPath
    | UnresolvedImport
    | MissingReadme
    | EmptyReadme
    | EmptyQosCompletionTarget
    | DuplicateRoute
    | UnknownRouteTarget
    | MissingContractCompletion
    | MissingArtifactSchema
    | AuthoringPrimitiveMisuse
    | UnknownNodeContract
    | UnsupportedScriptActionDriver
    | InvalidActionPrompt
    | UnknownActionPrompt
    | UnknownActionResource
    | EmptyActionVerdictArtifact
    | BroadWriteScope

  datatype Diagnostic = Diagnostic(code: Code, severity: Severity, location: string)

  /** What the payload of a QoS extension says, if it is a JSON object. */
  datatype Qos = Qos(urgency: string, completionTarget: Option<string>)

  type QosParser = string -> Option<Qos>

  const FLOW_QOS_PREFIX := "humanize.flow_qos:"
  const WORK_PROFILE_PREFIX := "humanize.work_profile:"
  const CONTRACT_EFFECTS_PREFIX := "humanize.contract_effects:"

  predicate IsAuthoringExtension(extension: string) {
    || CONTRACT_EFFECTS_PREFIX <= extension
    || FLOW_QOS_PREFIX <= extension
    || WORK_PROFILE_PREFIX <= extension
    || extension in {"Node", "Contract", "Artifact", "Board", "Route", "Event", "Resource", "Import", "Policy"}
  }

  function ParseQosExtension(parse: QosParser, extension: string): Option<Qos> {
    if FLOW_QOS_PREFIX <= extension then parse(extension[|FLOW_QOS_PREFIX|..]) else None
  }

  /** flow_draft_qos: the first extension that parses decides. */
  function DraftQos(parse: QosParser, extensions: seq<string>): Qos {
    if extensions == [] then Qos("standard", None)
    else
      match ParseQosExtension(parse, extensions[0])
      case Some(qos) => qos
      case None => DraftQos(parse, extensions[1..])
  }

  predicate EmptyTarget(parse: QosParser, extensions: seq<string>) {
    var target := DraftQos(parse, extensions).completionTarget;
    target.Some? && IsBlank(target.value)
  }

  predicate PackagePathIsValid(value: string) {
    value != "" && value != "flow.json" && forall component <- Components(value) :: component.Normal?
  }

  predicate SkillPathIsValid(value: string) {
    var components := Components(value);
    && |components| == 3
    && components[0] == Normal("skills") && components[1].Normal? && components[2] == Normal("SKILL.md")
  }

  lemma JoinedPathIsValid(names: seq<string>)
    requires names != [] && forall name <- names :: IsPlainName(name)
    requires JoinPath(names) != "flow.json"
    ensures PackagePathIsValid(JoinPath(names))
  {
    JoinedPathComponents(names);
    StartsPlain(names);
  }

  lemma NotBlank(s: string, i: nat)
    requires i < |s| && !IsWhiteSpace(s[i])
    ensures !IsBlank(s)
  {
    assert s[i] in s;
  }

  lemma ReadmePathIsValid()
    ensures PackagePathIsValid("README.md")
  {
    hide SplitOn, PieceComponents;
    JoinedPathIsValid(["README.md"]);
  }

  /** The paths a package may hold, said on their text. */
  lemma {:induction false} PackagePathIsExact(value: string)
    ensures PackagePathIsValid(value) <==> value != "flow.json" && StaysInside(value)
  {
    hide Components, StaysInside;
    InsideIsNamesOnly(value);
  }

  lemma {:induction false} SkillPathIsExact(value: string)
    ensures SkillPathIsValid(value) <==> IsThreeDeep(value, "skills", "SKILL.md")
  {
    hide Components, IsThreeDeep;
    ThreeDeepIs(value, "skills", "SKILL.md");
  }

  /** canonical_route_identity up to its digest: three length-prefixed fields. */
  function RouteIdentity(route: FlowRoute): (string, string, string) {
    (PredicateText(route.condition),
     if route.forEach.None? then "" else "artifact." + route.forEach.value,
     route.activate)
  }

  function FactText(fact: FactRef): string {
    (if fact.ArtifactFact? then "artifact." else "board.") + fact.key
  }

  function PredicateText(condition: FlowPredicate): string {
    (if condition.Exists? then "exists(" else "truthy(") + FactText(condition.fact) + ")"
  }

  /** Two routes share an identity only if they are the same route. */
  lemma RouteIdentityInjective(a: FlowRoute, b: FlowRoute)
    requires RouteIdentity(a) == RouteIdentity(b)
    ensures a == b
  {
    PredicateTextInjective(a.condition, b.condition);
    if a.forEach.Some? && b.forEach.Some? {
      assert ("artifact." + a.forEach.value)[9..] == a.forEach.value;
      assert ("artifact." + b.forEach.value)[9..] == b.forEach.value;
    }
  }

  lemma PredicateTextInjective(a: FlowPredicate, b: FlowPredicate)
    requires PredicateText(a) == PredicateText(b)
    ensures a == b
  {
    var s, t := PredicateText(a), PredicateText(b);
    assert s[0] == if a.Exists? then 'e' else 't';
    assert t[0] == if b.Exists? then 'e' else 't';
    assert s[7..|s| - 1] == FactText(a.fact) && t[7..|t| - 1] == FactText(b.fact);
    FactTextInjective(a.fact, b.fact);
  }

  lemma FactTextInjective(a: FactRef, b: FactRef)
    requires FactText(a) == FactText(b)
    ensures a == b
  {
    var s, t := FactText(a), FactText(b);
    assert s[0] == if a.ArtifactFact? then 'a' else 'b';
    assert t[0] == if b.ArtifactFact? then 'a' else 'b';
    if a.ArtifactFact? {
      assert s[9..] == a.key && t[9..] == b.key;
    } else {
      assert s[6..] == a.key && t[6..] == b.key;
    }
  }

  /** What the checker says of entries 0 to n, in order. */
  function Collect(n: nat, check: nat --> seq<Diagnostic>): seq<Diagnostic>
    requires forall i: nat | i < n :: check.requires(i)
  {
    if n == 0 then [] else Collect(n - 1, check) + check(n - 1)
  }

  function When(wrong: bool, code: Code, severity: Severity, location: string): seq<Diagnostic> {
    if wrong then [Diagnostic(code, severity, location)] else []
  }

  function ErrorIf(wrong: bool, code: Code, location: string): seq<Diagnostic> {
    When(wrong, code, Error, location)
  }

  /** `list[i]` in a location. */
  function Entry(list: string, i: nat): string {
    list + "[" + Decimal(i) + "]"
  }

  function Named(list: string, id: string): string {
    list + "[" + id + "]"
  }

  /** The kind that a map from ids to kinds ends up with: that of the last resource with the id. */
  function KindOf(resources: seq<FlowResource>, id: string): Option<ResourceKind> {
    if resources == [] then None
    else
      var last := resources[|resources| - 1];
      if last.id == id then Some(last.kind) else KindOf(resources[..|resources| - 1], id)
  }

  function NodeIds(nodes: seq<FlowNode>): nat --> seq<Diagnostic> {
    (i: nat) requires i < |nodes| =>
      ErrorIf(exists j :: 0 <= j < i && nodes[j].id == nodes[i].id, DuplicateNodeId, Entry("nodes", i) + ".id")
  }

  function ArtifactIds(artifacts: seq<ContractArtifact>, owner: string): nat --> seq<Diagnostic> {
    (i: nat) requires i < |artifacts| =>
      ErrorIf(exists j :: 0 <= j < i && artifacts[j].id == artifacts[i].id, DuplicateContractArtifact,
              Entry(owner + ".artifacts", i) + ".id")
  }

  function ContractIds(contracts: seq<FlowContract>): nat --> seq<Diagnostic> {
    (i: nat) requires i < |contracts| =>
      ErrorIf(exists j :: 0 <= j < i && contracts[j].id == contracts[i].id, DuplicateContractId,
              Entry("contracts", i) + ".id")
      + Collect(|contracts[i].artifacts|, ArtifactIds(contracts[i].artifacts, Entry("contracts", i)))
  }

  function ResourceRules(resources: seq<FlowResource>): nat --> seq<Diagnostic> {
    (i: nat) requires i < |resources| =>
      var resource, location := resources[i], Entry("resources", i);
      ErrorIf(!PackagePathIsValid(resource.id), InvalidResourcePath, location + ".path")
      + ErrorIf(exists j :: 0 <= j < i && resources[j].id == resources[i].id, DuplicateResourcePath, location + ".path")
      + ErrorIf(resource.kind == Readme && resource.id != "README.md", InvalidReadmePath, location + ".path")
      + ErrorIf(resource.id == "README.md" && resource.kind != Readme, InvalidReadmePath, location + ".kind")
      + ErrorIf(resource.kind == Skill && !SkillPathIsValid(resource.id), InvalidSkillPath, location + ".path")
  }

  function ImportRules(draft: FlowDraft): nat --> seq<Diagnostic> {
    (i: nat) requires i < |draft.imports| =>
      ErrorIf(KindOf(draft.resources, draft.imports[i].resourceId).None?, UnresolvedImport,
              Entry("imports", i) + ".resource_id")
  }

  predicate IsRootReadme(resource: FlowResource) {
    resource.kind == Readme && resource.id == "README.md"
  }

  predicate IsNonEmptyPackage(parse: QosParser, draft: FlowDraft) {
    || draft.nodes != [] || draft.contracts != [] || draft.routes != [] || draft.resources != []
    || draft.imports != [] || draft.writeScopes != []
    || DraftQos(parse, draft.extensions) != Qos("standard", None)
    || draft.extensions != []
  }

  function PackageRules(parse: QosParser, draft: FlowDraft): seq<Diagnostic> {
    if !IsNonEmptyPackage(parse, draft) then []
    else if !exists resource <- draft.resources :: IsRootReadme(resource) then
      ErrorIf(true, MissingReadme, "resources")
    else
      ErrorIf(!exists resource <- draft.resources :: IsRootReadme(resource) && !IsBlank(resource.source),
              EmptyReadme, "resources")
  }

  function QosRules(parse: QosParser, draft: FlowDraft): seq<Diagnostic> {
    ErrorIf(EmptyTarget(parse, draft.extensions), EmptyQosCompletionTarget, "qos.completion_target")
  }

  function RouteRules(draft: FlowDraft): nat --> seq<Diagnostic> {
    (i: nat) requires i < |draft.routes| =>
      ErrorIf(exists j :: 0 <= j < i && RouteIdentity(draft.routes[j]) == RouteIdentity(draft.routes[i]),
              DuplicateRoute, Entry("routes", i))
      + ErrorIf(!exists node <- draft.nodes :: node.id == draft.routes[i].activate,
                UnknownRouteTarget, Entry("routes", i) + ".activate")
  }

  predicate IsSchema(resources: seq<FlowResource>, id: string) {
    exists resource <- resources :: resource.kind == Schema && resource.id == id
  }

  function SchemaRules(resources: seq<FlowResource>, contract: FlowContract): nat --> seq<Diagnostic> {
    (i: nat) requires i < |contract.artifacts| =>
      var artifact := contract.artifacts[i];
      var location := Named(Named("contracts", contract.id) + ".artifacts", artifact.id);
      match artifact.schemaResourceId
      case Some(schema) =>
        ErrorIf(!IsSchema(resources, schema), MissingArtifactSchema, location + ".schema_resource_id")
      case None => ErrorIf(true, MissingArtifactSchema, location)
  }

  function ContractRules(draft: FlowDraft): nat --> seq<Diagnostic> {
    (i: nat) requires i < |draft.contracts| =>
      var contract := draft.contracts[i];
      ErrorIf(contract.completion.None?, MissingContractCompletion, Named("contracts", contract.id) + ".completion")
      + Collect(|contract.artifacts|, SchemaRules(draft.resources, contract))
  }

  function ExtensionRules(extensions: seq<string>, list: string): nat --> seq<Diagnostic> {
    (i: nat) requires i < |extensions| =>
      When(!IsAuthoringExtension(extensions[i]), AuthoringPrimitiveMisuse, Fatal, Entry(list, i))
  }

  function ReferenceRules(resources: seq<FlowResource>, references: seq<string>, list: string)
    : nat --> seq<Diagnostic>
  {
    (i: nat) requires i < |references| =>
      ErrorIf(KindOf(resources, references[i]).None?, UnknownActionResource, Entry(list, i))
  }

  function PromptRules(resources: seq<FlowResource>, prompt: Option<string>, location: string): seq<Diagnostic> {
    if prompt.None? then []
    else
      match KindOf(resources, prompt.value)
      case Some(kind) => ErrorIf(kind != Prompt, InvalidActionPrompt, location)
      case None => ErrorIf(true, UnknownActionPrompt, location)
  }

  function ActionRules(resources: seq<FlowResource>, action: NodeAction, location: string): seq<Diagnostic> {
    ErrorIf(action.driver == Script, UnsupportedScriptActionDriver, location + ".driver")
    + PromptRules(resources, action.promptRef, location + ".prompt_ref")
    + Collect(|action.resourceRefs|, ReferenceRules(resources, action.resourceRefs, location + ".resource_refs"))
    + ErrorIf(action.verdictArtifact.Some? && IsBlank(action.verdictArtifact.value), EmptyActionVerdictArtifact,
              location + ".verdict_artifact")
  }

  function NodeRules(draft: FlowDraft): nat --> seq<Diagnostic> {
    (i: nat) requires i < |draft.nodes| =>
      var node := draft.nodes[i];
      var location := Named("nodes", node.id);
      ErrorIf(node.contractId.Some? && !exists contract <- draft.contracts :: contract.id == node.contractId.value,
              UnknownNodeContract, location + ".contract_id")
      + (if node.action.None? then [] else ActionRules(draft.resources, node.action.value, location + ".action"))
      + Collect(|node.extensions|, ExtensionRules(node.extensions, location + ".extensions"))
  }

  function ScopeRules(scopes: seq<WriteScope>, mode: Mode, list: string): nat --> seq<Diagnostic> {
    (i: nat) requires i < |scopes| =>
      When(scopes[i].IsBroad(), BroadWriteScope, if mode == Core then Warning else Error, Entry(list, i))
  }

  function NodeScopeRules(nodes: seq<FlowNode>, mode: Mode): nat --> seq<Diagnostic> {
    (i: nat) requires i < |nodes| =>
      var scopes, list := nodes[i].writeScopes, Named("nodes", nodes[i].id) + ".write_scopes";
      Collect(|scopes|, ScopeRules(scopes, mode, list))
  }

  /** flow_check: every diagnostic, in the order in which they are reported. */
  function Check(parse: QosParser, draft: FlowDraft, mode: Mode): seq<Diagnostic> {
    Collect(|draft.nodes|, NodeIds(draft.nodes))
    + Collect(|draft.contracts|, ContractIds(draft.contracts))
    + Collect(|draft.resources|, ResourceRules(draft.resources))
    + Collect(|draft.imports|, ImportRules(draft))
    + PackageRules(parse, draft)
    + QosRules(parse, draft)
    + Collect(|draft.routes|, RouteRules(draft))
    + Collect(|draft.contracts|, ContractRules(draft))
    + Collect(|draft.extensions|, ExtensionRules(draft.extensions, "extensions"))
    + Collect(|draft.nodes|, NodeRules(draft))
    + Collect(|draft.writeScopes|, ScopeRules(draft.writeScopes, mode, "policies.write_scopes"))
    + Collect(|draft.nodes|, NodeScopeRules(draft.nodes, mode))
  }

  predicate IsError(diagnostic: Diagnostic) {
    diagnostic.severity == Fatal || diagnostic.severity == Error
  }

  predicate HasErrors(diagnostics: seq<Diagnostic>) {
    exists diagnostic <- diagnostics :: IsError(diagnostic)
  }
}
