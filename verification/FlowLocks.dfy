/** Locking a draft, writing the lock, and reading it back (src/flow/mod.rs). */
module FlowLocks {
  import opened Base
  import opened Ordering
  import opened Paths
  import opened FlowData
  import opened FlowCanonical
  import opened FlowCheck
  import opened FlowReports
  import opened FlowWellFormed

  datatype Lock = Lock(id: string, contentHash: string, mode: Mode, diagnostics: seq<Diagnostic>, draft: FlowDraft)

  /** The digest of the canonical bytes of what a lock identifies. */
  type Digest = (Mode, seq<Diagnostic>, FlowDraft) -> string

  datatype Wire = Wire(
    format: string,
    lockId: string,
    contentHash: string,
    checkMode: Mode,
    diagnostics: seq<Diagnostic>,
    flow: FlowDraft)

  datatype WireError = UnsupportedFormat | ValidationFailed | NotCanonical | IdentityMismatch | DiagnosticsMismatch

  const FLOW_LOCK_FORMAT := "humanize.flow_lock.v1"

  /** flow_lock. */
  function LockOf(parse: QosParser, digest: Digest, draft: FlowDraft, mode: Mode): Result<Lock, seq<Diagnostic>> {
    var report := Check(parse, draft, mode);
    if HasErrors(report) then Err(report)
    else
      var canonical := Canonicalize(draft);
      var diagnostics := Check(parse, canonical, mode);
      var d := digest(mode, diagnostics, canonical);
      Ok(Lock("flk_" + d, "sha256:" + d, mode, diagnostics, canonical))
  }

  function Serialize(lock: Lock): Wire {
    Wire(FLOW_LOCK_FORMAT, lock.id, lock.contentHash, lock.mode, lock.diagnostics, lock.draft)
  }

  function Deserialize(parse: QosParser, digest: Digest, wire: Wire): Result<Lock, WireError> {
    if wire.format != FLOW_LOCK_FORMAT then Err(UnsupportedFormat)
    else
      match LockOf(parse, digest, wire.flow, wire.checkMode)
      case Err(_) => Err(ValidationFailed)
      case Ok(lock) =>
        if wire.flow != lock.draft then Err(NotCanonical)
        else if wire.lockId != lock.id || wire.contentHash != lock.contentHash then Err(IdentityMismatch)
        else if wire.diagnostics != lock.diagnostics then Err(DiagnosticsMismatch)
        else Ok(lock)
  }

  /** Sorting a sequence strictly keeps a key unique. */
  lemma KeysStayUnique<T(!new), K>(cmp: Comparison<T>, key: T -> K, s: seq<T>, t: seq<T>)
    requires Lawful(cmp) && StrictlySorted(cmp, t) && forall x <- t :: x in s
    requires forall i, j :: 0 <= i < j < |s| ==> key(s[i]) != key(s[j])
    ensures forall i, j :: 0 <= i < j < |t| ==> key(t[i]) != key(t[j])
  {
    forall i, j | 0 <= i < j < |t| ensures key(t[i]) != key(t[j]) {
      assert t[i] in s && t[j] in s;
      var k, l :| 0 <= k < |s| && 0 <= l < |s| && s[k] == t[i] && s[l] == t[j];
      assert cmp(t[i], t[j]) == Less;
      assert cmp(t[i], t[i]) == cmp(t[i], t[i]).Flip();
      assert k != l;
    }
  }

  lemma NodesStayUnique(nodes: seq<FlowNode>)
    requires UniqueNodes(nodes)
    ensures UniqueNodes(SortBy(CompareNodes, Each(CanonicalNode, nodes)))
    ensures forall x :: x in SortBy(CompareNodes, Each(CanonicalNode, nodes)) <==> x in Each(CanonicalNode, nodes)
  {
    NodesLawful();
    StringsLawful();
    var each := Each(CanonicalNode, nodes);
    SortHolds(CompareNodes, each);
    SortStrict(CompareNodes, each);
    KeysStayUnique(CompareNodes, (node: FlowNode) => node.id, each, SortBy(CompareNodes, each));
  }

  lemma ContractsStayUnique(contracts: seq<FlowContract>)
    requires UniqueContracts(contracts)
    ensures UniqueContracts(SortBy(CompareContracts, Each(CanonicalContract, contracts)))
    ensures forall x :: x in SortBy(CompareContracts, Each(CanonicalContract, contracts))
                        <==> x in Each(CanonicalContract, contracts)
  {
    ContractsLawful();
    StringsLawful();
    var each := Each(CanonicalContract, contracts);
    SortHolds(CompareContracts, each);
    SortStrict(CompareContracts, each);
    KeysStayUnique(CompareContracts, (contract: FlowContract) => contract.id, each, SortBy(CompareContracts, each));
  }

  lemma ArtifactsStayUnique(artifacts: seq<ContractArtifact>)
    requires UniqueArtifacts(artifacts)
    ensures UniqueArtifacts(SortDedup(CompareArtifacts, artifacts))
    ensures forall x :: x in SortDedup(CompareArtifacts, artifacts) <==> x in artifacts
  {
    ArtifactsLawful();
    var sorted := SortDedup(CompareArtifacts, artifacts);
    SortDedupKeeps(CompareArtifacts, artifacts);
    KeysStayUnique(CompareArtifacts, (artifact: ContractArtifact) => artifact.id, artifacts, sorted);
  }

  lemma ResourcesStayUnique(resources: seq<FlowResource>)
    requires UniqueResources(resources)
    ensures UniqueResources(SortBy(CompareResources, resources))
    ensures forall x :: x in SortBy(CompareResources, resources) <==> x in resources
  {
    ResourcesLawful();
    var sorted := SortBy(CompareResources, resources);
    SortHolds(CompareResources, resources);
    SortStrict(CompareResources, resources);
    KeysStayUnique(CompareResources, (resource: FlowResource) => resource.id, resources, sorted);
  }

  lemma RoutesStayUnique(routes: seq<FlowRoute>)
    requires UniqueRoutes(routes)
    ensures UniqueRoutes(SortBy(CompareRoutes, routes))
    ensures forall x :: x in SortBy(CompareRoutes, routes) <==> x in routes
  {
    RoutesLawful();
    SortHolds(CompareRoutes, routes);
    SortStrict(CompareRoutes, routes);
    KeysStayUnique(CompareRoutes, (route: FlowRoute) => route, routes, SortBy(CompareRoutes, routes));
  }

  lemma DedupHolds(draft: FlowDraft)
    ensures var canonical := Canonicalize(draft);
            && (forall x :: x in canonical.imports <==> x in draft.imports)
            && (forall x :: x in canonical.writeScopes <==> x in draft.writeScopes)
            && (forall x :: x in canonical.extensions <==> x in draft.extensions)
  {
    ImportsLawful();
    ScopesLawful();
    StringsLawful();
    SortDedupKeeps(CompareImports, draft.imports);
    SortDedupKeeps(CompareScopes, draft.writeScopes);
    SortDedupKeeps(CompareStrings, draft.extensions);
  }

  /** Canonicalising keeps everything that the checker asks for except the QoS target. */
  lemma {:induction false} CanonicalStaysSound(draft: FlowDraft, mode: Mode)
    requires Sound(draft, mode)
    ensures Sound(Canonicalize(draft), mode)
  {
    var canonical := Canonicalize(draft);
    NodesStayUnique(draft.nodes);
    ContractsStayUnique(draft.contracts);
    ResourcesStayUnique(draft.resources);
    RoutesStayUnique(draft.routes);
    DedupHolds(draft);
    CanonicalNodesFit(draft, canonical, mode);
    CanonicalContractsFit(draft, canonical);
    CanonicalRestFits(draft, canonical);
    DescribedStays(draft);
  }

  lemma CanonicalNodesFit(draft: FlowDraft, canonical: FlowDraft, mode: Mode)
    requires Sound(draft, mode)
    requires forall x :: x in canonical.nodes <==> x in Each(CanonicalNode, draft.nodes)
    requires forall x :: x in canonical.contracts <==> x in Each(CanonicalContract, draft.contracts)
    requires forall x :: x in canonical.resources <==> x in draft.resources
    ensures forall node <- canonical.nodes :: NodeFits(canonical, node)
    ensures mode == Strict ==> forall node <- canonical.nodes :: Narrow(node.writeScopes)
  {
    hide SortDedup, MayExtend;
    forall node <- canonical.nodes
      ensures NodeFits(canonical, node) && (mode == Strict ==> Narrow(node.writeScopes))
    {
      var i :| 0 <= i < |draft.nodes| && node == CanonicalNode(draft.nodes[i]);
      CanonicalNodeFits(draft, canonical, draft.nodes[i]);
    }
  }

  lemma CanonicalNodeFits(draft: FlowDraft, canonical: FlowDraft, node: FlowNode)
    requires NodeFits(draft, node)
    requires forall x :: x in canonical.contracts <==> x in Each(CanonicalContract, draft.contracts)
    requires forall x :: x in canonical.resources <==> x in draft.resources
    ensures NodeFits(canonical, CanonicalNode(node))
    ensures Narrow(node.writeScopes) ==> Narrow(CanonicalNode(node).writeScopes)
  {
    hide MayExtend, IsBlank;
    StringsLawful();
    ScopesLawful();
    SortDedupKeeps(CompareScopes, node.writeScopes);
    SortDedupKeeps(CompareStrings, node.extensions);
    if node.action.Some? { CanonicalActionFits(draft.resources, canonical.resources, node.action.value); }
    if node.contractId.Some? {
      var contract :| contract in draft.contracts && contract.id == node.contractId.value;
      var i :| 0 <= i < |draft.contracts| && draft.contracts[i] == contract;
      assert Each(CanonicalContract, draft.contracts)[i] in canonical.contracts;
      CanonicalContractIs(contract);
    }
  }

  lemma CanonicalActionFits(resources: seq<FlowResource>, sorted: seq<FlowResource>, action: NodeAction)
    requires ActionFits(resources, action) && forall x <- resources :: x in sorted
    ensures ActionFits(sorted, CanonicalAction(action))
  {
    hide SortDedup, IsBlank;
    StringsLawful();
    SortDedupKeeps(CompareStrings, action.resourceRefs);
    forall reference <- CanonicalAction(action).resourceRefs ensures Embeds(sorted, reference) {
      assert Embeds(resources, reference);
    }
    if action.promptRef.Some? {
      var resource :| resource in resources && resource.kind == Prompt && resource.id == action.promptRef.value;
      assert resource in sorted;
    }
  }

  lemma CanonicalContractsFit(draft: FlowDraft, canonical: FlowDraft)
    requires forall contract <- draft.contracts ::
               ContractFits(draft.resources, contract) && UniqueArtifacts(contract.artifacts)
    requires forall x :: x in canonical.contracts <==> x in Each(CanonicalContract, draft.contracts)
    requires forall x :: x in canonical.resources <==> x in draft.resources
    ensures forall contract <- canonical.contracts ::
              ContractFits(canonical.resources, contract) && UniqueArtifacts(contract.artifacts)
  {
    forall contract <- canonical.contracts
      ensures ContractFits(canonical.resources, contract) && UniqueArtifacts(contract.artifacts)
    {
      var i :| 0 <= i < |draft.contracts| && contract == CanonicalContract(draft.contracts[i]);
      var before := draft.contracts[i];
      assert before in draft.contracts;
      assert ContractFits(draft.resources, before) && UniqueArtifacts(before.artifacts);
      ArtifactsStayUnique(before.artifacts);
      CanonicalContractIs(before);
      forall artifact <- contract.artifacts
        ensures artifact.schemaResourceId.Some? && HasSchema(canonical.resources, artifact.schemaResourceId.value)
      {
        assert artifact in before.artifacts;
      }
    }
  }

  lemma CanonicalRestFits(draft: FlowDraft, canonical: FlowDraft)
    requires forall entry <- draft.imports :: Embeds(draft.resources, entry.resourceId)
    requires forall route <- draft.routes :: HasTarget(draft.nodes, route)
    requires forall x :: x in canonical.nodes <==> x in Each(CanonicalNode, draft.nodes)
    requires forall x :: x in canonical.resources <==> x in draft.resources
    requires forall x :: x in canonical.routes <==> x in draft.routes
    requires forall x :: x in canonical.imports <==> x in draft.imports
    ensures forall entry <- canonical.imports :: Embeds(canonical.resources, entry.resourceId)
    ensures forall route <- canonical.routes :: HasTarget(canonical.nodes, route)
  {
    hide CanonicalNode;
    forall route <- canonical.routes ensures HasTarget(canonical.nodes, route) {
      assert HasTarget(draft.nodes, route);
      var node :| node in draft.nodes && node.id == route.activate;
      var i :| 0 <= i < |draft.nodes| && draft.nodes[i] == node;
      assert Each(CanonicalNode, draft.nodes)[i] in canonical.nodes;
      assert CanonicalNode(node).id == node.id by { CanonicalKeepsId(node); }
    }
    forall entry <- canonical.imports ensures Embeds(canonical.resources, entry.resourceId) {
      assert Embeds(draft.resources, entry.resourceId);
    }
  }

  lemma CanonicalKeepsId(node: FlowNode)
    ensures CanonicalNode(node).id == node.id
  {
  }

  lemma DescribedStays(draft: FlowDraft)
    requires Described(draft) && forall x <- draft.resources :: x in Canonicalize(draft).resources
    ensures Described(Canonicalize(draft))
  {
    hide IsBlank;
  }

  /** A lock that was made reads back as itself exactly when its own draft, whose extensions are sorted,
      has no blank QoS target; otherwise reading it fails validation. */
  lemma {:induction false} LockRoundTripsIff(parse: QosParser, digest: Digest, draft: FlowDraft, mode: Mode)
    requires LockOf(parse, digest, draft, mode).Ok?
    ensures var lock := LockOf(parse, digest, draft, mode).value;
            Deserialize(parse, digest, Serialize(lock))
            == if TargetIsBlank(parse, lock.draft.extensions) then Err(ValidationFailed) else Ok(lock)
  {
    hide Check, HasErrors, Canonicalize, Sound, TargetIsBlank;
    var canonical := Canonicalize(draft);
    CheckIsExact(parse, draft, mode);
    CheckIsExact(parse, canonical, mode);
    CanonicalStaysSound(draft, mode);
    CanonicalizeIsIdempotent(draft);
  }

  /** The other direction, for any wire form whatever: what reads back is what was written. */
  lemma {:induction false} DeserializeIsExact(parse: QosParser, digest: Digest, wire: Wire)
    requires Deserialize(parse, digest, wire).Ok?
    ensures Serialize(Deserialize(parse, digest, wire).value) == wire
    ensures LockOf(parse, digest, wire.flow, wire.checkMode) == Ok(Deserialize(parse, digest, wire).value)
  {
    hide Check, HasErrors, Canonicalize;
  }

  /** All the extensions that say something of QoS are the same one. */
  ghost predicate OneQos(parse: QosParser, extensions: seq<string>) {
    forall x, y :: x in extensions && y in extensions ==>
      ParseQosExtension(parse, x).Some? && ParseQosExtension(parse, y).Some? ==> x == y
  }

  lemma {:induction false} DraftQosIs(parse: QosParser, extensions: seq<string>)
    ensures || ((forall x <- extensions :: ParseQosExtension(parse, x).None?)
                && DraftQos(parse, extensions) == Qos("standard", None))
            || exists x <- extensions :: ParseQosExtension(parse, x) == Some(DraftQos(parse, extensions))
  {
    if extensions != [] {
      DraftQosIs(parse, extensions[1..]);
      assert extensions == [extensions[0]] + extensions[1..];
      assert extensions[0] in extensions;
    }
  }

  lemma OneQosIsOrderFree(parse: QosParser, a: seq<string>, b: seq<string>)
    requires OneQos(parse, a) && forall x :: x in a <==> x in b
    ensures DraftQos(parse, a) == DraftQos(parse, b)
  {
    DraftQosIs(parse, a);
    DraftQosIs(parse, b);
  }

  /** Every draft that locks and says at most one thing of QoS: its canonical form passes the checker,
      and its lock reads back. */
  lemma {:induction false} LockRoundTrips(parse: QosParser, digest: Digest, draft: FlowDraft, mode: Mode)
    requires LockOf(parse, digest, draft, mode).Ok? && OneQos(parse, draft.extensions)
    ensures var lock := LockOf(parse, digest, draft, mode).value;
            && !HasErrors(Check(parse, lock.draft, mode))
            && LockOf(parse, digest, lock.draft, mode) == Ok(lock)
            && Deserialize(parse, digest, Serialize(lock)) == Ok(lock)
  {
    hide Check, HasErrors, Canonicalize, Sound, OneQos, TargetIsBlank;
    var canonical := Canonicalize(draft);
    TargetIs(parse, draft.extensions);
    TargetIs(parse, canonical.extensions);
    CheckIsExact(parse, draft, mode);
    DedupHolds(draft);
    OneQosIsOrderFree(parse, draft.extensions, canonical.extensions);
    LockRoundTripsIff(parse, digest, draft, mode);
    CanonicalizeIsIdempotent(draft);
  }

  /** Drafts that say the same apart from order and repetition lock to the same lock. */
  lemma {:induction false} LockIsOrderFree(parse: QosParser, digest: Digest, a: FlowDraft, b: FlowDraft, mode: Mode)
    requires LockOf(parse, digest, a, mode).Ok? && LockOf(parse, digest, b, mode).Ok?
    ensures LockOf(parse, digest, a, mode).value.draft == LockOf(parse, digest, b, mode).value.draft
       <==> ContentOf(a) == ContentOf(b)
    ensures ContentOf(a) == ContentOf(b) ==> LockOf(parse, digest, a, mode) == LockOf(parse, digest, b, mode)
  {
    hide Check, HasErrors, Canonicalize, ContentOf;
    CheckIsExact(parse, a, mode);
    CheckIsExact(parse, b, mode);
    UniqueIsDistinct(a);
    UniqueIsDistinct(b);
    CanonicalFormDecidesContent(a, b);
  }

  lemma UniqueIsDistinct(draft: FlowDraft)
    ensures UniqueNodes(draft.nodes) && UniqueContracts(draft.contracts) <==> DistinctIds(draft)
  {
    StringsLawful();
  }

  /** A draft locks exactly when it is well-formed, and is refused with its report otherwise. */
  lemma {:induction false} LocksIffWellFormed(parse: QosParser, digest: Digest, draft: FlowDraft, mode: Mode)
    ensures LockOf(parse, digest, draft, mode).Ok? <==> WellFormed(parse, draft, mode)
    ensures !WellFormed(parse, draft, mode) ==> LockOf(parse, digest, draft, mode) == Err(Check(parse, draft, mode))
  {
    hide Check, HasErrors, Canonicalize, WellFormed;
    CheckIsExact(parse, draft, mode);
  }

  /** With a digest that tells its inputs apart, two locks share an id or a hash only if their drafts say the same
      and were checked in the same mode with the same report. */
  lemma {:induction false} LockIdsIdentify(parse: QosParser, digest: Digest, a: FlowDraft, b: FlowDraft, m: Mode,
                                           n: Mode)
    requires forall i, j, k, x, y, z :: digest(i, j, k) == digest(x, y, z) ==> i == x && j == y && k == z
    requires LockOf(parse, digest, a, m).Ok? && LockOf(parse, digest, b, n).Ok?
    ensures var l1, l2 := LockOf(parse, digest, a, m).value, LockOf(parse, digest, b, n).value;
            l1.id == l2.id || l1.contentHash == l2.contentHash ==>
              m == n && l1.diagnostics == l2.diagnostics && ContentOf(a) == ContentOf(b)
  {
    hide Check, HasErrors, Canonicalize, ContentOf;
    var l1, l2 := LockOf(parse, digest, a, m).value, LockOf(parse, digest, b, n).value;
    if l1.id == l2.id || l1.contentHash == l2.contentHash {
      assert l1.id[4..] == digest(m, l1.diagnostics, l1.draft) == l1.contentHash[7..];
      assert l2.id[4..] == digest(n, l2.diagnostics, l2.draft) == l2.contentHash[7..];
      CheckIsExact(parse, a, m);
      CheckIsExact(parse, b, m);
      UniqueIsDistinct(a);
      UniqueIsDistinct(b);
      CanonicalFormDecidesContent(a, b);
    }
  }

  /** A lock that reads back no longer does with any one part replaced, and each refusal says which. */
  lemma {:induction false} TamperedLocksAreRefused(parse: QosParser, digest: Digest, draft: FlowDraft, mode: Mode,
                                                   text: string, report: seq<Diagnostic>, flow: FlowDraft)
    requires LockOf(parse, digest, draft, mode).Ok?
    requires !TargetIsBlank(parse, LockOf(parse, digest, draft, mode).value.draft.extensions)
    ensures var wire := Serialize(LockOf(parse, digest, draft, mode).value);
            && (text != "humanize.flow_lock.v1" ==>
                  Deserialize(parse, digest, wire.(format := text)) == Err(UnsupportedFormat))
            && (text != wire.lockId ==> Deserialize(parse, digest, wire.(lockId := text)) == Err(IdentityMismatch))
            && (text != wire.contentHash ==>
                  Deserialize(parse, digest, wire.(contentHash := text)) == Err(IdentityMismatch))
            && (report != wire.diagnostics ==>
                  Deserialize(parse, digest, wire.(diagnostics := report)) == Err(DiagnosticsMismatch))
            && (!WellFormed(parse, flow, mode) ==>
                  Deserialize(parse, digest, wire.(flow := flow)) == Err(ValidationFailed))
            && (WellFormed(parse, flow, mode) && flow != wire.flow && ContentOf(flow) == ContentOf(draft) ==>
                  Deserialize(parse, digest, wire.(flow := flow)) == Err(NotCanonical))
  {
    hide Check, HasErrors, Canonicalize, WellFormed, ContentOf, TargetIsBlank;
    LockRoundTripsIff(parse, digest, draft, mode);
    DeserializeIsExact(parse, digest, Serialize(LockOf(parse, digest, draft, mode).value));
    LocksIffWellFormed(parse, digest, flow, mode);
    if WellFormed(parse, flow, mode) && ContentOf(flow) == ContentOf(draft) {
      LockIsOrderFree(parse, digest, flow, draft, mode);
    }
  }

  function QosPair(first: string, second: string): FlowDraft {
    FlowDraft([], [], [], [FlowResource("README.md", Readme, "text")], [], [],
              [FLOW_QOS_PREFIX + first, FLOW_QOS_PREFIX + second])
  }

  /** Two QoS extensions can break it: the first has a target, the second a blank one, and sorting
      puts the second in front. */
  lemma {:induction false} TwoQosCanBreakALock(parse: QosParser, digest: Digest, first: string, second: string,
                                               target: string, blank: string, mode: Mode)
    requires CompareStrings(first, second) == Greater
    requires parse(first) == Some(Qos("standard", Some(target))) && !IsBlank(target)
    requires parse(second) == Some(Qos("standard", Some(blank))) && IsBlank(blank)
    ensures var draft := QosPair(first, second);
            && LockOf(parse, digest, draft, mode).Ok?
            && Deserialize(parse, digest, Serialize(LockOf(parse, digest, draft, mode).value)) == Err(ValidationFailed)
  {
    hide Check, HasErrors, Canonicalize, IsBlank, TargetIsBlank, Sound;
    var draft := QosPair(first, second);
    TargetIs(parse, draft.extensions);
    TargetIs(parse, Canonicalize(draft).extensions);
    QosPairIsSound(first, second, mode);
    ParsesPrefixed(parse, first);
    ParsesPrefixed(parse, second);
    CheckIsExact(parse, draft, mode);
    QosPairSorts(first, second);
    LockRoundTripsIff(parse, digest, draft, mode);
  }

  lemma ParsesPrefixed(parse: QosParser, payload: string)
    ensures ParseQosExtension(parse, FLOW_QOS_PREFIX + payload) == parse(payload)
  {
    assert (FLOW_QOS_PREFIX + payload)[|FLOW_QOS_PREFIX|..] == payload;
  }

  lemma QosPairIsSound(first: string, second: string, mode: Mode)
    ensures Sound(QosPair(first, second), mode)
  {
    hide PackagePathIsValid, StaysInside, IsThreeDeep, MayExtend, IsBlank;
    var draft := QosPair(first, second);
    var readme := draft.resources[0];
    assert readme in draft.resources && readme.kind == Readme && readme.id == "README.md";
    ReadmePathIsValid();
    PackagePathIsExact("README.md");
    MayExtendIs(FLOW_QOS_PREFIX + first);
    MayExtendIs(FLOW_QOS_PREFIX + second);
    NotBlank(readme.source, 0);
  }

  lemma QosPairSorts(first: string, second: string)
    requires CompareStrings(first, second) == Greater
    ensures Canonicalize(QosPair(first, second)).extensions == [FLOW_QOS_PREFIX + second, FLOW_QOS_PREFIX + first]
  {
    hide CompareStrings, SortBy, Dedup;
    ComparePrefixed(FLOW_QOS_PREFIX, first, second);
    StringsLawful();
    SortPair(CompareStrings, FLOW_QOS_PREFIX + first, FLOW_QOS_PREFIX + second);
  }

  lemma SortPair<T(!new)>(cmp: Comparison<T>, a: T, b: T)
    requires Exact(cmp) && cmp(a, b) == Greater
    ensures SortDedup(cmp, [a, b]) == [b, a]
  {
    assert [a, b][1..] == [b] && [b][1..] == [] && [b, a][1..] == [a];
    var none: seq<T> := [];
    assert Insert(cmp, b, none) == [b] && Insert(cmp, a, none) == [a];
    assert SortBy(cmp, [b]) == [b];
    assert Insert(cmp, a, [b]) == [b] + Insert(cmp, a, [b][1..]);
    assert SortBy(cmp, [a, b]) == [b, a];
    assert a != b;
    assert Dedup([b, a]) == [b] + Dedup([b, a][1..]);
  }

  lemma CompareTails(x: string, y: string)
    requires x != [] && y != [] && x[0] == y[0]
    ensures CompareStrings(x, y) == CompareStrings(x[1..], y[1..])
  {
  }

  lemma {:induction false} ComparePrefixed(head: string, x: string, y: string)
    ensures CompareStrings(head + x, head + y) == CompareStrings(x, y)
  {
    hide CompareStrings;
    if head == [] {
      assert head + x == x && head + y == y;
    } else {
      ComparePrefixed(head[1..], x, y);
      CompareTails(head + x, head + y);
      assert (head + x)[1..] == head[1..] + x;
      assert (head + y)[1..] == head[1..] + y;
    }
  }
}
