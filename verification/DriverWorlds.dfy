/** What the driver's methods meet and what they account for: what tmux, the runtime and the machine-input ledger
    answer, which appends succeed, and which inputs are known to have been submitted. */
module DriverWorlds {
  import opened Base
  import opened Delivery
  import opened DriverLog
  import opened DriverSteps
  import opened DriverInvariants
  import opened DriverPreservation
  import opened DriverRuns
  import opened DriverTheorems
  import opened DriverCleanups
  import opened DriverGates
  import FlowData

  datatype Failure =
    | PersistenceFailed
    | PaneNotOwned
    | BarrierConflict
    | MalformedRequest
    | TmuxError
    | ActivationNotFound
    | ActivationNotRunning
    | MessageIdConflict

  /** The started sequences of the inputs handed to tmux are logged, each once and in log order. */
  ghost predicate SendsLogged(log: seq<Record>, sends: seq<nat>) {
    && (forall i :: 0 <= i < |sends| ==> 1 <= sends[i] && StartedAt(log, sends[i] - 1))
    && (forall i, j :: 0 <= i < j < |sends| ==> sends[i] < sends[j])
  }

  predicate IsSubmission(event: Event) {
    event.LaunchSubmitted? || event.PromptSubmitted? || event.MessageSubmitted?
  }

  predicate SubmitsKnown(event: Event, known: set<nat>) {
    IsSubmission(event) ==> event.startedSeq.Some? && event.startedSeq.value in known
  }

  /** Every submission in the log names the start of an input that is known to have been submitted. */
  ghost predicate SubmissionsKnown(log: seq<Record>, known: set<nat>) {
    forall i :: 0 <= i < |log| ==> SubmitsKnown(log[i].event, known)
  }

  lemma LaterLogsKeepSends(log: seq<Record>, later: seq<Record>, sends: seq<nat>)
    requires SendsLogged(log, sends) && log <= later
    ensures SendsLogged(later, sends)
  {
    assert forall i :: StartedAt(log, i) ==> StartedAt(later, i);
    assert forall i :: 0 <= i < |sends| ==> StartedAt(later, sends[i] - 1);
  }

  lemma OneMoreSend(log: seq<Record>, later: seq<Record>, sends: seq<nat>)
    requires SendsLogged(log, sends) && log <= later && |later| == |log| + 1 && later[|log|].event.DeliveryStarted?
    ensures SendsLogged(later, sends + [|later|])
  {
    assert forall i :: 0 <= i < |sends| ==> StartedAt(log, sends[i] - 1) && StartedAt(later, sends[i] - 1);
    assert StartedAt(later, |later| - 1);
  }

  lemma OneMoreKnown(log: seq<Record>, later: seq<Record>, known: set<nat>, more: set<nat>)
    requires SubmissionsKnown(log, known) && known <= more
    requires log == later || (log <= later && |later| == |log| + 1 && SubmitsKnown(later[|log|].event, more))
    ensures SubmissionsKnown(later, more)
  {
    forall i | 0 <= i < |later| ensures SubmitsKnown(later[i].event, more) {
      if i < |log| { assert later[i] == log[i] && SubmitsKnown(log[i].event, known); }
    }
  }

  /** What became of the inputs: those handed to tmux, those of them that tmux took, those that the
      machine-input ledger was found to record as submitted, and those that an operator said were. */
  datatype History = History(sends: seq<nat>, took: set<nat>, recorded: set<nat>, resolved: set<nat>) {
    function Known(): set<nat> {
      took + recorded + resolved
    }

    function Sent(startedSeq: nat, taken: bool): History {
      this.(sends := sends + [startedSeq], took := took + (if taken then {startedSeq} else {}))
    }
  }

  ghost predicate Accounts(log: seq<Record>, h: History) {
    SendsLogged(log, h.sends) && SubmissionsKnown(log, h.Known()) && h.took <= ElementsOf(h.sends)
  }

  lemma AccountsForSend(log: seq<Record>, later: seq<Record>, h: History, taken: bool)
    requires Accounts(log, h) && log <= later && |later| == |log| + 1 && later[|log|].event.DeliveryStarted?
    ensures Accounts(later, h.Sent(|later|, taken))
  {
    hide SendsLogged, SubmissionsKnown;
    OneMoreSend(log, later, h.sends);
    OneMoreKnown(log, later, h.Known(), h.Sent(|later|, taken).Known());
    assert |later| in ElementsOf(h.sends + [|later|]);
  }

  /** The log gains an event that is no submission, or the submission of an input known to be submitted. */
  lemma AccountsForMore(log: seq<Record>, later: seq<Record>, h: History, more: History)
    requires Accounts(log, h) && more.sends == h.sends && more.took == h.took && h.Known() <= more.Known()
    requires log == later || (log <= later && |later| == |log| + 1 && SubmitsKnown(later[|log|].event, more.Known()))
    ensures Accounts(later, more)
  {
    hide SendsLogged, SubmissionsKnown;
    LaterLogsKeepSends(log, later, h.sends);
    OneMoreKnown(log, later, h.Known(), more.Known());
  }

  /** Two inputs of the same kind were handed to tmux only with the first one withdrawn in between. */
  lemma {:induction false} SendsAtMostOnce(l: Live, sends: seq<nat>, i: nat, j: nat, first: nat, second: nat)
    requires Inv(l) && SendsLogged(l.log, sends)
    requires i < j < |sends| && sends[i] == first + 1 && sends[j] == second + 1
    requires StartedAt(l.log, first) && StartedAt(l.log, second)
    requires SameInput(DeliveryAt(l.log, first), DeliveryAt(l.log, second))
    ensures exists k :: first < k < second && Withdraws(l.log, k, first)
  {
    assert sends[i] < sends[j];
    assert AtMostOnce(l.log);
  }

  /** Which parts of a pane's cleanup succeed; `assetsOk` is everything before the release. */
  datatype CleanupWorld = CleanupWorld(intentOk: bool, assetsOk: bool, releaseOk: bool, receiptOk: bool)

  /** What tmux says of a pane that the driver owns. */
  datatype Presence = Present | Absent | ProbeFailed

  /** The pane that tmux finds or creates for an allocation, and its window. */
  datatype Located = Located(paneId: string, sessionId: string, windowId: string, windowName: string)

  function StoredPane(located: Located, generation: nat): Pane {
    Pane(located.paneId, located.sessionId, located.windowId, located.windowName, generation)
  }

  /** The binding to the window of a located pane, with the commands of the intent. */
  function BindingOf(located: Located, intended: Binding): Binding {
    Binding(located.sessionId, located.windowName, located.windowId, intended.agentCommand, intended.actuation)
  }

  /** What tmux says of one activation's pane, finds or creates for it, and which of the appends succeed. */
  datatype PaneWorld = PaneWorld(
    presence: Presence,
    cleanup: CleanupWorld,
    located: Option<Located>,
    intentOk: bool,
    bindOk: bool,
    publishOk: bool)

  /** What the runtime, the machine-input ledger and tmux answer while one activation is actuated,
      and which of the appends succeed. `None` for a driver: not running, or no action. Preparing
      capture and participant logs `preparations` events of other kinds before anything is sent. */
  datatype ActivationWorld = ActivationWorld(
    driver: Option<FlowData.NodeDriver>,
    preparations: nat,
    prepared: bool,
    launchHash: string,
    launchRecorded: bool,
    launchSent: bool,
    launchPublished: bool,
    ready: bool,
    promptHash: string,
    promptRecorded: bool,
    promptSent: bool,
    promptPublished: bool,
    launchStartOk: bool,
    launchFinishOk: bool,
    promptStartOk: bool,
    promptFinishOk: bool)

  /** Everything the world can answer yes to, it does. */
  predicate Willing(w: ActivationWorld) {
    && w.prepared && w.launchSent && w.launchPublished && w.ready && w.promptSent && w.promptPublished
    && w.launchStartOk && w.launchFinishOk && w.promptStartOk && w.promptFinishOk
  }

  /** An owned pane into which nothing was started yet, and room in the log for what is to come. */
  predicate Clear(l: Live, id: string, preparations: nat) {
    && id in l.maps.Panes()
    && |l.log| + preparations + 4 <= U64_MAX
    && var generation := l.maps.Panes()[id].generation;
    && (id, generation) !in l.maps.settled
    && (id, generation) !in l.maps.launched
    && DeliveryKey(id, AgentLaunch, None, generation) !in l.maps.ambiguous
    && DeliveryKey(id, NodePrompt, None, generation) !in l.maps.ambiguous
  }

  /** The launch of the allocation is submitted now: it was before, the ledger records it for the same pane, or
      it is started, taken and published. */
  predicate LaunchGoesOn(l: Live, id: string, pane: Pane, w: ActivationWorld) {
    var key := DeliveryKey(id, AgentLaunch, None, pane.generation);
    if (id, pane.generation) in l.maps.launched then true
    else if key in l.maps.ambiguous then
      w.launchRecorded && l.maps.ambiguous[key].delivery.paneId == pane.paneId && Appends(l, w.launchFinishOk)
    else
      && Appends(l, w.launchStartOk) && w.launchSent && w.launchPublished
      && w.launchFinishOk && |l.log| + 2 <= U64_MAX
  }

  /** The same for the prompt; a new one needs an agent that is ready. */
  predicate PromptGoesOut(l: Live, id: string, pane: Pane, w: ActivationWorld) {
    var key := DeliveryKey(id, NodePrompt, None, pane.generation);
    if key in l.maps.ambiguous then
      w.promptRecorded && l.maps.ambiguous[key].delivery.paneId == pane.paneId && Appends(l, w.promptFinishOk)
    else
      && w.ready && Appends(l, w.promptStartOk) && w.promptSent && w.promptPublished
      && w.promptFinishOk && |l.log| + 2 <= U64_MAX
  }

  /** What a round that reports a prompt as sent has seen: tmux took each of the two inputs and it was published,
      or the ledger records it for the same pane; a launch may have been submitted before. */
  predicate RoundSucceeds(l: Live, id: string, pane: Pane, w: ActivationWorld) {
    var launch := DeliveryKey(id, AgentLaunch, None, pane.generation);
    var prompt := DeliveryKey(id, NodePrompt, None, pane.generation);
    && w.prepared
    && ((id, pane.generation) in l.maps.launched
        || (if launch in l.maps.ambiguous
            then w.launchRecorded && l.maps.ambiguous[launch].delivery.paneId == pane.paneId
            else w.launchSent && w.launchPublished))
    && (if prompt in l.maps.ambiguous
        then w.promptRecorded && l.maps.ambiguous[prompt].delivery.paneId == pane.paneId
        else w.ready && w.promptSent && w.promptPublished)
  }

  /** The gates of a round: a running activation with an action that is for an agent or a human, and an owned
      pane that is not settled. */
  predicate MayActuate(l: Live, id: string, w: ActivationWorld) {
    && w.driver.Some? && w.driver.value != FlowData.Script
    && id in l.maps.Panes() && (id, l.maps.Panes()[id].generation) !in l.maps.settled
  }

  lemma ClearOwns(l: Live, id: string, preparations: nat)
    ensures Clear(l, id, preparations) ==>
              id in l.maps.Panes() && (id, l.maps.Panes()[id].generation) !in l.maps.settled
  {
  }

  /** The launch of a round, then its prompt: `l1` is the driver after the preparations, `l2` after the launch. */
  lemma RoundIs(l: Live, l1: Live, l2: Live, id: string, pane: Pane, w: ActivationWorld)
    requires l1.maps == l.maps && |l1.log| == |l.log| + w.preparations && w.prepared && LaunchGoesOn(l1, id, pane, w)
    requires var key := DeliveryKey(id, AgentLaunch, None, pane.generation);
             && Without(l2.maps.ambiguous, {key}) == Without(l.maps.ambiguous, {key})
             && ((id, pane.generation) !in l.maps.launched && key !in l.maps.ambiguous ==> |l2.log| == |l1.log| + 2)
    ensures PromptGoesOut(l2, id, pane, w) ==> RoundSucceeds(l, id, pane, w)
    ensures Willing(w) && Clear(l, id, w.preparations) && l.maps.Panes()[id] == pane ==>
              && PromptGoesOut(l2, id, pane, w) && Appends(l2, w.promptStartOk) && w.ready && w.promptSent
              && DeliveryKey(id, NodePrompt, None, pane.generation) !in l2.maps.ambiguous
              && |l2.log| == |l1.log| + 2
  {
    hide DeliveryKey;
    var launch, prompt := DeliveryKey(id, AgentLaunch, None, pane.generation),
                          DeliveryKey(id, NodePrompt, None, pane.generation);
    LaunchIsNotPrompt(id, pane.generation);
    assert prompt in l2.maps.ambiguous <==> prompt in Without(l2.maps.ambiguous, {launch});
    assert prompt in l.maps.ambiguous <==> prompt in Without(l.maps.ambiguous, {launch});
  }

  lemma ClearRoundLaunches(l: Live, l1: Live, id: string, pane: Pane, w: ActivationWorld)
    requires l1.maps == l.maps && |l1.log| == |l.log| + w.preparations
    ensures Willing(w) && Clear(l, id, w.preparations) && l.maps.Panes()[id] == pane ==>
              && LaunchGoesOn(l1, id, pane, w) && Appends(l1, w.launchStartOk)
              && (id, pane.generation) !in l.maps.launched
              && DeliveryKey(id, AgentLaunch, None, pane.generation) !in l.maps.ambiguous
              && DeliveryKey(id, NodePrompt, None, pane.generation) !in l.maps.ambiguous
  {
    hide DeliveryKey;
  }

  lemma WillingPrepares(l: Live, id: string, w: ActivationWorld)
    ensures Willing(w) && Clear(l, id, w.preparations) ==> w.prepared && |l.log| + w.preparations + 4 <= U64_MAX
  {
    hide DeliveryKey;
  }

  lemma PayloadSequence(payload: Payload, sequence: nat)
    requires payload.startedSeq == None
    ensures FromPayload(payload, sequence).delivery.startedSeq == sequence
  {
  }

  datatype Outcome = Skipped | Warned | Sent

  datatype MessageReply = AmbiguousReply(delivery: Submitted) | Receipted(delivery: Submitted)

  /** The steps that actuating one activation may take. */
  predicate Actuates(step: Step, id: string) {
    match step
    case Do(op, _) =>
      || (op.StartLaunch? && op.activationId == id)
      || (op.StartPrompt? && op.activationId == id)
      || (op.Finish? && op.activationId == id && op.messageId.None?)
      || op.LogOther?
    case SettleHuman(human) => human == id
    case Restart => false
  }

  /** Whatever is filed under the message id has this target and this payload. */
  predicate FiledAs(s: DriverMaps, message: string, id: string, hash: string) {
    && (forall k <- s.ambiguous :: s.ambiguous[k].delivery.messageId == Some(message) ==>
          s.ambiguous[k].delivery.activationId == id && s.ambiguous[k].delivery.payloadHash == hash)
    && (forall k <- s.submitted :: s.submitted[k].messageId == Some(message) ==>
          s.submitted[k].activationId == id && s.submitted[k].payloadHash == hash)
  }

  lemma AnswersFiled(s: DriverMaps, key: Key, d: Submitted, message: string, id: string, hash: string)
    requires Filed(s, key, d) && d.messageId == Some(message)
    ensures CarriesMessage(s, message)
    ensures FiledAs(s, message, id, hash) ==> d.activationId == id && d.payloadHash == hash
    ensures MessagesUnique(s) && d.activationId == id && d.payloadHash == hash ==> FiledAs(s, message, id, hash)
  {
    if MessagesUnique(s) {
      assert forall k <- s.ambiguous :: Filed(s, k, s.ambiguous[k].delivery);
      assert forall k <- s.submitted :: Filed(s, k, s.submitted[k]);
    }
  }

  predicate Messages(step: Step, id: string, message: string) {
    && step.Do?
    && ((step.op.StartMessage? && step.op.activationId == id && step.op.message == message)
        || (step.op.Finish? && step.op.activationId == id && step.op.messageId == Some(message)))
  }

  /** The activations whose panes tmux does not have any more. */
  function StaleIds(ids: seq<string>, worlds: seq<PaneWorld>): set<string>
    requires |worlds| == |ids|
  {
    set i | 0 <= i < |ids| && worlds[i].presence.Absent? :: ids[i]
  }

  /** The panes there were are there still, unless they are stale. */
  ghost predicate Keeps(before: map<string, Pane>, after: map<string, Pane>, stale: set<string>) {
    forall id <- before :: (id in after && after[id] == before[id]) || id in stale
  }

  /** The generation that the next pane of the activation gets. */
  function PlannedGeneration(s: DriverMaps, id: string): nat {
    if id in s.pendingAllocations then s.pendingAllocations[id].generation else s.NextGeneration(id)
  }

  /** The activation at `i` got the pane that tmux located for it. */
  ghost predicate GotLocated(ids: seq<string>, worlds: seq<PaneWorld>, i: nat, pane: Pane, generation: nat)
    requires i < |ids| == |worlds|
  {
    exists j :: 0 <= j <= i && ids[j] == ids[i] && worlds[j].located.Some?
                && pane == StoredPane(worlds[j].located.value, generation)
  }

  /** A pane of the activations that are listed is one that was owned, or the one located for it. */
  ghost predicate Provides(s: DriverMaps, owned: map<string, Pane>, ids: seq<string>, worlds: seq<PaneWorld>,
                           panes: seq<Pane>)
    requires |panes| <= |ids| == |worlds|
  {
    forall i :: 0 <= i < |panes| ==>
      if ids[i] in owned then panes[i] == owned[ids[i]]
      else GotLocated(ids, worlds, i, panes[i], PlannedGeneration(s, ids[i]))
  }

  function IntendedBinding(s: DriverMaps, id: string, config: Binding): Binding {
    if id in s.pendingAllocations then s.pendingAllocations[id].binding else config
  }

  /** A requested window that is not the bound one. */
  predicate Replaces(s: DriverMaps, requested: Binding) {
    requested.windowId != "" && BindingDiffers(s, requested)
  }

  lemma CanPublish(s: DriverMaps, id: string, pane: Pane)
    requires s.tmux.Some? && id !in s.Panes() && id in s.pendingAllocations
    ensures Enabled(s, PublishPane(id, pane))
  {
  }

  /** How far the loop over the activations has come: it began in `s`, is in `now`, and served a pane each. */
  ghost predicate Served(s: DriverMaps, now: DriverMaps, ids: seq<string>, worlds: seq<PaneWorld>, panes: seq<Pane>)
    requires |panes| <= |ids| == |worlds|
  {
    && (forall j :: 0 <= j < |panes| ==> ids[j] in now.Panes() && now.Panes()[ids[j]] == panes[j])
    && Provides(s, s.Panes(), ids, worlds, panes)
    && (forall id <- s.Panes() :: id in now.Panes() && now.Panes()[id] == s.Panes()[id])
    && (forall id <- now.Panes() :: id in s.Panes() || exists j :: 0 <= j < |panes| && ids[j] == id)
    && (forall id :: id !in now.Panes() ==> PlannedGeneration(now, id) == PlannedGeneration(s, id))
  }

  lemma NoneServed(s: DriverMaps, ids: seq<string>, worlds: seq<PaneWorld>)
    requires |ids| == |worlds|
    ensures Served(s, s, ids, worlds, [])
  {
  }

  lemma OneMoreServed(s: DriverMaps, now: DriverMaps, next: DriverMaps, ids: seq<string>, worlds: seq<PaneWorld>,
                      panes: seq<Pane>, pane: Pane)
    requires |panes| < |ids| == |worlds| && Served(s, now, ids, worlds, panes)
    requires var id := ids[|panes|];
             && next.Panes() == now.Panes()[id := pane]
             && (if id in now.Panes() then pane == now.Panes()[id]
                 else worlds[|panes|].located.Some?
                      && pane == StoredPane(worlds[|panes|].located.value, PlannedGeneration(now, id)))
             && forall other :: other != id ==> PlannedGeneration(next, other) == PlannedGeneration(now, other)
    ensures Served(s, next, ids, worlds, panes + [pane])
  {
    hide PlannedGeneration, StoredPane, Provides;
    var n, id, more := |panes|, ids[|panes|], panes + [pane];
    if id in now.Panes() && id !in s.Panes() {
      var j :| 0 <= j < n && ids[j] == id;
      OneMoreProvided(s, s.Panes(), ids, worlds, panes, pane, j);
    } else {
      OneMoreProvided(s, s.Panes(), ids, worlds, panes, pane, n);
    }
    forall other | other in next.Panes() && other !in s.Panes()
      ensures exists j :: 0 <= j < |more| && ids[j] == other
    {
      assert ids[n] == id;
      if other != id { assert other in now.Panes(); }
    }
  }

  lemma OneMoreProvided(s: DriverMaps, owned: map<string, Pane>, ids: seq<string>, worlds: seq<PaneWorld>,
                        panes: seq<Pane>, pane: Pane, j: nat)
    requires j <= |panes| < |ids| == |worlds| && ids[j] == ids[|panes|] && Provides(s, owned, ids, worlds, panes)
    requires if ids[j] in owned then pane == owned[ids[j]]
             else if j < |panes| then pane == panes[j]
             else worlds[j].located.Some? && pane == StoredPane(worlds[j].located.value, PlannedGeneration(s, ids[j]))
    ensures Provides(s, owned, ids, worlds, panes + [pane])
  {
    hide PlannedGeneration, StoredPane;
    var more, n := panes + [pane], |panes|;
    forall i | 0 <= i < |more|
      ensures if ids[i] in owned then more[i] == owned[ids[i]]
              else GotLocated(ids, worlds, i, more[i], PlannedGeneration(s, ids[i]))
    {
      if i == n && ids[i] !in owned && j < n {
        assert GotLocated(ids, worlds, j, panes[j], PlannedGeneration(s, ids[j]));
      }
    }
  }

  lemma ServedKeeps(s: DriverMaps, now: DriverMaps, ids: seq<string>, worlds: seq<PaneWorld>, panes: seq<Pane>)
    requires |panes| <= |ids| == |worlds| && Served(s, now, ids, worlds, panes)
    ensures Provides(s, s.Panes(), ids, worlds, panes)
    ensures forall j :: 0 <= j < |panes| ==> Owns(now, ids[j], panes[j])
    ensures forall id <- s.Panes() :: Owns(now, id, s.Panes()[id])
  {
    hide Provides, PlannedGeneration;
  }

  predicate Owns(s: DriverMaps, id: string, pane: Pane) {
    id in s.Panes() && s.Panes()[id] == pane
  }

  /** The same for the maps with another binding, and no panes if it was replaced. */
  lemma BoundProvides(s: DriverMaps, requested: Binding, panes: seq<Pane>, ids: seq<string>, worlds: seq<PaneWorld>)
    requires |panes| <= |ids| == |worlds|
    ensures forall tmux ::
              var s' := s.(tmux := tmux);
              var left := Without(s'.Panes(), StaleIds(ids, worlds));
              Provides(s', left, ids, worlds, panes) ==>
                && Provides(s, left, ids, worlds, panes)
                && (s'.Panes() == map[] ==> Provides(s, map[], ids, worlds, panes))
  {
    hide StaleIds, Provides;
    forall tmux: Option<Tmux>, owned: map<string, Pane>
      ensures Provides(s.(tmux := tmux), owned, ids, worlds, panes) ==> Provides(s, owned, ids, worlds, panes)
    {
      SamePlans(s, s.(tmux := tmux), owned, ids, worlds, panes);
    }
    assert forall stale :: Without<string, Pane>(map[], stale) == map[];
  }

  lemma KeepsAll(panes: map<string, Pane>, stale: set<string>)
    ensures Keeps(panes, panes, stale)
  {
  }

  lemma KeepsMore(before: map<string, Pane>, middle: map<string, Pane>, after: DriverMaps, stale: set<string>)
    requires Keeps(before, middle, stale) && forall id <- middle :: Owns(after, id, middle[id])
    ensures Keeps(before, after.Panes(), stale)
  {
  }

  lemma SamePlans(s: DriverMaps, s': DriverMaps, owned: map<string, Pane>, ids: seq<string>, worlds: seq<PaneWorld>,
                  panes: seq<Pane>)
    requires s'.generations == s.generations && s'.pendingAllocations == s.pendingAllocations
    requires |panes| <= |ids| == |worlds|
    ensures Provides(s', owned, ids, worlds, panes) ==> Provides(s, owned, ids, worlds, panes)
  {
    assert forall id :: PlannedGeneration(s', id) == PlannedGeneration(s, id);
  }

  lemma OthersStayPlanned(s: DriverMaps, s': DriverMaps, id: string)
    requires Without(s'.pendingAllocations, {id}) == Without(s.pendingAllocations, {id})
    requires Without(s'.generations, {id}) == Without(s.generations, {id})
    ensures forall other :: other != id ==> PlannedGeneration(s', other) == PlannedGeneration(s, other)
  {
    forall other | other != id ensures PlannedGeneration(s', other) == PlannedGeneration(s, other) {
      var a, b := Without(s'.pendingAllocations, {id}), Without(s'.generations, {id});
      assert other in s'.pendingAllocations <==> other in a;
      assert other in s.pendingAllocations <==> other in a;
      assert other in s'.generations <==> other in b;
      assert other in s.generations <==> other in b;
    }
  }

  /** The activations at some positions of the list. */
  function IdsAt(ids: seq<string>, positions: seq<nat>): set<string> {
    set i | i in positions && i < |ids| :: ids[i]
  }

  lemma OneMoreId(ids: seq<string>, positions: seq<nat>, k: nat)
    requires k < |positions| && positions[k] < |ids|
    ensures IdsAt(ids, positions[..k + 1]) == IdsAt(ids, positions[..k]) + {ids[positions[k]]}
  {
    assert positions[..k + 1] == positions[..k] + [positions[k]];
  }

  lemma SomeAreStale(ids: seq<string>, worlds: seq<PaneWorld>, positions: seq<nat>, k: nat)
    requires |worlds| == |ids| && k <= |positions|
    requires forall i <- positions :: i < |ids| && worlds[i].presence.Absent?
    ensures IdsAt(ids, positions[..k]) <= StaleIds(ids, worlds)
  {
  }

  /** Without the stale panes that the probes found, none is left. */
  lemma NoneIsStale(panes: map<string, Pane>, ids: seq<string>, worlds: seq<PaneWorld>, positions: seq<nat>)
    requires |worlds| == |ids|
    requires forall i :: i in positions <==> 0 <= i < |ids| && ids[i] in panes && worlds[i].presence.Absent?
    ensures Without(panes, IdsAt(ids, positions)) == Without(panes, StaleIds(ids, worlds))
  {
    forall id <- panes ensures id in IdsAt(ids, positions) <==> id in StaleIds(ids, worlds) {
      if id in StaleIds(ids, worlds) {
        var i :| 0 <= i < |ids| && worlds[i].presence.Absent? && ids[i] == id;
        assert i in positions;
      }
    }
  }

  /** A replaced pane has the generation after the one of the pane that was owned. */
  lemma PlannedIsNext(l: Live, id: string)
    requires Inv(l) && id in l.maps.Panes()
    ensures PlannedGeneration(l.maps, id) == l.maps.Panes()[id].generation + 1
  {
    assert AllocationCount(l.log, id) == l.maps.generations[id] + 1;
  }

  /** No submission comes from the step. */
  predicate Quiet(step: Step) {
    step.Do? ==> !step.op.Finish?
  }

  lemma QuietStepsAccount(l: Live, step: Step, h: History)
    requires l.eventCount == |l.log| <= U64_MAX && Accounts(l.log, h) && Quiet(step)
    ensures Accounts(Exec(l, step).log, h) && Exec(l, step).eventCount == |Exec(l, step).log| <= U64_MAX
  {
    hide Accounts, Effect, Replay;
    if step.Do? && Enabled(l.maps, step.op) && Appends(l, step.appendOk) {
      QuietEvents(l.maps, step.op);
    }
    AccountsForMore(l.log, Exec(l, step).log, h, h);
  }

  lemma QuietEvents(s: DriverMaps, op: Op)
    requires Enabled(s, op) && !op.Finish?
    ensures !IsSubmission(EventOf(s, op))
  {
    hide RoleKey;
  }

  lemma {:induction false} QuietRunsAccount(l: Live, steps: seq<Step>, h: History)
    requires l.eventCount == |l.log| <= U64_MAX && Accounts(l.log, h) && forall s <- steps :: Quiet(s)
    ensures Accounts(Run(l, steps).log, h) && Run(l, steps).eventCount == |Run(l, steps).log| <= U64_MAX
  {
    hide Accounts, Exec, Quiet;
    if steps != [] {
      QuietRunsAccount(l, steps[..|steps| - 1], h);
      QuietStepsAccount(Run(l, steps[..|steps| - 1]), steps[|steps| - 1], h);
    }
  }

  lemma StartsInput(s: DriverMaps, op: Op, id: string, role: Role, hash: string)
    requires op == (if role == AgentLaunch then StartLaunch(id, hash) else StartPrompt(id, hash)) && Enabled(s, op)
    requires role in {AgentLaunch, NodePrompt}
    ensures id in s.Panes() && IsStart(op) && op.activationId == id
    ensures StartedPayload(s, op) == StartPayload(s, id, role, None, hash)
    ensures StartedPayload(s, op).startedSeq == None
  {
  }

  lemma InputActuates(op: Op, id: string, role: Role, hash: string, generation: nat)
    requires op == (if role == AgentLaunch then StartLaunch(id, hash) else StartPrompt(id, hash))
    ensures forall ok :: Actuates(Do(op, ok), id) && Actuates(Do(Finish(id, role, None, generation), ok), id)
  {
  }

  /** The driver after a release whose event is durable. */
  function Released(l: Live, ids: seq<string>): Live {
    Live(l.log + [Record(|l.log| + 1, PanesReleased(ids, ReleasedBarriers(l.maps, ids)))],
         |l.log| + 1, ReleaseEffect(l.maps, ids, |l.log| + 1), Forgotten(l.human, ids), l.carried - ElementsOf(ids))
  }

  lemma ReleaseIs(l: Live, ids: seq<string>, appendOk: bool)
    requires l.eventCount == |l.log| <= U64_MAX && Enabled(l.maps, Release(ids))
    ensures Exec(l, Do(Release(ids), appendOk)) == if Appends(l, appendOk) then Released(l, ids) else l
  {
    hide Exec;
    CommitRelease(l, ids, appendOk);
  }

  /** The barriers are those of the submitted inputs of the panes named, each with its delivery and the reason,
      none missing and no other. */
  ghost predicate NamesReleased(s: DriverMaps, ids: seq<string>, barriers: seq<Payload>, sequence: nat) {
    && (forall b <- barriers :: BarrierOf(s, FromPayload(b, sequence)))
    && (forall key :: IsReleasedInput(s, ids, key)
          <==> exists b <- barriers :: KeyOf(FromPayload(b, sequence).delivery) == key)
  }

  lemma ReleasedNames(s: DriverMaps, ids: seq<string>, sequence: nat)
    requires Keyed(s)
    ensures NamesReleased(s, ids, ReleasedBarriers(s, ids), sequence)
  {
    hide IsReleasedInput, KeyOf, FromPayload, ReleasedBarriers;
    BarriersAreSubmissions(s, ids, sequence);
    ReleasedKeys(s, ids, sequence);
    KeySetIs(ReleasedBarriers(s, ids), sequence);
  }

  lemma {:induction false} KeySetIs(barriers: seq<Payload>, sequence: nat)
    ensures forall key :: key in BarrierKeySet(barriers, sequence)
                          <==> exists b <- barriers :: KeyOf(FromPayload(b, sequence).delivery) == key
  {
    hide KeyOf, FromPayload;
    if barriers != [] {
      var front, last := barriers[..|barriers| - 1], barriers[|barriers| - 1];
      KeySetIs(front, sequence);
      assert forall b :: b in barriers <==> b in front || b == last;
    }
  }

  lemma ReleasedReopens(l: Live, ids: seq<string>)
    requires Keyed(l.maps)
    ensures Reopens(l.maps, Released(l, ids).maps, ids)
  {
    ReleaseReopens(l.maps, ids, |l.log| + 1);
  }

  /** The panes, and the launches and settlements filed for their allocations, are gone; nothing else is. */
  lemma ReleasedForgets(l: Live, ids: seq<string>)
    ensures var s' := Released(l, ids).maps;
            && s'.Panes() == Without(l.maps.Panes(), ElementsOf(ids))
            && (l.maps.tmux.Some? ==>
                  && (forall a :: a in s'.launched <==> a in l.maps.launched && a.0 !in ids)
                  && (forall a :: a in s'.settled <==> a in l.maps.settled && a.0 !in ids))
  {
    ReleaseOnlyForgets(l.maps, ids, |l.log| + 1);
    InstallKeepsRest(l.maps, ReleasedBarriers(l.maps, ids), |l.log| + 1);
  }

  lemma WithoutKey<K, V>(m: map<K, V>, key: K, value: V)
    ensures Without(m[key := value], {key}) == Without(m, {key})
    ensures Without(Without(m, {key}), {key}) == Without(m, {key}) && key !in Without(m, {key})
  {
  }

  lemma NotWithout<K, V>(m: map<K, V>, key: K)
    ensures key !in Without(m, {key})
  {
  }

  lemma NoElements()
    ensures ElementsOf<string>([]) == {}
  {
  }

  lemma OneMoreElement(ids: seq<string>, i: nat)
    requires i < |ids|
    ensures ElementsOf(ids[..i + 1]) == ElementsOf(ids[..i]) + {ids[i]}
  {
    assert ids[..i + 1] == ids[..i] + [ids[i]];
  }

  lemma NothingReleased(s: DriverMaps)
    ensures Reopens(s, s, []) && Without(s.Panes(), ElementsOf<string>([])) == s.Panes()
  {
  }

  lemma ReleaseNamesOwned(s: DriverMaps, ids: seq<string>)
    ensures Enabled(s, Release(ids)) <==> ids != [] && forall id <- ids :: id in s.Panes()
  {
  }

  lemma OneReleased(s: DriverMaps, id: string, sequence: nat)
    requires id in s.Panes()
    ensures Enabled(s, Release([id]))
    ensures ReleaseEffect(s, [id], sequence).pendingCleanups == s.pendingCleanups
    ensures ReleaseEffect(s, [id], sequence).Panes() == Without(s.Panes(), {id})
  {
    ReleaseOnlyForgets(s, [id], sequence);
    assert ElementsOf([id]) == {id};
  }
}
