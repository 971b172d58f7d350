/** The running driver: what each operation logs and what it then changes in memory
    (src/driver/delivery.rs, actuation.rs, tmux_ownership.rs, run_lifecycle.rs). Every operation
    appends at most one durable event and changes memory only after a successful append, so a
    crash anywhere in a longer operation is a `Restart` between two of these steps. */
module DriverSteps {
  import opened Base
  import opened Delivery
  import opened DriverLog

  datatype Op =
    | Bind(binding: Binding)
    | KeepBinding(binding: Binding)
    | IntendAllocation(activationId: string, binding: Binding, existingWindowId: Option<string>)
    | PublishPane(activationId: string, pane: Pane)
    | IntendCleanup(activationId: string, reason: string)
    | Release(activationIds: seq<string>)
    | Receipt(activationId: string)
    | StartLaunch(activationId: string, payloadHash: string)
    | StartPrompt(activationId: string, payloadHash: string)
    | StartMessage(activationId: string, message: string, payloadHash: string)
    | Finish(activationId: string, role: Role, messageId: Option<string>, generation: nat)
    | Discard(key: Key)
    | LogOther

  /** `human` and `carried` are history: the settled human nodes that no event records, and the
      panes kept over a logged re-binding. */
  datatype Live = Live(
    log: seq<Record>,
    eventCount: nat,
    maps: DriverMaps,
    human: set<Allocation>,
    carried: set<string>)

  const FRESH_START := Live([], 0, EMPTY_MAPS, {}, {})

  function BarrierKeys(ambiguous: map<Key, Ambiguous>, startedSeq: nat): set<Key> {
    set k | k in ambiguous && ambiguous[k].delivery.startedSeq == startedSeq
  }

  predicate CarriesMessage(s: DriverMaps, message: string) {
    || (exists k <- s.ambiguous :: s.ambiguous[k].delivery.messageId == Some(message))
    || (exists k <- s.submitted :: s.submitted[k].messageId == Some(message))
  }

  function StartPayload(s: DriverMaps, id: string, role: Role, messageId: Option<string>, hash: string): Payload
    requires id in s.Panes()
  {
    var pane := s.Panes()[id];
    Payload(id, pane.paneId, pane.generation, role, messageId, hash, None, SubmissionReceiptIncomplete)
  }

  predicate IsStart(op: Op) {
    op.StartLaunch? || op.StartPrompt? || op.StartMessage?
  }

  function StartedPayload(s: DriverMaps, op: Op): Payload
    requires IsStart(op) && op.activationId in s.Panes()
  {
    match op
    case StartLaunch(id, hash) => StartPayload(s, id, AgentLaunch, None, hash)
    case StartPrompt(id, hash) => StartPayload(s, id, NodePrompt, None, hash)
    case StartMessage(id, message, hash) => StartPayload(s, id, ParticipantMessage, Some(message), hash)
  }

  function ReleasedPayload(d: Submitted): Payload {
    Payload(d.activationId, d.paneId, d.generation, d.role, None, d.payloadHash, Some(d.startedSeq),
            PaneReleasedAfterSubmission)
  }

  /** The barriers a release logs for one activation: its submitted launch and prompt, unless the
      same key is still ambiguous. */
  function RoleBarrier(s: DriverMaps, id: string, role: Role): seq<Payload> {
    if id !in s.Panes() then []
    else
      var key := DeliveryKey(id, role, None, s.Panes()[id].generation);
      if key in s.ambiguous || key !in s.submitted then []
      else
        [ReleasedPayload(s.submitted[key])]
  }

  function ReleasedBarriers(s: DriverMaps, ids: seq<string>): seq<Payload> {
    if ids == [] then []
    else
      var id := ids[|ids| - 1];
      ReleasedBarriers(s, ids[..|ids| - 1])
      + RoleBarrier(s, id, AgentLaunch) + RoleBarrier(s, id, NodePrompt)
  }

  /** Live installation keeps a barrier that is already there. */
  function InstallBarriers(s: DriverMaps, barriers: seq<Payload>, eventSeq: nat): DriverMaps {
    if barriers == [] then s
    else
      var before := InstallBarriers(s, barriers[..|barriers| - 1], eventSeq);
      var delivery := FromPayload(barriers[|barriers| - 1], eventSeq);
      var key := KeyOf(delivery.delivery);
      before.(submitted := Without(before.submitted, {key}),
              ambiguous := if key in before.ambiguous then before.ambiguous else before.ambiguous[key := delivery])
  }

  function SubmissionEvent(id: string, role: Role, messageId: Option<string>, d: Submitted): Event {
    if messageId.Some? then MessageSubmitted(id, messageId.value, d.generation, Some(d.startedSeq))
    else if role == AgentLaunch then LaunchSubmitted(id, d.generation, Some(d.startedSeq), false)
    else PromptSubmitted(id, d.generation, Some(d.startedSeq), false)
  }

  predicate BindingDiffers(s: DriverMaps, binding: Binding) {
    s.tmux.None? || s.tmux.value.binding != binding
  }

  predicate Enabled(s: DriverMaps, op: Op) {
    match op
    case Bind(binding) => BindingDiffers(s, binding)
    case KeepBinding(binding) => BindingDiffers(s, binding)
    case IntendAllocation(id, _, _) => id !in s.Panes() && id !in s.pendingAllocations
    case PublishPane(id, _) => s.tmux.Some? && id !in s.Panes() && id in s.pendingAllocations
    case IntendCleanup(id, _) => id in s.Panes() && id !in s.pendingCleanups
    case Release(ids) => ids != [] && forall id <- ids :: id in s.Panes()
    case Receipt(id) => id in s.pendingCleanups && id !in s.Panes()
    case StartLaunch(id, _) =>
      && id in s.Panes()
      && var allocation := (id, s.Panes()[id].generation);
      && allocation !in s.settled
      && allocation !in s.launched
      && DeliveryKey(id, AgentLaunch, None, allocation.1) !in s.ambiguous
    case StartPrompt(id, _) =>
      && id in s.Panes()
      && var allocation := (id, s.Panes()[id].generation);
      && allocation !in s.settled
      && allocation in s.launched
      && DeliveryKey(id, NodePrompt, None, allocation.1) !in s.ambiguous
    case StartMessage(id, message, _) => id in s.Panes() && !CarriesMessage(s, message)
    case Finish(id, role, messageId, generation) =>
      WellRoled(role, messageId) && DeliveryKey(id, role, messageId, generation) in s.ambiguous
    case Discard(key) =>
      key in s.ambiguous && BarrierKeys(s.ambiguous, s.ambiguous[key].delivery.startedSeq) == {key}
    case LogOther => true
  }

  function EventOf(s: DriverMaps, op: Op): Event
    requires Enabled(s, op)
  {
    match op
    case Bind(binding) => TmuxBound(binding)
    case KeepBinding(binding) => TmuxBound(binding)
    case IntendAllocation(id, binding, window) =>
      AllocationIntended(AllocationIntent(id, s.NextGeneration(id), binding, window))
    case PublishPane(id, pane) =>
      var generation := s.pendingAllocations[id].generation;
      PaneAllocated(id, pane.(generation := generation), Some(generation))
    case IntendCleanup(id, reason) =>
      CleanupIntended(CleanupIntent(id, s.Panes()[id].generation, s.Panes()[id], reason))
    case Release(ids) => PanesReleased(ids, ReleasedBarriers(s, ids))
    case Receipt(id) => CleanupReceipt(s.pendingCleanups[id])
    case StartLaunch(id, hash) => DeliveryStarted(StartPayload(s, id, AgentLaunch, None, hash))
    case StartPrompt(id, hash) => DeliveryStarted(StartPayload(s, id, NodePrompt, None, hash))
    case StartMessage(id, message, hash) =>
      DeliveryStarted(StartPayload(s, id, ParticipantMessage, Some(message), hash))
    case Finish(id, role, messageId, generation) =>
      SubmissionEvent(id, role, messageId, s.ambiguous[DeliveryKey(id, role, messageId, generation)].delivery)
    case Discard(key) =>
      var d := s.ambiguous[key].delivery;
      NotSubmitted(d.activationId, d.role, d.messageId, d.generation, Some(d.startedSeq))
    case LogOther => OtherEvent
  }

  /** release_tmux_panes after its append, for any activation ids. */
  function ReleaseEffect(s: DriverMaps, ids: seq<string>, eventSeq: nat): DriverMaps {
    var installed := InstallBarriers(s, ReleasedBarriers(s, ids), eventSeq);
    if installed.tmux.Some? then installed.Forget(ElementsOf(ids)) else installed
  }

  function StartEffect(s: DriverMaps, payload: Payload, eventSeq: nat): DriverMaps {
    var d := Ambiguous(
      Submitted(payload.activationId, payload.paneId, payload.generation, payload.role, payload.messageId,
                payload.payloadHash, eventSeq),
      SubmissionReceiptIncomplete);
    s.(submitted := Without(s.submitted, {KeyOf(d.delivery)}), ambiguous := s.ambiguous[KeyOf(d.delivery) := d])
  }

  function FinishEffect(s: DriverMaps, id: string, role: Role, messageId: Option<string>, generation: nat)
    : DriverMaps
  {
    var s1 := s.Submit(DeliveryKey(id, role, messageId, generation));
    var s2 := if role == AgentLaunch || role == NodePrompt
              then s1.(launched := s1.launched + {(id, generation)}) else s1;
    if role == NodePrompt then s2.(settled := s2.settled + {(id, generation)}) else s2
  }

  /** What the operation does to memory once its event is durable. */
  function Effect(s: DriverMaps, op: Op, eventSeq: nat): DriverMaps
    requires Enabled(s, op)
  {
    match op
    case Bind(binding) => s.(tmux := Some(Tmux(binding, map[])))
    case KeepBinding(binding) => s.(tmux := Some(Tmux(binding, s.Panes())))
    case IntendAllocation(id, binding, window) =>
      s.(pendingAllocations :=
           s.pendingAllocations[id := AllocationIntent(id, s.NextGeneration(id), binding, window)])
    case PublishPane(id, pane) =>
      var generation := s.pendingAllocations[id].generation;
      s.(tmux := Some(s.tmux.value.(panes := s.tmux.value.panes[id := pane.(generation := generation)])),
         generations := s.generations[id := generation],
         pendingAllocations := Without(s.pendingAllocations, {id}))
    case IntendCleanup(id, reason) =>
      var pane := s.Panes()[id];
      s.(pendingCleanups := s.pendingCleanups[id := CleanupIntent(id, pane.generation, pane, reason)])
    case Release(ids) => ReleaseEffect(s, ids, eventSeq)
    case Receipt(id) => s.(pendingCleanups := Without(s.pendingCleanups, {id}))
    case StartLaunch(id, hash) => StartEffect(s, StartPayload(s, id, AgentLaunch, None, hash), eventSeq)
    case StartPrompt(id, hash) => StartEffect(s, StartPayload(s, id, NodePrompt, None, hash), eventSeq)
    case StartMessage(id, message, hash) =>
      StartEffect(s, StartPayload(s, id, ParticipantMessage, Some(message), hash), eventSeq)
    case Finish(id, role, messageId, generation) => FinishEffect(s, id, role, messageId, generation)
    case Discard(key) =>
      s.(ambiguous := Without(s.ambiguous, {key}), submitted := Without(s.submitted, {key}))
    case LogOther => s
  }

  datatype Step =
    | Do(op: Op, appendOk: bool)
    | SettleHuman(activationId: string)
    | Restart

  /** An append fails on an I/O error, and when the 64-bit event count has no successor. */
  predicate Appends(l: Live, appendOk: bool) {
    appendOk && |l.log| < U64_MAX
  }

  function Forgotten(allocations: set<Allocation>, ids: seq<string>): set<Allocation> {
    set a | a in allocations && a.0 !in ElementsOf(ids)
  }

  function Commit(l: Live, op: Op): Live
    requires Enabled(l.maps, op)
  {
    var sequence := SaturatingSucc(l.eventCount);
    Live(l.log + [Record(sequence, EventOf(l.maps, op))],
         sequence,
         Effect(l.maps, op, sequence),
         if op.Release? then Forgotten(l.human, op.activationIds) else l.human,
         match op
         case Bind(_) => {}
         case KeepBinding(_) => l.maps.Panes().Keys
         case Release(ids) => l.carried - ElementsOf(ids)
         case _ => l.carried)
  }

  function Exec(l: Live, step: Step): Live {
    match step
    case Do(op, appendOk) => if Enabled(l.maps, op) && Appends(l, appendOk) then Commit(l, op) else l
    case SettleHuman(id) =>
      if id !in l.maps.Panes() then l
      else
        var allocation := (id, l.maps.Panes()[id].generation);
        l.(maps := l.maps.(settled := l.maps.settled + {allocation}), human := l.human + {allocation})
    case Restart => Live(l.log, |l.log|, Replay(l.log), {}, {})
  }

  function Run(l: Live, steps: seq<Step>): Live {
    if steps == [] then l else Exec(Run(l, steps[..|steps| - 1]), steps[|steps| - 1])
  }

  lemma CommitStart(l: Live, op: Op, appendOk: bool)
    requires l.eventCount == |l.log| <= U64_MAX && IsStart(op)
    ensures Exec(l, Do(op, appendOk))
            == if Enabled(l.maps, op) && Appends(l, appendOk)
               then
                 var payload := StartedPayload(l.maps, op);
                 Live(l.log + [Record(|l.log| + 1, DeliveryStarted(payload))], |l.log| + 1,
                      StartEffect(l.maps, payload, |l.log| + 1), l.human, l.carried)
               else l
  {
  }

  lemma CommitFinish(l: Live, id: string, role: Role, messageId: Option<string>, generation: nat, appendOk: bool)
    requires l.eventCount == |l.log| <= U64_MAX
    ensures var key := DeliveryKey(id, role, messageId, generation);
            Exec(l, Do(Finish(id, role, messageId, generation), appendOk))
            == if WellRoled(role, messageId) && key in l.maps.ambiguous && Appends(l, appendOk)
               then Live(l.log + [Record(|l.log| + 1,
                                         SubmissionEvent(id, role, messageId, l.maps.ambiguous[key].delivery))],
                         |l.log| + 1, FinishEffect(l.maps, id, role, messageId, generation), l.human, l.carried)
               else l
  {
  }

  lemma CommitDiscard(l: Live, key: Key, appendOk: bool)
    requires l.eventCount == |l.log| <= U64_MAX && key in l.maps.ambiguous
    requires BarrierKeys(l.maps.ambiguous, l.maps.ambiguous[key].delivery.startedSeq) == {key}
    ensures var d := l.maps.ambiguous[key].delivery;
            Exec(l, Do(Discard(key), appendOk))
            == if Appends(l, appendOk)
               then Live(l.log + [Record(|l.log| + 1, NotSubmitted(d.activationId, d.role, d.messageId, d.generation,
                                                                   Some(d.startedSeq)))],
                         |l.log| + 1,
                         l.maps.(ambiguous := Without(l.maps.ambiguous, {key}),
                                 submitted := Without(l.maps.submitted, {key})),
                         l.human, l.carried)
               else l
  {
  }

  /** The operation that settles the barrier under `key` the way the operator says. */
  function ResolutionOf(s: DriverMaps, key: Key, wasSubmitted: bool): Op
    requires key in s.ambiguous
  {
    var d := s.ambiguous[key].delivery;
    if wasSubmitted then Finish(d.activationId, d.role, d.messageId, d.generation) else Discard(key)
  }

  lemma CommitRelease(l: Live, ids: seq<string>, appendOk: bool)
    requires l.eventCount == |l.log| <= U64_MAX && Enabled(l.maps, Release(ids))
    ensures Exec(l, Do(Release(ids), appendOk))
            == if Appends(l, appendOk)
               then Live(l.log + [Record(|l.log| + 1, PanesReleased(ids, ReleasedBarriers(l.maps, ids)))],
                         |l.log| + 1, ReleaseEffect(l.maps, ids, |l.log| + 1),
                         Forgotten(l.human, ids), l.carried - ElementsOf(ids))
               else l
  {
  }

  lemma {:induction false} InstallKeepsRest(s: DriverMaps, barriers: seq<Payload>, eventSeq: nat)
    ensures var s' := InstallBarriers(s, barriers, eventSeq);
            s' == s.(ambiguous := s'.ambiguous, submitted := s'.submitted)
  {
    if barriers != [] { InstallKeepsRest(s, barriers[..|barriers| - 1], eventSeq); }
  }

  /** A release leaves the cleanups and allocations as they are, whatever barriers it installs. */
  lemma ReleaseOnlyForgets(s: DriverMaps, ids: seq<string>, eventSeq: nat)
    ensures var s' := ReleaseEffect(s, ids, eventSeq);
            && s'.pendingCleanups == s.pendingCleanups && s'.pendingAllocations == s.pendingAllocations
            && s'.generations == s.generations && s'.Panes() == Without(s.Panes(), ElementsOf(ids))
  {
    InstallKeepsRest(s, ReleasedBarriers(s, ids), eventSeq);
  }

  lemma CommitOther(l: Live, appendOk: bool)
    requires l.eventCount == |l.log| <= U64_MAX
    ensures Exec(l, Do(LogOther, appendOk))
            == if Appends(l, appendOk)
               then l.(log := l.log + [Record(|l.log| + 1, OtherEvent)], eventCount := |l.log| + 1)
               else l
  {
  }

  lemma CommitBinding(l: Live, binding: Binding, appendOk: bool)
    requires l.eventCount == |l.log| <= U64_MAX && BindingDiffers(l.maps, binding)
    ensures Exec(l, Do(Bind(binding), appendOk))
            == if Appends(l, appendOk)
               then Live(l.log + [Record(|l.log| + 1, TmuxBound(binding))], |l.log| + 1,
                         l.maps.(tmux := Some(Tmux(binding, map[]))), l.human, {})
               else l
    ensures Exec(l, Do(KeepBinding(binding), appendOk))
            == if Appends(l, appendOk)
               then Live(l.log + [Record(|l.log| + 1, TmuxBound(binding))], |l.log| + 1,
                         l.maps.(tmux := Some(Tmux(binding, l.maps.Panes()))), l.human, l.maps.Panes().Keys)
               else l
  {
  }

  lemma CommitIntent(l: Live, id: string, binding: Binding, window: Option<string>, appendOk: bool)
    requires l.eventCount == |l.log| <= U64_MAX
    requires id !in l.maps.Panes() && id !in l.maps.pendingAllocations
    ensures var intent := AllocationIntent(id, l.maps.NextGeneration(id), binding, window);
            Exec(l, Do(IntendAllocation(id, binding, window), appendOk))
            == if Appends(l, appendOk)
               then Live(l.log + [Record(|l.log| + 1, AllocationIntended(intent))], |l.log| + 1,
                         l.maps.(pendingAllocations := l.maps.pendingAllocations[id := intent]), l.human, l.carried)
               else l
  {
  }

  lemma CommitPublish(l: Live, id: string, pane: Pane, appendOk: bool)
    requires l.eventCount == |l.log| <= U64_MAX && Enabled(l.maps, PublishPane(id, pane))
    ensures var generation := l.maps.pendingAllocations[id].generation;
            var owned := pane.(generation := generation);
            Exec(l, Do(PublishPane(id, pane), appendOk))
            == if Appends(l, appendOk)
               then Live(l.log + [Record(|l.log| + 1, PaneAllocated(id, owned, Some(generation)))], |l.log| + 1,
                         l.maps.(tmux := Some(l.maps.tmux.value.(panes := l.maps.tmux.value.panes[id := owned])),
                                 generations := l.maps.generations[id := generation],
                                 pendingAllocations := Without(l.maps.pendingAllocations, {id})),
                         l.human, l.carried)
               else l
  {
  }

  lemma CommitCleanup(l: Live, id: string, reason: string, appendOk: bool)
    requires l.eventCount == |l.log| <= U64_MAX
    ensures id in l.maps.Panes() && id !in l.maps.pendingCleanups ==>
              var pane := l.maps.Panes()[id];
              var intent := CleanupIntent(id, pane.generation, pane, reason);
              Exec(l, Do(IntendCleanup(id, reason), appendOk))
              == if Appends(l, appendOk)
                 then Live(l.log + [Record(|l.log| + 1, CleanupIntended(intent))], |l.log| + 1,
                           l.maps.(pendingCleanups := l.maps.pendingCleanups[id := intent]), l.human, l.carried)
                 else l
    ensures id !in l.maps.Panes() && id in l.maps.pendingCleanups ==>
              Exec(l, Do(Receipt(id), appendOk))
              == if Appends(l, appendOk)
                 then Live(l.log + [Record(|l.log| + 1, CleanupReceipt(l.maps.pendingCleanups[id]))], |l.log| + 1,
                           l.maps.(pendingCleanups := Without(l.maps.pendingCleanups, {id})), l.human, l.carried)
                 else l
  {
  }

  lemma RestartIs(l: Live)
    ensures Exec(l, Restart) == Live(l.log, |l.log|, Replay(l.log), {}, {})
  {
  }

  lemma HumanIs(l: Live, id: string)
    requires id in l.maps.Panes()
    ensures var allocation := (id, l.maps.Panes()[id].generation);
            Exec(l, SettleHuman(id))
            == l.(maps := l.maps.(settled := l.maps.settled + {allocation}), human := l.human + {allocation})
  {
  }

  lemma RunNothing(l: Live)
    ensures Run(l, []) == l
  {
  }

  lemma RunOneMore(l: Live, steps: seq<Step>, step: Step)
    ensures Run(l, steps + [step]) == Exec(Run(l, steps), step)
  {
    assert (steps + [step])[..|steps|] == steps;
  }

  lemma {:induction false} RunAppend(l: Live, first: seq<Step>, then_: seq<Step>)
    ensures Run(l, first + then_) == Run(Run(l, first), then_)
  {
    if then_ == [] {
      assert first + then_ == first;
    } else {
      RunAppend(l, first, then_[..|then_| - 1]);
      assert (first + then_)[..|first + then_| - 1] == first + then_[..|then_| - 1];
    }
  }
}
