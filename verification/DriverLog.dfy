/** The durable driver event log and the interpreter that rebuilds the driver's maps from it
    on restart (src/driver/persistence.rs). */
module DriverLog {
  import opened Base
  import opened Delivery

  datatype Pane = Pane(paneId: string, sessionId: string, windowId: string, windowName: string, generation: nat)

  datatype Binding = Binding(
    sessionId: string, windowName: string, windowId: string, agentCommand: string, actuation: string)

  datatype Tmux = Tmux(binding: Binding, panes: map<string, Pane>)

  datatype AllocationIntent = AllocationIntent(
    activationId: string, generation: nat, binding: Binding, existingWindowId: Option<string>)

  datatype CleanupIntent = CleanupIntent(activationId: string, generation: nat, pane: Pane, reason: string)

  datatype Event =
    | TmuxBound(binding: Binding)
    | AllocationIntended(intent: AllocationIntent)
    | PaneAllocated(activationId: string, pane: Pane, generation: Option<nat>)
    | CleanupIntended(cleanup: CleanupIntent)
    | CleanupReceipt(receipt: CleanupIntent)
    | PanesReleased(activationIds: seq<string>, barriers: seq<Payload>)
    | DeliveryStarted(payload: Payload)
    | NotSubmitted(activationId: string, role: Role, messageId: Option<string>, deliveryGeneration: nat,
                   startedSeq: Option<nat>)
    | LaunchSubmitted(activationId: string, deliveryGeneration: nat, startedSeq: Option<nat>, legacy: bool)
    | PromptSubmitted(activationId: string, deliveryGeneration: nat, startedSeq: Option<nat>, legacy: bool)
    | MessageSubmitted(activationId: string, message: string, deliveryGeneration: nat, startedSeq: Option<nat>)
    | OtherEvent

  datatype Record = Record(sequence: nat, event: Event)

  type Allocation = (string, nat)

  /** The maps and sets that the running driver keeps and that replay rebuilds. */
  datatype DriverMaps = DriverMaps(
    tmux: Option<Tmux>,
    generations: map<string, nat>,
    pendingAllocations: map<string, AllocationIntent>,
    pendingCleanups: map<string, CleanupIntent>,
    launched: set<Allocation>,
    settled: set<Allocation>,
    ambiguous: map<Key, Ambiguous>,
    submitted: map<Key, Submitted>)
  {
    function Panes(): map<string, Pane> {
      if tmux.Some? then tmux.value.panes else map[]
    }

    function NextGeneration(activationId: string): nat {
      if activationId in generations then SaturatingSucc(generations[activationId]) else 0
    }

    /** The started delivery under `key` becomes a submitted one, if there is one. */
    function Submit(key: Key): DriverMaps {
      this.(ambiguous := Without(ambiguous, {key}),
            submitted := if key in ambiguous then submitted[key := ambiguous[key].delivery] else submitted)
    }

    /** The pane map and everything filed per owned allocation loses the given activations. */
    function Forget(ids: set<string>): DriverMaps {
      this.(tmux := if tmux.Some? then Some(tmux.value.(panes := Without(tmux.value.panes, ids))) else None,
            launched := (set a | a in launched && a.0 !in ids),
            settled := (set a | a in settled && a.0 !in ids))
    }
  }

  const EMPTY_MAPS := DriverMaps(None, map[], map[], map[], {}, {}, map[], map[])

  predicate EventMatches(ambiguous: map<Key, Ambiguous>, key: Key, startedSeq: Option<nat>, allowMissing: bool) {
    match startedSeq
    case Some(started) => key in ambiguous && ambiguous[key].delivery.startedSeq == started
    case None => allowMissing
  }

  /** Each released barrier overwrites what replay has under its key. */
  function ReplayBarriers(s: DriverMaps, barriers: seq<Payload>, eventSeq: nat): DriverMaps {
    if barriers == [] then s
    else
      var before := ReplayBarriers(s, barriers[..|barriers| - 1], eventSeq);
      var delivery := FromPayload(barriers[|barriers| - 1], eventSeq);
      var key := KeyOf(delivery.delivery);
      before.(submitted := Without(before.submitted, {key}), ambiguous := before.ambiguous[key := delivery])
  }

  /** What one logged event does to the rebuilt maps. */
  function Apply(s: DriverMaps, record: Record): DriverMaps {
    match record.event
    case TmuxBound(binding) => s.(tmux := Some(Tmux(binding, map[])))
    case AllocationIntended(intent) =>
      s.(pendingAllocations := s.pendingAllocations[intent.activationId := intent])
    case PaneAllocated(id, pane, logged) =>
      if s.tmux.None? then s
      else
        var generation := logged.GetOr(s.NextGeneration(id));
        s.(tmux := Some(s.tmux.value.(panes := s.tmux.value.panes[id := pane.(generation := generation)])),
           generations := s.generations[id := generation],
           pendingAllocations := Without(s.pendingAllocations, {id}))
    case CleanupIntended(cleanup) =>
      s.(pendingCleanups := s.pendingCleanups[cleanup.activationId := cleanup])
    case CleanupReceipt(receipt) =>
      if receipt.activationId in s.pendingCleanups && s.pendingCleanups[receipt.activationId] == receipt
      then s.(pendingCleanups := Without(s.pendingCleanups, {receipt.activationId}))
      else s
    case PanesReleased(ids, barriers) =>
      if s.tmux.None? then s
      else
        var forgotten := s.Forget(ElementsOf(ids));
        ReplayBarriers(
          forgotten.(pendingAllocations := Without(s.pendingAllocations, ElementsOf(ids))), barriers, record.sequence)
    case DeliveryStarted(payload) =>
      var delivery := FromPayload(payload, record.sequence);
      var key := KeyOf(delivery.delivery);
      s.(submitted := Without(s.submitted, {key}), ambiguous := s.ambiguous[key := delivery])
    case NotSubmitted(id, role, messageId, generation, startedSeq) =>
      var key := DeliveryKey(id, role, messageId, generation);
      if EventMatches(s.ambiguous, key, startedSeq, true)
      then s.(ambiguous := Without(s.ambiguous, {key}), submitted := Without(s.submitted, {key}))
      else s
    case LaunchSubmitted(id, generation, startedSeq, legacy) =>
      var key := DeliveryKey(id, AgentLaunch, None, generation);
      if EventMatches(s.ambiguous, key, startedSeq, legacy)
      then s.Submit(key).(launched := s.launched + {(id, generation)})
      else s
    case PromptSubmitted(id, generation, startedSeq, legacy) =>
      var key := DeliveryKey(id, NodePrompt, None, generation);
      if EventMatches(s.ambiguous, key, startedSeq, legacy)
      then s.Submit(key).(launched := s.launched + {(id, generation)}, settled := s.settled + {(id, generation)})
      else s
    case MessageSubmitted(id, message, generation, startedSeq) =>
      var key := DeliveryKey(id, ParticipantMessage, Some(message), generation);
      if EventMatches(s.ambiguous, key, startedSeq, false) then s.Submit(key) else s
    case OtherEvent => s
  }

  function Replay(log: seq<Record>): DriverMaps {
    if log == [] then EMPTY_MAPS else Apply(Replay(log[..|log| - 1]), log[|log| - 1])
  }

  lemma ReplayAppend(log: seq<Record>, record: Record)
    ensures Replay(log + [record]) == Apply(Replay(log), record)
  {
    assert (log + [record])[..|log|] == log;
  }

  /** The barrier loop of a replayed `tmux_panes_released` event. */
  method ReinstallBarriers(s: DriverMaps, barriers: seq<Payload>, eventSeq: nat) returns (r: DriverMaps)
    ensures r == ReplayBarriers(s, barriers, eventSeq)
  {
    var ambiguous, submitted := s.ambiguous, s.submitted;
    for i := 0 to |barriers|
      invariant s.(ambiguous := ambiguous, submitted := submitted) == ReplayBarriers(s, barriers[..i], eventSeq)
    {
      var delivery := FromPayload(barriers[i], eventSeq);
      var key := KeyOf(delivery.delivery);
      submitted := Without(submitted, {key});
      ambiguous := ambiguous[key := delivery];
      assert barriers[..i + 1][..i] == barriers[..i];
    }
    assert barriers[..|barriers|] == barriers;
    return s.(ambiguous := ambiguous, submitted := submitted);
  }

  /** The loop over the activation ids of a replayed `tmux_panes_released` event. */
  method ForgetReleased(s: DriverMaps, ids: seq<string>) returns (r: DriverMaps)
    requires s.tmux.Some?
    ensures r == s.Forget(ElementsOf(ids))
                  .(pendingAllocations := Without(s.pendingAllocations, ElementsOf(ids)))
  {
    var panes, pending, launched, settled := s.tmux.value.panes, s.pendingAllocations, s.launched, s.settled;
    for i := 0 to |ids|
      invariant panes == Without(s.tmux.value.panes, ElementsOf(ids[..i]))
      invariant pending == Without(s.pendingAllocations, ElementsOf(ids[..i]))
      invariant launched == set a | a in s.launched && a.0 !in ElementsOf(ids[..i])
      invariant settled == set a | a in s.settled && a.0 !in ElementsOf(ids[..i])
    {
      panes, pending := Without(panes, {ids[i]}), Without(pending, {ids[i]});
      launched := set a | a in launched && a.0 != ids[i];
      settled := set a | a in settled && a.0 != ids[i];
      assert ids[..i + 1] == ids[..i] + [ids[i]];
      assert ElementsOf(ids[..i + 1]) == ElementsOf(ids[..i]) + {ids[i]};
    }
    assert ids[..|ids|] == ids;
    return s.(tmux := Some(s.tmux.value.(panes := panes)), pendingAllocations := pending,
              launched := launched, settled := settled);
  }

  /** The body of the replay loop: one event, field by field. */
  method ReplayEvent(before: DriverMaps, record: Record) returns (s: DriverMaps)
    ensures s == Apply(before, record)
  {
    s := before;
    match record.event {
      case TmuxBound(binding) => s := s.(tmux := Some(Tmux(binding, map[])));
      case AllocationIntended(intent) =>
        s := s.(pendingAllocations := s.pendingAllocations[intent.activationId := intent]);
      case PaneAllocated(id, pane, logged) =>
        if s.tmux.Some? {
          var generation := logged.GetOr(s.NextGeneration(id));
          s := s.(generations := s.generations[id := generation]);
          s := s.(tmux := Some(s.tmux.value.(panes := s.tmux.value.panes[id := pane.(generation := generation)])));
          s := s.(pendingAllocations := Without(s.pendingAllocations, {id}));
        }
      case CleanupIntended(cleanup) =>
        s := s.(pendingCleanups := s.pendingCleanups[cleanup.activationId := cleanup]);
      case CleanupReceipt(receipt) =>
        if receipt.activationId in s.pendingCleanups && s.pendingCleanups[receipt.activationId] == receipt {
          s := s.(pendingCleanups := Without(s.pendingCleanups, {receipt.activationId}));
        }
      case PanesReleased(ids, barriers) =>
        if s.tmux.Some? {
          s := ForgetReleased(s, ids);
          s := ReinstallBarriers(s, barriers, record.sequence);
        }
      case DeliveryStarted(payload) =>
        var delivery := FromPayload(payload, record.sequence);
        var key := KeyOf(delivery.delivery);
        s := s.(submitted := Without(s.submitted, {key}));
        s := s.(ambiguous := s.ambiguous[key := delivery]);
      case NotSubmitted(id, role, messageId, generation, startedSeq) =>
        var key := DeliveryKey(id, role, messageId, generation);
        if EventMatches(s.ambiguous, key, startedSeq, true) {
          s := s.(ambiguous := Without(s.ambiguous, {key}), submitted := Without(s.submitted, {key}));
        }
      case LaunchSubmitted(id, generation, startedSeq, legacy) =>
        var key := DeliveryKey(id, AgentLaunch, None, generation);
        if EventMatches(s.ambiguous, key, startedSeq, legacy) {
          s := s.Submit(key);
          s := s.(launched := s.launched + {(id, generation)});
        }
      case PromptSubmitted(id, generation, startedSeq, legacy) =>
        var key := DeliveryKey(id, NodePrompt, None, generation);
        if EventMatches(s.ambiguous, key, startedSeq, legacy) {
          s := s.Submit(key);
          s := s.(launched := s.launched + {(id, generation)});
          s := s.(settled := s.settled + {(id, generation)});
        }
      case MessageSubmitted(id, message, generation, startedSeq) =>
        var key := DeliveryKey(id, ParticipantMessage, Some(message), generation);
        if EventMatches(s.ambiguous, key, startedSeq, false) {
          s := s.Submit(key);
        }
      case OtherEvent =>
    }
  }

  /** replay_driver_events: one pass over the log. */
  method ReplayDriverEvents(events: seq<Record>) returns (s: DriverMaps)
    ensures s == Replay(events)
  {
    s := EMPTY_MAPS;
    for i := 0 to |events|
      invariant s == Replay(events[..i])
    {
      assert events[..i + 1][..i] == events[..i];
      s := ReplayEvent(s, events[i]);
    }
    assert events[..|events|] == events;
  }
}
