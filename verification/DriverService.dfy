/** RuntimeDriverService: the object that runs the protocol (src/driver/mod.rs, delivery.rs,
    actuation.rs, capabilities.rs, tmux_ownership.rs, run_lifecycle.rs). What tmux answers and
    whether an append succeeds are parameters. */
module DriverService {
  import opened Base
  import opened Delivery
  import opened DriverLog
  import opened DriverSteps
  import opened DriverInvariants
  import opened DriverPreservation
  import opened DriverRuns
  import opened DriverTheorems
  import opened DriverCleanups
  import opened DriverGates
  import FlowData
  import opened DriverWorlds

  class RuntimeDriverService {
    var log: seq<Record>
    var eventCount: nat
    var tmux: Option<Tmux>
    var generations: map<string, nat>
    var pendingAllocations: map<string, AllocationIntent>
    var pendingCleanups: map<string, CleanupIntent>
    var launched: set<Allocation>
    var settled: set<Allocation>
    var ambiguous: map<Key, Ambiguous>
    var submitted: map<Key, Submitted>
    ghost var human: set<Allocation>
    ghost var carried: set<string>
    ghost var history: History

    ghost function Maps(): DriverMaps
      reads this
    {
      DriverMaps(tmux, generations, pendingAllocations, pendingCleanups, launched, settled, ambiguous, submitted)
    }

    ghost function View(): Live
      reads this
    {
      Live(log, eventCount, Maps(), human, carried)
    }

    /** The cheap half of the object invariant; the other half is `Inv(View())`, which every method
        keeps because it takes the view through steps of the protocol. */
    ghost predicate Counted()
      reads this`log, this`eventCount
    {
      eventCount == |log| <= U64_MAX
    }

    constructor ()
      ensures View() == FRESH_START && history == History([], {}, {}, {}) && Counted()
    {
      log, eventCount, tmux := [], 0, None;
      generations, pendingAllocations, pendingCleanups := map[], map[], map[];
      launched, settled, ambiguous, submitted := {}, {}, map[], map[];
      human, carried, history := {}, {}, History([], {}, {}, {});
    }

    /** The maps that the service is built from in load. */
    method Install(replay: DriverMaps)
      modifies this`tmux, this`generations, this`pendingAllocations, this`pendingCleanups, this`launched, this`settled,
               this`ambiguous, this`submitted
      ensures Maps() == replay
    {
      tmux, generations := replay.tmux, replay.generations;
      pendingAllocations, pendingCleanups := replay.pendingAllocations, replay.pendingCleanups;
      launched, settled := replay.launched, replay.settled;
      ambiguous, submitted := replay.ambiguous, replay.submitted;
    }

    /** load: memory is rebuilt from the durable log. */
    method Load()
      requires Counted()
      modifies this
      ensures Counted() && View() == Exec(old(View()), Restart) && history == old(history) && log == old(log)
    {
      hide Exec, Replay;
      RestartIs(View());
      var replay := ReplayDriverEvents(log);
      Install(replay);
      eventCount := |log|;
      human, carried := {}, {};
    }

    function Pane(id: string): (pane: Option<Pane>)
      reads this
      ensures pane == if id in Maps().Panes() then Some(Maps().Panes()[id]) else None
    {
      if tmux.Some? && id in tmux.value.panes then Some(tmux.value.panes[id]) else None
    }

    method AppendDriverEvent(event: Event, appendOk: bool) returns (ok: bool)
      requires Counted()
      modifies this`log, this`eventCount
      ensures ok == (appendOk && |old(log)| < U64_MAX)
      ensures ok ==> log == old(log) + [Record(eventCount, event)] && eventCount == old(eventCount) + 1
      ensures !ok ==> log == old(log) && eventCount == old(eventCount)
    {
      ok := appendOk && |log| < U64_MAX;
      if ok {
        var next := SaturatingSucc(eventCount);
        log := log + [Record(next, event)];
        eventCount := next;
      }
    }

    /** start_input_delivery_with_message: the barrier is durable before anything is sent. */
    method StartInputDelivery(id: string, paneId: string, role: Role, messageId: Option<string>, hash: string,
                              appendOk: bool)
      returns (r: Result<Ambiguous, Failure>)
      requires Counted()
      modifies this`log, this`eventCount, this`ambiguous, this`submitted
      ensures r.Err? ==> View() == old(View())
      ensures r == Err(PaneNotOwned) <==> old(Pane(id)).None? || old(Pane(id)).value.paneId != paneId
      ensures r == Err(PersistenceFailed) || r == Err(PaneNotOwned) || r.Ok?
      ensures r.Ok? ==>
                var payload := StartPayload(old(Maps()), id, role, messageId, hash);
                && Appends(old(View()), appendOk)
                && log == old(log) + [Record(eventCount, DeliveryStarted(payload))]
                && eventCount == old(eventCount) + 1
                && Maps() == StartEffect(old(Maps()), payload, eventCount)
                && r.value == FromPayload(payload, eventCount)
      ensures r == Err(PersistenceFailed) ==> !Appends(old(View()), appendOk)
    {
      var pane := Pane(id);
      if pane.None? || pane.value.paneId != paneId {
        return Err(PaneNotOwned);
      }
      var generation := pane.value.generation;
      var ok := AppendDriverEvent(
        DeliveryStarted(Payload(id, paneId, generation, role, messageId, hash, None, SubmissionReceiptIncomplete)),
        appendOk);
      if !ok {
        return Err(PersistenceFailed);
      }
      var delivery := Ambiguous(Submitted(id, paneId, generation, role, messageId, hash, eventCount),
                                SubmissionReceiptIncomplete);
      var key := KeyOf(delivery.delivery);
      submitted := Without(submitted, {key});
      ambiguous := ambiguous[key := delivery];
      return Ok(delivery);
    }

    /** finish_input_delivery: the barrier becomes a submission. */
    method FinishInputDelivery(id: string, role: Role, messageId: Option<string>, generation: nat, appendOk: bool)
      returns (r: Result<(), Failure>)
      requires Counted()
      requires role.UnknownRole? || WellRoled(role, messageId)
      modifies this`log, this`eventCount, this`ambiguous, this`submitted, this`launched, this`settled
      ensures Counted()
      ensures View() == Exec(old(View()), Do(Finish(id, role, messageId, generation), appendOk))
      ensures r == Err(MalformedRequest) <==> role.UnknownRole?
      ensures r == Err(BarrierConflict) <==>
                !role.UnknownRole? && DeliveryKey(id, role, messageId, generation) !in old(ambiguous)
      ensures r.Ok? ==> DeliveryKey(id, role, messageId, generation) in old(ambiguous)
      ensures r.Ok? ==> Maps() == FinishEffect(old(Maps()), id, role, messageId, generation)
      ensures r.Ok? ==>
                var key, allocation := DeliveryKey(id, role, messageId, generation), (id, generation);
                && ambiguous == Without(old(ambiguous), {key})
                && submitted == old(submitted)[key := old(ambiguous)[key].delivery]
                && launched == old(launched) + (if role == ParticipantMessage then {} else {allocation})
                && settled == old(settled) + (if role == NodePrompt then {allocation} else {})
      ensures r.Err? ==> View() == old(View())
      ensures old(log) <= log
      ensures r.Ok? ==>
                && IsSubmission(log[|old(log)|].event)
                && log[|old(log)|].event.startedSeq
                   == Some(old(ambiguous)[DeliveryKey(id, role, messageId, generation)].delivery.startedSeq)
      ensures r.Ok? <==> |log| == |old(log)| + 1
      ensures r == Err(PersistenceFailed) ==> !Appends(old(View()), appendOk)
      ensures r.Ok? ==> Appends(old(View()), appendOk)
      ensures r.Ok? || r == Err(PersistenceFailed) || r == Err(BarrierConflict) || r == Err(MalformedRequest)
    {
      hide Exec, FinishEffect, RoleKey;
      CommitFinish(View(), id, role, messageId, generation, appendOk);
      if role.UnknownRole? {
        return Err(MalformedRequest);
      }
      var key := DeliveryKey(id, role, messageId, generation);
      if key !in ambiguous {
        return Err(BarrierConflict);
      }
      var delivery := ambiguous[key].delivery;
      var event := SubmissionEvent(id, role, messageId, delivery);
      var ok := AppendDriverEvent(event, appendOk);
      if !ok {
        return Err(PersistenceFailed);
      }
      FileSubmission(key, id, role, messageId, generation);
      return Ok(());
    }

    /** The delivery becomes a submitted one, and opens the gates of its role. */
    method FileSubmission(key: Key, id: string, role: Role, messageId: Option<string>, generation: nat)
      requires key == DeliveryKey(id, role, messageId, generation) && key in ambiguous && !role.UnknownRole?
      modifies this`ambiguous, this`submitted, this`launched, this`settled
      ensures Maps() == FinishEffect(old(Maps()), id, role, messageId, generation)
      ensures ambiguous == Without(old(ambiguous), {key})
      ensures submitted == old(submitted)[key := old(ambiguous)[key].delivery]
      ensures launched == old(launched) + (if role == ParticipantMessage then {} else {(id, generation)})
      ensures settled == old(settled) + (if role == NodePrompt then {(id, generation)} else {})
    {
      submitted := submitted[key := ambiguous[key].delivery];
      ambiguous := Without(ambiguous, {key});
      if role == AgentLaunch || role == NodePrompt {
        launched := launched + {(id, generation)};
      }
      if role == NodePrompt {
        settled := settled + {(id, generation)};
      }
    }

    /** resolve_input_delivery: the operator says what became of the barrier that the sequence names.
        "Submitted" files it and shuts the gates of its role; "not submitted" forgets it. */
    method ResolveInputDelivery(startedSeq: nat, wasSubmitted: bool, appendOk: bool)
      returns (r: Result<Submitted, Failure>, ghost key: Key)
      requires Counted() && Keyed(Maps()) && Accounts(log, history)
      modifies this`log, this`eventCount, this`ambiguous, this`submitted, this`launched, this`settled, this`history
      ensures Counted() && Accounts(log, history)
      ensures history == old(history).(resolved := if wasSubmitted then old(history).resolved + {startedSeq}
                                                   else old(history).resolved)
      ensures r == Err(BarrierConflict) <==> |BarrierKeys(old(ambiguous), startedSeq)| != 1
      ensures r.Err? ==> View() == old(View())
      ensures r.Ok? || r == Err(BarrierConflict) || (r == Err(PersistenceFailed) && !Appends(old(View()), appendOk))
      ensures r != Err(BarrierConflict) ==>
                && BarrierKeys(old(ambiguous), startedSeq) == {key} && key in old(ambiguous)
                && View() == Exec(old(View()), Do(ResolutionOf(old(Maps()), key, wasSubmitted), appendOk))
      ensures r.Ok? ==>
                && r.value == old(ambiguous)[key].delivery && r.value.startedSeq == startedSeq
                && ambiguous == Without(old(ambiguous), {key}) && |log| == |old(log)| + 1
      ensures r.Ok? && wasSubmitted ==>
                var allocation := (r.value.activationId, r.value.generation);
                && submitted == old(submitted)[key := r.value]
                && launched == old(launched) + (if r.value.role == ParticipantMessage then {} else {allocation})
                && settled == old(settled) + (if r.value.role == NodePrompt then {allocation} else {})
                && IsSubmission(log[|old(log)|].event) && log[|old(log)|].event.startedSeq == Some(startedSeq)
      ensures r.Ok? && !wasSubmitted ==>
                && submitted == Without(old(submitted), {key})
                && launched == old(launched) && settled == old(settled)
                && log[|old(log)|].event.NotSubmitted? && log[|old(log)|].event.startedSeq == Some(startedSeq)
    {
      hide Exec, Enabled, RoleKey, FinishEffect, Accounts;
      key := ("", "");
      ghost var before := history;
      if wasSubmitted {
        history := history.(resolved := history.resolved + {startedSeq});
      }
      AccountsForMore(log, log, before, history);
      var matches := BarrierKeys(ambiguous, startedSeq);
      if |matches| != 1 {
        return Err(BarrierConflict), key;
      }
      var match_ :| match_ in matches;
      key := match_;
      assert matches == {key} by {
        assert |matches - {key}| == 0;
      }
      var delivery := ambiguous[match_].delivery;
      assert KeyedAs(key, delivery);
      if wasSubmitted {
        var finished := FinishInputDelivery(
          delivery.activationId, delivery.role, delivery.messageId, delivery.generation, appendOk);
        AccountsForMore(old(log), log, history, history);
        return if finished.Ok? then Ok(delivery) else Err(finished.error), key;
      }
      var ok := DiscardDelivery(match_, appendOk);
      AccountsForMore(old(log), log, history, history);
      return if ok then Ok(delivery) else Err(PersistenceFailed), key;
    }

    /** The barrier under the key is withdrawn. */
    method DiscardDelivery(key: Key, appendOk: bool) returns (ok: bool)
      requires Counted() && key in ambiguous && BarrierKeys(ambiguous, ambiguous[key].delivery.startedSeq) == {key}
      modifies this`log, this`eventCount, this`ambiguous, this`submitted
      ensures Counted() && ok == Appends(old(View()), appendOk)
      ensures View() == Exec(old(View()), Do(Discard(key), appendOk))
      ensures ok ==>
                && ambiguous == Without(old(ambiguous), {key}) && submitted == Without(old(submitted), {key})
                && old(log) <= log && |log| == |old(log)| + 1
                && log[|old(log)|].event.NotSubmitted?
                && log[|old(log)|].event.startedSeq == Some(old(ambiguous)[key].delivery.startedSeq)
      ensures !ok ==> View() == old(View())
    {
      hide Exec;
      CommitDiscard(View(), key, appendOk);
      var d := ambiguous[key].delivery;
      ok := AppendDriverEvent(
        NotSubmitted(d.activationId, d.role, d.messageId, d.generation, Some(d.startedSeq)), appendOk);
      if ok {
        ambiguous, submitted := Without(ambiguous, {key}), Without(submitted, {key});
      }
    }

    method RoleDeliveryBarrier(id: string, role: Role) returns (barriers: seq<Payload>)
      ensures barriers == RoleBarrier(Maps(), id, role)
    {
      var pane := Pane(id);
      if pane.None? {
        return [];
      }
      var key := DeliveryKey(id, role, None, pane.value.generation);
      if key in ambiguous || key !in submitted {
        return [];
      }
      return [ReleasedPayload(submitted[key])];
    }

    /** released_delivery_barriers: launch and prompt of every activation that is to be released. */
    method ReleasedDeliveryBarriers(ids: seq<string>) returns (barriers: seq<Payload>)
      ensures barriers == ReleasedBarriers(Maps(), ids)
      ensures Keyed(Maps()) ==> NamesReleased(Maps(), ids, barriers, eventCount)
    {
      if Keyed(Maps()) { ReleasedNames(Maps(), ids, eventCount); }
      barriers := [];
      for i := 0 to |ids|
        invariant barriers == ReleasedBarriers(Maps(), ids[..i])
      {
        assert ids[..i + 1][..i] == ids[..i];
        var launch := RoleDeliveryBarrier(ids[i], AgentLaunch);
        var prompt := RoleDeliveryBarrier(ids[i], NodePrompt);
        barriers := barriers + launch + prompt;
      }
      assert ids[..|ids|] == ids;
    }

    /** install_released_delivery_barriers: a barrier that is there already stays. */
    method InstallReleasedDeliveryBarriers(barriers: seq<Payload>, eventSeq: nat)
      modifies this`ambiguous, this`submitted
      ensures Maps() == InstallBarriers(old(Maps()), barriers, eventSeq)
    {
      for i := 0 to |barriers|
        invariant Maps() == InstallBarriers(old(Maps()), barriers[..i], eventSeq)
      {
        assert barriers[..i + 1][..i] == barriers[..i];
        var delivery := FromPayload(barriers[i], eventSeq);
        var key := KeyOf(delivery.delivery);
        submitted := Without(submitted, {key});
        if key !in ambiguous {
          ambiguous := ambiguous[key := delivery];
        }
      }
      assert barriers[..|barriers|] == barriers;
    }

    /** release_tmux_panes: one event, then memory; nothing at all for no activations. */
    method ReleaseTmuxPanes(ids: seq<string>, appendOk: bool) returns (r: Result<(), Failure>)
      requires Counted()
      modifies this`log, this`eventCount, this`tmux, this`launched, this`settled, this`ambiguous, this`submitted,
               this`human, this`carried
      ensures Counted()
      ensures r == if ids == [] || Appends(old(View()), appendOk) then Ok(()) else Err(PersistenceFailed)
      ensures View() == if ids == [] || r.Err? then old(View()) else Released(old(View()), ids)
      ensures Enabled(old(Maps()), Release(ids)) ==> View() == Exec(old(View()), Do(Release(ids), appendOk))
      ensures r.Ok? && Keyed(old(Maps())) ==> Reopens(old(Maps()), Maps(), ids)
      ensures r.Ok? ==> Maps().Panes() == Without(old(Maps()).Panes(), ElementsOf(ids))
      ensures r.Ok? && old(tmux).Some? ==>
                && (forall a :: a in launched <==> a in old(launched) && a.0 !in ids)
                && (forall a :: a in settled <==> a in old(settled) && a.0 !in ids)
    {
      hide Released, Exec, Enabled, Reopens, Keyed;
      if Keyed(Maps()) { ReleasedReopens(View(), ids); }
      ReleasedForgets(View(), ids);
      NothingReleased(Maps());
      ReleaseNamesOwned(Maps(), ids);
      if Enabled(Maps(), Release(ids)) { ReleaseIs(View(), ids, appendOk); }
      if ids == [] {
        return Ok(());
      }
      var ok := AppendRelease(ids, appendOk);
      return if ok then Ok(()) else Err(PersistenceFailed);
    }

    method AppendRelease(ids: seq<string>, appendOk: bool) returns (ok: bool)
      requires Counted() && ids != []
      modifies this`log, this`eventCount, this`tmux, this`launched, this`settled, this`ambiguous, this`submitted,
               this`human, this`carried
      ensures Counted() && ok == Appends(old(View()), appendOk)
      ensures View() == if ok then Released(old(View()), ids) else old(View())
    {
      hide ReleaseEffect, ReleasedBarriers, Forgotten, ElementsOf;
      var barriers := ReleasedDeliveryBarriers(ids);
      ok := AppendDriverEvent(PanesReleased(ids, barriers), appendOk);
      if ok {
        ReleaseInMemory(ids, barriers);
        human, carried := Forgotten(human, ids), carried - ElementsOf(ids);
      }
    }

    /** What release_tmux_panes does once its event is durable. */
    method ReleaseInMemory(ids: seq<string>, barriers: seq<Payload>)
      requires barriers == ReleasedBarriers(Maps(), ids)
      modifies this`tmux, this`launched, this`settled, this`ambiguous, this`submitted
      ensures Maps() == ReleaseEffect(old(Maps()), ids, eventCount)
    {
      InstallReleasedDeliveryBarriers(barriers, eventCount);
      if tmux.Some? {
        ForgetActivations(ids);
      }
    }

    /** The loop of release_tmux_panes over the released activations. */
    method ForgetActivations(ids: seq<string>)
      requires tmux.Some?
      modifies this`tmux, this`launched, this`settled
      ensures Maps() == old(Maps()).Forget(ElementsOf(ids))
    {
      hide ElementsOf;
      NoElements();
      for i := 0 to |ids|
        invariant tmux.Some? && tmux.value.binding == old(tmux).value.binding
        invariant tmux.value.panes == Without(old(tmux).value.panes, ElementsOf(ids[..i]))
        invariant launched == Forgotten(old(launched), ids[..i])
        invariant settled == Forgotten(old(settled), ids[..i])
      {
        tmux := Some(tmux.value.(panes := Without(tmux.value.panes, {ids[i]})));
        launched := set a | a in launched && a.0 != ids[i];
        settled := set a | a in settled && a.0 != ids[i];
        OneMoreElement(ids, i);
      }
      assert ids[..|ids|] == ids;
    }

    /** append_tmux_binding and the assignment after it: a replaced binding drops the pane map, a
        binding that only followed its window keeps it. */
    method BindTmux(binding: Binding, keepPanes: bool, appendOk: bool) returns (ok: bool)
      requires Counted() && BindingDiffers(Maps(), binding)
      modifies this`log, this`eventCount, this`tmux, this`carried
      ensures Counted() && ok == Appends(old(View()), appendOk)
      ensures View() == Exec(old(View()), Do(if keepPanes then KeepBinding(binding) else Bind(binding), appendOk))
      ensures ok ==> tmux.Some? && tmux.value.binding == binding
      ensures Maps().Panes() == if ok && !keepPanes then map[] else old(Maps()).Panes()
    {
      hide Exec;
      CommitBinding(View(), binding, appendOk);
      ok := AppendDriverEvent(TmuxBound(binding), appendOk);
      if ok {
        var panes := if keepPanes && tmux.Some? then tmux.value.panes else map[];
        carried := panes.Keys;
        tmux := Some(Tmux(binding, panes));
      }
    }

    /** publish_tmux_pane. */
    method PublishTmuxPane(id: string, pane: Pane, appendOk: bool) returns (ok: bool)
      requires Counted() && Enabled(Maps(), PublishPane(id, pane))
      modifies this`log, this`eventCount, this`tmux, this`generations, this`pendingAllocations
      ensures Counted() && ok == Appends(old(View()), appendOk)
      ensures View() == Exec(old(View()), Do(PublishPane(id, pane), appendOk))
      ensures ok ==> Pane(id) == Some(pane.(generation := old(pendingAllocations)[id].generation))
      ensures Maps().Panes() == if ok then old(Maps()).Panes()[id := Pane(id).value] else old(Maps()).Panes()
      ensures tmux.Some? && tmux.value.binding == old(tmux).value.binding
      ensures ok ==> generations == old(generations)[id := old(pendingAllocations)[id].generation]
      ensures ok ==> pendingAllocations == Without(old(pendingAllocations), {id})
      ensures !ok ==> generations == old(generations) && pendingAllocations == old(pendingAllocations)
    {
      hide Exec;
      CommitPublish(View(), id, pane, appendOk);
      var generation := pendingAllocations[id].generation;
      var stored := pane.(generation := generation);
      ok := AppendDriverEvent(PaneAllocated(id, stored, Some(generation)), appendOk);
      if ok {
        tmux := Some(tmux.value.(panes := tmux.value.panes[id := stored]));
        generations := generations[id := generation];
        pendingAllocations := Without(pendingAllocations, {id});
      }
    }

    /** The first half of ensure_identified_tmux_pane: reuse the pending intent or log a new one. */
    method EnsureAllocationIntent(id: string, config: Binding, window: Option<string>, appendOk: bool)
      returns (r: Result<AllocationIntent, Failure>, ghost steps: seq<Step>)
      requires Counted() && id !in Maps().Panes()
      modifies this`log, this`eventCount, this`pendingAllocations
      ensures Counted() && View() == Run(old(View()), steps) && forall s <- steps :: Quiet(s)
      ensures r.Err? ==> View() == old(View()) && id !in old(pendingAllocations) && !Appends(old(View()), appendOk)
      ensures id in old(pendingAllocations) ==> r == Ok(old(pendingAllocations)[id]) && View() == old(View())
      ensures id !in old(pendingAllocations) && r.Ok? ==>
                && r.value == AllocationIntent(id, old(Maps()).NextGeneration(id), config, window)
                && pendingAllocations == old(pendingAllocations)[id := r.value]
    {
      hide Exec;
      steps := [];
      if id in pendingAllocations {
        return Ok(pendingAllocations[id]), steps;
      }
      var step := Do(IntendAllocation(id, config, window), appendOk);
      CommitIntent(View(), id, config, window, appendOk);
      RunOneMore(View(), [], step);
      var generation := if id in generations then SaturatingSucc(generations[id]) else 0;
      var intent := AllocationIntent(id, generation, config, window);
      var ok := AppendDriverEvent(AllocationIntended(intent), appendOk);
      if !ok {
        return Err(PersistenceFailed), steps;
      }
      pendingAllocations := pendingAllocations[id := intent];
      return Ok(intent), [] + [step];
    }

    /** The binding follows the window in which a pane was located. */
    method FollowWindow(binding: Binding, bindOk: bool) returns (ok: bool, ghost steps: seq<Step>)
      requires Counted()
      modifies this`log, this`eventCount, this`tmux, this`carried
      ensures Counted() && View() == Run(old(View()), steps) && forall s <- steps :: Quiet(s)
      ensures Maps().Panes() == old(Maps()).Panes()
      ensures ok ==> tmux.Some? && tmux.value.binding == binding
      ensures !BindingDiffers(old(Maps()), binding) ==> ok && View() == old(View())
    {
      hide Exec, Run;
      RunNothing(View());
      steps := [];
      if tmux.Some? && tmux.value.binding == binding {
        return true, steps;
      }
      RunOneMore(View(), [], Do(KeepBinding(binding), bindOk));
      steps := [] + [Do(KeepBinding(binding), bindOk)];
      ok := BindTmux(binding, true, bindOk);
    }

    /** ensure_identified_tmux_pane: intent, then the pane that tmux finds or creates, then the
        binding if the window moved, then the publication. */
    method EnsureIdentifiedTmuxPane(id: string, config: Binding, window: Option<string>, located: Option<Located>,
                                    intentOk: bool, bindOk: bool, publishOk: bool)
      returns (r: Result<Pane, Failure>, ghost steps: seq<Step>)
      requires Counted() && id !in Maps().Panes()
      modifies this`log, this`eventCount, this`tmux, this`generations, this`pendingAllocations, this`carried
      ensures Counted() && View() == Run(old(View()), steps) && forall s <- steps :: Quiet(s)
      ensures Maps().Panes() == if r.Ok? then old(Maps()).Panes()[id := r.value] else old(Maps()).Panes()
      ensures r.Ok? ==>
                && located.Some? && r.value == StoredPane(located.value, PlannedGeneration(old(Maps()), id))
                && tmux.Some?
                && tmux.value.binding == BindingOf(located.value, IntendedBinding(old(Maps()), id, config))
                && id in generations && generations[id] == r.value.generation && id !in pendingAllocations
      ensures Without(pendingAllocations, {id}) == Without(old(pendingAllocations), {id})
      ensures Without(generations, {id}) == Without(old(generations), {id})
      ensures located.None? ==> r.Err?
    {
      hide Exec, Run, Enabled;
      var intent;
      intent, steps := EnsureAllocationIntent(id, config, window, intentOk);
      assert Without(pendingAllocations, {id}) == Without(old(pendingAllocations), {id});
      if intent.Err? {
        return Err(intent.error), steps;
      }
      if located.None? {
        return Err(TmuxError), steps;
      }
      var stored := StoredPane(located.value, intent.value.generation);
      var binding := BindingOf(located.value, intent.value.binding);
      var bound, follow := FollowWindow(binding, bindOk);
      RunAppend(old(View()), steps, follow);
      steps := steps + follow;
      if !bound {
        return Err(PersistenceFailed), steps;
      }
      CanPublish(Maps(), id, stored);
      RunOneMore(old(View()), steps, Do(PublishPane(id, stored), publishOk));
      steps := steps + [Do(PublishPane(id, stored), publishOk)];
      var ok := PublishTmuxPane(id, stored, publishOk);
      assert Without(pendingAllocations, {id}) == Without(old(pendingAllocations), {id});
      assert Without(generations, {id}) == Without(old(generations), {id});
      return if ok then Ok(stored) else Err(PersistenceFailed), steps;
    }

    /** recover_activation_pane_cleanup, as far as the driver's log shows it: intent, release, receipt. */
    method RecoverPaneCleanup(id: string, reason: string, c: CleanupWorld)
      returns (r: Result<(), Failure>, ghost steps: seq<Step>)
      requires Counted()
      modifies this`log, this`eventCount, this`tmux, this`launched, this`settled, this`ambiguous, this`submitted,
               this`pendingCleanups, this`human, this`carried
      ensures Counted() && View() == Run(old(View()), steps) && forall s <- steps :: Quiet(s)
      ensures id !in old(Maps()).Panes() ==> r == Err(TmuxError) && View() == old(View())
      ensures Maps().Panes() == old(Maps()).Panes() || Maps().Panes() == Without(old(Maps()).Panes(), {id})
      ensures r.Ok? ==> id !in Maps().Panes() && id !in pendingCleanups
      ensures id in old(Maps()).Panes() && id !in old(pendingCleanups) && |old(log)| + 3 <= U64_MAX ==>
                c == CleanupWorld(true, true, true, true) ==> r.Ok?
    {
      hide Exec, Run, ReleaseEffect, ReleasedBarriers, Reopens;
      RunNothing(View());
      steps := [];
      if Pane(id).None? {
        return Err(TmuxError), steps;
      }
      ghost var intend := Do(IntendCleanup(id, reason), c.intentOk);
      RunOneMore(View(), [], intend);
      var intent := EnsureCleanupIntent(id, reason, c.intentOk);
      steps := if View() == old(View()) then [] else [] + [intend];
      if intent.Err? || !c.assetsOk {
        return Err(if intent.Err? then intent.error else TmuxError), steps;
      }
      assert View() == Run(old(View()), steps) && Pane(id) == old(Pane(id));
      ghost var more;
      r, more := ReleaseAndReceipt(intent.value, c);
      RunAppend(old(View()), steps, more);
      steps := steps + more;
    }

    /** The end of a cleanup: the pane is released, then the receipt closes the intent. */
    method ReleaseAndReceipt(intent: CleanupIntent, c: CleanupWorld)
      returns (r: Result<(), Failure>, ghost steps: seq<Step>)
      requires Counted() && intent.activationId in Maps().Panes()
      requires intent.activationId in pendingCleanups && pendingCleanups[intent.activationId] == intent
      modifies this`log, this`eventCount, this`tmux, this`launched, this`settled, this`ambiguous, this`submitted,
               this`pendingCleanups, this`human, this`carried
      ensures Counted() && View() == Run(old(View()), steps) && forall s <- steps :: Quiet(s)
      ensures Maps().Panes() == if Appends(old(View()), c.releaseOk)
                                then Without(old(Maps()).Panes(), {intent.activationId}) else old(Maps()).Panes()
      ensures r.Ok? <==> c.releaseOk && c.receiptOk && |old(log)| + 2 <= U64_MAX
      ensures r.Ok? ==> intent.activationId !in pendingCleanups
    {
      hide Exec, Run, ReleaseEffect, ReleasedBarriers, Reopens;
      var id := intent.activationId;
      RunNothing(View());
      ghost var release := Do(Release([id]), c.releaseOk);
      RunOneMore(View(), [], release);
      OneReleased(Maps(), id, eventCount + 1);
      steps := [] + [release];
      var released := ReleaseTmuxPanes([id], c.releaseOk);
      if released.Err? {
        return Err(released.error), steps;
      }
      ghost var receipt := Do(Receipt(id), c.receiptOk);
      RunOneMore(old(View()), steps, receipt);
      steps := steps + [receipt];
      r := FinishCleanup(intent, c.receiptOk);
    }

    /** The first loop of reconcile_stale_tmux_panes: which of the owned panes tmux does not have any more. */
    method ProbeStalePanes(ids: seq<string>, worlds: seq<PaneWorld>) returns (r: Result<seq<nat>, Failure>)
      requires |worlds| == |ids|
      ensures r.Ok? ==> forall i :: i in r.value <==> 0 <= i < |ids| && Pane(ids[i]).Some? && worlds[i].presence.Absent?
      ensures r.Err? <==> exists i :: 0 <= i < |ids| && Pane(ids[i]).Some? && worlds[i].presence.ProbeFailed?
    {
      var stale: seq<nat> := [];
      for i := 0 to |ids|
        invariant forall j :: j in stale <==> 0 <= j < i && Pane(ids[j]).Some? && worlds[j].presence.Absent?
        invariant forall j :: 0 <= j < i && Pane(ids[j]).Some? ==> !worlds[j].presence.ProbeFailed?
      {
        if Pane(ids[i]).Some? {
          match worlds[i].presence {
            case ProbeFailed => return Err(TmuxError);
            case Absent => stale := stale + [i];
            case Present =>
          }
        }
      }
      return Ok(stale);
    }

    /** reconcile_stale_tmux_panes: the owned panes that tmux no longer has are cleaned up. */
    method ReconcileStalePanes(ids: seq<string>, worlds: seq<PaneWorld>)
      returns (r: Result<(), Failure>, ghost steps: seq<Step>)
      requires Counted() && |worlds| == |ids|
      modifies this`log, this`eventCount, this`tmux, this`launched, this`settled, this`ambiguous, this`submitted,
               this`pendingCleanups, this`human, this`carried
      ensures Counted() && View() == Run(old(View()), steps) && forall s <- steps :: Quiet(s)
      ensures r.Ok? ==> Maps().Panes() == Without(old(Maps()).Panes(), StaleIds(ids, worlds))
      ensures Keeps(old(Maps()).Panes(), Maps().Panes(), StaleIds(ids, worlds))
    {
      hide Exec, Run;
      RunNothing(View());
      steps := [];
      var stale := ProbeStalePanes(ids, worlds);
      if stale.Err? {
        return Err(stale.error), steps;
      }
      ghost var before := Maps().Panes();
      for k := 0 to |stale.value|
        invariant Counted() && View() == Run(old(View()), steps)
        invariant forall s <- steps :: Quiet(s)
        invariant Maps().Panes() == Without(before, IdsAt(ids, stale.value[..k]))
      {
        var i := stale.value[k];
        assert i in stale.value;
        ghost var gone, more := IdsAt(ids, stale.value[..k]), [];
        r, more := RecoverPaneCleanup(ids[i], "stale_replay", worlds[i].cleanup);
        RunAppend(old(View()), steps, more);
        steps := steps + more;
        OneMoreId(ids, stale.value, k);
        SomeAreStale(ids, worlds, stale.value, k + 1);
        assert Without(Without(before, gone), {ids[i]}) == Without(before, gone + {ids[i]});
        if r.Err? {
          return;
        }
      }
      assert stale.value[..|stale.value|] == stale.value;
      NoneIsStale(before, ids, worlds, stale.value);
      return Ok(()), steps;
    }

    /** Its first step: a requested window that is not the bound one replaces the binding and the pane map. */
    method ReplaceBinding(requested: Binding, bindOk: bool) returns (ok: bool, ghost steps: seq<Step>)
      requires Counted()
      modifies this`log, this`eventCount, this`tmux, this`carried
      ensures Counted() && View() == Run(old(View()), steps) && forall s <- steps :: Quiet(s)
      ensures ok <==> !Replaces(old(Maps()), requested) || Appends(old(View()), bindOk)
      ensures Maps().Panes() == if ok && Replaces(old(Maps()), requested) then map[] else old(Maps()).Panes()
      ensures ok && Replaces(old(Maps()), requested) ==> tmux.Some? && tmux.value.binding == requested
    {
      hide Exec, Run;
      RunNothing(View());
      steps := [];
      if requested.windowId == "" || (tmux.Some? && tmux.value.binding == requested) {
        return true, steps;
      }
      RunOneMore(View(), [], Do(Bind(requested), bindOk));
      steps := [] + [Do(Bind(requested), bindOk)];
      ok := BindTmux(requested, false, bindOk);
    }

    /** ensure_tmux_for_activations: a requested window that is not the bound one replaces the binding;
        stale panes are cleaned up; then every activation without a pane gets the one located for it, with
        the next generation, and every one with a pane keeps it. */
    method EnsureTmuxForActivations(requested: Binding, window: Option<string>, ids: seq<string>,
                                    worlds: seq<PaneWorld>, bindOk: bool)
      returns (r: Result<seq<Pane>, Failure>, ghost steps: seq<Step>)
      requires Counted() && |worlds| == |ids| && requested.windowId == window.GetOr("")
      modifies this`log, this`eventCount, this`tmux, this`generations, this`pendingAllocations, this`pendingCleanups,
               this`launched, this`settled, this`ambiguous, this`submitted, this`human, this`carried
      ensures Counted() && View() == Run(old(View()), steps) && forall s <- steps :: Quiet(s)
      ensures r.Ok? ==> |r.value| == |ids| && forall i :: 0 <= i < |ids| ==> Owns(Maps(), ids[i], r.value[i])
      ensures r.Ok? ==>
                Provides(old(Maps()),
                         if Replaces(old(Maps()), requested) then map[]
                         else Without(old(Maps()).Panes(), StaleIds(ids, worlds)),
                         ids, worlds, r.value)
      ensures !Replaces(old(Maps()), requested) ==>
                Keeps(old(Maps()).Panes(), Maps().Panes(), StaleIds(ids, worlds))
    {
      hide Exec, Run, Keeps, Provides, StaleIds, Replaces;
      KeepsAll(Maps().Panes(), StaleIds(ids, worlds));
      var bound;
      bound, steps := ReplaceBinding(requested, bindOk);
      if !bound {
        return Err(PersistenceFailed), steps;
      }
      ghost var more;
      r, more := ReconcileAndAllocate(requested, window, ids, worlds);
      BoundProvides(old(Maps()), requested, if r.Ok? then r.value else [], ids, worlds);
      RunAppend(old(View()), steps, more);
      steps := steps + more;
    }

    /** Its second and third step: stale panes are cleaned up, then missing ones are allocated. */
    method ReconcileAndAllocate(requested: Binding, window: Option<string>, ids: seq<string>, worlds: seq<PaneWorld>)
      returns (r: Result<seq<Pane>, Failure>, ghost steps: seq<Step>)
      requires Counted() && |worlds| == |ids|
      modifies this`log, this`eventCount, this`tmux, this`generations, this`pendingAllocations, this`pendingCleanups,
               this`launched, this`settled, this`ambiguous, this`submitted, this`human, this`carried
      ensures Counted() && View() == Run(old(View()), steps) && forall s <- steps :: Quiet(s)
      ensures r.Ok? ==> |r.value| == |ids| && forall i :: 0 <= i < |ids| ==> Owns(Maps(), ids[i], r.value[i])
      ensures r.Ok? ==> Provides(old(Maps()), Without(old(Maps()).Panes(), StaleIds(ids, worlds)), ids, worlds, r.value)
      ensures Keeps(old(Maps()).Panes(), Maps().Panes(), StaleIds(ids, worlds))
    {
      hide Exec, Run, Keeps, Provides, StaleIds, Owns;
      var reconciled;
      reconciled, steps := ReconcileStalePanes(ids, worlds);
      if reconciled.Err? {
        return Err(reconciled.error), steps;
      }
      ghost var more, middle := [], Maps();
      r, more := AllocateMissing(requested, window, ids, worlds);
      KeepsMore(old(Maps()).Panes(), middle.Panes(), Maps(), StaleIds(ids, worlds));
      SamePlans(old(Maps()), middle, middle.Panes(), ids, worlds, if r.Ok? then r.value else []);
      RunAppend(old(View()), steps, more);
      steps := steps + more;
    }

    /** One round of its loop over the activations: an owned pane stays, a missing one is allocated. */
    method OwnOrAllocate(requested: Binding, window: Option<string>, id: string, w: PaneWorld)
      returns (r: Result<Pane, Failure>, ghost steps: seq<Step>)
      requires Counted()
      modifies this`log, this`eventCount, this`tmux, this`generations, this`pendingAllocations, this`carried
      ensures Counted() && View() == Run(old(View()), steps) && forall s <- steps :: Quiet(s)
      ensures Maps().Panes() == if r.Ok? then old(Maps()).Panes()[id := r.value] else old(Maps()).Panes()
      ensures id in old(Maps()).Panes() ==> r == Ok(old(Maps()).Panes()[id])
      ensures r.Ok? && id !in old(Maps()).Panes() ==>
                w.located.Some? && r.value == StoredPane(w.located.value, PlannedGeneration(old(Maps()), id))
      ensures forall other :: other != id ==> PlannedGeneration(Maps(), other) == PlannedGeneration(old(Maps()), other)
    {
      hide Exec, Run, PlannedGeneration;
      steps := [];
      RunNothing(View());
      var pane := Pane(id);
      if pane.Some? {
        assert Maps().Panes()[id := pane.value] == Maps().Panes();
        return Ok(pane.value), steps;
      }
      var current := if tmux.Some? && tmux.value.binding.windowId != "" then Some(tmux.value.binding.windowId)
                     else window;
      r, steps := EnsureIdentifiedTmuxPane(id, requested, current, w.located, w.intentOk, w.bindOk, w.publishOk);
      OthersStayPlanned(old(Maps()), Maps(), id);
    }

    method AllocateMissing(requested: Binding, window: Option<string>, ids: seq<string>, worlds: seq<PaneWorld>)
      returns (r: Result<seq<Pane>, Failure>, ghost steps: seq<Step>)
      requires Counted() && |worlds| == |ids|
      modifies this`log, this`eventCount, this`tmux, this`generations, this`pendingAllocations, this`carried
      ensures Counted() && View() == Run(old(View()), steps) && forall s <- steps :: Quiet(s)
      ensures r.Ok? ==> |r.value| == |ids| && forall i :: 0 <= i < |ids| ==> Owns(Maps(), ids[i], r.value[i])
      ensures r.Ok? ==> Provides(old(Maps()), old(Maps()).Panes(), ids, worlds, r.value)
      ensures forall id <- old(Maps()).Panes() :: Owns(Maps(), id, old(Maps()).Panes()[id])
    {
      hide Exec, Run, PlannedGeneration, Quiet, Served;
      steps := [];
      RunNothing(View());
      var panes := [];
      NoneServed(Maps(), ids, worlds);
      for i := 0 to |ids|
        invariant Counted() && View() == Run(old(View()), steps) && forall s <- steps :: Quiet(s)
        invariant |panes| == i && Served(old(Maps()), Maps(), ids, worlds, panes)
      {
        ghost var before := Maps();
        var pane, more := OwnOrAllocate(requested, window, ids[i], worlds[i]);
        RunAppend(old(View()), steps, more);
        steps := steps + more;
        if pane.Err? {
          ServedKeeps(old(Maps()), before, ids, worlds, panes);
          return Err(pane.error), steps;
        }
        OneMoreServed(old(Maps()), before, Maps(), ids, worlds, panes, pane.value);
        panes := panes + [pane.value];
      }
      ServedKeeps(old(Maps()), Maps(), ids, worlds, panes);
      return Ok(panes), steps;
    }

    /** ensure_tmux_pane_cleanup_intent for the pane that is owned now. */
    method EnsureCleanupIntent(id: string, reason: string, appendOk: bool) returns (r: Result<CleanupIntent, Failure>)
      requires Counted() && id in Maps().Panes()
      modifies this`log, this`eventCount, this`pendingCleanups
      ensures Counted()
      ensures View() == old(View()) || View() == Exec(old(View()), Do(IntendCleanup(id, reason), appendOk))
      ensures id !in old(pendingCleanups) ==> View() == Exec(old(View()), Do(IntendCleanup(id, reason), appendOk))
      ensures r == Err(TmuxError) <==>
                id in old(pendingCleanups) && old(pendingCleanups)[id].(reason := "")
                                              != CleanupIntent(id, Pane(id).value.generation, Pane(id).value, "")
      ensures r.Ok? ==> id in pendingCleanups && pendingCleanups[id] == r.value && r.value.activationId == id
      ensures r.Ok? ==> r.value.pane == Pane(id).value
      ensures r.Ok? || r == Err(TmuxError) || (r == Err(PersistenceFailed) && !Appends(old(View()), appendOk))
      ensures |log| <= |old(log)| + 1
    {
      hide Exec;
      var pane := Pane(id).value;
      if id in pendingCleanups {
        var intent := pendingCleanups[id];
        if intent.activationId != id || intent.generation != pane.generation || intent.pane != pane {
          return Err(TmuxError);
        }
        return Ok(intent);
      }
      CommitCleanup(View(), id, reason, appendOk);
      var intent := CleanupIntent(id, pane.generation, pane, reason);
      var ok := AppendDriverEvent(CleanupIntended(intent), appendOk);
      if !ok {
        return Err(PersistenceFailed);
      }
      pendingCleanups := pendingCleanups[id := intent];
      return Ok(intent);
    }

    /** finish_tmux_pane_cleanup: the receipt closes the pending intent. */
    method FinishCleanup(intent: CleanupIntent, appendOk: bool) returns (r: Result<(), Failure>)
      requires Counted() && intent.activationId !in Maps().Panes()
      requires intent.activationId in pendingCleanups && pendingCleanups[intent.activationId] == intent
      modifies this`log, this`eventCount, this`pendingCleanups
      ensures Counted()
      ensures View() == Exec(old(View()), Do(Receipt(intent.activationId), appendOk))
      ensures r == if Appends(old(View()), appendOk) then Ok(()) else Err(PersistenceFailed)
      ensures r.Ok? ==> intent.activationId !in pendingCleanups
    {
      hide Exec;
      CommitCleanup(View(), intent.activationId, "", appendOk);
      var ok := AppendDriverEvent(CleanupReceipt(intent), appendOk);
      if !ok {
        return Err(PersistenceFailed);
      }
      pendingCleanups := Without(pendingCleanups, {intent.activationId});
      return Ok(());
    }

    /** Starts an input of an owned pane and hands it to tmux, which takes it or does not. */
    method StartAndSend(ghost op: Op, id: string, role: Role, messageId: Option<string>, hash: string, appendOk: bool,
                        ghost taken: bool)
      returns (r: Result<Submitted, Failure>)
      requires Counted() && Accounts(log, history)
      requires IsStart(op) && Enabled(Maps(), op) && op.activationId == id
      requires StartedPayload(Maps(), op) == StartPayload(Maps(), id, role, messageId, hash)
      modifies this`log, this`eventCount, this`ambiguous, this`submitted, this`history
      ensures Counted() && Accounts(log, history)
      ensures View() == Exec(old(View()), Do(op, appendOk))
      ensures r.Ok? <==> Appends(old(View()), appendOk)
      ensures r.Ok? ==> |log| == |old(log)| + 1 && history == old(history).Sent(|log|, taken)
      ensures r.Ok? ==> KeyOf(r.value) == DeliveryKey(id, role, messageId, old(Maps()).Panes()[id].generation)
      ensures r.Ok? ==> r.value == FromPayload(StartedPayload(old(Maps()), op), |log|).delivery
      ensures r.Ok? ==> ambiguous == old(ambiguous)[KeyOf(r.value) := Ambiguous(r.value, SubmissionReceiptIncomplete)]
      ensures r.Ok? ==> submitted == Without(old(submitted), {KeyOf(r.value)})
      ensures r.Err? ==> r.error == PersistenceFailed && history == old(history) && View() == old(View())
    {
      hide Exec, RoleKey, Accounts;
      CommitStart(View(), op, appendOk);
      var pane := Pane(id);
      var started := StartInputDelivery(id, pane.value.paneId, role, messageId, hash, appendOk);
      if started.Err? {
        return Err(started.error);
      }
      AccountsForSend(old(log), log, history, taken);
      history := history.Sent(|log|, taken);
      return Ok(started.value.delivery);
    }

    /** The submission of a launch or prompt that is known to have been submitted. */
    method Conclude(id: string, role: Role, generation: nat, finishOk: bool) returns (ok: bool)
      requires Counted() && Accounts(log, history) && role in {AgentLaunch, NodePrompt}
      requires var key := DeliveryKey(id, role, None, generation);
               key in ambiguous && ambiguous[key].delivery.startedSeq in history.Known()
      modifies this`log, this`eventCount, this`ambiguous, this`submitted, this`launched, this`settled
      ensures Counted() && Accounts(log, history)
      ensures View() == Exec(old(View()), Do(Finish(id, role, None, generation), finishOk))
      ensures ok == Appends(old(View()), finishOk)
      ensures ok ==>
                var key := DeliveryKey(id, role, None, generation);
                && ambiguous == Without(old(ambiguous), {key})
                && submitted == old(submitted)[key := old(ambiguous)[key].delivery]
                && launched == old(launched) + {(id, generation)}
                && settled == old(settled) + (if role == NodePrompt then {(id, generation)} else {})
                && |log| == |old(log)| + 1
      ensures !ok ==> View() == old(View())
    {
      hide Exec, RoleKey, Accounts, FinishEffect;
      ghost var before := log;
      var finished := FinishInputDelivery(id, role, None, generation, finishOk);
      AccountsForMore(before, log, history, history);
      return finished.Ok?;
    }

    /** submitted_machine_input: what the machine-input ledger says of the delivery. */
    method FindInLedger(ghost startedSeq: nat, records: bool) returns (found: bool)
      requires Accounts(log, history)
      modifies this`history
      ensures Accounts(log, history) && found == records
      ensures history == old(history).(recorded := if records then old(history).recorded + {startedSeq}
                                                   else old(history).recorded)
    {
      hide Accounts;
      ghost var before := history;
      if records {
        history := history.(recorded := history.recorded + {startedSeq});
      }
      AccountsForMore(log, log, before, history);
      return records;
    }

    /** A launch or prompt that is let through: barrier, send, publication, submission. `Ok(true)` if all
        of it happened, `Ok(false)` if tmux did not take the input; either way, or if something fails behind
        the barrier, the barrier stays unless the input was submitted. */
    method SendInput(ghost op: Op, id: string, pane: Pane, role: Role, hash: string, startOk: bool, taken: bool,
                     published: bool, finishOk: bool)
      returns (r: Result<bool, Failure>, ghost steps: seq<Step>)
      requires Counted() && Accounts(log, history) && Pane(id) == Some(pane) && role in {AgentLaunch, NodePrompt}
      requires op == (if role == AgentLaunch then StartLaunch(id, hash) else StartPrompt(id, hash))
      requires Enabled(Maps(), op)
      modifies this`log, this`eventCount, this`ambiguous, this`submitted, this`launched, this`settled, this`history
      ensures Counted() && Accounts(log, history)
      ensures View() == Run(old(View()), steps)
      ensures forall s <- steps :: Actuates(s, id)
      ensures Appends(old(View()), startOk) ==> history == old(history).Sent(|old(log)| + 1, taken)
      ensures !Appends(old(View()), startOk) ==>
                r == Err(PersistenceFailed) && View() == old(View()) && history == old(history)
      ensures r == Ok(true) <==>
                Appends(old(View()), startOk) && taken && published && finishOk && |old(log)| + 2 <= U64_MAX
      ensures r == Ok(false) <==> Appends(old(View()), startOk) && !taken
      ensures r.Err? ==> r.error == PersistenceFailed
      ensures Appends(old(View()), startOk) ==>
                var key, allocation := DeliveryKey(id, role, None, pane.generation), (id, pane.generation);
                if r == Ok(true) then
                  && key !in ambiguous && key in submitted && submitted[key].startedSeq == |old(log)| + 1
                  && launched == old(launched) + {allocation}
                  && settled == old(settled) + (if role == NodePrompt then {allocation} else {})
                  && |log| == |old(log)| + 2
                else
                  && key in ambiguous && key !in submitted && ambiguous[key].delivery.startedSeq == |old(log)| + 1
                  && launched == old(launched) && settled == old(settled)
                  && |log| == |old(log)| + 1
      ensures Without(ambiguous, {DeliveryKey(id, role, None, pane.generation)})
           == Without(old(ambiguous), {DeliveryKey(id, role, None, pane.generation)})
    {
      hide Exec, Run, RoleKey, Accounts, FinishEffect, Enabled, Actuates, StartedPayload, StartPayload, FromPayload;
      hide KeyOf, DeliveryKey, Without;
      RunNothing(View());
      RunOneMore(View(), [], Do(op, startOk));
      steps := [] + [Do(op, startOk)];
      StartsInput(Maps(), op, id, role, hash);
      InputActuates(op, id, role, hash, pane.generation);
      PayloadSequence(StartedPayload(Maps(), op), |log| + 1);
      var started := StartAndSend(op, id, role, None, hash, startOk, taken);
      if started.Err? {
        return Err(started.error), steps;
      }
      ghost var key := DeliveryKey(id, role, None, pane.generation);
      WithoutKey(old(ambiguous), key, Ambiguous(started.value, SubmissionReceiptIncomplete));
      WithoutKey(ambiguous, key, Ambiguous(started.value, SubmissionReceiptIncomplete));
      NotWithout(old(submitted), key);
      ghost var more;
      r, more := AfterSend(id, role, pane.generation, taken, published, finishOk);
      RunAppend(old(View()), steps, more);
      steps := steps + more;
    }

    /** What follows the send: publication, if tmux took the input, and submission. */
    method AfterSend(id: string, role: Role, generation: nat, taken: bool, published: bool, finishOk: bool)
      returns (r: Result<bool, Failure>, ghost steps: seq<Step>)
      requires Counted() && Accounts(log, history) && role in {AgentLaunch, NodePrompt}
      requires var key := DeliveryKey(id, role, None, generation);
               key in ambiguous && (taken ==> ambiguous[key].delivery.startedSeq in history.took)
      modifies this`log, this`eventCount, this`ambiguous, this`submitted, this`launched, this`settled
      ensures Counted() && Accounts(log, history)
      ensures View() == Run(old(View()), steps)
      ensures forall s <- steps :: Actuates(s, id)
      ensures r == Ok(true) <==> taken && published && Appends(old(View()), finishOk)
      ensures r == Ok(false) <==> !taken
      ensures r.Err? ==> r.error == PersistenceFailed
      ensures r != Ok(true) ==> View() == old(View())
      ensures r == Ok(true) ==>
                var key := DeliveryKey(id, role, None, generation);
                && ambiguous == Without(old(ambiguous), {key})
                && submitted == old(submitted)[key := old(ambiguous)[key].delivery]
                && launched == old(launched) + {(id, generation)}
                && settled == old(settled) + (if role == NodePrompt then {(id, generation)} else {})
                && |log| == |old(log)| + 1
    {
      hide Exec, Run, RoleKey, Accounts, FinishEffect;
      steps := [];
      RunNothing(View());
      if !taken {
        return Ok(false), steps;
      }
      if !published {
        return Err(PersistenceFailed), steps;
      }
      ghost var finish := Do(Finish(id, role, None, generation), finishOk);
      RunOneMore(View(), steps, finish);
      steps := steps + [finish];
      var ok := Conclude(id, role, generation, finishOk);
      return if ok then Ok(true) else Err(PersistenceFailed), steps;
    }

    /** An input whose barrier is open already: it is submitted if the ledger records it for the same pane, and
        otherwise left to the operator. */
    method RecoverInput(id: string, pane: Pane, role: Role, records: bool, finishOk: bool)
      returns (r: Result<bool, Failure>, ghost steps: seq<Step>)
      requires Counted() && Accounts(log, history) && role in {AgentLaunch, NodePrompt}
      requires DeliveryKey(id, role, None, pane.generation) in ambiguous
      modifies this`log, this`eventCount, this`ambiguous, this`submitted, this`launched, this`settled, this`history
      ensures Counted() && Accounts(log, history)
      ensures history.sends == old(history).sends && history.took == old(history).took
      ensures View() == Run(old(View()), steps)
      ensures forall s <- steps :: Actuates(s, id)
      ensures var key := DeliveryKey(id, role, None, pane.generation);
              var found := records && old(ambiguous)[key].delivery.paneId == pane.paneId;
              r == if !found then Ok(false)
                   else if Appends(old(View()), finishOk) then Ok(true)
                   else Err(PersistenceFailed)
      ensures r != Ok(true) ==> View() == old(View())
      ensures r == Ok(true) ==>
                var key := DeliveryKey(id, role, None, pane.generation);
                && ambiguous == Without(old(ambiguous), {key})
                && submitted == old(submitted)[key := old(ambiguous)[key].delivery]
                && launched == old(launched) + {(id, pane.generation)}
                && settled == old(settled) + (if role == NodePrompt then {(id, pane.generation)} else {})
                && |log| == |old(log)| + 1
    {
      hide Exec, Run, RoleKey, Accounts, FinishEffect;
      steps := [];
      RunNothing(View());
      var delivery := ambiguous[DeliveryKey(id, role, None, pane.generation)].delivery;
      if delivery.paneId != pane.paneId {
        return Ok(false), steps;
      }
      var found := FindInLedger(delivery.startedSeq, records);
      if !found {
        return Ok(false), steps;
      }
      ghost var finish := Do(Finish(id, role, None, pane.generation), finishOk);
      RunOneMore(View(), steps, finish);
      steps := steps + [finish];
      var ok := Conclude(id, role, pane.generation, finishOk);
      return if ok then Ok(true) else Err(PersistenceFailed), steps;
    }

    /** The launch half of a round: recover a recorded launch, or start one behind its barrier.
        `Ok(true)` lets the round go on to the prompt. */
    method Launch(id: string, pane: Pane, w: ActivationWorld)
      returns (r: Result<bool, Failure>, ghost steps: seq<Step>)
      requires Counted() && Accounts(log, history)
      requires Pane(id) == Some(pane) && (id, pane.generation) !in settled
      modifies this`log, this`eventCount, this`ambiguous, this`submitted, this`launched, this`settled, this`history
      ensures Counted() && Accounts(log, history)
      ensures View() == Run(old(View()), steps)
      ensures forall s <- steps :: Actuates(s, id)
      ensures r == Ok(true) <==> LaunchGoesOn(old(View()), id, pane, w)
      ensures r == Ok(true) ==> (id, pane.generation) in launched
      ensures r != Ok(true) ==> launched == old(launched)
      ensures r.Err? ==> r.error == PersistenceFailed
      ensures settled == old(settled)
      ensures var key := DeliveryKey(id, AgentLaunch, None, pane.generation);
              && Without(ambiguous, {key}) == Without(old(ambiguous), {key})
              && ((id, pane.generation) in old(launched) ==>
                    View() == old(View()) && history == old(history) && |log| == |old(log)|)
              && ((id, pane.generation) !in old(launched) && key in old(ambiguous) ==>
                    && history.sends == old(history).sends && history.took == old(history).took
                    && (r != Ok(true) ==> View() == old(View())))
              && ((id, pane.generation) !in old(launched) && key !in old(ambiguous) ==>
                    && history == (if Appends(old(View()), w.launchStartOk)
                                   then old(history).Sent(|old(log)| + 1, w.launchSent) else old(history))
                    && (r != Ok(true) && Appends(old(View()), w.launchStartOk) ==>
                          key in ambiguous && key !in submitted)
                    && (r == Ok(true) ==> |log| == |old(log)| + 2))
    {
      hide Exec, Run, RoleKey, Accounts, FinishEffect;
      steps := [];
      RunNothing(View());
      if (id, pane.generation) in launched {
        return Ok(true), steps;
      }
      if DeliveryKey(id, AgentLaunch, None, pane.generation) in ambiguous {
        r, steps := RecoverInput(id, pane, AgentLaunch, w.launchRecorded, w.launchFinishOk);
      } else {
        r, steps := SendInput(StartLaunch(id, w.launchHash), id, pane, AgentLaunch, w.launchHash, w.launchStartOk,
                              w.launchSent, w.launchPublished, w.launchFinishOk);
      }
    }

    /** The prompt half of a round. */
    method Prompt(id: string, pane: Pane, w: ActivationWorld)
      returns (r: Result<Outcome, Failure>, ghost steps: seq<Step>)
      requires Counted() && Accounts(log, history)
      requires Pane(id) == Some(pane) && (id, pane.generation) !in settled && (id, pane.generation) in launched
      modifies this`log, this`eventCount, this`ambiguous, this`submitted, this`launched, this`settled, this`history
      ensures Counted() && Accounts(log, history)
      ensures View() == Run(old(View()), steps)
      ensures forall s <- steps :: Actuates(s, id)
      ensures r == Ok(Sent) <==> PromptGoesOut(old(View()), id, pane, w)
      ensures r != Ok(Skipped) && (r.Err? ==> r.error == PersistenceFailed)
      ensures var key := DeliveryKey(id, NodePrompt, None, pane.generation);
              && (if r != Ok(Sent) then settled == old(settled)
                  else key !in ambiguous && key in submitted && settled == old(settled) + {(id, pane.generation)})
              && (key in old(ambiguous) ==>
                    && history.sends == old(history).sends && history.took == old(history).took
                    && (r != Ok(Sent) ==> View() == old(View())))
              && (key !in old(ambiguous) && !w.ready ==>
                    r == Ok(Warned) && View() == old(View()) && history == old(history))
              && (key !in old(ambiguous) && w.ready ==>
                    && history == (if Appends(old(View()), w.promptStartOk)
                                   then old(history).Sent(|old(log)| + 1, w.promptSent) else old(history))
                    && (r != Ok(Sent) && Appends(old(View()), w.promptStartOk) ==>
                          key in ambiguous && key !in submitted))
    {
      hide Exec, Run, RoleKey, Accounts, FinishEffect;
      steps := [];
      RunNothing(View());
      var sent;
      if DeliveryKey(id, NodePrompt, None, pane.generation) in ambiguous {
        sent, steps := RecoverInput(id, pane, NodePrompt, w.promptRecorded, w.promptFinishOk);
      } else if !w.ready {
        return Ok(Warned), steps;
      } else {
        sent, steps := SendInput(StartPrompt(id, w.promptHash), id, pane, NodePrompt, w.promptHash, w.promptStartOk,
                                 w.promptSent, w.promptPublished, w.promptFinishOk);
      }
      return if sent.Err? then Err(sent.error) else Ok(if sent.value then Sent else Warned), steps;
    }

    /** Starting the capture and the participant, as far as the log shows it. */
    method LogPreparations(ghost id: string, count: nat, prepared: bool) returns (ok: bool, ghost steps: seq<Step>)
      requires Counted() && Accounts(log, history)
      modifies this`log, this`eventCount
      ensures Counted() && Accounts(log, history)
      ensures View() == Run(old(View()), steps) && Maps() == old(Maps())
      ensures forall s <- steps :: Actuates(s, id)
      ensures ok <==> prepared && |old(log)| + count <= U64_MAX
      ensures ok ==> |log| == |old(log)| + count
    {
      hide Exec, Run, Accounts;
      steps := [];
      RunNothing(View());
      for i := 0 to count
        invariant Counted() && Accounts(log, history) && |log| == |old(log)| + i
        invariant View() == Run(old(View()), steps) && Maps() == old(Maps())
        invariant forall s <- steps :: Actuates(s, id)
      {
        RunOneMore(old(View()), steps, Do(LogOther, true));
        CommitOther(View(), true);
        steps := steps + [Do(LogOther, true)];
        ghost var before := log;
        var appended := AppendDriverEvent(OtherEvent, true);
        AccountsForMore(before, log, history, history);
        if !appended {
          return false, steps;
        }
      }
      return prepared, steps;
    }

    /** The part of a round that sends: the launch unless it was submitted before, then the prompt. */
    method LaunchAndPrompt(id: string, pane: Pane, w: ActivationWorld)
      returns (r: Result<Outcome, Failure>, ghost steps: seq<Step>)
      requires Counted() && Accounts(log, history)
      requires Pane(id) == Some(pane) && (id, pane.generation) !in settled
      modifies this`log, this`eventCount, this`ambiguous, this`submitted, this`launched, this`settled, this`history
      ensures Counted() && Accounts(log, history)
      ensures View() == Run(old(View()), steps)
      ensures forall s <- steps :: Actuates(s, id)
      ensures Willing(w) && Clear(old(View()), id, w.preparations) ==>
                && r == Ok(Sent)
                && history.sends == old(history).sends + [|old(log)| + w.preparations + 1]
                                    + [|old(log)| + w.preparations + 3]
      ensures r == Ok(Sent) ==> RoundSucceeds(old(View()), id, pane, w)
      ensures var key := DeliveryKey(id, NodePrompt, None, pane.generation);
              if r != Ok(Sent) then settled == old(settled)
              else key !in ambiguous && key in submitted && settled == old(settled) + {(id, pane.generation)}
      ensures r != Ok(Skipped)
    {
      hide Exec, Run, RoleKey, Accounts, FinishEffect, Willing, Clear, LaunchGoesOn, PromptGoesOut, RoundSucceeds;
      steps := [];
      RunNothing(View());
      var logged;
      logged, steps := LogPreparations(id, w.preparations, w.prepared);
      if !logged {
        WillingPrepares(old(View()), id, w);
        return Err(TmuxError), steps;
      }
      ghost var l1 := View();
      ClearRoundLaunches(old(View()), l1, id, pane, w);
      var ready;
      ghost var launch;
      ready, launch := Launch(id, pane, w);
      RunAppend(old(View()), steps, launch);
      steps := steps + launch;
      if ready != Ok(true) {
        return if ready.Ok? then Ok(Warned) else Err(ready.error), steps;
      }
      RoundIs(old(View()), l1, View(), id, pane, w);
      LaunchIsNotPrompt(id, pane.generation);
      ghost var more;
      r, more := Prompt(id, pane, w);
      RunAppend(old(View()), steps, more);
      steps := steps + more;
    }

    /** One round of the loop of actuate_activations: the gates, then launch, then prompt. */
    method ActuateActivation(id: string, w: ActivationWorld)
      returns (r: Result<Outcome, Failure>, ghost steps: seq<Step>)
      requires Counted() && Accounts(log, history)
      modifies this`log, this`eventCount, this`ambiguous, this`submitted, this`launched, this`settled, this`human,
               this`history
      ensures Counted() && Accounts(log, history)
      ensures View() == Run(old(View()), steps)
      ensures forall s <- steps :: Actuates(s, id)
      ensures !MayActuate(old(View()), id, w) ==> View() == old(View()) && history == old(history)
      ensures w.driver.None? ==> r == Ok(Skipped)
      ensures w.driver.Some? && Pane(id).None? ==> r == Ok(Warned)
      ensures w.driver.Some? && Pane(id).Some? && (id, Pane(id).value.generation) in old(settled) ==> r == Ok(Skipped)
      ensures w.driver == Some(FlowData.Human) && Pane(id).Some? && (id, Pane(id).value.generation) !in old(settled) ==>
                r == Ok(Skipped) && View() == Exec(old(View()), SettleHuman(id)) && history == old(history)
      ensures w.driver == Some(FlowData.Script) && Pane(id).Some? ==>
                (id, Pane(id).value.generation) !in old(settled) ==> r == Ok(Warned)
      ensures Willing(w) && Clear(old(View()), id, w.preparations)
              && w.driver in {Some(FlowData.Agent), Some(FlowData.Review)} ==>
                && r == Ok(Sent)
                && history.sends == old(history).sends + [|old(log)| + w.preparations + 1]
                                    + [|old(log)| + w.preparations + 3]
      ensures r == Ok(Sent) ==>
                && w.driver in {Some(FlowData.Agent), Some(FlowData.Review)} && Pane(id).Some?
                && RoundSucceeds(old(View()), id, Pane(id).value, w)
                && (id, Pane(id).value.generation) in settled
                && DeliveryKey(id, NodePrompt, None, Pane(id).value.generation) in submitted
      ensures r != Ok(Sent) && w.driver != Some(FlowData.Human) ==> settled == old(settled)
      ensures old(settled) <= settled
    {
      hide Exec, Run, RoleKey, Accounts, FinishEffect, RoundSucceeds, Clear, Willing;
      steps := [];
      RunNothing(View());
      if w.driver.None? {
        return Ok(Skipped), steps;
      }
      var pane := Pane(id);
      if pane.None? {
        ClearOwns(View(), id, w.preparations);
        return Ok(Warned), steps;
      }
      var allocation := (id, pane.value.generation);
      if allocation in settled {
        ClearOwns(View(), id, w.preparations);
        return Ok(Skipped), steps;
      }
      if w.driver.value == FlowData.Human {
        RunOneMore(View(), steps, SettleHuman(id));
        HumanIs(View(), id);
        settled, human := settled + {allocation}, human + {allocation};
        return Ok(Skipped), steps + [SettleHuman(id)];
      }
      if w.driver.value == FlowData.Script {
        return Ok(Warned), steps;
      }
      r, steps := LaunchAndPrompt(id, pane.value, w);
    }

    /** actuate_activations: one round per activation; an error ends the loop. */
    method ActuateActivations(ids: seq<string>, worlds: seq<ActivationWorld>)
      returns (r: Result<seq<string>, Failure>, ghost steps: seq<Step>)
      requires Counted() && Accounts(log, history) && |worlds| == |ids|
      modifies this`log, this`eventCount, this`ambiguous, this`submitted, this`launched, this`settled, this`human,
               this`history
      ensures Counted() && Accounts(log, history)
      ensures View() == Run(old(View()), steps)
      ensures forall s <- steps :: exists id <- ids :: Actuates(s, id)
      ensures r.Ok? ==>
                forall id <- r.value :: id in ids && Pane(id).Some? && (id, Pane(id).value.generation) in settled
    {
      hide Exec, Run, Accounts, RoundSucceeds, MayActuate, Clear, Willing;
      var sent := [];
      steps := [];
      RunNothing(View());
      for i := 0 to |ids|
        invariant Counted() && Accounts(log, history)
        invariant View() == Run(old(View()), steps)
        invariant forall s <- steps :: exists id <- ids :: Actuates(s, id)
        invariant forall id <- sent :: id in ids && Pane(id).Some? && (id, Pane(id).value.generation) in settled
      {
        var outcome, more := ActuateActivation(ids[i], worlds[i]);
        RunAppend(old(View()), steps, more);
        steps := steps + more;
        if outcome.Err? {
          return Err(outcome.error), steps;
        }
        if outcome.value == Sent {
          sent := sent + [ids[i]];
        }
      }
      return Ok(sent), steps;
    }

    /** The second half of send_message: a fresh message id for an owned pane. */
    method SendNewMessage(id: string, message: string, hash: string, sendOk: bool, publishOk: bool, startOk: bool,
                          finishOk: bool)
      returns (r: Result<MessageReply, Failure>, ghost steps: seq<Step>)
      requires Counted() && Accounts(log, history)
      requires id in Maps().Panes() && !CarriesMessage(Maps(), message)
      modifies this`log, this`eventCount, this`ambiguous, this`submitted, this`launched, this`settled, this`history
      ensures Counted() && Accounts(log, history)
      ensures View() == Run(old(View()), steps)
      ensures forall s <- steps :: Messages(s, id, message)
      ensures r.Err? <==> !Appends(old(View()), startOk)
      ensures r.Err? ==> r.error == PersistenceFailed && View() == old(View()) && history == old(history)
      ensures r.Ok? ==> history == old(history).Sent(|old(log)| + 1, sendOk)
      ensures r.Ok? ==> (r.value.Receipted? <==> sendOk && publishOk && finishOk && |old(log)| + 2 <= U64_MAX)
      ensures r.Ok? ==>
                var d := r.value.delivery;
                && d.messageId == Some(message) && d.activationId == id && d.payloadHash == hash
                && d.startedSeq == |old(log)| + 1
                && (if r.value.Receipted?
                    then KeyOf(d) !in ambiguous && KeyOf(d) in submitted && submitted[KeyOf(d)] == d
                    else KeyOf(d) !in submitted && KeyOf(d) in ambiguous && ambiguous[KeyOf(d)].delivery == d)
      ensures launched == old(launched) && settled == old(settled)
    {
      hide Exec, Run, RoleKey, Accounts, CarriesMessage, FinishEffect;
      steps := [];
      RunNothing(View());
      var pane := Pane(id);
      ghost var start := Do(StartMessage(id, message, hash), startOk);
      RunOneMore(View(), steps, start);
      steps := steps + [start];
      var started := StartAndSend(start.op, id, ParticipantMessage, Some(message), hash, startOk, sendOk);
      if started.Err? {
        return Err(started.error), steps;
      }
      var delivery := started.value;
      if !sendOk || !publishOk {
        return Ok(AmbiguousReply(delivery)), steps;
      }
      ghost var finish := Do(Finish(id, ParticipantMessage, Some(message), pane.value.generation), finishOk);
      RunOneMore(old(View()), steps, finish);
      steps := steps + [finish];
      ghost var before := log;
      var finished := FinishInputDelivery(id, ParticipantMessage, Some(message), pane.value.generation, finishOk);
      AccountsForMore(before, log, history, history);
      if finished.Err? {
        return Ok(AmbiguousReply(delivery)), steps;
      }
      return Ok(Receipted(delivery)), steps;
    }

    /** send_message: a message id that is already filed is answered from what is filed; a new one is
        started, sent, published and finished. The activation is not found, or found running or not. */
    method SendMessage(id: string, message: string, hash: string, activation: Option<bool>, sendOk: bool,
                       publishOk: bool, startOk: bool, finishOk: bool)
      returns (r: Result<MessageReply, Failure>, ghost steps: seq<Step>)
      requires Counted() && Accounts(log, history)
      modifies this`log, this`eventCount, this`ambiguous, this`submitted, this`launched, this`settled, this`history
      ensures Counted() && Accounts(log, history)
      ensures View() == Run(old(View()), steps)
      ensures forall s <- steps :: Messages(s, id, message)
      ensures CarriesMessage(old(Maps()), message) ==>
                && View() == old(View()) && history == old(history)
                && (r.Ok? || r == Err(MessageIdConflict))
                && (FiledAs(old(Maps()), message, id, hash) ==> r.Ok?)
                && (MessagesUnique(old(Maps())) ==> (r.Ok? <==> FiledAs(old(Maps()), message, id, hash)))
      ensures !CarriesMessage(old(Maps()), message) && !(activation == Some(true) && Pane(id).Some?) ==>
                && View() == old(View()) && history == old(history)
                && r == Err(if activation.None? then ActivationNotFound
                            else if !activation.value then ActivationNotRunning
                            else PaneNotOwned)
      ensures !CarriesMessage(old(Maps()), message) && activation == Some(true) && Pane(id).Some? ==>
                && (r.Err? <==> !Appends(old(View()), startOk))
                && (r.Ok? ==>
                      && history == old(history).Sent(|old(log)| + 1, sendOk)
                      && (r.value.Receipted? <==> sendOk && publishOk && finishOk && |old(log)| + 2 <= U64_MAX))
      ensures r == Err(MessageIdConflict) ==> !FiledAs(old(Maps()), message, id, hash)
      ensures r.Ok? ==>
                && r.value.delivery.messageId == Some(message)
                && r.value.delivery.activationId == id
                && r.value.delivery.payloadHash == hash
      ensures r.Ok? && r.value.Receipted? ==> exists k <- submitted :: submitted[k] == r.value.delivery
      ensures r.Ok? && r.value.AmbiguousReply? ==> exists k <- ambiguous :: ambiguous[k].delivery == r.value.delivery
    {
      hide Exec, Run, RoleKey, Accounts, FinishEffect, MessagesUnique;
      steps := [];
      RunNothing(View());
      if key :| key in ambiguous && ambiguous[key].delivery.messageId == Some(message) {
        var filed := ambiguous[key].delivery;
        AnswersFiled(Maps(), key, filed, message, id, hash);
        return if filed.activationId == id && filed.payloadHash == hash then Ok(AmbiguousReply(filed))
               else Err(MessageIdConflict), steps;
      }
      if key :| key in submitted && submitted[key].messageId == Some(message) {
        var filed := submitted[key];
        AnswersFiled(Maps(), key, filed, message, id, hash);
        return if filed.activationId == id && filed.payloadHash == hash then Ok(Receipted(filed))
               else Err(MessageIdConflict), steps;
      }
      assert !CarriesMessage(Maps(), message);
      if activation.None? {
        return Err(ActivationNotFound), steps;
      }
      if !activation.value {
        return Err(ActivationNotRunning), steps;
      }
      var pane := Pane(id);
      if pane.None? {
        return Err(PaneNotOwned), steps;
      }
      var sent, more := SendNewMessage(id, message, hash, sendOk, publishOk, startOk, finishOk);
      return sent, more;
    }
  }
}
