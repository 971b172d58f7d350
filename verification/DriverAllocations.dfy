/** Pane allocations over a step: pending intents carry the next generation, the n-th allocation of
    an activation has generation n, and the gates of an owned pane stay shut once used. */
module DriverAllocations {
  import opened Base
  import opened Delivery
  import opened DriverLog
  import opened DriverSteps
  import opened DriverInvariants
  import opened DriverPreservation
  import opened DriverBarriers

  lemma CountAppend(log: seq<Record>, record: Record, id: string)
    ensures AllocationCount(log + [record], id)
         == AllocationCount(log, id)
            + (if record.event.PaneAllocated? && record.event.activationId == id then 1 else 0)
  {
    assert (log + [record])[..|log|] == log;
  }

  lemma ReleaseKeepsRest(s: DriverMaps, ids: seq<string>, sequence: nat)
    requires Keyed(s) && s.tmux.Some?
    ensures var s' := ReleaseEffect(s, ids, sequence);
            && s'.generations == s.generations
            && s'.pendingAllocations == s.pendingAllocations
            && s'.pendingCleanups == s.pendingCleanups
            && s'.Panes() == Without(s.Panes(), ElementsOf(ids))
            && s'.launched == Forgotten(s.launched, ids)
  {
    ReleaseReplays(s, ids, sequence);
  }

  predicate MovesPanes(op: Op) {
    op.Release? || op.PublishPane? || op.Bind? || op.KeepBinding?
  }

  lemma OtherStepsKeepPanes(s: DriverMaps, op: Op, sequence: nat)
    requires Enabled(s, op) && !MovesPanes(op)
    ensures Effect(s, op, sequence).tmux == s.tmux
    ensures Effect(s, op, sequence).generations == s.generations
    ensures s.launched <= Effect(s, op, sequence).launched
    ensures !op.IntendAllocation? ==> Effect(s, op, sequence).pendingAllocations == s.pendingAllocations
  {
  }

  lemma StepKeepsPendingKeyed(s: DriverMaps, op: Op, sequence: nat)
    requires Enabled(s, op) && Keyed(s) && PendingKeyed(s)
    ensures PendingKeyed(Effect(s, op, sequence))
  {
    if op.Release? {
      assert op.activationIds[0] in s.Panes();
      ReleaseKeepsRest(s, op.activationIds, sequence);
    } else if !MovesPanes(op) {
      OtherStepsKeepPanes(s, op, sequence);
    }
  }

  /** Only a publication touches the generations, and it moves one of them to its next value. */
  ghost predicate GenerationsMove(s: DriverMaps, s': DriverMaps, op: Op) {
    if op.PublishPane? then
      && op.activationId in s.pendingAllocations
      && op.activationId !in s.Panes()
      && var generation := s.pendingAllocations[op.activationId].generation;
      && s'.generations == s.generations[op.activationId := generation]
      && s'.pendingAllocations == Without(s.pendingAllocations, {op.activationId})
      && s'.Panes() == s.Panes()[op.activationId := op.pane.(generation := generation)]
    else
      && s'.generations == s.generations
      && (forall id <- s'.Panes() :: id in s.Panes() && s'.Panes()[id] == s.Panes()[id])
      && (forall id <- s'.pendingAllocations ::
            if op.IntendAllocation? && id == op.activationId
            then s'.pendingAllocations[id].generation == s.NextGeneration(id)
            else id in s.pendingAllocations && s'.pendingAllocations[id] == s.pendingAllocations[id])
  }

  lemma EffectMovesGenerations(s: DriverMaps, op: Op, sequence: nat)
    requires Enabled(s, op) && Keyed(s)
    ensures GenerationsMove(s, Effect(s, op, sequence), op)
  {
    if op.Release? {
      assert op.activationIds[0] in s.Panes();
      ReleaseKeepsRest(s, op.activationIds, sequence);
    } else if !MovesPanes(op) {
      OtherStepsKeepPanes(s, op, sequence);
    }
  }

  lemma StepKeepsGenerations(log: seq<Record>, record: Record, s: DriverMaps, s': DriverMaps, op: Op)
    requires Generations(log, s) && PendingKeyed(s) && GenerationsMove(s, s', op) && |log| < U64_MAX
    requires record.event.PaneAllocated? <==> op.PublishPane?
    requires op.PublishPane? ==> record.event.activationId == op.activationId
    requires record.event.DeliveryStarted? ==>
               var p := record.event.payload;
               p.activationId in s.Panes() && p.generation == s.Panes()[p.activationId].generation
    ensures Generations(log + [record], s')
  {
    hide AllocationCount;
    var log' := log + [record];
    forall id
      ensures AllocationCount(log', id) == if id in s'.generations then s'.generations[id] + 1 else 0
    {
      CountAppend(log, record, id);
      assert AllocationCount(log, id) == if id in s.generations then s.generations[id] + 1 else 0;
    }
    forall i | StartedAt(log', i)
      ensures var d := DeliveryAt(log', i);
              d.activationId in s'.generations && d.generation <= s'.generations[d.activationId]
    {
      if i < |log| {
        assert StartedAt(log, i) && DeliveryAt(log, i) == DeliveryAt(log', i);
        assert op.PublishPane? ==> AllocationCount(log, op.activationId) <= |log|;
      }
    }
    if op.PublishPane? {
      assert AllocationCount(log, op.activationId) <= |log|;
    }
  }

  lemma StepKeepsNumbered(log: seq<Record>, record: Record, s: DriverMaps, op: Op)
    requires NumberedAllocations(log) && Generations(log, s) && Enabled(s, op) && |log| < U64_MAX
    requires record.event == EventOf(s, op)
    ensures NumberedAllocations(log + [record])
  {
    var log' := log + [record];
    forall i, id | AllocatedAt(log', i, id)
      ensures log'[i].event.generation == Some(AllocationCount(log'[..i], id))
      ensures log'[i].event.pane.generation == AllocationCount(log'[..i], id)
    {
      if i < |log| {
        assert AllocatedAt(log, i, id) && log'[..i] == log[..i];
      } else {
        assert log'[..i] == log;
        assert AllocationCount(log, id) <= |log|;
        assert s.pendingAllocations[id].generation == s.NextGeneration(id);
      }
    }
  }

  /** What replay settles for an operation's own event. */
  function Settles(op: Op): set<Allocation> {
    if op.Finish? && op.role == NodePrompt then {(op.activationId, op.generation)} else {}
  }

  lemma ReleaseKeepsGated(s: DriverMaps, settled: set<Allocation>, ids: seq<string>, sequence: nat)
    requires Gated(s, settled) && Keyed(s) && s.tmux.Some?
    ensures Gated(ReleaseEffect(s, ids, sequence), Forgotten(settled, ids))
  {
    ReleaseChanges(s, ids, sequence);
    ReleaseKeepsRest(s, ids, sequence);
  }

  /** A new generation is above that of every delivery filed for the activation. */
  lemma PublishKeepsGated(log: seq<Record>, s: DriverMaps, settled: set<Allocation>, op: Op, sequence: nat)
    requires Gated(s, settled) && op.PublishPane? && Enabled(s, op)
    requires Generations(log, s) && AllTraced(log, s) && |log| < U64_MAX
    ensures Gated(Effect(s, op, sequence), settled)
  {
    var id := op.activationId;
    assert AllocationCount(log, id) <= |log|;
    assert s.pendingAllocations[id].generation == s.NextGeneration(id);
    forall k | k in s.submitted && s.submitted[k].activationId == id
      ensures s.submitted[k].generation != s.pendingAllocations[id].generation
    {
      var d := s.submitted[k];
      assert Traced(log, d) && StartedAt(log, d.startedSeq - 1);
    }
  }

  lemma FinishKeepsGated(s: DriverMaps, settled: set<Allocation>, op: Op)
    requires Gated(s, settled) && Keyed(s) && op.Finish? && Enabled(s, op)
    ensures Gated(FinishEffect(s, op.activationId, op.role, op.messageId, op.generation), settled + Settles(op))
  {
    FiledGeneration(s, op.activationId, op.role, op.messageId, op.generation);
  }

  lemma StepKeepsGated(log: seq<Record>, s: DriverMaps, settled: set<Allocation>, op: Op, sequence: nat)
    requires Gated(s, settled) && Keyed(s) && Enabled(s, op)
    requires Generations(log, s) && AllTraced(log, s) && |log| < U64_MAX
    ensures Gated(Effect(s, op, sequence),
                  if op.Release? then Forgotten(settled, op.activationIds) else settled + Settles(op))
  {
    hide Gated, Effect, AllocationCount, Generations, AllTraced;
    if op.Release? {
      assert op.activationIds[0] in s.Panes();
      EffectOfRelease(s, op, sequence);
      ReleaseKeepsGated(s, settled, op.activationIds, sequence);
    } else if op.PublishPane? {
      PublishKeepsGated(log, s, settled, op, sequence);
      assert settled + Settles(op) == settled;
    } else if op.Finish? {
      EffectOfRelease(s, op, sequence);
      FinishKeepsGated(s, settled, op);
    } else {
      assert settled + Settles(op) == settled;
      OtherKeepsGated(s, settled, op, sequence);
    }
  }

  lemma EffectOfRelease(s: DriverMaps, op: Op, sequence: nat)
    requires Enabled(s, op)
    ensures op.Release? ==> Effect(s, op, sequence) == ReleaseEffect(s, op.activationIds, sequence)
    ensures op.Finish? ==>
              Effect(s, op, sequence) == FinishEffect(s, op.activationId, op.role, op.messageId, op.generation)
  {
  }

  lemma OtherKeepsGated(s: DriverMaps, settled: set<Allocation>, op: Op, sequence: nat)
    requires Gated(s, settled) && Keyed(s) && Enabled(s, op)
    requires !op.Release? && !op.PublishPane? && !op.Finish?
    ensures Gated(Effect(s, op, sequence), settled)
  {
    if !MovesPanes(op) {
      EffectChanges(s, op, sequence);
      OtherStepsKeepPanes(s, op, sequence);
    }
  }
}
