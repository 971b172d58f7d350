/** The driver over whole runs: operations, failed appends and restarts in any order. */
module DriverRuns {
  import opened Base
  import opened Delivery
  import opened DriverLog
  import opened DriverSteps
  import opened DriverInvariants
  import opened DriverPreservation
  import opened DriverBarriers
  import opened DriverAllocations

  lemma ReplaySettles(s: DriverMaps, r: DriverMaps, human: set<Allocation>, carried: set<string>, op: Op, sequence: nat)
    requires Agree(s, r, human, carried) && Keyed(s) && Enabled(s, op)
    ensures Apply(r, Record(sequence, EventOf(s, op))).settled
         == if op.Release? then Forgotten(r.settled, op.activationIds) else r.settled + Settles(op)
  {
    hide Apply, RoleKey;
    if op.Release? {
      assert op.activationIds[0] in s.Panes();
      ReplayedReleaseSettles(s, r, op.activationIds, sequence);
    } else if op.Finish? {
      FinishReplaySettles(s, r, op, sequence);
    } else {
      OtherReplaySettles(s, r, op, sequence);
    }
  }

  lemma FinishReplaySettles(s: DriverMaps, r: DriverMaps, op: Op, sequence: nat)
    requires s.ambiguous == r.ambiguous && Keyed(s) && Enabled(s, op) && op.Finish?
    ensures Apply(r, Record(sequence, EventOf(s, op))).settled == r.settled + Settles(op)
  {
    FiledGeneration(s, op.activationId, op.role, op.messageId, op.generation);
  }

  lemma OtherReplaySettles(s: DriverMaps, r: DriverMaps, op: Op, sequence: nat)
    requires Enabled(s, op) && !op.Finish? && !op.Release?
    ensures Apply(r, Record(sequence, EventOf(s, op))).settled == r.settled + Settles(op)
  {
    hide RoleKey;
  }

  lemma ReplayedReleaseSettles(s: DriverMaps, r: DriverMaps, ids: seq<string>, sequence: nat)
    requires Keyed(s) && r.tmux.Some? && r.ambiguous == s.ambiguous && r.submitted == s.submitted
    ensures Apply(r, Record(sequence, PanesReleased(ids, ReleasedBarriers(s, ids)))).settled
         == Forgotten(r.settled, ids)
  {
    BarriersAreSubmissions(s, ids, sequence);
    var forgotten := r.Forget(ElementsOf(ids));
    BothReopen(forgotten.(pendingAllocations := Without(r.pendingAllocations, ElementsOf(ids))),
               ReleasedBarriers(s, ids), sequence);
  }

  lemma CommitKeepsBarriers(l: Live, op: Op)
    requires Commits(l, op)
    requires Keyed(l.maps) && WellStarted(l.log) && AllTraced(l.log, l.maps) && Covered(l.log, l.maps)
    requires AtMostOnce(l.log)
    requires Gated(l.maps, Replay(l.log).settled) && Replay(l.log).settled <= l.maps.settled
    ensures var l' := Commit(l, op);
            && Keyed(l'.maps) && WellStarted(l'.log) && AllTraced(l'.log, l'.maps) && Covered(l'.log, l'.maps)
            && AtMostOnce(l'.log)
  {
    var s, record, sequence := l.maps, Logged(l, op), |l.log| + 1;
    var change := ChangeOf(s, op, sequence);
    var s', log' := Effect(s, op, sequence), l.log + [record];
    EffectChanges(s, op, sequence);
    StepLogsChange(l, op);
    if IsStart(op) {
      GatesMeanFresh(s, Replay(l.log).settled, op, sequence);
      assert StartedAt(log', |l.log|) && DeliveryAt(log', |l.log|) == change.delivery;
    }
    ChangeKeepsKeyed(s, s', change);
    ChangeKeepsTraced(l.log, record, s, s', change);
    ChangeKeepsCovered(l.log, record, s, s', change);
    ChangeKeepsAtMostOnce(l.log, record, s, change);
    StartsStayWell(l.log, record, change);
  }

  lemma StartsStayWell(log: seq<Record>, record: Record, change: Change)
    requires WellStarted(log) && record.sequence == |log| + 1
    requires record.event.DeliveryStarted? <==> change.Started?
    requires change.Started? ==>
               && record.event.payload.startedSeq == None
               && change.delivery == FromPayload(record.event.payload, record.sequence).delivery
               && WellRoled(change.delivery.role, change.delivery.messageId)
    ensures WellStarted(log + [record])
  {
    var log' := log + [record];
    forall i | StartedAt(log', i)
      ensures log'[i].event.payload.startedSeq == None
      ensures WellRoled(DeliveryAt(log', i).role, DeliveryAt(log', i).messageId)
    {
      assert i < |log| ==> StartedAt(log, i) && DeliveryAt(log', i) == DeliveryAt(log, i);
    }
  }

  lemma StartsFromItsPane(s: DriverMaps, op: Op)
    requires Enabled(s, op)
    ensures EventOf(s, op).PaneAllocated? <==> op.PublishPane?
    ensures op.PublishPane? ==> EventOf(s, op).activationId == op.activationId
    ensures EventOf(s, op).DeliveryStarted? ==>
              var p := EventOf(s, op).payload;
              p.activationId in s.Panes() && p.generation == s.Panes()[p.activationId].generation
  {
  }

  lemma CommitKeepsAllocations(l: Live, op: Op)
    requires Commits(l, op)
    requires Keyed(l.maps) && PendingKeyed(l.maps) && AllTraced(l.log, l.maps)
    requires Generations(l.log, l.maps) && NumberedAllocations(l.log)
    requires Gated(l.maps, Replay(l.log).settled)
    ensures var l' := Commit(l, op);
            && PendingKeyed(l'.maps) && Generations(l'.log, l'.maps) && NumberedAllocations(l'.log)
            && Gated(l'.maps, if op.Release? then Forgotten(Replay(l.log).settled, op.activationIds)
                              else Replay(l.log).settled + Settles(op))
  {
    var s, sequence := l.maps, |l.log| + 1;
    StepKeepsPendingKeyed(s, op, sequence);
    EffectMovesGenerations(s, op, sequence);
    StartsFromItsPane(s, op);
    StepKeepsGenerations(l.log, Logged(l, op), s, Effect(s, op, sequence), op);
    StepKeepsNumbered(l.log, Logged(l, op), s, op);
    StepKeepsGated(l.log, s, Replay(l.log).settled, op, sequence);
  }

  /** A committed operation keeps every invariant. */
  lemma CommitKeepsInv(l: Live, op: Op)
    requires Inv(l) && Enabled(l.maps, op) && |l.log| < U64_MAX
    ensures Inv(Commit(l, op))
  {
    hide Enabled, EventOf, Effect, Apply, Tracked, Traced, KeyedAs, AllocationCount, SameInput, Generations;
    hide Gated, Covered, AllTraced, WellStarted, AtMostOnce, NumberedAllocations, PendingKeyed, Keyed;
    var r, l' := Replay(l.log), Commit(l, op);
    StepAgrees(l, r, op);
    ReplayAppend(l.log, Logged(l, op));
    ReplaySettles(l.maps, r, l.human, l.carried, op, |l.log| + 1);
    CommitKeepsBarriers(l, op);
    CommitKeepsAllocations(l, op);
    assert Numbered(l'.log);
  }

  /** So does the restart that rebuilds memory from the log alone. */
  lemma RestartKeepsInv(l: Live)
    requires Inv(l)
    ensures Inv(Exec(l, Restart))
  {
    hide Traced, Tracked, KeyedAs, AllocationCount, SameInput;
    var r := Replay(l.log);
    assert Without(r.Panes(), {}) == r.Panes();
    RestartKeepsBarriers(l.log, l.maps, r);
    RestartKeepsAllocations(l.log, l.maps, r, l.human, l.carried);
  }

  lemma RestartKeepsBarriers(log: seq<Record>, s: DriverMaps, r: DriverMaps)
    requires r.ambiguous == s.ambiguous && r.submitted == s.submitted
    requires Keyed(s) && AllTraced(log, s) && Covered(log, s)
    ensures Keyed(r) && AllTraced(log, r) && Covered(log, r)
  {
    hide Traced, KeyedAs;
    assert forall i :: StartedAt(log, i) ==> (Tracked(s, DeliveryAt(log, i)) <==> Tracked(r, DeliveryAt(log, i)));
  }

  lemma RestartKeepsAllocations(log: seq<Record>, s: DriverMaps, r: DriverMaps, human: set<Allocation>,
                                carried: set<string>)
    requires Agree(s, r, human, carried)
    requires PendingKeyed(s) && Generations(log, s) && Gated(s, r.settled)
    ensures PendingKeyed(r) && Generations(log, r) && Gated(r, r.settled)
  {
    hide AllocationCount;
    assert forall k <- r.submitted :: r.submitted[k] == s.submitted[k];
  }

  lemma HumanKeepsInv(l: Live, id: string)
    requires Inv(l)
    ensures Inv(Exec(l, SettleHuman(id)))
  {
    var s' := Exec(l, SettleHuman(id)).maps;
    assert forall i :: StartedAt(l.log, i) ==>
                         (Tracked(l.maps, DeliveryAt(l.log, i)) <==> Tracked(s', DeliveryAt(l.log, i)));
  }

  lemma ExecKeepsInv(l: Live, step: Step)
    requires Inv(l)
    ensures Inv(Exec(l, step))
  {
    match step {
      case Do(op, appendOk) => if Enabled(l.maps, op) && Appends(l, appendOk) { CommitKeepsInv(l, op); }
      case SettleHuman(id) => HumanKeepsInv(l, id);
      case Restart => RestartKeepsInv(l);
    }
  }

  lemma {:induction false} RunKeepsInv(l: Live, steps: seq<Step>)
    requires Inv(l)
    ensures Inv(Run(l, steps))
  {
    if steps != [] {
      RunKeepsInv(l, steps[..|steps| - 1]);
      ExecKeepsInv(Run(l, steps[..|steps| - 1]), steps[|steps| - 1]);
    }
  }

  lemma FreshStartInv()
    ensures Inv(FRESH_START)
  {
  }
}
