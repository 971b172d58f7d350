/** What holds of the driver after any run of operations, failed appends and restarts. */
module DriverTheorems {
  import opened Base
  import opened Delivery
  import opened DriverLog
  import opened DriverSteps
  import opened DriverInvariants
  import opened DriverPreservation
  import opened DriverRuns

  lemma Reachable(steps: seq<Step>)
    ensures Inv(Run(FRESH_START, steps))
  {
    FreshStartInv();
    RunKeepsInv(FRESH_START, steps);
  }

  /** Replaying the whole log gives the maps in memory. Two of them can differ, and by exactly this
      much: the human nodes settled without an event, and the panes carried over a re-binding. */
  lemma {:induction false} LiveEqualsReplay(steps: seq<Step>)
    ensures var l := Run(FRESH_START, steps);
            var r := Replay(l.log);
            && r.ambiguous == l.maps.ambiguous
            && r.submitted == l.maps.submitted
            && r.launched == l.maps.launched
            && r.generations == l.maps.generations
            && r.pendingAllocations == l.maps.pendingAllocations
            && r.pendingCleanups == l.maps.pendingCleanups
            && l.maps.settled == r.settled + l.human
            && r.tmux.Some? == l.maps.tmux.Some?
            && (r.tmux.Some? ==> r.tmux.value.binding == l.maps.tmux.value.binding)
            && r.Panes() == Without(l.maps.Panes(), l.carried)
            && (r.Panes() == l.maps.Panes() <==> l.carried == {})
  {
    Reachable(steps);
    var l := Run(FRESH_START, steps);
    assert l.carried == {} ==> Without(l.maps.Panes(), l.carried) == l.maps.Panes();
    assert Without(l.maps.Panes(), l.carried).Keys == l.maps.Panes().Keys - l.carried;
  }

  /** No re-binding that keeps its panes happens while panes are owned. */
  ghost predicate RebindsWithoutPanes(l: Live, steps: seq<Step>) {
    forall n :: 0 <= n < |steps| && steps[n].Do? && steps[n].op.KeepBinding? ==>
                  Run(l, steps[..n]).maps.Panes() == map[]
  }

  lemma {:induction false} HistoryIsEmpty(l: Live, steps: seq<Step>)
    requires l.carried == {} && l.human == {}
    ensures (forall s <- steps :: !s.SettleHuman?) ==> Run(l, steps).human == {}
    ensures RebindsWithoutPanes(l, steps) ==> Run(l, steps).carried == {}
  {
    if steps != [] {
      var front := steps[..|steps| - 1];
      HistoryIsEmpty(l, front);
      if RebindsWithoutPanes(l, steps) {
        forall n | 0 <= n < |front| && front[n].Do? && front[n].op.KeepBinding?
          ensures Run(l, front[..n]).maps.Panes() == map[]
        {
          assert front[..n] == steps[..n] && steps[n] == front[n];
        }
        assert steps[|steps| - 1].Do? && steps[|steps| - 1].op.KeepBinding? ==> Run(l, front).maps.Panes() == map[];
      }
    }
  }

  /** Without human nodes, and without a re-binding over owned panes, a restart changes nothing. */
  lemma {:induction false} RestartChangesNothing(steps: seq<Step>)
    requires forall s <- steps :: !s.SettleHuman?
    requires RebindsWithoutPanes(FRESH_START, steps)
    ensures var l := Run(FRESH_START, steps); Exec(l, Restart) == l
  {
    Reachable(steps);
    HistoryIsEmpty(FRESH_START, steps);
    var l := Run(FRESH_START, steps);
    assert Without(l.maps.Panes(), {}) == l.maps.Panes();
  }

  /** Re-binding while keeping panes is replayed faithfully exactly when there were no panes. */
  lemma {:induction false} RebindReplaysIffNoPanes(l: Live, binding: Binding)
    requires BindingDiffers(l.maps, binding) && |l.log| < U64_MAX
    ensures var l' := Exec(l, Do(KeepBinding(binding), true));
            && l'.maps.Panes() == l.maps.Panes()
            && Replay(l'.log).Panes() == map[]
            && (Replay(l'.log).Panes() == l'.maps.Panes() <==> l.maps.Panes() == map[])
  {
    ReplayAppend(l.log, Logged(l, KeepBinding(binding)));
  }

  /** Such runs exist for any two activations: the second one's intent is pending when its window turns
      out to have moved, so the binding follows while the first one's pane is owned. */
  lemma {:induction false} RebindCanLosePanes(first: string, second: string, b1: Binding, b2: Binding, pane: Pane)
    returns (steps: seq<Step>)
    requires first != second && b1 != b2
    ensures var l := Run(FRESH_START, steps);
            first in l.maps.Panes() && second in l.maps.Panes() && first !in Replay(l.log).Panes()
  {
    hide Run, Exec, Replay, Apply;
    var one, other := Allocating(first, b1, b1, pane), Allocating(second, b1, b2, pane);
    steps := one + other;
    RunAppend(FRESH_START, one, other);
    AllocationRuns(FRESH_START, first, b1, b1, pane);
    AllocationRuns(Run(FRESH_START, one), second, b1, b2, pane);
    LiveEqualsReplay(steps);
  }

  /** The steps of an allocation that is configured for one window and finds another. */
  function Allocating(id: string, config: Binding, binding: Binding, pane: Pane): seq<Step> {
    [Do(IntendAllocation(id, config, None), true), Do(KeepBinding(binding), true), Do(PublishPane(id, pane), true)]
  }

  lemma AllocationRuns(l: Live, id: string, config: Binding, binding: Binding, pane: Pane)
    requires l.eventCount == |l.log| && |l.log| + 3 <= U64_MAX && BindingDiffers(l.maps, binding)
    requires id !in l.maps.Panes() && id !in l.maps.pendingAllocations
    ensures var l' := Run(l, Allocating(id, config, binding, pane));
            && l'.eventCount == |l'.log| == |l.log| + 3
            && l'.maps.tmux.Some? && l'.maps.tmux.value.binding == binding
            && l'.maps.Panes() == l.maps.Panes()[id := pane.(generation := l.maps.NextGeneration(id))]
            && l'.maps.generations == l.maps.generations[id := l.maps.NextGeneration(id)]
            && l'.maps.pendingAllocations == l.maps.pendingAllocations
            && l'.maps.pendingCleanups == l.maps.pendingCleanups
            && l'.carried == l.maps.Panes().Keys
  {
    hide Run, Exec, Effect;
    var intend, keep, publish := Do(IntendAllocation(id, config, None), true), Do(KeepBinding(binding), true),
                                 Do(PublishPane(id, pane), true);
    RunNothing(l);
    RunOneMore(l, [], intend);
    RunOneMore(l, [] + [intend], keep);
    RunOneMore(l, [] + [intend] + [keep], publish);
    assert Allocating(id, config, binding, pane) == [] + [intend] + [keep] + [publish];
    CommitIntent(l, id, config, None, true);
    var l1 := Exec(l, intend);
    CommitBinding(l1, binding, true);
    var l2 := Exec(l1, keep);
    CommitPublish(l2, id, pane, true);
    assert Without(l2.maps.pendingAllocations, {id}) == l.maps.pendingAllocations;
  }

  /** A release forgets pending allocations on replay but not in memory, so it is replayed faithfully
      exactly when it names no activation whose allocation is pending; owned panes have none. */
  lemma {:induction false} ReleaseReplaysIffNonePending(s: DriverMaps, ids: seq<string>, sequence: nat)
    requires Keyed(s) && s.tmux.Some?
    ensures Apply(s, Record(sequence, PanesReleased(ids, ReleasedBarriers(s, ids)))) == ReleaseEffect(s, ids, sequence)
       <==> s.pendingAllocations.Keys !! ElementsOf(ids)
  {
    var barriers, gone := ReleasedBarriers(s, ids), ElementsOf(ids);
    ReleaseReplays(s, ids, sequence);
    var keys := BarrierKeySet(barriers, sequence);
    var forgotten := s.Forget(gone).(pendingAllocations := Without(s.pendingAllocations, gone));
    assert BarriersOf(forgotten, barriers, sequence);
    BothReopen(forgotten, barriers, sequence);
    assert s.pendingAllocations.Keys !! gone ==> Without(s.pendingAllocations, gone) == s.pendingAllocations;
    assert !(s.pendingAllocations.Keys !! gone) ==>
             Without(s.pendingAllocations, gone).Keys != s.pendingAllocations.Keys;
  }

  /** Two started launches or prompts of one allocation, or two started messages with one id, always
      have the withdrawal of the first between them. */
  lemma AtMostOneInput(steps: seq<Step>, i: nat, j: nat)
    requires var log := Run(FRESH_START, steps).log;
             i < j && StartedAt(log, i) && StartedAt(log, j) && SameInput(DeliveryAt(log, i), DeliveryAt(log, j))
    ensures var log := Run(FRESH_START, steps).log;
            exists k :: i < k < j && Withdraws(log, k, i)
  {
    Reachable(steps);
  }

  /** Every started input that was not withdrawn still has its barrier. */
  lemma NoBarrierIsLost(steps: seq<Step>, i: nat)
    requires var log := Run(FRESH_START, steps).log; StartedAt(log, i) && !Withdrawn(log, i)
    ensures var l := Run(FRESH_START, steps); Tracked(l.maps, DeliveryAt(l.log, i))
  {
    Reachable(steps);
  }

  /** The delivery is filed under the key, in one of the two maps. */
  predicate Filed(s: DriverMaps, key: Key, d: Submitted) {
    (key in s.ambiguous && s.ambiguous[key].delivery == d) || (key in s.submitted && s.submitted[key] == d)
  }

  lemma FiledIsTraced(log: seq<Record>, s: DriverMaps, key: Key, d: Submitted)
    requires Keyed(s) && AllTraced(log, s) && Filed(s, key, d)
    ensures key == KeyOf(d) && Traced(log, d)
  {
    assert KeyedAs(key, d);
  }

  /** A sequence belongs to one filed delivery at most, over both maps. */
  lemma {:induction false} SequencesAreUnique(log: seq<Record>, s: DriverMaps, k1: Key, d1: Submitted, k2: Key,
                                              d2: Submitted)
    requires Keyed(s) && AllTraced(log, s) && Filed(s, k1, d1) && Filed(s, k2, d2)
    ensures d1.startedSeq == d2.startedSeq ==> k1 == k2 && d1 == d2
  {
    hide Keyed, AllTraced, Filed;
    FiledIsTraced(log, s, k1, d1);
    FiledIsTraced(log, s, k2, d2);
  }

  /** A resolution that names the sequence of an active barrier finds that barrier and no other. */
  lemma BarriersResolveUniquely(steps: seq<Step>, key: Key)
    requires key in Run(FRESH_START, steps).maps.ambiguous
    ensures var s := Run(FRESH_START, steps).maps;
            && BarrierKeys(s.ambiguous, s.ambiguous[key].delivery.startedSeq) == {key}
            && key !in s.submitted
            && forall k <- s.submitted :: s.submitted[k].startedSeq != s.ambiguous[key].delivery.startedSeq
  {
    Reachable(steps);
    var l := Run(FRESH_START, steps);
    var d := l.maps.ambiguous[key].delivery;
    forall k | k in BarrierKeys(l.maps.ambiguous, d.startedSeq)
      ensures k == key
    {
      SequencesAreUnique(l.log, l.maps, k, l.maps.ambiguous[k].delivery, key, d);
    }
    forall k | k in l.maps.submitted
      ensures l.maps.submitted[k].startedSeq != d.startedSeq
    {
      SequencesAreUnique(l.log, l.maps, k, l.maps.submitted[k], key, d);
    }
  }

  /** The n-th allocation of an activation has generation n, so successive ones increase strictly,
      and none reaches the largest 64-bit value. */
  lemma AllocationsIncrease(steps: seq<Step>, i: nat, j: nat, id: string)
    requires var log := Run(FRESH_START, steps).log; i < j && AllocatedAt(log, i, id) && AllocatedAt(log, j, id)
    ensures var log := Run(FRESH_START, steps).log;
            log[i].event.pane.generation < log[j].event.pane.generation < U64_MAX
  {
    Reachable(steps);
    var log := Run(FRESH_START, steps).log;
    CountIncreases(log, i, j, id);
    assert log[i].event.pane.generation == AllocationCount(log[..i], id);
    assert log[j].event.pane.generation == AllocationCount(log[..j], id) <= |log[..j]|;
  }

  lemma {:induction false} CountIncreases(log: seq<Record>, i: nat, j: nat, id: string)
    requires i < j <= |log| && AllocatedAt(log, i, id)
    ensures AllocationCount(log[..i], id) < AllocationCount(log[..j], id)
    decreases j
  {
    assert log[..j][..j - 1] == log[..j - 1];
    if i < j - 1 {
      CountIncreases(log, i, j - 1, id);
    }
  }

  /** An activation never owns a pane while an allocation is pending, and a pending allocation
      carries the generation that comes next. */
  lemma PendingAllocationIsNext(steps: seq<Step>, id: string)
    requires id in Run(FRESH_START, steps).maps.pendingAllocations
    ensures var l := Run(FRESH_START, steps);
            && id !in l.maps.Panes()
            && l.maps.pendingAllocations[id].generation == AllocationCount(l.log, id)
  {
    Reachable(steps);
    var l := Run(FRESH_START, steps);
    assert AllocationCount(l.log, id) == if id in l.maps.generations then l.maps.generations[id] + 1 else 0;
    assert l.maps.pendingAllocations[id].generation == l.maps.NextGeneration(id);
  }
}
