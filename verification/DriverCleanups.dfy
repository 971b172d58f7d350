/** Two more things that every run of the driver keeps: which allocation a pending cleanup names, and
    that a message id is filed once. */
module DriverCleanups {
  import opened Base
  import opened Delivery
  import opened DriverLog
  import opened DriverSteps
  import opened DriverInvariants
  import opened DriverPreservation
  import opened DriverBarriers
  import opened DriverAllocations
  import opened DriverRuns
  import opened DriverTheorems
  import Cleanup

  /** A pending cleanup names a pane that was allocated to its activation, the one that is owned now
      unless there was a later one. */
  predicate NamesAllocation(s: DriverMaps, id: string)
    requires id in s.pendingCleanups
  {
    var intent := s.pendingCleanups[id];
    && intent.activationId == id && intent.generation == intent.pane.generation
    && id in s.generations && intent.generation <= s.generations[id]
    && (id in s.Panes() && s.Panes()[id].generation == intent.generation ==> s.Panes()[id] == intent.pane)
  }

  ghost predicate CleanupsNamed(s: DriverMaps) {
    forall id <- s.pendingCleanups :: NamesAllocation(s, id)
  }

  lemma CleanupsStayNamed(log: seq<Record>, s: DriverMaps, s': DriverMaps, op: Op)
    requires CleanupsNamed(s) && Generations(log, s) && GenerationsMove(s, s', op) && |log| < U64_MAX
    requires forall id <- s'.pendingCleanups ::
               if op == IntendCleanup(id, s'.pendingCleanups[id].reason) && id !in s.pendingCleanups then
                 id in s.Panes() && s'.pendingCleanups[id].pane == s.Panes()[id] && s'.Panes() == s.Panes()
                 && s'.pendingCleanups[id].activationId == id
                 && s'.pendingCleanups[id].generation == s.Panes()[id].generation
               else id in s.pendingCleanups && s'.pendingCleanups[id] == s.pendingCleanups[id]
    ensures CleanupsNamed(s')
  {
    forall id <- s'.pendingCleanups ensures NamesAllocation(s', id) {
      if op.PublishPane? && op.activationId == id {
        assert AllocationCount(log, id) <= |log|;
        assert s.pendingAllocations[id].generation == s.NextGeneration(id);
      }
      if id in s.pendingCleanups { assert NamesAllocation(s, id); }
    }
  }

  lemma EffectMovesCleanups(s: DriverMaps, op: Op, sequence: nat)
    requires Enabled(s, op) && Keyed(s)
    ensures var s' := Effect(s, op, sequence);
            forall id <- s'.pendingCleanups ::
              if op == IntendCleanup(id, s'.pendingCleanups[id].reason) && id !in s.pendingCleanups then
                id in s.Panes() && s'.pendingCleanups[id].pane == s.Panes()[id] && s'.Panes() == s.Panes()
                && s'.pendingCleanups[id].activationId == id
                && s'.pendingCleanups[id].generation == s.Panes()[id].generation
              else id in s.pendingCleanups && s'.pendingCleanups[id] == s.pendingCleanups[id]
  {
    if op.Release? {
      assert op.activationIds[0] in s.Panes();
      ReleaseKeepsRest(s, op.activationIds, sequence);
    }
  }

  /** At most one filed delivery, over both maps, carries a message id. */
  ghost predicate MessagesUnique(s: DriverMaps) {
    forall k1, d1, k2, d2 :: Filed(s, k1, d1) && Filed(s, k2, d2) && d1.messageId.Some? ==>
      d1.messageId == d2.messageId ==> k1 == k2 && d1 == d2
  }

  lemma ChangeKeepsFiled(s: DriverMaps, s': DriverMaps, change: Change, key: Key, d: Submitted)
    requires Changes(s, s', change) && Filed(s', key, d)
    ensures Filed(s, key, d) || (change.Started? && key == KeyOf(d) && d == change.delivery)
  {
  }

  lemma ChangeKeepsMessages(s: DriverMaps, s': DriverMaps, change: Change)
    requires MessagesUnique(s) && Keyed(s) && Changes(s, s', change)
    requires change.Started? ==> Fresh(s, change.delivery)
    ensures MessagesUnique(s')
  {
    hide Changes;
    forall k1, d1, k2, d2 | Filed(s', k1, d1) && Filed(s', k2, d2) && d1.messageId.Some? && d1.messageId == d2.messageId
      ensures k1 == k2 && d1 == d2
    {
      ChangeKeepsFiled(s, s', change, k1, d1);
      ChangeKeepsFiled(s, s', change, k2, d2);
      assert forall k, d :: Filed(s, k, d) && d.messageId == d1.messageId ==> CarriesMessage(s, d1.messageId.value);
    }
  }

  ghost predicate Extra(s: DriverMaps) {
    CleanupsNamed(s) && MessagesUnique(s)
  }

  lemma CommitKeepsExtra(l: Live, op: Op)
    requires Inv(l) && Extra(l.maps) && Enabled(l.maps, op) && |l.log| < U64_MAX
    ensures Extra(Commit(l, op).maps)
  {
    hide Enabled, EventOf, Effect, Changes, Apply;
    var s, sequence := l.maps, |l.log| + 1;
    EffectMovesGenerations(s, op, sequence);
    EffectMovesCleanups(s, op, sequence);
    CleanupsStayNamed(l.log, s, Effect(s, op, sequence), op);
    EffectChanges(s, op, sequence);
    StartsFresh(l, op);
    ChangeKeepsMessages(s, Effect(s, op, sequence), ChangeOf(s, op, sequence));
  }

  lemma StartsFresh(l: Live, op: Op)
    requires Inv(l) && Enabled(l.maps, op)
    ensures var change := ChangeOf(l.maps, op, |l.log| + 1); change.Started? ==> Fresh(l.maps, change.delivery)
  {
    if IsStart(op) { GatesMeanFresh(l.maps, Replay(l.log).settled, op, |l.log| + 1); }
  }

  lemma RestartKeepsExtra(l: Live)
    requires Inv(l) && Extra(l.maps)
    ensures Extra(Replay(l.log))
  {
    var s, r := l.maps, Replay(l.log);
    forall id <- r.pendingCleanups ensures NamesAllocation(r, id) {
      assert NamesAllocation(s, id);
    }
    assert forall k, d :: Filed(r, k, d) ==> Filed(s, k, d);
  }

  lemma {:induction false} RunKeepsExtra(steps: seq<Step>)
    ensures Extra(Run(FRESH_START, steps).maps)
  {
    hide Exec, Inv, Extra;
    if steps == [] {
      FreshIsExtra();
    } else {
      var front, step := steps[..|steps| - 1], steps[|steps| - 1];
      RunKeepsExtra(front);
      Reachable(front);
      ExecKeepsExtra(Run(FRESH_START, front), step);
    }
  }

  lemma FreshIsExtra()
    ensures Extra(FRESH_START.maps)
  {
  }

  lemma ExecKeepsExtra(l: Live, step: Step)
    requires Inv(l) && Extra(l.maps)
    ensures Extra(Exec(l, step).maps)
  {
    match step {
      case Do(op, appendOk) => if Enabled(l.maps, op) && Appends(l, appendOk) { CommitKeepsExtra(l, op); }
      case SettleHuman(id) => HumanKeepsExtra(l, id);
      case Restart => RestartKeepsExtra(l);
    }
  }

  lemma HumanKeepsExtra(l: Live, id: string)
    requires Extra(l.maps)
    ensures Extra(Exec(l, SettleHuman(id)).maps)
  {
    var s' := Exec(l, SettleHuman(id)).maps;
    forall other <- s'.pendingCleanups ensures NamesAllocation(s', other) {
      assert NamesAllocation(l.maps, other);
    }
    assert forall k, d :: Filed(s', k, d) ==> Filed(l.maps, k, d);
  }

  /** In every run, whatever is filed under a message id is one delivery. */
  lemma {:induction false} MessageIsFiledOnce(steps: seq<Step>, k1: Key, d1: Submitted, k2: Key, d2: Submitted)
    requires var s := Run(FRESH_START, steps).maps; Filed(s, k1, d1) && Filed(s, k2, d2)
    requires d1.messageId.Some? && d1.messageId == d2.messageId
    ensures k1 == k2 && d1 == d2
  {
    hide Run;
    RunKeepsExtra(steps);
  }

  /** In every run, a pending cleanup and the owned pane of its activation belong together unless, and
      only unless, the log allocates the activation a later pane than the one the intent names; in that
      case the cleanup is refused in every world. */
  lemma {:induction false} CleanupIsStrandedIff(steps: seq<Step>, id: string)
    requires var s := Run(FRESH_START, steps).maps; id in s.pendingCleanups && id in s.Panes()
    ensures var l := Run(FRESH_START, steps);
            var intent := l.maps.pendingCleanups[id];
            && (l.maps.Panes()[id] != intent.pane <==> intent.generation + 1 < AllocationCount(l.log, id))
            && (forall store: Cleanup.Store, w | store.owned == Some(l.maps.Panes()[id]) ::
                  Cleanup.PlanOf(store, intent, w).outcome == Err(Cleanup.DifferentAllocation)
                  <==> intent.generation + 1 < AllocationCount(l.log, id))
  {
    hide Run;
    RunKeepsExtra(steps);
    Reachable(steps);
    var l := Run(FRESH_START, steps);
    assert NamesAllocation(l.maps, id);
    assert AllocationCount(l.log, id) == l.maps.generations[id] + 1;
    assert l.maps.Panes()[id].generation == l.maps.generations[id];
  }

  /** Such a run exists for every activation: its pane is released but the receipt is not logged, and
      the activation is given another pane. */
  lemma {:induction false} CleanupCanBeStranded(id: string, binding: Binding, pane: Pane, reason: string)
    returns (steps: seq<Step>)
    ensures var l := Run(FRESH_START, steps);
            && id in l.maps.pendingCleanups && id in l.maps.Panes()
            && l.maps.Panes()[id] != l.maps.pendingCleanups[id].pane
  {
    hide Run, Exec, Effect;
    var first := Allocating(id, binding, binding, pane);
    var cleanup := [Do(IntendCleanup(id, reason), true)] + [Do(Release([id]), true)] + [Do(Receipt(id), false)];
    var intend, publish := Do(IntendAllocation(id, binding, None), true), Do(PublishPane(id, pane), true);
    steps := first + cleanup + [intend] + [publish];
    AllocationRuns(FRESH_START, id, binding, binding, pane);
    Reachable(first);
    RunAppend(FRESH_START, first, cleanup);
    CleanupStops(Run(FRESH_START, first), id, reason);
    var l := Run(FRESH_START, first + cleanup);
    RunOneMore(FRESH_START, first + cleanup, intend);
    RunOneMore(FRESH_START, first + cleanup + [intend], publish);
    CommitIntent(l, id, binding, None, true);
    CommitPublish(Exec(l, intend), id, pane, true);
  }

  lemma CleanupStops(l: Live, id: string, reason: string)
    requires Keyed(l.maps) && l.eventCount == |l.log| && |l.log| + 2 <= U64_MAX
    requires id in l.maps.Panes() && id !in l.maps.pendingCleanups && id !in l.maps.pendingAllocations
    ensures var pane := l.maps.Panes()[id];
            var l' := Run(l, [Do(IntendCleanup(id, reason), true)] + [Do(Release([id]), true)]
                             + [Do(Receipt(id), false)]);
            && l'.eventCount == |l'.log| == |l.log| + 2
            && l'.maps.pendingCleanups == l.maps.pendingCleanups[id := CleanupIntent(id, pane.generation, pane, reason)]
            && id !in l'.maps.Panes() && l'.maps.generations == l.maps.generations
            && l'.maps.pendingAllocations == l.maps.pendingAllocations
            && l'.maps.tmux.Some? && l'.maps.tmux.value.binding == l.maps.tmux.value.binding
  {
    hide Run, Exec, Effect, ReleaseEffect, ReleasedBarriers;
    var intend, release := Do(IntendCleanup(id, reason), true), Do(Release([id]), true);
    var receipt := Do(Receipt(id), false);
    RunNothing(l);
    RunOneMore(l, [], intend);
    RunOneMore(l, [] + [intend], release);
    RunOneMore(l, [] + [intend] + [release], receipt);
    assert [intend] + [release] + [receipt] == [] + [intend] + [release] + [receipt];
    CommitCleanup(l, id, reason, true);
    var l1 := Exec(l, intend);
    CommitRelease(l1, [id], true);
    ReleaseKeepsRest(l1.maps, [id], |l1.log| + 1);
    ReleaseKeepsBinding(l1.maps, [id], |l1.log| + 1);
    assert id in ElementsOf([id]);
    var l2 := Exec(l1, release);
    CommitCleanup(l2, id, reason, false);
  }

  lemma ReleaseKeepsBinding(s: DriverMaps, ids: seq<string>, sequence: nat)
    requires Keyed(s) && s.tmux.Some?
    ensures var s' := ReleaseEffect(s, ids, sequence); s'.tmux.Some? && s'.tmux.value.binding == s.tmux.value.binding
  {
    ReleaseReplays(s, ids, sequence);
  }
}
