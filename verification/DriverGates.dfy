/** The gates of the driver over whole runs: which inputs a release reopens, what an operator's answer does
    to the gate of its input, and that no prompt comes before the submission of its launch. */
module DriverGates {
  import opened Base
  import opened Delivery
  import opened DriverLog
  import opened DriverSteps
  import opened DriverInvariants
  import opened DriverPreservation
  import opened DriverBarriers
  import opened DriverAllocations
  import opened DriverRuns
  import opened DriverTheorems
  import opened DriverCleanups

  /** The delivery under the key is the submitted launch or prompt of a pane that is to be released. */
  predicate IsReleasedInput(s: DriverMaps, ids: seq<string>, key: Key) {
    && key in s.submitted
    && exists id <- ids :: id in s.Panes() && key in InputKeys(id, s.Panes()[id].generation)
  }

  /** The two inputs of an allocation. */
  function InputKeys(id: string, generation: nat): set<Key> {
    {DeliveryKey(id, AgentLaunch, None, generation), DeliveryKey(id, NodePrompt, None, generation)}
  }

  /** Every submitted launch or prompt of the panes named is an open barrier again, with the reason for it, and
      no other entry has changed. */
  ghost predicate Reopens(s: DriverMaps, s': DriverMaps, ids: seq<string>) {
    && (forall key :: IsReleasedInput(s, ids, key) ==>
          && key in s'.ambiguous && key !in s'.submitted
          && s'.ambiguous[key] == Ambiguous(s.submitted[key], PaneReleasedAfterSubmission))
    && (forall key :: !IsReleasedInput(s, ids, key) ==>
          && (key in s'.ambiguous <==> key in s.ambiguous) && (key in s'.submitted <==> key in s.submitted)
          && (key in s.ambiguous ==> s'.ambiguous[key] == s.ambiguous[key])
          && (key in s.submitted ==> s'.submitted[key] == s.submitted[key]))
  }

  lemma {:induction false} BarrierKeysAppend(a: seq<Payload>, b: seq<Payload>, sequence: nat)
    ensures BarrierKeySet(a + b, sequence) == BarrierKeySet(a, sequence) + BarrierKeySet(b, sequence)
  {
    if b == [] {
      assert a + b == a;
    } else {
      BarrierKeysAppend(a, b[..|b| - 1], sequence);
      assert (a + b)[..|a + b| - 1] == a + b[..|b| - 1];
    }
  }

  lemma RoleBarrierKeys(s: DriverMaps, id: string, role: Role, sequence: nat)
    requires Keyed(s) && role in {AgentLaunch, NodePrompt}
    ensures BarrierKeySet(RoleBarrier(s, id, role), sequence)
         == if id !in s.Panes() then {}
            else (set key | key in s.submitted && key == DeliveryKey(id, role, None, s.Panes()[id].generation))
  {
    hide RoleKey;
    if id in s.Panes() {
      var key := DeliveryKey(id, role, None, s.Panes()[id].generation);
      if key in s.submitted {
        var d := s.submitted[key];
        assert KeyedAs(key, d);
        DeliveryKeyInjective(id, role, None, s.Panes()[id].generation, d.activationId, d.role, d.messageId,
                             d.generation);
        var barrier := ReleasedPayload(d);
        assert RoleBarrier(s, id, role) == [barrier];
        assert [barrier][..0] == [];
        assert KeyOf(FromPayload(barrier, sequence).delivery) == key;
        assert BarrierKeySet([barrier], sequence) == BarrierKeySet([], sequence) + {key};
      }
    }
  }

  lemma {:induction false} ReleasedKeys(s: DriverMaps, ids: seq<string>, sequence: nat)
    requires Keyed(s)
    ensures forall key :: key in BarrierKeySet(ReleasedBarriers(s, ids), sequence) <==> IsReleasedInput(s, ids, key)
  {
    hide RoleKey, RoleBarrier, Keyed;
    if ids != [] {
      var front, id := ids[..|ids| - 1], ids[|ids| - 1];
      assert ids == front + [id];
      ReleasedKeys(s, front, sequence);
      RoleBarrierKeys(s, id, AgentLaunch, sequence);
      RoleBarrierKeys(s, id, NodePrompt, sequence);
      var launch, prompt := RoleBarrier(s, id, AgentLaunch), RoleBarrier(s, id, NodePrompt);
      BarrierKeysAppend(ReleasedBarriers(s, front), launch, sequence);
      BarrierKeysAppend(ReleasedBarriers(s, front) + launch, prompt, sequence);
      forall key
        ensures IsReleasedInput(s, ids, key)
           <==> IsReleasedInput(s, front, key)
                || (key in s.submitted && id in s.Panes() && key in InputKeys(id, s.Panes()[id].generation))
      {
        OneMoreReleased(s, front, id, key);
      }
    }
  }

  lemma OneMoreReleased(s: DriverMaps, front: seq<string>, id: string, key: Key)
    ensures IsReleasedInput(s, front + [id], key)
       <==> IsReleasedInput(s, front, key)
            || (key in s.submitted && id in s.Panes() && key in InputKeys(id, s.Panes()[id].generation))
  {
    hide InputKeys;
    assert forall x :: x in front + [id] <==> x in front || x == id;
  }

  lemma ReopenedReopens(s: DriverMaps, s': DriverMaps, keys: set<Key>, ids: seq<string>)
    requires keys <= s.submitted.Keys && s.ambiguous.Keys !! s.submitted.Keys
    requires s'.ambiguous == Reopened(s, keys).ambiguous && s'.submitted == Reopened(s, keys).submitted
    requires forall key :: key in keys <==> IsReleasedInput(s, ids, key)
    ensures Reopens(s, s', ids)
  {
    hide IsReleasedInput;
  }

  /** A release reopens exactly the submitted inputs of the panes it names. */
  lemma {:induction false} ReleaseReopens(s: DriverMaps, ids: seq<string>, sequence: nat)
    requires Keyed(s)
    ensures Reopens(s, ReleaseEffect(s, ids, sequence), ids)
  {
    hide IsReleasedInput, BarrierKeySet, ReleasedBarriers, Keyed, Reopens, Reopened;
    ReleasedKeys(s, ids, sequence);
    BarriersAreSubmissions(s, ids, sequence);
    BothReopen(s, ReleasedBarriers(s, ids), sequence);
    KeyedApart(s);
    ReopenedReopens(s, ReleaseEffect(s, ids, sequence), BarrierKeySet(ReleasedBarriers(s, ids), sequence), ids);
  }

  lemma KeyedApart(s: DriverMaps)
    requires Keyed(s)
    ensures s.ambiguous.Keys !! s.submitted.Keys
  {
  }

  /** In every run, a release does so in memory and in what a restart would rebuild. */
  lemma {:induction false} ReleasedInputsAreReopened(steps: seq<Step>, ids: seq<string>)
    requires var l := Run(FRESH_START, steps); Enabled(l.maps, Release(ids)) && |l.log| < U64_MAX
    ensures var l := Run(FRESH_START, steps);
            var l' := Exec(l, Do(Release(ids), true));
            Reopens(l.maps, l'.maps, ids) && Reopens(l.maps, Replay(l'.log), ids)
  {
    hide Run, Exec, Enabled, ReleaseEffect, Reopens;
    var l, release := Run(FRESH_START, steps), Do(Release(ids), true);
    Reachable(steps);
    CommitRelease(l, ids, true);
    ReleaseReopens(l.maps, ids, |l.log| + 1);
    RunOneMore(FRESH_START, steps, release);
    LiveEqualsReplay(steps + [release]);
    SameBarriersReopen(l.maps, Exec(l, release).maps, Replay(Exec(l, release).log), ids);
  }

  lemma SameBarriersReopen(s: DriverMaps, s': DriverMaps, r: DriverMaps, ids: seq<string>)
    requires Reopens(s, s', ids) && r.ambiguous == s'.ambiguous && r.submitted == s'.submitted
    ensures Reopens(s, r, ids)
  {
  }

  /** The operation that would start the delivery again. */
  function StartOf(d: Submitted): Op
    requires WellRoled(d.role, d.messageId)
  {
    match d.role
    case AgentLaunch => StartLaunch(d.activationId, d.payloadHash)
    case NodePrompt => StartPrompt(d.activationId, d.payloadHash)
    case ParticipantMessage => StartMessage(d.activationId, d.messageId.value, d.payloadHash)
  }

  predicate OwnsItsPane(s: DriverMaps, d: Submitted) {
    d.activationId in s.Panes() && s.Panes()[d.activationId].generation == d.generation
  }

  /** A launch may be started until one is submitted, a prompt from then on until it is settled; a message has
      no gate but its id. */
  predicate GateOpen(s: DriverMaps, d: Submitted) {
    var allocation := (d.activationId, d.generation);
    match d.role
    case AgentLaunch => allocation !in s.settled && allocation !in s.launched
    case NodePrompt => allocation !in s.settled && allocation in s.launched
    case _ => true
  }

  lemma ResolutionOpensGate(s: DriverMaps, key: Key)
    requires Keyed(s) && MessagesUnique(s) && key in s.ambiguous
    requires OwnsItsPane(s, s.ambiguous[key].delivery)
    ensures var d := s.ambiguous[key].delivery;
            && WellRoled(d.role, d.messageId)
            && (Enabled(Discarded(s, key), StartOf(d)) <==> GateOpen(s, d))
  {
    hide RoleKey;
    var d := s.ambiguous[key].delivery;
    assert KeyedAs(key, d);
    if d.role == ParticipantMessage {
      var s' := Discarded(s, key);
      assert Filed(s, key, d);
      assert forall k <- s'.ambiguous :: Filed(s, k, s'.ambiguous[k].delivery);
      assert forall k <- s'.submitted :: Filed(s, k, s'.submitted[k]);
    }
  }

  /** The maps without the barrier under the key. */
  function Discarded(s: DriverMaps, key: Key): DriverMaps {
    s.(ambiguous := Without(s.ambiguous, {key}), submitted := Without(s.submitted, {key}))
  }

  lemma ResolutionShutsGate(s: DriverMaps, key: Key)
    requires Keyed(s) && key in s.ambiguous && OwnsItsPane(s, s.ambiguous[key].delivery)
    ensures var d := s.ambiguous[key].delivery;
            && WellRoled(d.role, d.messageId) && key == KeyOf(d)
            && !Enabled(FinishEffect(s, d.activationId, d.role, d.messageId, d.generation), StartOf(d))
  {
    hide RoleKey;
    var d := s.ambiguous[key].delivery;
    assert KeyedAs(key, d);
    if d.role == ParticipantMessage {
      var s' := FinishEffect(s, d.activationId, d.role, d.messageId, d.generation);
      assert key in s'.submitted && s'.submitted[key] == d;
    }
  }

  /** In every run, after an operator's "not submitted" the same input can be started again on the pane that is
      still owned, if and only if its gate was open; after "submitted" it cannot. */
  lemma {:induction false} ResolutionDecides(steps: seq<Step>, key: Key, wasSubmitted: bool)
    requires var l := Run(FRESH_START, steps);
             key in l.maps.ambiguous && OwnsItsPane(l.maps, l.maps.ambiguous[key].delivery) && |l.log| < U64_MAX
    ensures var l := Run(FRESH_START, steps);
            var d := l.maps.ambiguous[key].delivery;
            var l' := Exec(l, Do(ResolutionOf(l.maps, key, wasSubmitted), true));
            && WellRoled(d.role, d.messageId)
            && (Enabled(l'.maps, StartOf(d)) <==> !wasSubmitted && GateOpen(l.maps, d))
  {
    hide Run, Exec, Enabled, FinishEffect, GateOpen, MessagesUnique, CleanupsNamed, Inv, KeyOf, DeliveryKey, StartOf;
    var l := Run(FRESH_START, steps);
    Reachable(steps);
    InvCommits(l);
    RunKeepsExtra(steps);
    BarriersResolveUniquely(steps, key);
    ResolutionOpensGate(l.maps, key);
    ResolutionShutsGate(l.maps, key);
    var d := l.maps.ambiguous[key].delivery;
    KeyIs(d);
    CommitDiscard(l, key, true);
    CommitFinish(l, d.activationId, d.role, d.messageId, d.generation, true);
  }

  lemma KeyIs(d: Submitted)
    ensures KeyOf(d) == DeliveryKey(d.activationId, d.role, d.messageId, d.generation)
  {
  }

  /** The submission of the allocation's launch is logged before position `n`. */
  ghost predicate LaunchLogged(log: seq<Record>, allocation: Allocation, n: nat) {
    exists j :: 0 <= j < n && j < |log| && SubmitsLaunch(log[j].event, allocation)
  }

  predicate SubmitsLaunch(event: Event, allocation: Allocation) {
    event.LaunchSubmitted? && (event.activationId, event.deliveryGeneration) == allocation
  }

  ghost predicate PromptsFollow(log: seq<Record>) {
    forall i :: StartedAt(log, i) && DeliveryAt(log, i).role == NodePrompt ==>
      LaunchLogged(log, (DeliveryAt(log, i).activationId, DeliveryAt(log, i).generation), i)
  }

  ghost predicate LaunchesLogged(log: seq<Record>, launched: set<Allocation>) {
    forall a <- launched :: LaunchLogged(log, a, |log|)
  }

  lemma LaunchStaysLogged(log: seq<Record>, record: Record, allocation: Allocation, n: nat, m: nat)
    requires LaunchLogged(log, allocation, n) && n <= m
    ensures LaunchLogged(log + [record], allocation, m)
  {
    var j :| 0 <= j < n && j < |log| && SubmitsLaunch(log[j].event, allocation);
    assert (log + [record])[j] == log[j];
  }

  /** What an operation adds to the launched allocations. */
  lemma EffectLaunches(s: DriverMaps, op: Op, sequence: nat)
    requires Enabled(s, op) && Keyed(s)
    ensures Effect(s, op, sequence).launched
         <= s.launched + (if op.Finish? && !op.messageId.Some? then {(op.activationId, op.generation)} else {})
  {
    if op.Release? {
      assert op.activationIds[0] in s.Panes();
      ReleaseKeepsRest(s, op.activationIds, sequence);
    }
  }

  /** A launch that is finished logs its submission; a prompt that is finished was started behind one. */
  lemma FinishedLaunchIsLogged(l: Live, op: Op)
    requires Inv(l) && PromptsFollow(l.log) && Enabled(l.maps, op) && op.Finish? && op.messageId.None?
    ensures LaunchLogged(l.log + [Logged(l, op)], (op.activationId, op.generation), |l.log| + 1)
  {
    hide Inv, PromptsFollow, LaunchLogged, DeliveryKey, Logged, Traced, DeliveryAt;
    var log, record := l.log, Logged(l, op);
    InvTraces(l);
    FinishNames(l.maps, op);
    if op.role == AgentLaunch {
      FinishLogsLaunch(l, op);
      LastSubmits(log, record, (op.activationId, op.generation));
    } else {
      var d := l.maps.ambiguous[DeliveryKey(op.activationId, op.role, op.messageId, op.generation)].delivery;
      TracedPromptFollows(log, d);
      LaunchStaysLogged(log, record, (op.activationId, op.generation), d.startedSeq - 1, |log| + 1);
    }
  }

  lemma InvTraces(l: Live)
    requires Inv(l)
    ensures Keyed(l.maps) && forall k <- l.maps.ambiguous :: Traced(l.log, l.maps.ambiguous[k].delivery)
  {
  }

  lemma FinishNames(s: DriverMaps, op: Op)
    requires Keyed(s) && Enabled(s, op) && op.Finish? && op.messageId.None?
    ensures op.role == AgentLaunch || op.role == NodePrompt
    ensures var key := DeliveryKey(op.activationId, op.role, op.messageId, op.generation);
            key in s.ambiguous
            && var d := s.ambiguous[key].delivery;
               d.activationId == op.activationId && d.role == op.role && d.generation == op.generation
  {
    hide RoleKey;
    FiledGeneration(s, op.activationId, op.role, op.messageId, op.generation);
  }

  lemma FinishLogsLaunch(l: Live, op: Op)
    requires Keyed(l.maps) && Enabled(l.maps, op) && op.Finish? && op.messageId.None? && op.role == AgentLaunch
    ensures SubmitsLaunch(Logged(l, op).event, (op.activationId, op.generation))
  {
    hide DeliveryKey;
    FinishNames(l.maps, op);
  }

  lemma LastSubmits(log: seq<Record>, record: Record, allocation: Allocation)
    requires SubmitsLaunch(record.event, allocation)
    ensures LaunchLogged(log + [record], allocation, |log| + 1)
  {
    assert (log + [record])[|log|] == record;
  }

  lemma TracedPromptFollows(log: seq<Record>, d: Submitted)
    requires PromptsFollow(log) && Traced(log, d) && d.role == NodePrompt
    ensures 1 <= d.startedSeq <= |log| && LaunchLogged(log, (d.activationId, d.generation), d.startedSeq - 1)
  {
    hide LaunchLogged;
    assert StartedAt(log, d.startedSeq - 1);
  }

  lemma CommitKeepsFollowing(l: Live, op: Op)
    requires Inv(l) && PromptsFollow(l.log) && LaunchesLogged(l.log, l.maps.launched)
    requires Enabled(l.maps, op) && |l.log| < U64_MAX
    ensures PromptsFollow(Commit(l, op).log) && LaunchesLogged(Commit(l, op).log, Commit(l, op).maps.launched)
  {
    hide Enabled, EventOf, Effect, Inv, LaunchLogged;
    var log, record := l.log, Logged(l, op);
    var log', launched' := Commit(l, op).log, Commit(l, op).maps.launched;
    InvCommits(l);
    EffectLaunches(l.maps, op, |l.log| + 1);
    forall a | a in launched' ensures LaunchLogged(log', a, |log'|) {
      if a in l.maps.launched {
        LaunchStaysLogged(log, record, a, |log|, |log'|);
      } else {
        FinishedLaunchIsLogged(l, op);
      }
    }
    forall i | StartedAt(log', i) && DeliveryAt(log', i).role == NodePrompt
      ensures LaunchLogged(log', (DeliveryAt(log', i).activationId, DeliveryAt(log', i).generation), i)
    {
      if i < |log| {
        assert StartedAt(log, i) && DeliveryAt(log', i) == DeliveryAt(log, i);
        LaunchStaysLogged(log, record, (DeliveryAt(log, i).activationId, DeliveryAt(log, i).generation), i, i);
      } else {
        PromptsStartLaunched(l.maps, op);
        LaunchStaysLogged(log, record, (DeliveryAt(log', i).activationId, DeliveryAt(log', i).generation), |log|, i);
      }
    }
  }

  lemma InvCommits(l: Live)
    requires Inv(l)
    ensures Keyed(l.maps) && l.eventCount == |l.log| <= U64_MAX
  {
  }

  lemma PromptsStartLaunched(s: DriverMaps, op: Op)
    requires Enabled(s, op)
    ensures EventOf(s, op).DeliveryStarted? && EventOf(s, op).payload.role == NodePrompt ==>
              (EventOf(s, op).payload.activationId, EventOf(s, op).payload.generation) in s.launched
  {
    hide RoleKey;
  }

  lemma {:induction false} RunKeepsFollowing(steps: seq<Step>)
    ensures var l := Run(FRESH_START, steps); PromptsFollow(l.log) && LaunchesLogged(l.log, l.maps.launched)
  {
    hide Exec, Inv, PromptsFollow, LaunchesLogged;
    if steps == [] {
      FreshFollows();
    } else {
      var front, step := steps[..|steps| - 1], steps[|steps| - 1];
      RunKeepsFollowing(front);
      Reachable(front);
      ExecKeepsFollowing(Run(FRESH_START, front), step);
    }
  }

  lemma FreshFollows()
    ensures PromptsFollow(FRESH_START.log) && LaunchesLogged(FRESH_START.log, FRESH_START.maps.launched)
  {
  }

  lemma ExecKeepsFollowing(l: Live, step: Step)
    requires Inv(l) && PromptsFollow(l.log) && LaunchesLogged(l.log, l.maps.launched)
    ensures PromptsFollow(Exec(l, step).log) && LaunchesLogged(Exec(l, step).log, Exec(l, step).maps.launched)
  {
    hide Commit, PromptsFollow, LaunchLogged;
    match step {
      case Do(op, appendOk) => if Enabled(l.maps, op) && Appends(l, appendOk) { CommitKeepsFollowing(l, op); }
      case SettleHuman(id) =>
      case Restart => assert Replay(l.log).launched == l.maps.launched;
    }
  }

  /** In every run, whenever a prompt is started, the submission of a launch of the same allocation is in the log
      before it. */
  lemma {:induction false} PromptFollowsLaunch(steps: seq<Step>, i: nat)
    requires var log := Run(FRESH_START, steps).log; StartedAt(log, i) && DeliveryAt(log, i).role == NodePrompt
    ensures var log := Run(FRESH_START, steps).log;
            exists j :: 0 <= j < i && log[j].event.LaunchSubmitted?
                        && log[j].event.activationId == DeliveryAt(log, i).activationId
                        && log[j].event.deliveryGeneration == DeliveryAt(log, i).generation
  {
    RunKeepsFollowing(steps);
    var log := Run(FRESH_START, steps).log;
    assert LaunchLogged(log, (DeliveryAt(log, i).activationId, DeliveryAt(log, i).generation), i);
    var j :| 0 <= j < i && j < |log|
             && SubmitsLaunch(log[j].event, (DeliveryAt(log, i).activationId, DeliveryAt(log, i).generation));
  }
}
