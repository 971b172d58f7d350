/** Every step of the driver keeps the invariant: one lemma per conjunct. */
module DriverPreservation {
  import opened Base
  import opened Delivery
  import opened DriverLog
  import opened DriverSteps
  import opened DriverInvariants

  ghost predicate Commits(l: Live, op: Op) {
    Enabled(l.maps, op) && Numbered(l.log) && l.eventCount == |l.log| < U64_MAX
  }

  function Logged(l: Live, op: Op): Record
    requires Enabled(l.maps, op)
  {
    Record(SaturatingSucc(l.eventCount), EventOf(l.maps, op))
  }

  /** A released barrier is a submitted delivery of an owned pane, under its own key. */
  predicate BarrierOf(s: DriverMaps, barrier: Ambiguous) {
    var d := barrier.delivery;
    && KeyOf(d) in s.submitted && barrier == Ambiguous(s.submitted[KeyOf(d)], PaneReleasedAfterSubmission)
    && KeyOf(d) !in s.ambiguous
  }

  predicate BarriersOf(s: DriverMaps, barriers: seq<Payload>, eventSeq: nat) {
    forall b <- barriers :: BarrierOf(s, FromPayload(b, eventSeq))
  }

  lemma RoleBarrierIsSubmission(s: DriverMaps, id: string, role: Role, eventSeq: nat)
    requires Keyed(s) && (role == AgentLaunch || role == NodePrompt)
    ensures BarriersOf(s, RoleBarrier(s, id, role), eventSeq)
    ensures forall b <- RoleBarrier(s, id, role) :: b.activationId == id
  {
    if RoleBarrier(s, id, role) != [] {
      var generation := s.Panes()[id].generation;
      var d := s.submitted[DeliveryKey(id, role, None, generation)];
      assert KeyedAs(DeliveryKey(id, role, None, generation), d);
      DeliveryKeyInjective(id, role, None, generation, d.activationId, d.role, d.messageId, d.generation);
    }
  }

  lemma {:induction false} BarriersAreSubmissions(s: DriverMaps, ids: seq<string>, eventSeq: nat)
    requires Keyed(s)
    ensures BarriersOf(s, ReleasedBarriers(s, ids), eventSeq)
    ensures forall b <- ReleasedBarriers(s, ids) :: b.activationId in ids
  {
    if ids != [] {
      var id := ids[|ids| - 1];
      BarriersAreSubmissions(s, ids[..|ids| - 1], eventSeq);
      RoleBarrierIsSubmission(s, id, AgentLaunch, eventSeq);
      RoleBarrierIsSubmission(s, id, NodePrompt, eventSeq);
    }
  }

  /** The submitted deliveries under `keys` become ambiguous again. */
  function Reopened(s: DriverMaps, keys: set<Key>): DriverMaps
    requires keys <= s.submitted.Keys
  {
    s.(submitted := Without(s.submitted, keys),
       ambiguous := s.ambiguous + map k | k in keys :: Ambiguous(s.submitted[k], PaneReleasedAfterSubmission))
  }

  function BarrierKeySet(barriers: seq<Payload>, eventSeq: nat): set<Key> {
    if barriers == [] then {}
    else BarrierKeySet(barriers[..|barriers| - 1], eventSeq)
         + {KeyOf(FromPayload(barriers[|barriers| - 1], eventSeq).delivery)}
  }

  lemma ReopenOneMore(s: DriverMaps, keys: set<Key>, key: Key)
    requires keys <= s.submitted.Keys && key in s.submitted && key !in s.ambiguous
    ensures var before, d := Reopened(s, keys), Ambiguous(s.submitted[key], PaneReleasedAfterSubmission);
            && before.(submitted := Without(before.submitted, {key}), ambiguous := before.ambiguous[key := d])
               == Reopened(s, keys + {key})
            && (key in before.ambiguous ==> before.ambiguous == before.ambiguous[key := d])
  {
    var before, d := Reopened(s, keys), Ambiguous(s.submitted[key], PaneReleasedAfterSubmission);
    ReopenSubmitted(s.submitted, keys, key);
    ReopenAmbiguous(s.ambiguous, s.submitted, keys, key);
    assert key in before.ambiguous ==> before.ambiguous == before.ambiguous[key := d];
  }

  lemma ReopenSubmitted(submitted: map<Key, Submitted>, keys: set<Key>, key: Key)
    ensures Without(Without(submitted, keys), {key}) == Without(submitted, keys + {key})
  {
  }

  lemma ReopenAmbiguous(ambiguous: map<Key, Ambiguous>, submitted: map<Key, Submitted>, keys: set<Key>, key: Key)
    requires keys <= submitted.Keys && key in submitted
    ensures (ambiguous + map k | k in keys :: Ambiguous(submitted[k], PaneReleasedAfterSubmission))
              [key := Ambiguous(submitted[key], PaneReleasedAfterSubmission)]
         == ambiguous + map k | k in keys + {key} :: Ambiguous(submitted[k], PaneReleasedAfterSubmission)
  {
  }

  /** Keeping a barrier that is already there, as the running driver does, and overwriting it, as
      replay does, come to the same. */
  lemma {:induction false} BothReopen(s: DriverMaps, barriers: seq<Payload>, eventSeq: nat)
    requires BarriersOf(s, barriers, eventSeq)
    ensures BarrierKeySet(barriers, eventSeq) <= s.submitted.Keys
    ensures InstallBarriers(s, barriers, eventSeq) == Reopened(s, BarrierKeySet(barriers, eventSeq))
    ensures ReplayBarriers(s, barriers, eventSeq) == Reopened(s, BarrierKeySet(barriers, eventSeq))
  {
    if barriers == [] {
      assert Without(s.submitted, {}) == s.submitted;
      assert Reopened(s, {}).ambiguous == s.ambiguous;
    } else {
      var front, last := barriers[..|barriers| - 1], barriers[|barriers| - 1];
      BothReopen(s, front, eventSeq);
      assert BarrierOf(s, FromPayload(last, eventSeq));
      ReopenOneMore(s, BarrierKeySet(front, eventSeq), KeyOf(FromPayload(last, eventSeq).delivery));
    }
  }

  lemma ReleaseReplays(s: DriverMaps, ids: seq<string>, eventSeq: nat)
    requires Keyed(s)
    ensures BarriersOf(s, ReleasedBarriers(s, ids), eventSeq)
    ensures BarrierKeySet(ReleasedBarriers(s, ids), eventSeq) <= s.submitted.Keys
    ensures s.tmux.Some? ==>
              ReleaseEffect(s, ids, eventSeq)
              == Reopened(s, BarrierKeySet(ReleasedBarriers(s, ids), eventSeq)).Forget(ElementsOf(ids))
  {
    BarriersAreSubmissions(s, ids, eventSeq);
    BothReopen(s, ReleasedBarriers(s, ids), eventSeq);
  }

  lemma ReopenAgrees(s: DriverMaps, r: DriverMaps, human: set<Allocation>, carried: set<string>, keys: set<Key>)
    requires Agree(s, r, human, carried) && keys <= s.submitted.Keys
    ensures Agree(Reopened(s, keys), Reopened(r, keys), human, carried)
  {
  }

  lemma ForgetAgrees(s: DriverMaps, r: DriverMaps, human: set<Allocation>, carried: set<string>, ids: seq<string>)
    requires Agree(s, r, human, carried)
    ensures Agree(s.Forget(ElementsOf(ids)), r.Forget(ElementsOf(ids)), Forgotten(human, ids),
                  carried - ElementsOf(ids))
  {
    var gone := ElementsOf(ids);
    assert Without(Without(s.Panes(), carried), gone) == Without(Without(s.Panes(), gone), carried - gone);
  }

  lemma ReleaseAgrees(s: DriverMaps, r: DriverMaps, human: set<Allocation>, carried: set<string>,
                      ids: seq<string>, sequence: nat)
    requires Agree(s, r, human, carried) && s.tmux.Some?
    requires BarriersOf(s, ReleasedBarriers(s, ids), sequence)
    requires s.pendingAllocations.Keys !! ElementsOf(ids)
    ensures Agree(ReleaseEffect(s, ids, sequence),
                  Apply(r, Record(sequence, PanesReleased(ids, ReleasedBarriers(s, ids)))),
                  Forgotten(human, ids), carried - ElementsOf(ids))
  {
    var barriers, gone := ReleasedBarriers(s, ids), ElementsOf(ids);
    var keys := BarrierKeySet(barriers, sequence);
    BothReopen(s, barriers, sequence);
    ReopenAgrees(s, r, human, carried, keys);
    ForgetAgrees(Reopened(s, keys), Reopened(r, keys), human, carried, ids);
    assert Without(r.pendingAllocations, gone) == r.pendingAllocations;
    BothReopen(r.Forget(gone), barriers, sequence);
    assert Reopened(r.Forget(gone), keys) == Reopened(r, keys).Forget(gone);
  }

  lemma SubmissionAgrees(s: DriverMaps, r: DriverMaps, human: set<Allocation>, carried: set<string>, key: Key,
                         launched: set<Allocation>, settled: set<Allocation>)
    requires Agree(s, r, human, carried) && key in s.ambiguous
    ensures var s', r' := s.Submit(key), r.Submit(key);
            Agree(s'.(launched := s'.launched + launched, settled := s'.settled + settled),
                  r'.(launched := r'.launched + launched, settled := r'.settled + settled), human, carried)
  {
    var s', r' := s.Submit(key), r.Submit(key);
    assert s'.settled + settled == r'.settled + settled + human;
  }

  lemma FinishAgrees(s: DriverMaps, r: DriverMaps, human: set<Allocation>, carried: set<string>,
                     id: string, role: Role, messageId: Option<string>, generation: nat, sequence: nat)
    requires Agree(s, r, human, carried) && WellRoled(role, messageId)
    requires var key := DeliveryKey(id, role, messageId, generation);
             key in s.ambiguous && s.ambiguous[key].delivery.generation == generation
    ensures var key := DeliveryKey(id, role, messageId, generation);
            Agree(FinishEffect(s, id, role, messageId, generation),
                  Apply(r, Record(sequence, SubmissionEvent(id, role, messageId, s.ambiguous[key].delivery))),
                  human, carried)
  {
    var key := DeliveryKey(id, role, messageId, generation);
    match role {
      case ParticipantMessage => SubmissionAgrees(s, r, human, carried, key, {}, {});
      case AgentLaunch => SubmissionAgrees(s, r, human, carried, key, {(id, generation)}, {});
      case NodePrompt => SubmissionAgrees(s, r, human, carried, key, {(id, generation)}, {(id, generation)});
    }
  }

  lemma AllocationAgrees(s: DriverMaps, r: DriverMaps, human: set<Allocation>, carried: set<string>, op: Op,
                         sequence: nat)
    requires Agree(s, r, human, carried) && PendingKeyed(s)
    requires (op.IntendAllocation? || op.PublishPane?) && Enabled(s, op)
    ensures Agree(Effect(s, op, sequence), Apply(r, Record(sequence, EventOf(s, op))), human, carried)
  {
    if op.PublishPane? {
      var owned := op.pane.(generation := s.pendingAllocations[op.activationId].generation);
      var panes := s.Panes();
      assert op.activationId !in carried;
      assert Without(panes[op.activationId := owned], carried) == Without(panes, carried)[op.activationId := owned];
    }
  }

  lemma BindingAgrees(s: DriverMaps, r: DriverMaps, human: set<Allocation>, carried: set<string>, binding: Binding,
                      sequence: nat)
    requires Agree(s, r, human, carried)
    ensures Agree(s.(tmux := Some(Tmux(binding, map[]))), Apply(r, Record(sequence, TmuxBound(binding))), human, {})
    ensures Agree(s.(tmux := Some(Tmux(binding, s.Panes()))), Apply(r, Record(sequence, TmuxBound(binding))), human,
                  s.Panes().Keys)
  {
    assert Without(s.Panes(), s.Panes().Keys) == map[];
  }

  lemma CleanupAgrees(s: DriverMaps, r: DriverMaps, human: set<Allocation>, carried: set<string>, op: Op,
                      sequence: nat)
    requires Agree(s, r, human, carried) && PendingKeyed(s)
    requires (op.IntendCleanup? || op.Receipt?) && Enabled(s, op)
    ensures Agree(Effect(s, op, sequence), Apply(r, Record(sequence, EventOf(s, op))), human, carried)
  {
  }

  lemma StartAgrees(s: DriverMaps, r: DriverMaps, human: set<Allocation>, carried: set<string>, payload: Payload,
                    sequence: nat)
    requires Agree(s, r, human, carried)
    requires payload.startedSeq == None && payload.reason == SubmissionReceiptIncomplete
    ensures Agree(StartEffect(s, payload, sequence), Apply(r, Record(sequence, DeliveryStarted(payload))), human,
                  carried)
  {
  }

  lemma DiscardAgrees(s: DriverMaps, r: DriverMaps, human: set<Allocation>, carried: set<string>, key: Key,
                      d: Submitted, sequence: nat)
    requires Agree(s, r, human, carried)
    requires key in s.ambiguous && s.ambiguous[key].delivery == d && key == KeyOf(d)
    ensures Agree(s.(ambiguous := Without(s.ambiguous, {key}), submitted := Without(s.submitted, {key})),
                  Apply(r, Record(sequence, NotSubmitted(d.activationId, d.role, d.messageId, d.generation,
                                                         Some(d.startedSeq)))),
                  human, carried)
  {
  }

  /** What is filed under a delivery key is that delivery. */
  lemma FiledGeneration(s: DriverMaps, id: string, role: Role, messageId: Option<string>, generation: nat)
    requires Keyed(s) && WellRoled(role, messageId)
    requires DeliveryKey(id, role, messageId, generation) in s.ambiguous
    ensures var d := s.ambiguous[DeliveryKey(id, role, messageId, generation)].delivery;
            d.activationId == id && d.role == role && d.messageId == messageId && d.generation == generation
  {
    var key := DeliveryKey(id, role, messageId, generation);
    var d := s.ambiguous[key].delivery;
    assert KeyedAs(key, d);
    DeliveryKeyInjective(id, role, messageId, generation, d.activationId, d.role, d.messageId, d.generation);
  }

  /** Memory and the interpreter go through the same change. */
  lemma {:induction false} StepAgrees(l: Live, r: DriverMaps, op: Op)
    requires Commits(l, op)
    requires Agree(l.maps, r, l.human, l.carried) && Keyed(l.maps) && PendingKeyed(l.maps)
    ensures var l' := Commit(l, op); Agree(l'.maps, Apply(r, Logged(l, op)), l'.human, l'.carried)
  {
    var s, human, carried, sequence := l.maps, l.human, l.carried, SaturatingSucc(l.eventCount);
    match op {
      case Release(ids) =>
        assert ids[0] in s.Panes();
        ReleaseReplays(s, ids, sequence);
        ReleaseAgrees(s, r, human, carried, ids, sequence);
      case Finish(id, role, messageId, generation) =>
        FiledGeneration(s, id, role, messageId, generation);
        FinishAgrees(s, r, human, carried, id, role, messageId, generation, sequence);
      case Discard(key) =>
        assert KeyedAs(key, s.ambiguous[key].delivery);
        DiscardAgrees(s, r, human, carried, key, s.ambiguous[key].delivery, sequence);
      case PublishPane(id, pane) => AllocationAgrees(s, r, human, carried, op, sequence);
      case IntendAllocation(id, binding, window) => AllocationAgrees(s, r, human, carried, op, sequence);
      case KeepBinding(binding) => BindingAgrees(s, r, human, carried, binding, sequence);
      case Bind(binding) => BindingAgrees(s, r, human, carried, binding, sequence);
      case IntendCleanup(id, reason) => CleanupAgrees(s, r, human, carried, op, sequence);
      case Receipt(id) => CleanupAgrees(s, r, human, carried, op, sequence);
      case StartLaunch(id, hash) =>
        StartAgrees(s, r, human, carried, StartPayload(s, id, AgentLaunch, None, hash), sequence);
      case StartPrompt(id, hash) =>
        StartAgrees(s, r, human, carried, StartPayload(s, id, NodePrompt, None, hash), sequence);
      case StartMessage(id, message, hash) =>
        StartAgrees(s, r, human, carried, StartPayload(s, id, ParticipantMessage, Some(message), hash), sequence);
      case LogOther =>
    }
  }
}
